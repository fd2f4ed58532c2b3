/**
 * Models backend/main.py; "lines" in the comments below refer to that file.
 *
 * The HTTP surface: what each endpoint answers, as a status code and a JSON
 * body, given the module state (`db`, `key_manager`, the connection globals)
 * and what the store calls do.
 */
module Endpoints {
  import opened Wrappers
  import opened Json
  import opened Firestore
  import opened KeyManager
  import opened FirebaseConfig

  /** An answer: a status code and a JSON body. A raised `HTTPException`
      becomes `{"detail": ...}` with its status; a returned dict is a 200. */
  datatype Response = Response(status: int, body: Value)

  function HttpError(status: int, detail: string): Response {
    Response(status, Object(map["detail" := Str(detail)]))
  }

  /** `str()` of an `HTTPException`: "<status>: <detail>". */
  function HttpExceptionText(status: nat, detail: string): string {
    NatToString(status) + ": " + detail
  }

  function DigitChar(d: nat): char
    requires d < 10
  {
    "0123456789"[d]
  }

  function NatToString(n: nat): string {
    if n < 10 then [DigitChar(n)] else NatToString(n / 10) + [DigitChar(n % 10)]
  }

  // ---------------------------------------------------------------------------
  // GET /get-all-keys

  const DbNotConnected := "Firebase database is not connected. Cannot retrieve activation keys."
  const ManagerNotInitialized := "Key manager is not initialized. Server configuration error."

  function ListBody(activations: seq<Fields>): Fields {
    map["success" := Bool(true),
        "activations" := Array(seq(|activations|, k requires 0 <= k < |activations| => Object(activations[k]))),
        "count" := Int(|activations|)]
  }

  // ---------------------------------------------------------------------------
  // POST /activate-key and POST /deactivate-key

  datatype Toggle = Activate | Deactivate {
    /** The adapter method the endpoint calls. */
    function MethodName(): string {
      match this
      case Activate => "activate_key"
      case Deactivate => "deactivate_key"
    }
    function SuccessMessage(): string {
      match this
      case Activate => "Activation key activated successfully"
      case Deactivate => "Activation key deactivated successfully"
    }
    function FailureDetail(): string {
      match this
      case Activate => "Failed to activate key"
      case Deactivate => "Failed to deactivate key"
    }
    function ErrorPrefix(): string {
      match this
      case Activate => "Error activating key: "
      case Deactivate => "Error deactivating key: "
    }
  }

  /** What the call into the adapter did: returned a boolean, or raised with
      the given text (calling a method on a `None` key manager). */
  datatype AdapterCall = Returned(ok: bool) | Threw(text: string)

  /** The text of the `AttributeError` raised when `key_manager` is `None`. */
  function NoAttributeText(t: Toggle): string {
    "'NoneType' object has no attribute '" + t.MethodName() + "'"
  }

  /** Lines 98-110 and 118-130. A false result raises an `HTTPException`
      inside the `try`, which the `except Exception` clause catches and
      wraps again, so it reaches the client as a 500 whose detail quotes it. */
  function ToggleResponse(t: Toggle, call: AdapterCall): (r: Response)
    ensures r.status == 200 <==> call == Returned(true)
    ensures r.status == 200 || r.status == 500
    ensures r.status == 200 ==>
      r.body == Object(map["success" := Bool(true), "message" := Str(t.SuccessMessage())])
    ensures r.status == 500 ==>
      r.body.Object? && "detail" in r.body.fields && r.body.fields["detail"].Str? &&
      StartsWith(r.body.fields["detail"].s, t.ErrorPrefix())
  {
    match call
    case Threw(text) => HttpError(500, t.ErrorPrefix() + text)
    case Returned(ok) =>
      if ok then Response(200, Object(map["success" := Bool(true), "message" := Str(t.SuccessMessage())]))
      else HttpError(500, t.ErrorPrefix() + HttpExceptionText(500, t.FailureDetail()))
  }

  // ---------------------------------------------------------------------------
  // GET /test-firebase: the connection-error classifier

  /** `sub` occurs in `s` starting at index `i`. */
  predicate OccursAt(s: string, sub: string, i: nat) {
    i + |sub| <= |s| && s[i..i + |sub|] == sub
  }

  /** `sub` occurs somewhere in `s` (Python's `sub in s`). */
  ghost predicate Occurs(s: string, sub: string) {
    exists i: nat :: OccursAt(s, sub, i)
  }

  /** The substring search the classifier runs: try each start position in turn. */
  function Contains(s: string, sub: string): bool
    decreases |s|
  {
    if StartsWith(s, sub) then true
    else if |s| <= |sub| then false
    else Contains(s[1..], sub)
  }

  lemma SliceOfTail(s: string, i: nat, n: nat)
    requires 1 <= i && i + n <= |s|
    ensures s[i..i + n] == s[1..][i - 1..i - 1 + n]
  {
  }

  /** The search finds `sub` exactly when it occurs. */
  lemma {:induction false} ContainsOccurs(s: string, sub: string)
    ensures Contains(s, sub) <==> Occurs(s, sub)
    decreases |s|
  {
    if StartsWith(s, sub) {
      assert OccursAt(s, sub, 0);
    } else if |s| <= |sub| {
      forall i: nat
        ensures !OccursAt(s, sub, i)
      {
        if i + |sub| <= |s| {
          assert i == 0 && s[..|sub|] == s[i..i + |sub|];
        }
      }
    } else {
      ContainsOccurs(s[1..], sub);
      forall i: nat | 1 <= i
        ensures OccursAt(s, sub, i) <==> OccursAt(s[1..], sub, i - 1)
      {
        if i + |sub| <= |s| {
          SliceOfTail(s, i, |sub|);
        }
      }
      if Occurs(s, sub) {
        var i: nat :| OccursAt(s, sub, i);
        assert i != 0;
        assert OccursAt(s[1..], sub, i - 1);
      }
      if Occurs(s[1..], sub) {
        var i: nat :| OccursAt(s[1..], sub, i);
        assert OccursAt(s, sub, i + 1);
      }
    }
  }

  datatype Category = InvalidCredentials | InsufficientPermissions | ProjectNotFound | ConnectionError

  datatype Diagnosis = Diagnosis(category: Category, message: string, solution: string)

  /** Lines 187-196: which known phrase the lowered error text contains,
      first match wins. */
  function CategoryOf(low: string): Category {
    if Contains(low, "invalid_grant") || Contains(low, "jwt signature") then InvalidCredentials
    else if Contains(low, "permission") then InsufficientPermissions
    else if Contains(low, "not found") then ProjectNotFound
    else ConnectionError
  }

  /** Lines 183-198: the message and the remedy reported for an error text;
      the generic message names the exception's type. */
  function Diagnose(details: string, typeName: string): Diagnosis {
    match CategoryOf(Lower(details))
    case InvalidCredentials =>
      Diagnosis(InvalidCredentials,
        "❌ Firebase credentials are invalid or expired (Invalid JWT Signature)",
        "Please update your firebase-service-account.json file with valid credentials from Firebase Console")
    case InsufficientPermissions =>
      Diagnosis(InsufficientPermissions,
        "❌ Firebase credentials don't have sufficient permissions",
        "Check your service account permissions in Firebase Console")
    case ProjectNotFound =>
      Diagnosis(ProjectNotFound,
        "❌ Firebase project or collection not found",
        "Verify your Firebase project ID and database settings")
    case ConnectionError =>
      Diagnosis(ConnectionError,
        "❌ Firebase connection error: " + typeName,
        "Check your network connection and Firebase credentials")
  }

  /** A reference reading of the classifier: an ordered table of
      (phrases, diagnosis) rules, scanned until one rule's phrase occurs. */
  datatype Rule = Rule(phrases: seq<string>, category: Category, message: string, solution: string)

  const Rules: seq<Rule> := [
    Rule(["invalid_grant", "jwt signature"], InvalidCredentials,
      "❌ Firebase credentials are invalid or expired (Invalid JWT Signature)",
      "Please update your firebase-service-account.json file with valid credentials from Firebase Console"),
    Rule(["permission"], InsufficientPermissions,
      "❌ Firebase credentials don't have sufficient permissions",
      "Check your service account permissions in Firebase Console"),
    Rule(["not found"], ProjectNotFound,
      "❌ Firebase project or collection not found",
      "Verify your Firebase project ID and database settings")
  ]

  ghost predicate AnyOccurs(s: string, phrases: seq<string>) {
    exists k :: 0 <= k < |phrases| && Occurs(s, phrases[k])
  }

  ghost function FirstMatch(rules: seq<Rule>, low: string, typeName: string): Diagnosis {
    if rules == [] then
      Diagnosis(ConnectionError,
        "❌ Firebase connection error: " + typeName,
        "Check your network connection and Firebase credentials")
    else if AnyOccurs(low, rules[0].phrases) then
      Diagnosis(rules[0].category, rules[0].message, rules[0].solution)
    else FirstMatch(rules[1..], low, typeName)
  }

  lemma AnyOccursOne(s: string, a: string)
    ensures AnyOccurs(s, [a]) <==> Occurs(s, a)
  {
    if Occurs(s, a) {
      assert [a][0] == a;
    }
  }

  lemma AnyOccursTwo(s: string, a: string, b: string)
    ensures AnyOccurs(s, [a, b]) <==> Occurs(s, a) || Occurs(s, b)
  {
    if Occurs(s, a) {
      assert [a, b][0] == a;
    }
    if Occurs(s, b) {
      assert [a, b][1] == b;
    }
  }

  /** The classifier agrees with the ordered rule table on every error text. */
  lemma DiagnoseFollowsRules(details: string, typeName: string)
    ensures Diagnose(details, typeName) == FirstMatch(Rules, Lower(details), typeName)
  {
    var low := Lower(details);
    ContainsOccurs(low, "invalid_grant");
    ContainsOccurs(low, "jwt signature");
    ContainsOccurs(low, "permission");
    ContainsOccurs(low, "not found");
    AnyOccursTwo(low, "invalid_grant", "jwt signature");
    AnyOccursOne(low, "permission");
    AnyOccursOne(low, "not found");
    var rest := Rules[1..];
    assert Rules[0].phrases == ["invalid_grant", "jwt signature"];
    assert rest[0] == Rules[1] && Rules[1].phrases == ["permission"];
    assert rest[1..][0] == Rules[2] && Rules[2].phrases == ["not found"];
    assert rest[1..][1..] == [];
    if Occurs(low, "invalid_grant") || Occurs(low, "jwt signature") {
      assert FirstMatch(Rules, low, typeName) == Diagnosis(Rules[0].category, Rules[0].message, Rules[0].solution);
    } else {
      assert FirstMatch(Rules, low, typeName) == FirstMatch(rest, low, typeName);
      if !Occurs(low, "permission") {
        assert FirstMatch(rest, low, typeName) == FirstMatch(rest[1..], low, typeName);
        if !Occurs(low, "not found") {
          assert FirstMatch(rest[1..], low, typeName) == FirstMatch(rest[1..][1..], low, typeName);
        }
      }
    }
  }

  lemma LowerIdempotent(s: string)
    ensures Lower(Lower(s)) == Lower(s)
  {
  }

  /** The phrases are matched regardless of case. */
  lemma DiagnoseIgnoresCase(details: string, typeName: string)
    ensures Diagnose(Lower(details), typeName) == Diagnose(details, typeName)
  {
    LowerIdempotent(details);
  }

  /** Credential phrases take priority over the permission phrase, which takes
      priority over "not found"; with none of them the error is generic. */
  lemma CategoryPriority(low: string)
    ensures CategoryOf(low) == InvalidCredentials <==> Occurs(low, "invalid_grant") || Occurs(low, "jwt signature")
    ensures CategoryOf(low) == InsufficientPermissions <==>
      !Occurs(low, "invalid_grant") && !Occurs(low, "jwt signature") && Occurs(low, "permission")
    ensures CategoryOf(low) == ProjectNotFound <==>
      !Occurs(low, "invalid_grant") && !Occurs(low, "jwt signature") && !Occurs(low, "permission") &&
      Occurs(low, "not found")
    ensures CategoryOf(low) == ConnectionError <==>
      !Occurs(low, "invalid_grant") && !Occurs(low, "jwt signature") && !Occurs(low, "permission") &&
      !Occurs(low, "not found")
  {
    ContainsOccurs(low, "invalid_grant");
    ContainsOccurs(low, "jwt signature");
    ContainsOccurs(low, "permission");
    ContainsOccurs(low, "not found");
  }

  /** When no phrase matches, the answer names the exception's type. */
  lemma DiagnoseNamesUnknownType(details: string, typeName: string)
    requires Diagnose(details, typeName).category == ConnectionError
    ensures Diagnose(details, typeName).message == "❌ Firebase connection error: " + typeName
  {
  }

  /** An error text naming an invalid JWT signature in upper case is
      classified as a credentials problem. */
  lemma DiagnoseJwtExample()
    ensures Diagnose("invalid_grant: Invalid JWT Signature.", "RefreshError").category == InvalidCredentials
  {
    var low := Lower("invalid_grant: Invalid JWT Signature.");
    assert low[..13] == "invalid_grant";
  }

  /** What the trial read did: fetched some documents, or raised. */
  datatype Probe = Fetched(count: nat) | Failed(typeName: string, details: string)

  function NotInitializedBody(): Fields {
    map["success" := Bool(false),
        "message" := Str("❌ Firebase is not initialized"),
        "error" := Str("Firebase database client is None")]
  }

  /** Lines 168-208: the answer once a client exists. */
  function ProbeBody(p: Probe): (body: Fields)
    ensures "success" in body && body["success"] == Bool(p.Fetched?)
    ensures p.Failed? ==>
      "error" in body && "error_type" in body && "message" in body && "solution" in body &&
      body["error"] == Str(p.details) && body["error_type"] == Str(p.typeName) &&
      body["message"] == Str(Diagnose(p.details, p.typeName).message) &&
      body["solution"] == Str(Diagnose(p.details, p.typeName).solution)
  {
    match p
    case Fetched(n) =>
      map["success" := Bool(true),
          "message" := Str("✅ Firebase connection is working!"),
          "test_result" := Str("Successfully queried database (found " + NatToString(n) + " document(s) in test)")]
    case Failed(typeName, details) =>
      var d := Diagnose(details, typeName);
      map["success" := Bool(false),
          "message" := Str(d.message),
          "error" := Str(details),
          "error_type" := Str(typeName),
          "solution" := Str(d.solution)]
  }

  // ---------------------------------------------------------------------------
  // The application object

  const HealthyText := "healthy"
  const DegradedText := "degraded"
  const WarningText := "Database operations will fail until Firebase is properly configured"

  /** The JSON form of `firebase_error`. */
  function ErrorJson(e: Option<string>): Value {
    match e
    case None => Null
    case Some(m) => Str(m)
  }

  /** main.py's module state: the connection globals, the `db` it imported,
      and `key_manager`, which is `None` when constructing it raised. */
  class Service {
    const config: Config
    const db: Database?
    const keyManager: ActivationKeyManager?

    ghost predicate Valid()
      reads this
    {
      keyManager != null ==> keyManager.db == db && keyManager.collectionName == CollectionName
    }

    /** Lines 6 and 41-46. */
    constructor (config: Config, managerRaises: bool)
      ensures this.config == config && db == config.db
      ensures keyManager == null <==> managerRaises
      ensures Valid()
    {
      this.config := config;
      db := config.db;
      if managerRaises {
        keyManager := null;
      } else {
        keyManager := new ActivationKeyManager(config.db);
      }
    }

    /** Lines 61-91. 503 without a client (checked first) or without a key
        manager; otherwise 200 with the adapter's list and its length. The
        adapter never raises, so the 500 branch is never taken: a failed
        read shows as 200 with count 0. */
    method GetAllActivationKeys(fetchFails: bool) returns (resp: Response)
      requires Valid()
      ensures db == null ==> resp == HttpError(503, DbNotConnected)
      ensures db != null && keyManager == null ==> resp == HttpError(503, ManagerNotInitialized)
      ensures db != null && keyManager != null ==>
        var activations := if fetchFails then [] else ListResult(db.Stream(CollectionName));
        resp.status == 200 && resp.body.Object? &&
        "success" in resp.body.fields && "count" in resp.body.fields && "activations" in resp.body.fields &&
        resp.body.fields["success"] == Bool(true) &&
        resp.body.fields["count"] == Int(|activations|) &&
        resp.body.fields["activations"] == Array(seq(|activations|, k requires 0 <= k < |activations| => Object(activations[k])))
      ensures resp.status == 200 || resp.status == 503
    {
      if db == null {
        return HttpError(503, DbNotConnected);
      }
      if keyManager == null {
        return HttpError(503, ManagerNotInitialized);
      }
      var activations := keyManager.GetAllActivations(fetchFails);
      resp := Response(200, Object(ListBody(activations)));
    }

    /** Lines 93-110. */
    method DeactivateActivationKey(key: string, fault: bool) returns (resp: Response)
      requires Valid()
      modifies db
      ensures resp == ToggleResponse(Deactivate,
        if keyManager == null then Threw(NoAttributeText(Deactivate))
        else Returned(db != null && !fault && HasDoc(old(db.Stream(CollectionName)), key)))
      ensures db != null ==> db.collections ==
                             if resp.status == 200
                             then old(db.collections)[CollectionName := SetField(old(db.Stream(CollectionName)), key, IsActiveField, Bool(false))]
                             else old(db.collections)
    {
      var call: AdapterCall;
      if keyManager == null {
        call := Threw(NoAttributeText(Deactivate));
      } else {
        var ok := keyManager.DeactivateKey(key, fault);
        call := Returned(ok);
      }
      resp := ToggleResponse(Deactivate, call);
    }

    /** Lines 113-130. */
    method ActivateActivationKey(key: string, fault: bool) returns (resp: Response)
      requires Valid()
      modifies db
      ensures resp == ToggleResponse(Activate,
        if keyManager == null then Threw(NoAttributeText(Activate))
        else Returned(db != null && !fault && HasDoc(old(db.Stream(CollectionName)), key)))
      ensures db != null ==> db.collections ==
                             if resp.status == 200
                             then old(db.collections)[CollectionName := SetField(old(db.Stream(CollectionName)), key, IsActiveField, Bool(true))]
                             else old(db.collections)
    {
      var call: AdapterCall;
      if keyManager == null {
        call := Threw(NoAttributeText(Activate));
      } else {
        var ok := keyManager.ActivateKey(key, fault);
        call := Returned(ok);
      }
      resp := ToggleResponse(Activate, call);
    }

    /** Lines 132-155: always answers (a 200); "healthy" exactly when the
        connection globals say initialised and connected, and the error and
        the warning are added exactly when they do not. */
    method HealthCheck() returns (response: Fields)
      ensures var healthy := config.firebaseInitialized && config.db != null;
        && "status" in response && "firebase" in response && "service" in response
        && response["status"] == Str(if healthy then HealthyText else DegradedText)
        && response["service"] == Str("Activation Key Manager")
        && ("warning" in response <==> !healthy)
        && (!healthy ==> response["warning"] == Str(WarningText))
        && response["firebase"].Object?
        && "initialized" in response["firebase"].fields && "connected" in response["firebase"].fields
        && "status" in response["firebase"].fields
        && response["firebase"].fields["status"] == Str(if healthy then "✅ Connected" else "❌ Disconnected")
        && response["firebase"].fields["initialized"] == Bool(config.firebaseInitialized)
        && response["firebase"].fields["connected"] == Bool(config.db != null)
        && ("error" in response["firebase"].fields <==> !healthy)
        && (!healthy ==> response["firebase"].fields["error"] == ErrorJson(config.firebaseError))
      ensures config.Consistent() ==> "status" in response && (response["status"] == Str(HealthyText) <==> config.db != null)
    {
      var status := config.GetFirebaseStatus();
      var isHealthy := status.initialized && status.connected;
      var firebase := map[
        "initialized" := Bool(status.initialized),
        "connected" := Bool(status.connected),
        "status" := Str(if isHealthy then "✅ Connected" else "❌ Disconnected")];
      response := map[
        "status" := Str(if isHealthy then HealthyText else DegradedText),
        "service" := Str("Activation Key Manager"),
        "firebase" := Object(firebase)];
      if !isHealthy {
        firebase := firebase["error" := ErrorJson(status.error)];
        response := response["firebase" := Object(firebase)];
        response := response["warning" := Str(WarningText)];
      }
    }

    /** Lines 157-208: without a client, fails at once whatever the store
        would have answered; otherwise reports the trial read's outcome. */
    method TestFirebaseConnection(probe: Probe) returns (body: Fields)
      ensures db == null ==> body == NotInitializedBody()
      ensures db != null ==> body == ProbeBody(probe)
      ensures "success" in body && body["success"] == Bool(db != null && probe.Fetched?)
    {
      if db == null {
        return NotInitializedBody();
      }
      body := ProbeBody(probe);
    }
  }
}
