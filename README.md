# Activation key manager — verified model

A Dafny model of the backend of the Taskify activation key manager: a small
FastAPI service over a Firestore collection `activation_keys` in which each
document is one issued activation key. The model covers

- the **record-store adapter** (`ActivationKeyManager` in
  `backend/key_manager.py`): listing the records whose customer name or
  e-mail starts with `girish` (ignoring case), and switching one record's
  `is_active` flag on or off, with every failure collapsed to `[]` or `False`;
- the **connection state** (`backend/firebase_config.py`): the globals `db`,
  `firebase_error` and `firebase_initialized`, set once when the module is
  imported, and the status snapshot read from them;
- the **HTTP decisions** (`backend/main.py`): what `/get-all-keys`,
  `/activate-key`, `/deactivate-key`, `/health` and `/test-firebase` answer
  (status code and JSON body), including the first-match classifier of
  connection errors.

Files and modules:

| file | module | models |
|---|---|---|
| `wrappers.dfy` | `Wrappers` | `Option` |
| `json.dfy` | `Json` | field values and JSON bodies |
| `firestore.dfy` | `Firestore` | the document store: ordered documents per collection, the partial update |
| `key_manager.dfy` | `KeyManager` | `backend/key_manager.py` |
| `firebase_config.dfy` | `FirebaseConfig` | `backend/firebase_config.py` |
| `endpoints.dfy` | `Endpoints` | `backend/main.py` |

How the source's state and effects appear in the model:

- The Firestore client is a `Database` object holding
  `collections: map<string, seq<Doc>>`. A collection's sequence is the order
  `stream()` yields; `Valid()` says ids are unique within a collection.
  `update()` writes only the named field and fails when the document does not
  exist (Firestore's `update` requires an existing document).
- Failures of remote calls are parameters: `fetchFails` (the stream raises),
  `fault` (the update raises), `Probe` (the trial read of `/test-firebase`),
  and `LoadOutcome` (what reading the credentials and building the client did
  at start-up).
- The adapter's `db` is passed to its constructor. In the source both
  `key_manager.py` and `main.py` import the same module-level `db`;
  `Service.Valid()` records that they are one object.
- Case folding is ASCII only. For the test "starts with `girish`" this agrees
  with Python's full `str.lower()`: the only non-ASCII characters that lower to
  an ASCII letter are U+0130 (to `i` plus a combining dot, which then breaks
  the next position) and U+212A (to `k`, which is not in the prefix). The
  error classifier of `/test-firebase` is unaffected for the same reason: none
  of its phrases contains `k`, and none ends in `i`, so a lowered U+0130 can
  only complete a phrase if the combining dot that follows it is also in the
  phrase, which it never is.

Behaviour worth noting:

- The filter prefix is the literal `girish` on line 27 of
  `backend/key_manager.py`.
- A byte-string name or e-mail does not fail at `.lower()` (line 24-25), only
  at `.startswith('girish')` (line 27), and the e-mail is tested only when the
  name does not match. So a record whose name spells `girish` is kept even
  when its e-mail is a byte string; any other record with a byte-string name
  or e-mail makes the whole listing `[]`.
- The list endpoint's "500 on unexpected error" branch cannot be reached: the
  adapter swallows every exception, so a failed read is a 200 with count 0.
  `Service.GetAllActivationKeys` proves the status is always 200 or 503.
- An activate/deactivate of a key with no document fails (Firestore rejects
  the update) and the endpoint answers 500. The adapter's `False` raises an
  `HTTPException` inside the `try`, which the handler's own
  `except Exception` catches and wraps again, so the 500's detail reads
  `Error activating key: 500: Failed to activate key`.
- When `key_manager` is `None` the activate/deactivate endpoints answer 500
  (the `AttributeError` is wrapped), while the list endpoint answers 503.

## Model

| member | source | states |
|---|---|---|
| `KeyManager.ActivationKeyManager.constructor` | backend/key_manager.py:5-6 | the adapter works on the collection `activation_keys` through the given client |
| `KeyManager.StampFields` | backend/key_manager.py:20-21 | about `Stamp`: the record carries `activation_key` equal to the document id, overwriting a stored field of that name; every other field passes through unchanged |
| `KeyManager.LoweredFieldMatches` | backend/key_manager.py:24-27 | about `LoweredField` and `PrefixTest`: `.lower()` fails exactly on a value that is neither text nor bytes (a missing field reads as `''`); the prefix test of the lowered value fails exactly on bytes, and on text holds exactly when the stored string spells the prefix in either case |
| `KeyManager.StartsWithLowerPrefix` | backend/key_manager.py:24-27 | lowercasing then testing the prefix equals testing each of the first six letters in either case |
| `KeyManager.KeepMeaning` | backend/key_manager.py:24-27 | about `Keep` and `EitherStartsWith`: the filter raises exactly when name or e-mail has no `lower()`, when the name is bytes, or when the name does not match and the e-mail is bytes; it keeps a record exactly when both fields can be lowered and the name spells `girish` in any case, or the name is text or missing and the e-mail spells it; a missing field never matches |
| `KeyManager.BytesFieldExamples` | backend/key_manager.py:24-27 | a byte-string e-mail is ignored once the name matches, and makes the filter raise otherwise; a byte-string name always makes it raise |
| `KeyManager.ActivationKeyManager.GetAllActivations` | backend/key_manager.py:8-34 | in terms of `Database.Stream` (line 16: the collection's documents in stream order, none when it does not exist) and `ListResult`: no client or a failed stream gives `[]`; otherwise all kept records in stream order, or `[]` when the filter raised on any document (never a partial list); each record has `activation_key`; keys are distinct over a valid store |
| `KeyManager.Matching` | backend/key_manager.py:16-30 | the loop's list has at most one record per streamed document, and every record carries `activation_key` |
| `KeyManager.MatchingSound` | backend/key_manager.py:19-28 | every listed record is the stamped record of a streamed document the filter keeps |
| `KeyManager.MatchingComplete` | backend/key_manager.py:19-28 | every document the filter keeps is listed |
| `KeyManager.MatchingPrefix` | backend/key_manager.py:16-30 | the listing of a prefix of the stream is a prefix of the listing (records are only appended) |
| `KeyManager.MatchingPosition` | backend/key_manager.py:16-30 | a kept document's record sits right after the records of the documents streamed before it |
| `KeyManager.MatchingOrder` | backend/key_manager.py:16-30 | kept documents appear in the order they were streamed |
| `KeyManager.KeysComeFromDocs` | backend/key_manager.py:20-21 | every listed `activation_key` is the id of a streamed document |
| `KeyManager.MatchingUniqueKeys` | backend/key_manager.py:19-28 | with unique document ids no activation key is listed twice |
| `KeyManager.ListResultKeys` | backend/key_manager.py:16-34 | about `ListResult` (the loop's list, or `[]` when the filter raised on any document): every record the adapter returns carries `activation_key`, and with unique document ids no key is returned twice |
| `KeyManager.ActivationKeyManager.DeactivateKey` | backend/key_manager.py:36-51 | no client gives `False`; otherwise `True` exactly when the update did not fail and the document exists, in which case only `is_active := false` on that document is written; on `False` the store is unchanged |
| `KeyManager.ActivationKeyManager.ActivateKey` | backend/key_manager.py:53-68 | as `DeactivateKey`, writing `is_active := true` |
| `KeyManager.StampAfterSetActive` | backend/key_manager.py:61-62 | writing `is_active` changes neither the filter's verdict nor any other field of the listed record |
| `KeyManager.ListedAfterSetActive` | backend/key_manager.py:61-62 | what one document contributes to the listing after the update is what it contributed before, with only the updated key's `is_active` changed |
| `KeyManager.ReadableAfterSetActive` | backend/key_manager.py:61-62 | an activate or deactivate never makes the listing start or stop failing |
| `KeyManager.MatchingAfterSetActive` | backend/key_manager.py:61-62 | after the update the kept records are the same, in the same order, with only the updated key's `is_active` changed |
| `KeyManager.ListAfterSetActive` | backend/key_manager.py:61-62 | the adapter's listing after an activate/deactivate is the earlier listing with only that key's `is_active` changed |
| `KeyManager.ActivateThenList` | backend/key_manager.py:61-62 | round trip: after activating a listed key the next listing shows its record with `is_active` true |
| `Firestore.SetField` | backend/key_manager.py:62 | the partial update changes one field of the document with that id; ids, order and all other documents are kept |
| `Firestore.SetFieldIdempotent` | backend/key_manager.py:61-64 | a second activate (or deactivate) of the same key leaves the store as the first left it |
| `Firestore.SetFieldKeepsIds` | backend/key_manager.py:61-64 | the update keeps the set of ids, so the document still exists and a second call succeeds again |
| `Firestore.Database.Update` | backend/key_manager.py:44-45 | the update succeeds exactly when it does not fail and the document exists; it writes the one field or nothing; ids stay unique |
| `FirebaseConfig.JoinPathParts` | backend/firebase_config.py:21 | about `JoinPath`: the credential path is the module's directory, then the file name, with one `/` between them |
| `FirebaseConfig.MissingFileMessage` | backend/firebase_config.py:22-24 | the error recorded for a missing credential file is non-empty |
| `FirebaseConfig.LoadErrorMessage` | backend/firebase_config.py:47-66 | the error recorded for each exception is non-empty |
| `FirebaseConfig.Config.InitializeFirebase` | backend/firebase_config.py:13-66 | returns the client exactly when the file exists and the load succeeds; initialised iff a client is returned iff no error is recorded; each failure records its own message; the inner `db` is set once the client is built, even if a later step raises |
| `FirebaseConfig.Config.Import` | backend/firebase_config.py:77 | after import `db` is the return value, and initialised iff `db` present iff no error |
| `FirebaseConfig.Config.GetFirebaseStatus` | backend/firebase_config.py:68-74 | reads only; connected iff `db` present; after import initialised, connected and "no error" agree |
| `Endpoints.Service.constructor` | backend/main.py:40-46 | `key_manager` is `None` exactly when its construction raised, and otherwise shares main's `db` |
| `Endpoints.Service.GetAllActivationKeys` | backend/main.py:61-91 | with `ListBody` (lines 81-85) for the 200 body: 503 when `db` is unset (checked first), 503 when `key_manager` is `None`, otherwise 200 with `success`, the adapter's list and `count` equal to its length; never 500 |
| `Endpoints.ToggleResponse` | backend/main.py:98-130 | 200 with `{success: true, message}` exactly when the adapter returned `True`; every other outcome is a 500 whose detail starts with the endpoint's error prefix |
| `Endpoints.Service.DeactivateActivationKey` | backend/main.py:93-110 | the answer is 200 exactly when a key manager exists, `db` is set, the update did not fail and the document exists; only then is `is_active := false` written |
| `Endpoints.Service.ActivateActivationKey` | backend/main.py:113-130 | as the deactivate endpoint, writing `is_active := true` |
| `Endpoints.Service.HealthCheck` | backend/main.py:132-155 | always answers; `healthy` iff initialised and connected; `firebase.error` and `warning` present exactly when degraded; after import, healthy iff `db` is present |
| `Endpoints.ContainsOccurs` | backend/main.py:187-193 | the substring search finds a phrase exactly when it occurs in the text |
| `Endpoints.CategoryPriority` | backend/main.py:187-198 | about `CategoryOf`: credentials phrases win over `permission`, which wins over `not found`; with none the error is generic |
| `Endpoints.DiagnoseFollowsRules` | backend/main.py:183-198 | `Diagnose` (the classifier with its messages and remedies) equals scanning an ordered table of (phrases, category, message, remedy) rules |
| `Endpoints.DiagnoseIgnoresCase` | backend/main.py:187-193 | the classification does not depend on the case of the error text |
| `Endpoints.DiagnoseNamesUnknownType` | backend/main.py:196-198 | the generic message names the exception's type |
| `Endpoints.DiagnoseJwtExample` | backend/main.py:187-189 | `invalid_grant: Invalid JWT Signature.` is classified as bad credentials |
| `Endpoints.ProbeBody` | backend/main.py:168-208 | `success` is true exactly when the trial read returned; on failure the body carries the error text, its type and the classifier's message and remedy |
| `Endpoints.Service.TestFirebaseConnection` | backend/main.py:157-208 | with `db` unset the answer is the fixed "not initialized" body `NotInitializedBody` (lines 162-166) whatever the store would say (no query); otherwise the trial read's body |

## Left out

- `backend/run_server.py` (process launch, uvicorn settings, signal handlers) and `frontend/src/App.jsx` (browser UI) are not part of this model.
- The `/shutdown` endpoint: a delayed task that sends SIGTERM to the process itself; concurrency and OS signalling.
- The `/` endpoint: a constant metadata body with no decision in it.
- CORS set-up, FastAPI routing and form parsing, logging and `print` output.
- Firestore and firebase_admin internals: credential parsing, `initialize_app`, `firestore.client()`, `stream()`, `limit(1)` and `update()` are reduced to the `Database` object and outcome parameters; a stream that fails part-way is one `fetchFails` flag, since any failure gives `[]`.
- Document ids are plain strings: the client library's own checks on ids (an empty id, a `/` read as a path separator) are not modelled.
- Exception texts (`str(e)`, `type(e).__name__`) are parameters; the model does not derive them from library exceptions.
- Concurrent requests and blocking network calls.
- Unicode case folding: lowering is ASCII only (see above for why the prefix test is unaffected).
- Endpoints.ProbeBody: on success the contract states only `success`; the fixed message and the `found N document(s)` text are in the body but not stated in the contract.
