/**
 * Models backend/firebase_config.py; "lines" in the comments below refer to that file.
 *
 * The process-wide connection state: the globals `db`, `firebase_error` and
 * `firebase_initialized`, set once when the module is imported. What loading
 * the credential file and building the client does is an abstract outcome.
 */
module FirebaseConfig {
  import opened Wrappers
  import opened Firestore

  const ServiceAccountFile := "firebase-service-account.json"

  /** The exception raised while loading credentials or building the client. */
  datatype LoadError =
    | FileNotFound(message: string)
    | InvalidFormat(message: string)   // ValueError
    | Other(typeName: string, message: string)

  /** Outcome of lines 32-45 once the credential file was found to exist. */
  datatype LoadOutcome =
    /** reading the certificate, registering the app or building the client raised */
    | Raised(error: LoadError)
    /** the client was built and assigned to `db`; `laterError` is an
        exception raised after that assignment and before the return */
    | Built(laterError: Option<LoadError>)

  /** What `get_firebase_status` reports. */
  datatype Status = Status(initialized: bool, connected: bool, error: Option<string>)

  /** `os.path.join(directory, name)` on a POSIX path. */
  function JoinPath(directory: string, name: string): string {
    if directory == [] || directory[|directory| - 1] == '/' then directory + name
    else directory + "/" + name
  }

  /** The joined path is the directory, then the file name, with exactly one
      `/` between them when the directory is not empty. */
  lemma JoinPathParts(directory: string, name: string)
    ensures var p := JoinPath(directory, name);
      |directory| + |name| <= |p| && p[..|directory|] == directory && p[|p| - |name|..] == name &&
      (directory != [] ==> p[|p| - |name| - 1] == '/' && |p| - |name| - 1 <= |directory|)
  {
  }

  function MissingFileMessage(path: string): (m: string)
    ensures |m| > 0
  {
    "❌ Firebase service account file not found at: " + path
  }

  /** The message recorded for each kind of exception (lines 47-66). */
  function LoadErrorMessage(e: LoadError): (m: string)
    ensures |m| > 0
  {
    match e
    case FileNotFound(msg) => "❌ Firebase service account file not found: " + msg
    case InvalidFormat(msg) => "❌ Invalid Firebase service account file format: " + msg
    case Other(t, msg) => "❌ Error initializing Firebase: " + t + ": " + msg
  }

  /** True when the whole load succeeded. */
  predicate LoadSucceeds(fileExists: bool, load: LoadOutcome) {
    fileExists && load == Built(None)
  }

  /** The module's globals. */
  class Config {
    var db: Database?
    var firebaseError: Option<string>
    var firebaseInitialized: bool

    /** What the health endpoint relies on: initialised, client present and
        no error message are the same fact. */
    ghost predicate Consistent()
      reads this
    {
      (firebaseInitialized <==> db != null) && (db != null <==> firebaseError.None?)
    }

    /** Module import: the globals take their initial values (lines 9-12),
        then line 77 runs `db = initialize_firebase()`. */
    constructor Import(moduleDir: string, fileExists: bool, load: LoadOutcome, client: Database)
      ensures Consistent()
      ensures db == if LoadSucceeds(fileExists, load) then client else null
      ensures firebaseError.Some? ==> |firebaseError.value| > 0
    {
      db := null;
      firebaseError := None;
      firebaseInitialized := false;
      new;
      var r := InitializeFirebase(moduleDir, fileExists, load, client);
      db := r;
    }

    /** Lines 15-66. `fileExists` is the answer of `os.path.exists`; `load`
        what the credential and client calls did; `client` the object
        `firestore.client()` returns. */
    method InitializeFirebase(moduleDir: string, fileExists: bool, load: LoadOutcome, client: Database)
      returns (r: Database?)
      modifies this
      ensures r == if LoadSucceeds(fileExists, load) then client else null
      ensures firebaseInitialized <==> r != null
      ensures firebaseError.None? <==> r != null
      ensures !fileExists ==> firebaseError == Some(MissingFileMessage(JoinPath(moduleDir, ServiceAccountFile)))
      ensures fileExists && load.Raised? ==> firebaseError == Some(LoadErrorMessage(load.error))
      ensures fileExists && load.Built? && load.laterError.Some? ==>
                firebaseError == Some(LoadErrorMessage(load.laterError.value))
      ensures db == if fileExists && load.Built? then client else old(db)
    {
      var path := JoinPath(moduleDir, ServiceAccountFile);
      if !fileExists {
        firebaseError := Some(MissingFileMessage(path));
        firebaseInitialized := false;
        return null;
      }
      match load {
        case Raised(e) =>
          firebaseError := Some(LoadErrorMessage(e));
          firebaseInitialized := false;
          return null;
        case Built(later) =>
          db := client;
          if later.Some? {
            firebaseError := Some(LoadErrorMessage(later.value));
            firebaseInitialized := false;
            return null;
          }
          firebaseInitialized := true;
          firebaseError := None;
          return db;
      }
    }

    /** Lines 68-74: a read-only snapshot of the globals. */
    function GetFirebaseStatus(): (s: Status)
      reads this
      ensures s.connected <==> db != null
      ensures Consistent() ==> (s.initialized <==> s.connected) && (s.connected <==> s.error.None?)
    {
      Status(firebaseInitialized, db != null, firebaseError)
    }
  }
}
