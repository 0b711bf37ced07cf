/**
 * The registration persistence adapter: the lazily created app and Firestore
 * singletons, the document that is written for a registration, and the mapping
 * of Firestore error codes to user-facing messages.
 *
 * The Firebase SDK is not modelled: its app registry (`getApps`) is the field
 * `apps` of `FirebaseRuntime`, `initializeApp` appends one app to it, and
 * `addDoc` is a parameter from the instance and the document to the answer of
 * the write (`WriteOutcome`).
 */
module Firebase {
  import opened Wrappers

  /** An initialized app, named by its position in the SDK's registry. */
  datatype App = App(index: nat)

  /** The Firestore instance of an app. */
  datatype Firestore = Firestore(app: App)

  /** What the registration form hands over; times are instants of an abstract clock. */
  datatype RegistrationData = RegistrationData(
    fullName: string,
    email: string,
    phone: string,
    deliveryMethod: string,
    experienceLevel: string,
    careerGoals: string,
    courseId: string,
    courseTitle: string,
    submittedAt: int)

  /** The document written to the `registrations` collection. */
  datatype DocData = DocData(
    fullName: string,
    email: string,
    phone: string,
    deliveryMethod: string,
    experienceLevel: string,
    careerGoals: string,
    courseId: string,
    courseTitle: string,
    submittedAt: int,
    createdAt: int,
    status: string)

  /**
   * The answer of the write: a document id, or a thrown error whose `code` and
   * `message` are "" when absent (a thrown non-object has neither).
   */
  datatype WriteOutcome = Written(id: string) | WriteFailed(code: string, message: string)

  /** `{ success: true, id }` or `{ success: false, error }`. */
  datatype SubmitResult = Success(id: string) | Failure(error: string)

  const PendingStatus := "pending"
  const DefaultError := "Failed to submit. Please try again."
  const PermissionDeniedError :=
    "Database access denied. Please update Firestore security rules in Firebase Console to allow writes."
  const UnavailableError := "Database unavailable. Check your internet connection."
  const NotFoundError := "Database not found. Create Firestore database in Firebase Console first."

  /** The record read back from a stored document (the inverse of `BuildDocument` on the copied fields). */
  function StoredRegistration(d: DocData): RegistrationData {
    RegistrationData(d.fullName, d.email, d.phone, d.deliveryMethod, d.experienceLevel,
                     d.careerGoals, d.courseId, d.courseTitle, d.submittedAt)
  }

  /**
   * The document for `data` written at time `now`: the eight form and course
   * fields verbatim, both timestamps the write time, status pending.
   */
  function BuildDocument(data: RegistrationData, now: int): (d: DocData)
    ensures StoredRegistration(d) == data.(submittedAt := now)
    ensures d.createdAt == now && d.status == PendingStatus
  {
    DocData(data.fullName, data.email, data.phone, data.deliveryMethod, data.experienceLevel,
            data.careerGoals, data.courseId, data.courseTitle, now, now, PendingStatus)
  }

  /** The caller's `submittedAt` never reaches the store. */
  lemma BuildDocumentIgnoresCallerTime(data: RegistrationData, callerTime: int, now: int)
    ensures BuildDocument(data.(submittedAt := callerTime), now) == BuildDocument(data, now)
  {
    var d1 := BuildDocument(data.(submittedAt := callerTime), now);
    var d2 := BuildDocument(data, now);
    assert StoredRegistration(d1) == StoredRegistration(d2);
  }

  predicate IsKnownCode(code: string) {
    code == "permission-denied" || code == "unavailable" || code == "not-found"
  }

  /** The message for a failed write: a known code wins, then the error's message, then the default. */
  function ErrorMessage(code: string, message: string): (r: string)
    ensures r != ""
    ensures IsKnownCode(code) ==> r in {PermissionDeniedError, UnavailableError, NotFoundError}
    ensures !IsKnownCode(code) ==> (r == message <==> message != "")
    ensures !IsKnownCode(code) && message == "" ==> r == DefaultError
  {
    if code == "permission-denied" then PermissionDeniedError
    else if code == "unavailable" then UnavailableError
    else if code == "not-found" then NotFoundError
    else if message != "" then message
    else DefaultError
  }

  /** Each known code has its own message, and the error's message cannot override it. */
  lemma KnownCodesTakePrecedence(code: string, m1: string, m2: string)
    requires IsKnownCode(code)
    ensures ErrorMessage(code, m1) == ErrorMessage(code, m2)
    ensures code == "permission-denied" <==> ErrorMessage(code, m1) == PermissionDeniedError
    ensures code == "unavailable" <==> ErrorMessage(code, m1) == UnavailableError
    ensures code == "not-found" <==> ErrorMessage(code, m1) == NotFoundError
  {
  }

  /** The result returned for the write's outcome. */
  function ResultOf(outcome: WriteOutcome): (r: SubmitResult)
    ensures r.Success? <==> outcome.Written?
    ensures r.Success? ==> r.id == outcome.id
    ensures r.Failure? ==> r.error != "" && r.error == ErrorMessage(outcome.code, outcome.message)
  {
    match outcome
    case Written(id) => Success(id)
    case WriteFailed(code, message) => Failure(ErrorMessage(code, message))
  }

  /** The module-level singletons `firebaseApp` and `firestoreDb`, and the SDK's app registry. */
  class FirebaseRuntime {
    var apps: seq<App>
    var firebaseApp: Option<App>
    var firestoreDb: Option<Firestore>

    ghost predicate Valid()
      reads this
    {
      && (forall k :: 0 <= k < |apps| ==> apps[k] == App(k))
      && (firebaseApp.Some? ==> firebaseApp.value in apps)
      && (firestoreDb.Some? ==> firebaseApp.Some? && firestoreDb.value == Firestore(firebaseApp.value))
    }

    /** The app a lookup settles on: the cached one, else the first registered one, else a new one. */
    function LookupApp(): (r: App)
      requires Valid()
      reads this
      ensures r in LookupApps()
    {
      if firebaseApp.Some? then firebaseApp.value
      else if |apps| > 0 then apps[0]
      else App(|apps|)
    }

    /** The registry after a lookup: one app longer exactly when nothing was cached or registered. */
    function LookupApps(): (r: seq<App>)
      reads this
      ensures firebaseApp.Some? || |apps| > 0 ==> r == apps
      ensures firebaseApp.None? && |apps| == 0 ==> r == [App(0)]
    {
      if firebaseApp.None? && |apps| == 0 then apps + [App(|apps|)] else apps
    }

    /** Module load: nothing cached; `existing` apps may already be registered. */
    constructor (existing: nat)
      ensures Valid()
      ensures |apps| == existing && firebaseApp == None && firestoreDb == None
    {
      apps := seq(existing, (k: nat) => App(k));
      firebaseApp := None;
      firestoreDb := None;
    }

    /** The SDK's `initializeApp`: registers one new app. */
    method InitializeApp() returns (app: App)
      requires Valid()
      modifies this`apps
      ensures Valid()
      ensures apps == old(apps) + [app]
    {
      app := App(|apps|);
      apps := apps + [app];
    }

    method GetFirebaseApp() returns (app: App)
      requires Valid()
      modifies this
      ensures Valid()
      ensures firebaseApp == Some(app) && firestoreDb == old(firestoreDb)
      ensures old(firebaseApp).Some? ==> app == old(firebaseApp).value && apps == old(apps)
      ensures old(firebaseApp).None? && |old(apps)| > 0 ==> app == old(apps)[0] && apps == old(apps)
      ensures old(firebaseApp).None? && |old(apps)| == 0 ==> apps == [app]
      ensures app == old(LookupApp()) && apps == old(LookupApps())
    {
      if firebaseApp.Some? {
        return firebaseApp.value;
      }
      if |apps| > 0 {
        app := apps[0];
        firebaseApp := Some(app);
        return;
      }
      app := InitializeApp();
      firebaseApp := Some(app);
    }

    method GetFirestoreInstance() returns (db: Firestore)
      requires Valid()
      modifies this
      ensures Valid()
      ensures firestoreDb == Some(db) && firebaseApp.Some? && db == Firestore(firebaseApp.value)
      ensures old(firestoreDb).Some? ==> db == old(firestoreDb).value && unchanged(this)
      ensures firebaseApp == Some(old(LookupApp())) && db == Firestore(old(LookupApp()))
      ensures apps == old(LookupApps())
    {
      if firestoreDb.Some? {
        return firestoreDb.value;
      }
      var app := GetFirebaseApp();
      db := Firestore(app);
      firestoreDb := Some(db);
    }

    /**
     * `submitRegistration`: opens the store, builds the document for write time
     * `now`, hands it to the write into the instance's `registrations`
     * collection (`addDoc`, a parameter) and shapes its answer.
     */
    method SubmitRegistration(data: RegistrationData, now: int, addDoc: (Firestore, DocData) -> WriteOutcome)
      returns (result: SubmitResult, sent: DocData)
      requires Valid()
      modifies this
      ensures Valid()
      ensures old(firestoreDb).Some? ==> unchanged(this)
      ensures firebaseApp == Some(old(LookupApp())) && apps == old(LookupApps())
      ensures firestoreDb == Some(Firestore(old(LookupApp())))
      ensures sent == BuildDocument(data, now)
      ensures result == ResultOf(addDoc(Firestore(old(LookupApp())), sent))
    {
      var db := GetFirestoreInstance();
      sent := BuildDocument(data, now);
      result := ResultOf(addDoc(db, sent));
    }
  }

  /** Two lookups of the Firestore instance give the same instance and initialize at most one app. */
  method FirestoreInstanceIsStable(rt: FirebaseRuntime) returns (first: Firestore, second: Firestore)
    requires rt.Valid()
    modifies rt
    ensures first == second && first == Firestore(old(rt.LookupApp()))
    ensures rt.apps == old(rt.LookupApps()) && |rt.apps| <= |old(rt.apps)| + 1
  {
    first := rt.GetFirestoreInstance();
    second := rt.GetFirestoreInstance();
  }
}
