/** The session store: the signed-in user held in memory, kept in step with
    the record JwtService persists. */
module AuthStore {
  import opened Wrappers
  import opened Types
  import JwtService

  /** The whole state a session operation touches: the in-memory user and
      the storage contents. */
  datatype Session = Session(user: Option<AuthRecord>, items: map<string, AuthRecord>)

  /** Memory and storage agree: the user is exactly what getAuth would return. */
  ghost predicate InStep(s: Session) {
    s.user == JwtService.StoredAuth(s.items)
  }

  /** HTTP status of the response that made the request fail. */
  const Unauthorized: int := 401

  function SetAuthSpec(s: Session, auth: AuthRecord): Session {
    Session(Some(auth), s.items[JwtService.StorageKey := auth])
  }

  function PurgeAuthSpec(s: Session): Session {
    Session(None, s.items - {JwtService.StorageKey})
  }

  function InitSpec(s: Session): Session {
    match JwtService.StoredAuth(s.items)
    case Some(auth) => SetAuthSpec(s, auth)
    case None => PurgeAuthSpec(s)
  }

  /** The response interceptor: a failure carrying status 401 purges the
      session; any other failure, including one without a response, leaves
      it alone. */
  function ResponseErrorSpec(s: Session, status: Option<int>): Session {
    if status == Some(Unauthorized) then PurgeAuthSpec(s) else s
  }

  lemma SetAuthInStep(s: Session, auth: AuthRecord)
    ensures InStep(SetAuthSpec(s, auth))
    ensures SetAuthSpec(s, auth).user == Some(auth)
    ensures forall k :: k in s.items && k != JwtService.StorageKey ==>
              k in SetAuthSpec(s, auth).items && SetAuthSpec(s, auth).items[k] == s.items[k]
  {
  }

  lemma PurgeAuthInStep(s: Session)
    ensures InStep(PurgeAuthSpec(s))
    ensures PurgeAuthSpec(s).user == None && JwtService.StorageKey !in PurgeAuthSpec(s).items
  {
  }

  /** Init restores the stored record, or records that there is none, and
      leaves the storage exactly as it found it. */
  lemma InitRestores(s: Session)
    ensures InStep(InitSpec(s))
    ensures InitSpec(s).items == s.items
    ensures InitSpec(s).user == JwtService.StoredAuth(s.items)
  {
    if JwtService.StorageKey in s.items {
      assert s.items[JwtService.StorageKey := s.items[JwtService.StorageKey]] == s.items;
    } else {
      assert s.items - {JwtService.StorageKey} == s.items;
    }
  }

  lemma {:induction false} InitIdempotent(s: Session)
    ensures InitSpec(InitSpec(s)) == InitSpec(s)
  {
    InitRestores(s);
    InitRestores(InitSpec(s));
  }

  /** After a 401 the session is signed out, in memory and in storage. */
  lemma UnauthorizedSignsOut(s: Session)
    ensures ResponseErrorSpec(s, Some(Unauthorized)).user == None
    ensures JwtService.StorageKey !in ResponseErrorSpec(s, Some(Unauthorized)).items
  {
  }

  class AuthStore {
    var user: Option<AuthRecord>
    const storage: JwtService.LocalStorage

    function State(): Session
      reads this, storage
    {
      Session(user, storage.items)
    }

    constructor (storage: JwtService.LocalStorage)
      ensures user == None && this.storage == storage
    {
      user := None;
      this.storage := storage;
    }

    /** setUser: changes the in-memory user only. */
    method SetUser(auth: Option<AuthRecord>)
      modifies this`user
      ensures State() == old(State()).(user := auth)
    {
      user := auth;
    }

    method GetUser() returns (auth: Option<AuthRecord>)
      ensures auth == user
    {
      auth := user;
    }

    /** Persists first, then sets the user. */
    method SetAuth(auth: AuthRecord)
      modifies storage, this`user
      ensures State() == SetAuthSpec(old(State()), auth)
    {
      JwtService.SetAuth(storage, auth);
      user := Some(auth);
    }

    /** Removes the stored record first, then clears the user. */
    method PurgeAuth()
      modifies storage, this`user
      ensures State() == PurgeAuthSpec(old(State()))
    {
      JwtService.RemoveAuth(storage);
      user := None;
    }

    method Init()
      modifies storage, this`user
      ensures State() == InitSpec(old(State()))
    {
      var auth := JwtService.GetAuth(storage);
      if auth.Some? {
        SetAuth(auth.value);
      } else {
        PurgeAuth();
      }
    }

    /** The application-wide response interceptor; `status` is the failed
        response's HTTP status, None when the failure carried no response. */
    method OnResponseError(status: Option<int>)
      modifies storage, this`user
      ensures State() == ResponseErrorSpec(old(State()), status)
    {
      if status.Some? && status.value == Unauthorized {
        PurgeAuth();
      }
    }
  }
}
