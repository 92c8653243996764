/** JwtService: the session record kept in the browser's localStorage under
    a single key. */
module JwtService {
  import opened Wrappers
  import opened Types

  /** The browser's localStorage. Values are JSON text in the browser; the
      model stores the record itself, i.e. it takes for granted that JSON.parse undoes
      JSON.stringify. */
  class LocalStorage {
    var items: map<string, AuthRecord>

    constructor ()
      ensures items == map[]
    {
      items := map[];
    }
  }

  /** The one key every operation of the service uses. */
  const StorageKey: string := "auth"

  /** What getAuth yields for a given storage content. */
  function StoredAuth(items: map<string, AuthRecord>): Option<AuthRecord> {
    if StorageKey in items then Some(items[StorageKey]) else None
  }

  method SetAuth(storage: LocalStorage, auth: AuthRecord)
    modifies storage
    ensures storage.items == old(storage.items)[StorageKey := auth]
    ensures StoredAuth(storage.items) == Some(auth)
  {
    storage.items := storage.items[StorageKey := auth];
  }

  method GetAuth(storage: LocalStorage) returns (auth: Option<AuthRecord>)
    ensures auth.Some? <==> StorageKey in storage.items
    ensures auth.Some? ==> auth.value == storage.items[StorageKey]
  {
    if StorageKey in storage.items {
      auth := Some(storage.items[StorageKey]);
    } else {
      auth := None;
    }
  }

  method RemoveAuth(storage: LocalStorage)
    modifies storage
    ensures storage.items == old(storage.items) - {StorageKey}
    ensures StoredAuth(storage.items) == None
  {
    storage.items := storage.items - {StorageKey};
  }

  method IsTokenAvailable(storage: LocalStorage) returns (available: bool)
    ensures available <==> StorageKey in storage.items
  {
    var auth := GetAuth(storage);
    available := auth != None;
  }
}
