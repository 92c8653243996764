/** The role check that gates the user-management screens. */
module AuthHelper {
  import opened Wrappers
  import JwtService

  const AdminRole: string := "Admin"

  /** True exactly when a session record is stored and its role is, character
      for character, "Admin". Only reads the storage. */
  method IsAdmin(storage: JwtService.LocalStorage) returns (admin: bool)
    ensures admin <==> JwtService.StorageKey in storage.items &&
                       storage.items[JwtService.StorageKey].role == "Admin"
  {
    var auth := JwtService.GetAuth(storage);
    if auth.None? {
      return false;
    }
    return auth.value.role == AdminRole;
  }
}
