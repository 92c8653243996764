/** The user store: the user being edited and the list of all users. */
module UserStore {
  import opened Wrappers
  import opened Types
  import opened Seqs
  import opened ApiService
  import opened BaseModel

  /** The placeholder user the store starts with. */
  const InitialUser: UserRecord := UserRecord(0, "", "", "")

  class UserStore {
    var user: UserRecord
    var userList: seq<UserRecord>

    constructor ()
      ensures user == InitialUser && userList == []
    {
      user := InitialUser;
      userList := [];
    }

    method SetUser(u: UserRecord)
      modifies this`user
      ensures user == u
    {
      user := u;
    }

    /** getUserById: the first user of the list with that id. */
    function GetUserById(id: int): (r: Option<UserRecord>)
      reads this
      ensures r.None? <==> forall k :: 0 <= k < |userList| ==> userList[k].id != id
      ensures r.Some? ==> r.value.id == id && exists k :: 0 <= k < |userList| && userList[k] == r.value &&
                                                 forall j :: 0 <= j < k ==> userList[j].id != id
    {
      FindFirst(userList, (e: UserRecord) => e.id == id)
    }

    /** setUserList: the list is replaced as a whole. */
    method SetUserList(list: seq<UserRecord>)
      modifies this`userList
      ensures userList == list
    {
      userList := list;
    }

    /** fetchUsers: the fetched list replaces the store's; a failed request
        is logged and changes nothing. */
    method FetchUsers(fetched: Result<seq<UserRecord>, string>) returns (request: ApiCall)
      modifies this`userList
      ensures request == GetAll(UserEndpoint)
      ensures fetched.Ok? ==> userList == fetched.value
      ensures fetched.Err? ==> userList == old(userList)
    {
      request := GetAll(UserEndpoint);
      if fetched.Ok? {
        userList := fetched.value;
      }
    }
  }
}
