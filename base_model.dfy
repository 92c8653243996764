/** BaseModel and its two instances: each CRUD operation is one ApiService
    call on a path computed from the resource's endpoint. */
module BaseModel {
  import opened Wrappers
  import opened NumberText
  import opened ApiService

  const FeatureEndpoint: string := "/feature"
  const UserEndpoint: string := "/user"
  /** The prefix of FeatureModel.getByUserId's path. */
  const FeaturesOfUserEndpoint: string := "/feature/user"

  /** Reads back the id from a path `endpoint + "/" + id`. */
  function PathId(endpoint: string, path: string): Option<int> {
    var prefix := endpoint + "/";
    if |path| >= |prefix| && path[..|prefix|] == prefix then ParseInt(path[|prefix|..]) else None
  }

  /** The path an id-addressed operation uses. */
  function ItemPath(endpoint: string, id: int): (path: string)
    ensures path == endpoint + "/" + IntText(id)
    ensures PathId(endpoint, path) == Some(id)
    ensures |path| > |endpoint| && path[..|endpoint|] == endpoint
  {
    var path := endpoint + "/" + IntText(id);
    assert path[..|endpoint + "/"|] == endpoint + "/";
    assert path[|endpoint + "/"|..] == IntText(id);
    IntTextRoundTrip(id);
    path
  }

  /** Distinct ids give distinct paths. */
  lemma ItemPathInjective(endpoint: string, id1: int, id2: int)
    requires ItemPath(endpoint, id1) == ItemPath(endpoint, id2)
    ensures id1 == id2
  {
    assert PathId(endpoint, ItemPath(endpoint, id1)) == Some(id1);
  }

  function GetAll(endpoint: string): (call: ApiCall)
    ensures MethodOf(call) == "GET" && call.resource == endpoint && BodyOf(call) == JNull
  {
    GetCall(endpoint)
  }

  function GetById(endpoint: string, id: int): (call: ApiCall)
    ensures MethodOf(call) == "GET" && BodyOf(call) == JNull
    ensures call.resource == ItemPath(endpoint, id) && PathId(endpoint, call.resource) == Some(id)
  {
    GetCall(ItemPath(endpoint, id))
  }

  function Create(endpoint: string, data: Json): (call: ApiCall)
    ensures MethodOf(call) == "POST" && call.resource == endpoint && BodyOf(call) == data
  {
    PostCall(endpoint, data)
  }

  function Update(endpoint: string, id: int, data: Json): (call: ApiCall)
    ensures MethodOf(call) == "PUT" && BodyOf(call) == data
    ensures call.resource == ItemPath(endpoint, id) && PathId(endpoint, call.resource) == Some(id)
  {
    PutCall(ItemPath(endpoint, id), data)
  }

  function Delete(endpoint: string, id: int): (call: ApiCall)
    ensures MethodOf(call) == "DELETE" && BodyOf(call) == JNull
    ensures call.resource == ItemPath(endpoint, id) && PathId(endpoint, call.resource) == Some(id)
  {
    DeleteCall(ItemPath(endpoint, id))
  }

  /** FeatureModel.getByUserId: the features one user owns. */
  function GetFeaturesByUserId(userId: int): (call: ApiCall)
    ensures MethodOf(call) == "GET" && BodyOf(call) == JNull
    ensures call.resource == ItemPath(FeaturesOfUserEndpoint, userId)
    ensures PathId(FeaturesOfUserEndpoint, call.resource) == Some(userId)
  {
    GetCall(ItemPath(FeaturesOfUserEndpoint, userId))
  }
}
