/** refreshMapData: reloads every feature and redraws the map. It sits in
    the map helpers in the application but needs both the map and the
    feature store. */
module MapRefresh {
  import opened Wrappers
  import opened Types
  import opened OlModel
  import opened MapModel
  import opened FeatureStore
  import opened ApiService
  import opened BaseModel

  /** Issues FeatureModel.getAll, whose outcome is `fetched`. On a successful fetch the map and the store both get the fetched list;
      on a failure both get the empty list. Either way the map is rendered
      again, from that list. */
  method RefreshMapData(mm: MapModel, store: FeatureStore,
                        fetched: Result<seq<FeatureRecord>, string>, read: string -> WktRead)
    returns (request: ApiCall)
    requires mm.Valid()
    modifies mm, mm.olMap, mm.vectorSource, store`featureList
    ensures request == GetAll(FeatureEndpoint)
    ensures mm.Valid()
    ensures fetched.Ok? ==> mm.featureList == fetched.value && store.featureList == fetched.value
    ensures fetched.Err? ==> mm.featureList == [] && store.featureList == []
    ensures mm.hasMapRef ==> mm.olMap != null && Views(mm.vectorSource.features) == RenderPlan(mm.featureList, read)
    ensures mm.addMode == old(mm.addMode) && mm.addedFeature == old(mm.addedFeature)
  {
    request := GetAll(FeatureEndpoint);
    var list := if fetched.Ok? then fetched.value else [];
    mm.featureList := list;
    store.SetFeatureList(list);
    mm.RenderMap(read);
  }
}
