/** The feature store: the feature being edited and the list of all
    features, kept beside the map's own copy of the list. */
module FeatureStore {
  import opened Wrappers
  import opened Types
  import opened Seqs
  import MapModel
  import opened ApiService
  import opened BaseModel

  /** The placeholder feature the store starts with. */
  const InitialFeature: FeatureRecord := FeatureRecord(0, "", "", 0)

  class FeatureStore {
    var feature: FeatureRecord
    var featureList: seq<FeatureRecord>

    constructor ()
      ensures feature == InitialFeature && featureList == []
    {
      feature := InitialFeature;
      featureList := [];
    }

    method SetFeature(f: FeatureRecord)
      modifies this`feature
      ensures feature == f
    {
      feature := f;
    }

    /** getFeatureById: the first feature of the list with that id. */
    function GetFeatureById(id: int): (r: Option<FeatureRecord>)
      reads this
      ensures r.None? <==> forall k :: 0 <= k < |featureList| ==> featureList[k].id != id
      ensures r.Some? ==> r.value.id == id && exists k :: 0 <= k < |featureList| && featureList[k] == r.value &&
                                                 forall j :: 0 <= j < k ==> featureList[j].id != id
    {
      FindFirst(featureList, (e: FeatureRecord) => e.id == id)
    }

    /** setFeatureList: the list is replaced as a whole. */
    method SetFeatureList(list: seq<FeatureRecord>)
      modifies this`featureList
      ensures featureList == list
    {
      featureList := list;
    }

    /** fetchFeatures: issues FeatureModel.getAll, whose outcome is
        `fetched`; the fetched list goes to the store and to the map; a
        failed request is logged and changes neither. The map is not
        re-rendered here. */
    method FetchFeatures(mm: MapModel.MapModel, fetched: Result<seq<FeatureRecord>, string>) returns (request: ApiCall)
      modifies this`featureList, mm`featureList
      ensures request == GetAll(FeatureEndpoint)
      ensures fetched.Ok? ==> featureList == fetched.value && mm.featureList == fetched.value
      ensures fetched.Err? ==> featureList == old(featureList) && mm.featureList == old(mm.featureList)
    {
      request := GetAll(FeatureEndpoint);
      if fetched.Ok? {
        featureList := fetched.value;
        mm.featureList := fetched.value;
      }
    }
  }
}
