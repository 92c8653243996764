/** MapModel: the application's single map. It holds the records to show, the
    vector source they are rendered into, the popup overlay, the add/edit
    mode flags and the edit interactions it created last. */
module MapModel {
  import opened Wrappers
  import opened Types
  import opened Seqs
  import opened OlModel
  import opened MapHelper

  /** The document cursor the map sets. */
  datatype Cursor = DefaultCursor | PointerCursor | CrosshairCursor

  const PopupClass: string := "popup"
  /** Raised when the record's coordinates do not have the shape of the
      rendered geometry's type. */
  const KindMismatchMessage: string := "coordinates do not match the geometry type"

  /** Looking a record up among rendered features with
      `find(f => f.get("data").id == id)`: the index of the first match, no
      match, or the TypeError raised at the first feature without "data". */
  datatype Lookup = Found(index: nat) | NotFound | LookupThrew(index: nat)

  function FindByDataId(fs: seq<OlFeature>, id: int): (r: Lookup)
    reads fs
    ensures r.Found? ==> r.index < |fs| && fs[r.index].data.Some? && fs[r.index].data.value.id == id
    ensures r.LookupThrew? ==> r.index < |fs| && fs[r.index].data.None?
    ensures !r.NotFound? ==> forall j :: 0 <= j < r.index ==> fs[j].data.Some? && fs[j].data.value.id != id
    ensures r.NotFound? ==> forall j :: 0 <= j < |fs| ==> fs[j].data.Some? && fs[j].data.value.id != id
  {
    if fs == [] then NotFound
    else if fs[0].data.None? then LookupThrew(0)
    else if fs[0].data.value.id == id then Found(0)
    else
      match FindByDataId(fs[1..], id)
      case Found(k) => Found(k + 1)
      case LookupThrew(k) => LookupThrew(k + 1)
      case NotFound => NotFound
  }

  /** The features renderFeatures adds for a list: one per record, in order,
      until the first record whose conversion throws; the exception is
      caught and the rest are skipped. */
  function RenderPlan(list: seq<FeatureRecord>, read: string -> WktRead): seq<FeatureView> {
    if list == [] then []
    else
      match GeneratedView(list[0], read)
      case Err(_) => []
      case Ok(v) => [v] + RenderPlan(list[1..], read)
  }

  /** `vs` is the views of the records before the first failing one. */
  ghost predicate RenderedUpToFailure(list: seq<FeatureRecord>, read: string -> WktRead, vs: seq<FeatureView>) {
    && |vs| <= |list|
    && (forall k :: 0 <= k < |vs| ==> GeneratedView(list[k], read) == Ok(vs[k]))
    && (|vs| < |list| ==> GeneratedView(list[|vs|], read).Err?)
  }

  lemma {:induction false} RenderPlanIsPrefixUpToFailure(list: seq<FeatureRecord>, read: string -> WktRead, vs: seq<FeatureView>)
    ensures vs == RenderPlan(list, read) <==> RenderedUpToFailure(list, read, vs)
  {
    if list != [] {
      var rest := list[1..];
      match GeneratedView(list[0], read)
      case Err(_) =>
      case Ok(v) =>
        if vs != [] {
          var tail := vs[1..];
          RenderPlanIsPrefixUpToFailure(rest, read, tail);
          assert forall k :: 0 <= k < |rest| ==> rest[k] == list[k + 1];
          assert forall k :: 0 <= k < |tail| ==> tail[k] == vs[k + 1];
          if RenderedUpToFailure(list, read, vs) {
            assert RenderedUpToFailure(rest, read, tail);
            assert vs == [v] + tail;
          }
          if vs == RenderPlan(list, read) {
            assert tail == RenderPlan(rest, read);
            assert RenderedUpToFailure(rest, read, tail);
          }
        }
    }
  }

  /** Each rendered feature is clickable, normally styled for its geometry
      type and tagged with its own record, in list order; when every record
      converts, every record is rendered. */
  lemma RenderPlanTagsRecords(list: seq<FeatureRecord>, read: string -> WktRead)
    ensures |RenderPlan(list, read)| <= |list|
    ensures forall k :: 0 <= k < |RenderPlan(list, read)| ==>
              && RenderPlan(list, read)[k].data == Some(list[k])
              && RenderPlan(list, read)[k].clickable
              && RenderPlan(list, read)[k].style == StyleFor(RenderPlan(list, read)[k].geometry, Normal)
    ensures (forall k :: 0 <= k < |list| ==> GeneratedView(list[k], read).Ok?) ==> |RenderPlan(list, read)| == |list|
  {
    RenderPlanIsPrefixUpToFailure(list, read, RenderPlan(list, read));
  }

  /** The first vertex of a geometry, the reference for where the popup of a
      zoomed-to feature is anchored. */
  function FirstVertex(g: Geometry): Option<Coord> {
    match g
    case Point(p) => Some(p)
    case LineString(ps) => if ps == [] then None else Some(ps[0])
    case Polygon(rs) => if rs == [] || rs[0] == [] then None else Some(rs[0][0])
    case OtherGeometry(_) => None
  }

  /** The zoom callback's anchor: the coordinate itself for a Point, the
      first vertex for a LineString, and the first vertex of the first ring
      for anything else; None is an undefined or null position. Errors are
      the exceptions the callback raises. */
  function PopupAnchor(g: Geometry, coords: Result<Option<Coordinates>, string>): Result<Option<Coord>, string> {
    match coords
    case Err(m) => Err(m)
    case Ok(c) =>
      if g.Point? then
        match c
        case None => Ok(None)
        case Some(PointCoords(p)) => Ok(Some(p))
        case Some(_) => Err(KindMismatchMessage)
      else if g.LineString? then
        match c
        case None => Err(TypeErrorMessage)
        case Some(LineCoords(ps)) => Ok(if ps == [] then None else Some(ps[0]))
        case Some(_) => Err(KindMismatchMessage)
      else
        match c
        case None => Err(TypeErrorMessage)
        case Some(PolygonCoords(rs)) =>
          if rs == [] then Err(TypeErrorMessage) else Ok(if rs[0] == [] then None else Some(rs[0][0]))
        case Some(_) => Err(KindMismatchMessage)
  }

  /** For a record whose WKT reads back as the rendered geometry, the popup is
      anchored at that geometry's first vertex. */
  lemma PopupAnchorIsFirstVertex(g: Geometry, wkt: string, read: string -> WktRead)
    requires read(wkt) == ReadFeature(Some(g))
    requires !g.OtherGeometry? && !(g.Polygon? && g.rings == [])
    ensures PopupAnchor(g, GetWktCoordinates(wkt, read)) == Ok(FirstVertex(g))
  {
  }

  /** After a render from a list whose ids are distinct, looking up the id
      of the k-th rendered record finds the k-th feature. */
  lemma {:induction false} LookupFindsRenderedRecord(fs: seq<OlFeature>, list: seq<FeatureRecord>,
                                                    read: string -> WktRead, k: nat)
    requires Views(fs) == RenderPlan(list, read)
    requires k < |fs|
    requires forall i, j :: 0 <= i < j < |list| ==> list[i].id != list[j].id
    ensures k < |list| && FindByDataId(fs, list[k].id) == Found(k)
  {
    RenderPlanTagsRecords(list, read);
    assert forall i :: 0 <= i < |fs| ==> fs[i].data == Views(fs)[i].data == Some(list[i]);
    assert fs[k].data.value.id == list[k].id;
  }

  /** An edit whose written WKT reads back as the edited geometry renders,
      next time, as that geometry, with the record carrying the new text. */
  lemma EditedRecordRendersEditedGeometry(rec: FeatureRecord, g: Geometry,
                                          write: Geometry -> string, read: string -> WktRead)
    requires read(write(g)) == ReadFeature(Some(g))
    ensures GeneratedView(rec.(wkt := write(g)), read) ==
            Ok(FeatureView(g, true, StyleFor(g, Normal), Some(rec.(wkt := write(g)))))
  {
  }

  /** Removes `i` from the list unless it is null. */
  function RemoveIfSet(s: seq<Interaction>, i: Interaction?): seq<Interaction> {
    if i == null then s else RemoveFirst(s, i)
  }

  /** Removing an interaction that may be unset from a list without
      repetitions leaves no copy of it, adds nothing and keeps the list free
      of repetitions. */
  lemma RemoveIfSetOfDistinct(s: seq<Interaction>, i: Interaction?)
    requires Distinct(s)
    ensures i != null ==> i !in RemoveIfSet(s, i)
    ensures forall j :: j in RemoveIfSet(s, i) ==> j in s
    ensures Distinct(RemoveIfSet(s, i))
  {
    if i != null {
      RemoveFirstOfDistinct(s, i);
    }
  }

  /** Takes the last Modify and Translate interactions, when set, off the map. */
  method RemoveEditInteractions(m: OlMap, editModify: Interaction?, editTranslate: Interaction?)
    requires Distinct(m.interactions)
    modifies m
    ensures m.interactions == RemoveIfSet(RemoveIfSet(old(m.interactions), editModify), editTranslate)
    ensures editModify != null ==> editModify !in m.interactions
    ensures editTranslate != null ==> editTranslate !in m.interactions
    ensures Distinct(m.interactions)
  {
    ghost var s0 := m.interactions;
    ghost var s1 := RemoveIfSet(s0, editModify);
    RemoveIfSetOfDistinct(s0, editModify);
    RemoveIfSetOfDistinct(s1, editTranslate);
    if editModify != null {
      RemoveInteraction(m, editModify);
    }
    assert m.interactions == s1;
    if editTranslate != null {
      RemoveInteraction(m, editTranslate);
    }
    assert m.interactions == RemoveIfSet(s1, editTranslate);
  }

  /** The restyling loop of setFeatureUpdateable: the feature at `k` is
      selected, every other one is disabled. */
  method HighlightOnly(fs: seq<OlFeature>, k: nat)
    requires k < |fs| && Distinct(fs)
    modifies fs
    ensures fs[k].View() == old(fs[k].View()).(style := StyleFor(fs[k].geometry, Selected))
    ensures forall j :: 0 <= j < |fs| && j != k ==>
              fs[j].View() == old(fs[j].View()).(clickable := false, style := StyleFor(fs[j].geometry, Disabled))
  {
    for i := 0 to |fs|
      invariant forall j :: 0 <= j < i && j != k ==>
                  fs[j].View() == old(fs[j].View()).(clickable := false, style := StyleFor(fs[j].geometry, Disabled))
      invariant k < i ==> fs[k].View() == old(fs[k].View()).(style := StyleFor(fs[k].geometry, Selected))
      invariant forall j :: i <= j < |fs| ==> fs[j].View() == old(fs[j].View())
    {
      if fs[i] != fs[k] {
        DisableFeature(fs[i]);
      } else {
        SetFeatureSelected(fs[i]);
      }
    }
  }

  /** Puts a Translate and then a Modify on the map, both acting on `target`
      and writing into a copy of `selected`. */
  method AddEditInteractions(m: OlMap, target: OlFeature, selected: FeatureRecord)
    returns (onTranslate: Interaction, onModify: Interaction)
    requires Distinct(m.interactions)
    modifies m
    ensures fresh(onTranslate) && onTranslate.kind == Translate && onTranslate.target == target
    ensures onTranslate.record == Some(selected)
    ensures fresh(onModify) && onModify.kind == Modify && onModify.target == target
    ensures onModify.record == Some(selected)
    ensures m.interactions == old(m.interactions) + [onTranslate, onModify]
    ensures Distinct(m.interactions)
  {
    onTranslate := new Interaction(Translate, target, null, Some(selected));
    m.interactions := m.interactions + [onTranslate];
    onModify := new Interaction(Modify, target, null, Some(selected));
    m.interactions := m.interactions + [onModify];
  }

  /** renderFeatures: appends the converted records to the source, stopping
      silently at the first record that cannot be converted. */
  method RenderFeatures(source: VectorSource, list: seq<FeatureRecord>, read: string -> WktRead)
    modifies source
    ensures |source.features| >= |old(source.features)|
    ensures source.features[..|old(source.features)|] == old(source.features)
    ensures Views(source.features[|old(source.features)|..]) == RenderPlan(list, read)
    ensures forall f :: f in source.features[|old(source.features)|..] ==> fresh(f)
    ensures Distinct(old(source.features)) ==> Distinct(source.features)
  {
    ghost var n0 := |source.features|;
    var i := 0;
    var failed := false;
    while i < |list| && !failed
      invariant 0 <= i <= |list|
      invariant |source.features| == n0 + i
      invariant source.features[..n0] == old(source.features)
      invariant forall k :: 0 <= k < i ==> GeneratedView(list[k], read) == Ok(source.features[n0 + k].View())
      invariant forall k :: n0 <= k < n0 + i ==> fresh(source.features[k])
      invariant Distinct(old(source.features)) ==> Distinct(source.features)
      invariant failed ==> i < |list| && GeneratedView(list[i], read).Err?
      decreases |list| - i, if failed then 0 else 1
    {
      var f := GenerateOlFeature(list[i], read);
      if f == null {
        failed := true;
      } else {
        source.features := source.features + [f];
        i := i + 1;
      }
    }
    ghost var vs := Views(source.features[n0..]);
    assert forall k :: 0 <= k < i ==> vs[k] == source.features[n0 + k].View();
    assert RenderedUpToFailure(list, read, vs);
    RenderPlanIsPrefixUpToFailure(list, read, vs);
  }

  /** initOverlay and initVectorLayer: a fresh popup overlay with class
      "popup", and a layer over a fresh, empty source. */
  method InitLayers() returns (overlay: Overlay, source: VectorSource, layer: VectorLayer)
    ensures fresh(overlay) && fresh(source) && fresh(layer)
    ensures overlay.hasElement && overlay.classes == {PopupClass}
    ensures overlay.position == None && overlay.content == ""
    ensures layer.source == source && source.features == []
  {
    overlay := new Overlay(true, {PopupClass});
    source := new VectorSource();
    layer := new VectorLayer(source);
  }

  class MapModel {
    var hasMapRef: bool
    var olMap: OlMap?
    var overlay: Overlay?
    var vectorLayer: VectorLayer?
    var vectorSource: VectorSource?
    var featureList: seq<FeatureRecord>
    var addMode: bool
    var addedFeature: OlFeature?
    var currentTranslate: Interaction?
    var currentModify: Interaction?
    var cursor: Cursor

    /** Map, overlay, layer and source exist together; the layer shows the
        source; a source holds each feature once (OpenLayers refuses a
        feature it already has) and the map each interaction once. */
    ghost predicate Valid()
      reads this, olMap, vectorSource
    {
      && (olMap == null <==> overlay == null)
      && (olMap == null <==> vectorLayer == null)
      && (olMap == null <==> vectorSource == null)
      && (vectorLayer != null ==> vectorLayer.source == vectorSource)
      && (overlay != null ==> overlay.hasElement)
      && (vectorSource != null ==> Distinct(vectorSource.features))
      && (olMap != null ==> Distinct(olMap.interactions))
      && (addedFeature != null ==> olMap != null)
    }

    constructor ()
      ensures Valid()
      ensures !hasMapRef && olMap == null && featureList == []
      ensures !addMode && addedFeature == null && currentTranslate == null && currentModify == null
      ensures cursor == DefaultCursor
    {
      hasMapRef := false;
      olMap := null;
      overlay := null;
      vectorLayer := null;
      vectorSource := null;
      featureList := [];
      addMode := false;
      addedFeature := null;
      currentTranslate := null;
      currentModify := null;
      cursor := DefaultCursor;
    }

    /** The map component hands over its container element. */
    method SetMapRef()
      modifies this`hasMapRef
      ensures hasMapRef
    {
      hasMapRef := true;
    }

    method ResetMapState()
      modifies this
      ensures Valid()
      ensures olMap == null && overlay == null && vectorLayer == null && vectorSource == null
      ensures !addMode && addedFeature == null
      ensures featureList == old(featureList) && hasMapRef == old(hasMapRef)
      ensures currentTranslate == old(currentTranslate) && currentModify == old(currentModify)
      ensures cursor == old(cursor)
    {
      olMap := null;
      overlay := null;
      vectorLayer := null;
      vectorSource := null;
      addMode := false;
      addedFeature := null;
    }

    /** renderMap: without a container, nothing happens. The first time,
        creates the overlay, the layer over a new source, the features and
        the map. Afterwards, empties the source, renders the features again
        and takes the last edit interactions off the map, keeping the
        fields that point to them. */
    method RenderMap(read: string -> WktRead)
      requires Valid()
      modifies this, olMap, vectorSource
      ensures Valid()
      ensures featureList == old(featureList) && hasMapRef == old(hasMapRef) && cursor == old(cursor)
      ensures addMode == old(addMode) && addedFeature == old(addedFeature)
      ensures currentTranslate == old(currentTranslate) && currentModify == old(currentModify)
      ensures !hasMapRef ==> unchanged(this)
      ensures !hasMapRef && olMap != null ==> unchanged(olMap, vectorSource)
      ensures hasMapRef ==> olMap != null && Views(vectorSource.features) == RenderPlan(featureList, read)
      ensures hasMapRef ==> forall f :: f in vectorSource.features ==> fresh(f)
      ensures hasMapRef && old(olMap) == null ==>
                && fresh(olMap) && fresh(overlay) && fresh(vectorLayer) && fresh(vectorSource)
                && olMap.interactions == []
                && overlay.classes == {PopupClass} && overlay.position == None && overlay.content == ""
      ensures hasMapRef && old(olMap) != null ==>
                && olMap == old(olMap) && overlay == old(overlay) && vectorLayer == old(vectorLayer)
                && vectorSource == old(vectorSource)
                && olMap.interactions == RemoveIfSet(RemoveIfSet(old(olMap.interactions), currentModify), currentTranslate)
                && (currentModify != null ==> currentModify !in olMap.interactions)
                && (currentTranslate != null ==> currentTranslate !in olMap.interactions)
    {
      if hasMapRef {
        if olMap == null {
          FirstRender(read);
        } else {
          Rerender(read);
        }
      }
    }

    /** The first branch of renderMap. */
    method FirstRender(read: string -> WktRead)
      requires Valid() && olMap == null
      modifies this
      ensures Valid()
      ensures featureList == old(featureList) && hasMapRef == old(hasMapRef) && cursor == old(cursor)
      ensures addMode == old(addMode) && addedFeature == old(addedFeature)
      ensures currentTranslate == old(currentTranslate) && currentModify == old(currentModify)
      ensures fresh(olMap) && fresh(overlay) && fresh(vectorLayer) && fresh(vectorSource)
      ensures olMap.interactions == []
      ensures overlay.classes == {PopupClass} && overlay.position == None && overlay.content == ""
      ensures Views(vectorSource.features) == RenderPlan(featureList, read)
      ensures forall f :: f in vectorSource.features ==> fresh(f)
    {
      var m := new OlMap();
      var ov, source, layer := InitLayers();
      RenderFeatures(source, featureList, read);
      assert source.features[0..] == source.features;
      olMap, overlay, vectorSource, vectorLayer := m, ov, source, layer;
    }

    /** The later branch of renderMap. */
    method Rerender(read: string -> WktRead)
      requires Valid() && olMap != null
      modifies olMap, vectorSource
      ensures Valid()
      ensures Views(vectorSource.features) == RenderPlan(featureList, read)
      ensures forall f :: f in vectorSource.features ==> fresh(f)
      ensures olMap.interactions == RemoveIfSet(RemoveIfSet(old(olMap.interactions), currentModify), currentTranslate)
      ensures currentModify != null ==> currentModify !in olMap.interactions
      ensures currentTranslate != null ==> currentTranslate !in olMap.interactions
    {
      var m := olMap;
      var source := vectorSource;
      source.features := [];
      RenderFeatures(source, featureList, read);
      assert source.features[0..] == source.features;
      RemoveEditInteractions(m, currentModify, currentTranslate);
    }

    /** A single click outside add mode shows the popup of a clickable
        feature under the pointer and hides it otherwise; in add mode it is
        ignored. `hit` is the first feature at the clicked pixel. */
    method HandleSingleClick(hit: OlFeature?, coordinate: Coord)
      requires Valid() && olMap != null
      modifies overlay
      ensures addMode ==> unchanged(overlay)
      ensures !addMode && hit != null && hit.clickable ==>
                && overlay.position == Some(coordinate)
                && (hit.data.Some? ==> overlay.content == CreateMapPointPopup(hit.data.value))
                && (hit.data.Some? ==> overlay.classes == old(overlay.classes) + {ShowClass})
      ensures !addMode && (hit == null || !hit.clickable) ==>
                && overlay.classes == old(overlay.classes) - {ShowClass}
                && overlay.position == old(overlay.position) && overlay.content == old(overlay.content)
    {
      if !addMode {
        if hit != null && hit.clickable {
          var _ := ShowFeaturePopover(overlay, hit, Some(coordinate));
        } else {
          DisposePopover(overlay);
        }
      }
    }

    /** A double click outside add mode on any feature, clickable or not,
        zooms to it and then shows its popup; a feature without a record
        (a freshly drawn one) throws after the overlay is placed. The
        default zoom is suppressed when a feature is hit, and always in
        add mode. */
    method HandleDoubleClick(hit: OlFeature?, coordinate: Coord) returns (defaultPrevented: bool)
      requires Valid() && olMap != null
      modifies overlay
      ensures defaultPrevented <==> addMode || hit != null
      ensures addMode || hit == null ==> unchanged(overlay)
      ensures !addMode && hit != null ==> overlay.position == Some(coordinate)
      ensures !addMode && hit != null && hit.data.Some? ==>
                && overlay.content == CreateMapPointPopup(hit.data.value)
                && overlay.classes == old(overlay.classes) + {ShowClass}
      ensures !addMode && hit != null && hit.data.None? ==>
                overlay.content == old(overlay.content) && overlay.classes == old(overlay.classes)
    {
      defaultPrevented := false;
      if !addMode && hit != null {
        defaultPrevented := true;
        var _ := ShowFeaturePopover(overlay, hit, Some(coordinate));
      }
      if addMode {
        defaultPrevented := true;
      }
    }

    /** The pointer cursor over a clickable feature, the default one
        elsewhere, in add mode too. */
    method HandlePointerMove(hit: OlFeature?)
      modifies this`cursor
      ensures cursor == if hit != null && hit.clickable then PointerCursor else DefaultCursor
    {
      if hit != null && hit.clickable {
        cursor := PointerCursor;
      } else {
        cursor := DefaultCursor;
      }
    }

    /** Moving the map hides the popup. */
    method HandleMapMoveStart()
      requires Valid() && olMap != null
      modifies overlay
      ensures ShowClass !in overlay.classes
      ensures overlay.classes == old(overlay.classes) - {ShowClass}
      ensures overlay.position == old(overlay.position) && overlay.content == old(overlay.content)
    {
      DisposePopover(overlay);
    }

    /** activateAddMode: add mode on, crosshair cursor, and a one-shot Draw
        with its Snap on the map. Before the map exists, adding the
        interaction throws and the catch turns add mode off again. Earlier
        interactions, edit interactions included, stay on the map. */
    method ActivateAddMode(drawType: DrawType) returns (draw: Interaction?)
      requires Valid()
      modifies this, olMap
      ensures Valid()
      ensures olMap == old(olMap) && overlay == old(overlay) && vectorLayer == old(vectorLayer)
      ensures vectorSource == old(vectorSource) && featureList == old(featureList) && hasMapRef == old(hasMapRef)
      ensures addedFeature == old(addedFeature)
      ensures currentTranslate == old(currentTranslate) && currentModify == old(currentModify)
      ensures olMap == null ==> draw == null && !addMode && cursor == DefaultCursor
      ensures olMap != null ==>
                && addMode && cursor == CrosshairCursor
                && draw != null && fresh(draw) && draw.kind == Draw(drawType)
                && draw.snap != null && fresh(draw.snap) && draw.snap.kind == Snap
                && olMap.interactions == old(olMap.interactions) + [draw, draw.snap]
    {
      addMode := true;
      cursor := CrosshairCursor;
      if olMap == null {
        draw := null;
        DisableAddMode();
      } else {
        draw := EnableDrawInteraction(olMap, drawType);
      }
    }

    /** The drawend handler: the new feature becomes the added feature and is
        handed to the caller's callback; the Draw and its Snap are removed;
        then the Draw interaction itself adds the feature to the source.
        Add mode stays on until the caller turns it off. */
    method OnDrawEnd(draw: Interaction, geometry: Geometry) returns (drawn: OlFeature)
      requires Valid() && olMap != null
      requires draw.kind.Draw? && draw.snap != null
      modifies this, olMap, vectorSource
      ensures Valid()
      ensures fresh(drawn) && drawn.View() == FeatureView(geometry, false, Unstyled, None)
      ensures addedFeature == drawn
      ensures olMap == old(olMap) && vectorSource == old(vectorSource) && overlay == old(overlay)
      ensures vectorLayer == old(vectorLayer) && featureList == old(featureList) && hasMapRef == old(hasMapRef)
      ensures addMode == old(addMode) && cursor == old(cursor)
      ensures currentTranslate == old(currentTranslate) && currentModify == old(currentModify)
      ensures olMap.interactions == RemoveFirst(RemoveFirst(old(olMap.interactions), draw), draw.snap)
      ensures draw !in olMap.interactions && draw.snap !in olMap.interactions
      ensures vectorSource.features == old(vectorSource.features) + [drawn]
    {
      drawn := new OlFeature(geometry);
      addedFeature := drawn;
      EndDrawInteraction(olMap, draw);
      vectorSource.features := vectorSource.features + [drawn];
    }

    /** disableAddMode: add mode off, default cursor, and the added feature,
        if any, taken out of the source (a no-op when it is no longer there)
        and forgotten. Interactions are left as they are. */
    method DisableAddMode()
      requires Valid()
      modifies this, vectorSource
      ensures Valid()
      ensures !addMode && cursor == DefaultCursor && addedFeature == null
      ensures olMap == old(olMap) && overlay == old(overlay) && vectorLayer == old(vectorLayer)
      ensures vectorSource == old(vectorSource) && featureList == old(featureList) && hasMapRef == old(hasMapRef)
      ensures currentTranslate == old(currentTranslate) && currentModify == old(currentModify)
      ensures old(addedFeature) == null ==> vectorSource == null || vectorSource.features == old(vectorSource.features)
      ensures old(addedFeature) != null ==>
                && vectorSource.features == RemoveFirst(old(vectorSource.features), old(addedFeature))
                && old(addedFeature) !in vectorSource.features
                && forall f :: f in old(vectorSource.features) && f != old(addedFeature) ==> f in vectorSource.features
    {
      addMode := false;
      cursor := DefaultCursor;
      if addedFeature != null {
        RemoveFirstOfDistinct(vectorSource.features, addedFeature);
        vectorSource.features := RemoveFirst(vectorSource.features, addedFeature);
        addedFeature := null;
      }
    }

    /** setFeatureUpdateable: finds the rendered feature of the record; when
        there is one, dims every other feature, marks it selected, makes it
        the added feature and puts a Translate and a Modify on it. A missing
        match changes nothing, and so does the TypeError of a lookup that
        meets a feature without a record first. */
    method SetFeatureUpdateable(selected: FeatureRecord) returns (lookup: Lookup)
      requires Valid() && vectorLayer != null
      modifies this, olMap, vectorSource.features
      ensures Valid()
      ensures lookup == old(FindByDataId(vectorSource.features, selected.id))
      ensures olMap == old(olMap) && overlay == old(overlay) && vectorLayer == old(vectorLayer)
      ensures vectorSource == old(vectorSource) && vectorSource.features == old(vectorSource.features)
      ensures featureList == old(featureList) && hasMapRef == old(hasMapRef)
      ensures addMode == old(addMode) && cursor == old(cursor)
      ensures !lookup.Found? ==> unchanged(this, olMap)
      ensures !lookup.Found? ==> forall j :: 0 <= j < |vectorSource.features| ==>
                vectorSource.features[j].View() == old(vectorSource.features[j].View())
      ensures lookup.Found? ==>
                var fs := vectorSource.features;
                var k := lookup.index;
                && fs[k].View() == old(fs[k].View()).(style := StyleFor(fs[k].geometry, Selected))
                && (forall j :: 0 <= j < |fs| && j != k ==>
                      fs[j].View() == old(fs[j].View()).(clickable := false, style := StyleFor(fs[j].geometry, Disabled)))
                && addedFeature == fs[k]
                && currentTranslate != null && fresh(currentTranslate)
                && currentTranslate.kind == Translate && currentTranslate.target == fs[k]
                && currentTranslate.record == Some(selected)
                && currentModify != null && fresh(currentModify)
                && currentModify.kind == Modify && currentModify.target == fs[k]
                && currentModify.record == Some(selected)
                && olMap.interactions == old(olMap.interactions) + [currentTranslate, currentModify]
    {
      var fs := vectorLayer.source.features;
      lookup := FindByDataId(fs, selected.id);
      if lookup.Found? {
        var m := olMap;
        HighlightOnly(fs, lookup.index);
        addedFeature := fs[lookup.index];
        var onTranslate, onModify := AddEditInteractions(m, fs[lookup.index], selected);
        currentTranslate := onTranslate;
        currentModify := onModify;
      }
    }

    /** The translateend and modifyend handlers: after the gesture has moved
        or reshaped the feature, its geometry is written back as WKT into
        the record, which goes to the caller's callback. */
    method OnEditEnd(edit: Interaction, newGeometry: Geometry, write: Geometry -> string) returns (updated: FeatureRecord)
      requires (edit.kind.Translate? || edit.kind.Modify?) && edit.target != null && edit.record.Some?
      modifies edit, edit.target
      ensures edit.target.View() == old(edit.target.View()).(geometry := newGeometry)
      ensures updated == old(edit.record.value).(wkt := write(newGeometry))
      ensures edit.record == Some(updated)
    {
      edit.target.geometry := newGeometry;
      updated := edit.record.value.(wkt := write(edit.target.geometry));
      edit.record := Some(updated);
    }

    /** zoomToFeature: finds the rendered feature of the record and, once the
        view has moved there, shows its popup at the anchor PopupAnchor
        computes from the record's WKT. A lookup that finds nothing or
        throws, and an anchor that throws, leave the popup as it was. */
    method ZoomToFeature(rec: FeatureRecord, read: string -> WktRead) returns (shown: bool)
      requires Valid() && vectorLayer != null
      modifies overlay
      ensures var lookup := FindByDataId(vectorSource.features, rec.id);
              shown <==> lookup.Found? &&
                         PopupAnchor(vectorSource.features[lookup.index].geometry, GetWktCoordinates(rec.wkt, read)).Ok?
      ensures !shown ==> unchanged(overlay)
      ensures shown ==>
                var f := vectorSource.features[FindByDataId(vectorSource.features, rec.id).index];
                && overlay.position == PopupAnchor(f.geometry, GetWktCoordinates(rec.wkt, read)).value
                && overlay.content == CreateMapPointPopup(f.data.value)
                && overlay.classes == old(overlay.classes) + {ShowClass}
    {
      var lookup := FindByDataId(vectorSource.features, rec.id);
      if !lookup.Found? {
        return false;
      }
      var f := vectorSource.features[lookup.index];
      var anchor := PopupAnchor(f.geometry, GetWktCoordinates(rec.wkt, read));
      if anchor.Err? {
        return false;
      }
      var _ := ShowFeaturePopover(overlay, f, anchor.value);
      shown := true;
    }
  }
}
