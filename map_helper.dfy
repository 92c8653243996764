/** MapHelper: turning records into map features, restyling them, reading
    coordinates out of WKT, filling and hiding the popup, and the one-shot
    draw interaction. */
module MapHelper {
  import opened Wrappers
  import opened Types
  import opened Seqs
  import opened OlModel

  /** The TypeError raised when the code dereferences a missing value. */
  const TypeErrorMessage: string := "TypeError"

  /** The feature generateOlFeature builds from a record, or the error it
      throws: the WKT reader's own error, or a TypeError when the text
      yields no geometry (getGeometry().getType() on null). */
  function GeneratedView(rec: FeatureRecord, read: string -> WktRead): Result<FeatureView, string> {
    match read(rec.wkt)
    case ReadThrew(m) => Err(m)
    case ReadFeature(g) =>
      if g.None? then Err(TypeErrorMessage)
      else Ok(FeatureView(g.value, true, StyleFor(g.value, Normal), Some(rec)))
  }

  /** generateOlFeature: reads the WKT, marks the feature clickable, styles it
      by geometry type and attaches the record as "data"; null stands for
      the error it throws. */
  method GenerateOlFeature(rec: FeatureRecord, read: string -> WktRead) returns (f: OlFeature?)
    ensures f == null <==> GeneratedView(rec, read).Err?
    ensures f != null ==> fresh(f) && f.View() == GeneratedView(rec, read).value
    ensures f != null ==> read(rec.wkt) == ReadFeature(Some(f.geometry))
    ensures f != null ==> f.clickable && f.data == Some(rec)
    ensures f != null ==> f.style == if f.geometry.Point? then Icon(Normal) else Stroke(Normal)
  {
    match read(rec.wkt) {
      case ReadThrew(_) =>
        f := null;
      case ReadFeature(g) =>
        if g.None? {
          f := null;
        } else {
          f := new OlFeature(g.value);
          f.clickable := true;
          if g.value.Point? {
            f.style := Icon(Normal);
          } else {
            f.style := Stroke(Normal);
          }
          f.data := Some(rec);
        }
    }
  }

  /** setFeatureSelected: the selected look for the feature's geometry type;
      nothing else about the feature changes. */
  method SetFeatureSelected(f: OlFeature)
    modifies f
    ensures f.View() == old(f.View()).(style := StyleFor(f.geometry, Selected))
    ensures f.clickable == old(f.clickable)
  {
    if f.geometry.Point? {
      f.style := Icon(Selected);
    } else {
      f.style := Stroke(Selected);
    }
  }

  /** disableFeature: no longer clickable, and dimmed for its geometry type. */
  method DisableFeature(f: OlFeature)
    modifies f
    ensures f.View() == old(f.View()).(clickable := false, style := StyleFor(f.geometry, Disabled))
    ensures !f.clickable
  {
    f.clickable := false;
    if f.geometry.Point? {
      f.style := Icon(Disabled);
    } else {
      f.style := Stroke(Disabled);
    }
  }

  /** The coordinate arrays getCoordinates returns for the three supported
      geometry types. */
  datatype Coordinates =
    | PointCoords(at: Coord)
    | LineCoords(points: seq<Coord>)
    | PolygonCoords(rings: seq<seq<Coord>>)

  function GeometryOf(c: Coordinates): Geometry {
    match c
    case PointCoords(p) => Point(p)
    case LineCoords(ps) => LineString(ps)
    case PolygonCoords(rs) => Polygon(rs)
  }

  /** getWktCoordinates: null without a geometry or for an unsupported type,
      the geometry's coordinates otherwise; a reader error propagates. */
  function GetWktCoordinates(wkt: string, read: string -> WktRead): (r: Result<Option<Coordinates>, string>)
    ensures r.Err? <==> read(wkt).ReadThrew?
    ensures r == Ok(None) <==> read(wkt).ReadFeature? &&
                               (read(wkt).geometry.None? || read(wkt).geometry.value.OtherGeometry?)
    ensures r.Ok? && r.value.Some? ==> read(wkt) == ReadFeature(Some(GeometryOf(r.value.value)))
  {
    match read(wkt)
    case ReadThrew(m) => Err(m)
    case ReadFeature(None) => Ok(None)
    case ReadFeature(Some(g)) =>
      match g
      case Point(p) => Ok(Some(PointCoords(p)))
      case LineString(ps) => Ok(Some(LineCoords(ps)))
      case Polygon(rs) => Ok(Some(PolygonCoords(rs)))
      case OtherGeometry(_) => Ok(None)
  }

  const PopupLead: string := "\n    <div class=\"popup-header\">\n      "
  const TitleOpen: string := "<span class=\"popup-title\" id=\"popupTitle\">"
  const SpanClose: string := "</span>"
  const PopupMiddle: string :=
    "\n      <span class=\"close-btn\">\U{D7}</span>\n    </div>\n    <div class=\"popup-body\">\n      <p>WKT: "
  const WktOpen: string := "<span id=\"popupX\">"
  const PopupTrail: string :=
    "</p>\n      <td>\n        <button type=\"button\" class=\"btn btn-warning point-update-btn\" >\n"
    + "          <i class=\"fa-solid fa-pen\"></i>\n        </button>\n"
    + "        <button type=\"button\" class=\"btn btn-danger point-delete-btn\">\n"
    + "          <i class=\"fa-solid fa-trash-can\"></i>\n        </button>\n        </td>\n    </div>\n  "

  /** The second and the fourth of five concatenated pieces occur in the whole. */
  lemma InfixesOfFive<T>(a: seq<T>, b: seq<T>, c: seq<T>, d: seq<T>, e: seq<T>)
    ensures IsInfix(b, a + b + c + d + e) && IsInfix(d, a + b + c + d + e)
  {
    var s := a + b + c + d + e;
    assert s[|a|..|a| + |b|] == b;
    assert s[|a| + |b| + |c|..|a| + |b| + |c| + |d|] == d;
  }

  /** createMapPointPopup: the popup markup, with the record's name in the
      title span and its WKT, verbatim, in the body. */
  function CreateMapPointPopup(f: FeatureRecord): (html: string)
    ensures IsInfix(TitleOpen + f.name + SpanClose, html)
    ensures IsInfix(WktOpen + f.wkt + SpanClose, html)
  {
    var title := TitleOpen + f.name + SpanClose;
    var body := WktOpen + f.wkt + SpanClose;
    InfixesOfFive(PopupLead, title, PopupMiddle, body, PopupTrail);
    PopupLead + title + PopupMiddle + body + PopupTrail
  }

  const ShowClass: string := "show"

  /** showFeaturePopover: places the overlay, fills it from the feature's
      record and adds "show". A feature without a record gets as far as the
      placing: building the popup text from nothing throws, reported here
      as `completed == false`. */
  method ShowFeaturePopover(overlay: Overlay, feature: OlFeature, coordinate: Option<Coord>) returns (completed: bool)
    requires overlay.hasElement
    modifies overlay
    ensures completed <==> feature.data.Some?
    ensures overlay.position == coordinate
    ensures completed ==> overlay.content == CreateMapPointPopup(feature.data.value)
    ensures completed ==> overlay.classes == old(overlay.classes) + {ShowClass}
    ensures !completed ==> overlay.content == old(overlay.content) && overlay.classes == old(overlay.classes)
  {
    overlay.position := coordinate;
    if feature.data.None? {
      return false;
    }
    overlay.content := CreateMapPointPopup(feature.data.value);
    overlay.classes := overlay.classes + {ShowClass};
    completed := true;
  }

  /** disposePopover: removes "show" and nothing else; without an element it
      does nothing. Applying it twice is the same as once. */
  method DisposePopover(overlay: Overlay)
    modifies overlay
    ensures overlay.classes == if overlay.hasElement then old(overlay.classes) - {ShowClass} else old(overlay.classes)
    ensures ShowClass !in old(overlay.classes) ==> overlay.classes == old(overlay.classes)
    ensures overlay.position == old(overlay.position) && overlay.content == old(overlay.content)
  {
    if overlay.hasElement {
      overlay.classes := overlay.classes - {ShowClass};
    }
  }

  method RemoveInteraction(olMap: OlMap, interaction: Interaction)
    modifies olMap
    ensures olMap.interactions == RemoveFirst(old(olMap.interactions), interaction)
  {
    olMap.interactions := RemoveFirst(olMap.interactions, interaction);
  }

  /** enableDrawInteraction: adds a Draw of the given type and a Snap on the
      same source, in that order. */
  method EnableDrawInteraction(olMap: OlMap, drawType: DrawType) returns (draw: Interaction)
    modifies olMap
    ensures fresh(draw) && draw.kind == Draw(drawType) && draw.target == null
    ensures draw.snap != null && fresh(draw.snap) && draw.snap.kind == Snap
    ensures olMap.interactions == old(olMap.interactions) + [draw, draw.snap]
  {
    var snap := new Interaction(Snap, null, null, None);
    draw := new Interaction(Draw(drawType), null, snap, None);
    olMap.interactions := olMap.interactions + [draw];
    olMap.interactions := olMap.interactions + [snap];
  }

  /** The tail of the draw-end handler, run after the callback: removes the
      Draw and its Snap, so that the draw ends after one shape. */
  method EndDrawInteraction(olMap: OlMap, draw: Interaction)
    requires draw.snap != null
    requires Distinct(olMap.interactions)
    modifies olMap
    ensures olMap.interactions == RemoveFirst(RemoveFirst(old(olMap.interactions), draw), draw.snap)
    ensures RemovedPair(old(olMap.interactions), olMap.interactions, draw, draw.snap)
  {
    ghost var before := olMap.interactions;
    var snap := draw.snap;
    RemoveInteraction(olMap, draw);
    RemoveInteraction(olMap, snap);
    ghost var after := olMap.interactions;
    assert after == RemoveFirst(RemoveFirst(before, draw), snap);
    RemoveTwoOfDistinct(before, draw, snap, after);
  }
}
