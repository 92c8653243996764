/** The OpenLayers objects the map code reads and mutates, reduced to the
    state the application observes: a feature's geometry, its "clickable"
    and "data" properties and its style; a vector source's features; a map's
    interactions; the popup overlay's position, content and class list. */
module OlModel {
  import opened Wrappers
  import opened Types

  datatype Geometry =
    | Point(at: Coord)
    | LineString(points: seq<Coord>)
    | Polygon(rings: seq<seq<Coord>>)
    /** Any other WKT geometry (MultiPoint, GeometryCollection, ...). */
    | OtherGeometry(typeName: string)

  /** What OpenLayers' WKT reader produces for a text: a feature, possibly
      without geometry, or a thrown parse error. */
  datatype WktRead = ReadFeature(geometry: Option<Geometry>) | ReadThrew(message: string)

  /** The geometry types the feature selector offers for drawing. */
  datatype DrawType = DrawPoint | DrawLineString | DrawPolygon

  /** Normal, selected (being edited) and disabled (dimmed) looks. */
  datatype StyleTag = Normal | Selected | Disabled

  /** An icon for points, a stroke for every other geometry; the icon
      paths, colours and widths are reduced to the tag. Unstyled is the
      library's default look of a freshly drawn feature. */
  datatype Style = Unstyled | Icon(tag: StyleTag) | Stroke(tag: StyleTag)

  function StyleFor(g: Geometry, tag: StyleTag): Style {
    if g.Point? then Icon(tag) else Stroke(tag)
  }

  /** The observable state of one feature. */
  datatype FeatureView = FeatureView(geometry: Geometry, clickable: bool, style: Style, data: Option<FeatureRecord>)

  class OlFeature {
    var geometry: Geometry
    /** The "clickable" property; a feature that never had it set reads it as false. */
    var clickable: bool
    var style: Style
    /** The "data" property: the record the feature was rendered from. */
    var data: Option<FeatureRecord>

    /** A feature as the WKT reader or the Draw interaction creates it. */
    constructor (geometry: Geometry)
      ensures View() == FeatureView(geometry, false, Unstyled, None)
    {
      this.geometry := geometry;
      clickable := false;
      style := Unstyled;
      data := None;
    }

    function View(): FeatureView
      reads this
    {
      FeatureView(geometry, clickable, style, data)
    }
  }

  function Views(fs: seq<OlFeature>): (vs: seq<FeatureView>)
    reads fs
    ensures |vs| == |fs| && forall i :: 0 <= i < |fs| ==> vs[i] == fs[i].View()
  {
    if fs == [] then [] else Views(fs[..|fs| - 1]) + [fs[|fs| - 1].View()]
  }

  class VectorSource {
    var features: seq<OlFeature>

    constructor ()
      ensures features == []
    {
      features := [];
    }
  }

  class VectorLayer {
    const source: VectorSource

    constructor (source: VectorSource)
      ensures this.source == source
    {
      this.source := source;
    }
  }

  /** The popup overlay and its container element. */
  class Overlay {
    const hasElement: bool
    /** None: position undefined, the overlay is not placed. */
    var position: Option<Coord>
    /** The element's innerHTML. */
    var content: string
    /** The element's class list. */
    var classes: set<string>

    constructor (hasElement: bool, classes: set<string>)
      ensures this.hasElement == hasElement && this.classes == classes
      ensures position == None && content == ""
    {
      this.hasElement := hasElement;
      this.classes := classes;
      position := None;
      content := "";
    }
  }

  datatype InteractionKind = Draw(drawType: DrawType) | Snap | Translate | Modify

  class Interaction {
    const kind: InteractionKind
    /** Translate and Modify: the one feature they act on. */
    const target: OlFeature?
    /** Draw: the Snap interaction created beside it. */
    const snap: Interaction?
    /** Translate and Modify: the record their end handler writes the new WKT into. */
    var record: Option<FeatureRecord>

    constructor (kind: InteractionKind, target: OlFeature?, snap: Interaction?, record: Option<FeatureRecord>)
      ensures this.kind == kind && this.target == target && this.snap == snap && this.record == record
    {
      this.kind := kind;
      this.target := target;
      this.snap := snap;
      this.record := record;
    }
  }

  /** The map surface; only the interactions the application adds are
      modelled, not the default ones OpenLayers installs. */
  class OlMap {
    var interactions: seq<Interaction>

    constructor ()
      ensures interactions == []
    {
      interactions := [];
    }
  }
}
