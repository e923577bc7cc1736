/**
 * The entities mapshaper's TopoJSON import and export pass between each
 * other: the wire-format Topology (updated in place while it is imported),
 * the layers and the dataset built from it, the options each direction
 * reads, and the collaborators whose code lives in other files.
 */
module TopoModel {
  import opened Wrappers
  import opened Geometry
  import opened ArcDecoder

  /** A TopoJSON geometry object, as it appears under "objects". */
  datatype WireGeometry =
    | Point(coordinates: Pos)
    | MultiPoint(points: seq<Pos>)
    | LineString(arcIds: seq<int>)
    | MultiLineString(lines: seq<seq<int>>)
    | Polygon(rings: seq<seq<int>>)
    | MultiPolygon(polygons: seq<seq<seq<int>>>)
    | GeometryCollection(geometries: seq<WireGeometry>)

  /** The "objects" member: name/geometry pairs in the object's key order. */
  type Objects = seq<(string, WireGeometry)>

  predicate KeysDistinct(objects: Objects) {
    forall i, j :: 0 <= i < j < |objects| ==> objects[i].0 != objects[j].0
  }

  /** A topology as the exporter produces it (a new value, never updated). */
  datatype WireTopology = WireTopology(transform: Option<Transform>, arcs: seq<seq<Pos>>, objects: Objects)

  /**
   * A topology being imported. Decoding and rounding overwrite the position
   * arrays of its arcs; nothing else in it is changed.
   */
  class Topology {
    var arcs: Option<seq<array<Pos>>>
    var transform: Option<Transform>
    var objects: Objects

    constructor (arcs: Option<seq<array<Pos>>>, transform: Option<Transform>, objects: Objects)
      ensures this.arcs == arcs && this.transform == transform && this.objects == objects
    {
      this.arcs := arcs;
      this.transform := transform;
      this.objects := objects;
    }

    /** The arrays holding the arcs' positions. */
    function ArcArrays(): set<array<Pos>>
      reads this
    {
      if arcs.Some? then Footprint(arcs.value) else {}
    }

    /** Every arc is its own array, and object names are distinct keys. */
    predicate Valid()
      reads this
    {
      (arcs.Some? ==> Distinct(arcs.value)) && KeysDistinct(objects)
    }

    /** "arcs" is present and not empty. */
    predicate HasArcs()
      reads this
    {
      arcs.Some? && |arcs.value| > 0
    }

    /** The positions of every arc, as they currently stand. */
    function ArcContents(): seq<seq<Pos>>
      reads this, ArcArrays()
    {
      if arcs.Some? then Contents(arcs.value) else []
    }
  }

  datatype GeometryType = PointType | PolylineType | PolygonType

  /** A part of a shape: a point, or a ring or line given by signed arc indices. */
  datatype Path = PointCoords(p: Pos) | ArcPath(arcIds: seq<int>)

  type Shape = seq<Path>

  /** A layer; a layer without geometry has no geometry type. */
  datatype Layer = Layer(name: Option<string>, geometryType: Option<GeometryType>, shapes: seq<Shape>)

  /** The shared arc store, built from the arcs' absolute positions. */
  datatype ArcCollection = ArcCollection(arcs: seq<seq<Pos>>)

  /** Auxiliary metadata; only the recorded input files are read here. */
  datatype Info = Info(inputFiles: Option<seq<string>>)

  const EmptyInfo: Info := Info(None)

  datatype Dataset = Dataset(layers: seq<Layer>, arcs: Option<ArcCollection>, info: Option<Info>)

  /** Import options: the rounding precision (and whatever the object importer reads). */
  datatype ImportOptions = ImportOptions(precision: Option<real>)

  /** Export options read by the export entry point. */
  datatype ExportOptions = ExportOptions(prettify: bool, outputFile: Option<string>)

  datatype OutputFile = OutputFile(content: string, filename: string)

  /**
   * The operations this part of the program calls but does not define,
   * taken as parameters so that nothing is assumed about them.
   */
  datatype Collaborators = Collaborators(
    importObject: (WireGeometry, Option<ImportOptions>) -> Layer,
    layerHasPaths: Layer -> bool,
    cleanShapes: (seq<Shape>, Option<ArcCollection>, Option<GeometryType>) -> seq<Shape>,
    exportTopology: (seq<Layer>, Option<ArcCollection>, ExportOptions) -> WireTopology,
    stringify: WireTopology -> string,
    formattedStringify: (seq<string>, WireTopology) -> string,
    commonFileBase: seq<string> -> string)
}
