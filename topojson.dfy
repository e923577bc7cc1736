/**
 * mapshaper's TopoJSON entry points: importing a Topology into a dataset of
 * layers over a shared arc store, and exporting a dataset as one output
 * file.
 */
module TopoJson {
  import opened Wrappers
  import opened Geometry
  import opened Delta
  import opened ArcDecoder
  import opened TopoModel

  // ---------------------------------------------------------------------
  // Import: preparing the arcs

  /** The precision to round to, when the options give a truthy one. */
  function RoundingPrecision(opts: Option<ImportOptions>): (r: Option<real>)
    ensures r.Some? <==> opts.Some? && opts.value.precision.Some? && opts.value.precision.value != 0.0
    ensures r.Some? ==> r == opts.value.precision && r.value != 0.0
  {
    if opts.Some? && opts.value.precision.Some? && opts.value.precision.value != 0.0
    then opts.value.precision
    else None
  }

  function DecodedArcs(t: Transform, arcs: seq<seq<Pos>>): (r: seq<seq<Pos>>)
    ensures |r| == |arcs|
  {
    seq(|arcs|, i requires 0 <= i < |arcs| => DecodedArc(t, arcs[i]))
  }

  function RoundedArcs(p: real, arcs: seq<seq<Pos>>): (r: seq<seq<Pos>>)
    requires p != 0.0
    ensures |r| == |arcs|
  {
    seq(|arcs|, i requires 0 <= i < |arcs| => RoundedArc(p, arcs[i]))
  }

  /**
   * The arcs after import has prepared them: decoded when the topology has
   * a transform, and then, when a precision is requested, rounded.
   */
  function PreparedArcs(arcs: seq<seq<Pos>>, transform: Option<Transform>, opts: Option<ImportOptions>): seq<seq<Pos>>
  {
    var decoded := if transform.Some? then DecodedArcs(transform.value, arcs) else arcs;
    match RoundingPrecision(opts)
    case Some(p) => RoundedArcs(p, decoded)
    case None => decoded
  }

  /** Preparation keeps the number of arcs and the number of positions in each. */
  lemma PreparedArcsShape(arcs: seq<seq<Pos>>, transform: Option<Transform>, opts: Option<ImportOptions>)
    ensures |PreparedArcs(arcs, transform, opts)| == |arcs|
    ensures forall i :: 0 <= i < |arcs| ==> |PreparedArcs(arcs, transform, opts)[i]| == |arcs[i]|
  {
  }

  /**
   * Without a transform nothing is decoded: the positions are those given,
   * rounded when a precision is requested and otherwise untouched.
   */
  lemma PreparedWithoutTransform(arcs: seq<seq<Pos>>, opts: Option<ImportOptions>)
    ensures RoundingPrecision(opts) == None ==> PreparedArcs(arcs, None, opts) == arcs
    ensures RoundingPrecision(opts).Some? ==>
      forall i, k :: 0 <= i < |arcs| && 0 <= k < |arcs[i]| ==>
        PreparedArcs(arcs, None, opts)[i][k] == SnapPos(RoundingPrecision(opts).value, arcs[i][k])
  {
  }

  /**
   * With a transform and no rounding, quantizing and delta-encoding the
   * prepared arcs gives back the wire arcs: decoding loses nothing.
   */
  lemma PreparedArcsRoundTrip(arcs: seq<seq<Pos>>, t: Transform, opts: Option<ImportOptions>)
    requires NonDegenerate(t)
    requires forall i :: 0 <= i < |arcs| ==> AllQuantized(arcs[i])
    requires RoundingPrecision(opts) == None
    ensures forall i :: 0 <= i < |arcs| ==>
      DeltaEncode(QuantizedArc(t, PreparedArcs(arcs, Some(t), opts)[i])) == arcs[i]
  {
    forall i | 0 <= i < |arcs|
      ensures DeltaEncode(QuantizedArc(t, PreparedArcs(arcs, Some(t), opts)[i])) == arcs[i]
    {
      DecodedArcRoundTrip(t, arcs[i]);
    }
  }

  /**
   * Rounding comes last: when a precision p is requested, every prepared
   * coordinate is a multiple of p, and rounding again would change nothing.
   */
  lemma PreparedArcsRoundedLast(arcs: seq<seq<Pos>>, transform: Option<Transform>, opts: Option<ImportOptions>)
    requires RoundingPrecision(opts).Some?
    ensures var p := RoundingPrecision(opts).value;
      var r := PreparedArcs(arcs, transform, opts);
      && RoundedArcs(p, r) == r
      && forall i, k :: 0 <= i < |r| && 0 <= k < |r[i]| ==> IsIntegral(r[i][k].x / p) && IsIntegral(r[i][k].y / p)
  {
    var p := RoundingPrecision(opts).value;
    var decoded := if transform.Some? then DecodedArcs(transform.value, arcs) else arcs;
    forall i | 0 <= i < |decoded|
      ensures RoundedArc(p, RoundedArc(p, decoded[i])) == RoundedArc(p, decoded[i])
    {
      RoundedArcIdempotent(p, decoded[i]);
    }
  }

  /** Decodes (when there is a transform) and rounds (when asked) the wire arcs in place. */
  method PrepareArcs(wire: seq<array<Pos>>, transform: Option<Transform>, opts: Option<ImportOptions>)
    requires Distinct(wire)
    modifies Footprint(wire)
    ensures Contents(wire) == PreparedArcs(old(Contents(wire)), transform, opts)
  {
    ghost var given := Contents(wire);
    if transform.Some? {
      DecodeArcs(wire, transform.value);
    }
    ghost var decoded := Contents(wire);
    assert decoded == if transform.Some? then DecodedArcs(transform.value, given) else given;
    var precision := RoundingPrecision(opts);
    if precision.Some? {
      RoundCoords(wire, precision.value);
      assert Contents(wire) == RoundedArcs(precision.value, decoded);
    }
  }

  // ---------------------------------------------------------------------
  // Import: building the layers

  /**
   * The layer imported from one named object: cleaned against the shared
   * arcs when it has paths, and named after its key.
   */
  function ImportedLayer(env: Collaborators, opts: Option<ImportOptions>, arcs: Option<ArcCollection>,
                         key: string, obj: WireGeometry): (lyr: Layer)
    ensures var base := env.importObject(obj, opts);
      && lyr.name == Some(key)
      && lyr.geometryType == base.geometryType
      && (env.layerHasPaths(base) ==> lyr.shapes == env.cleanShapes(base.shapes, arcs, base.geometryType))
      && (!env.layerHasPaths(base) ==> lyr == base.(name := Some(key)))
  {
    var base := env.importObject(obj, opts);
    var cleaned := if env.layerHasPaths(base)
      then base.(shapes := env.cleanShapes(base.shapes, arcs, base.geometryType))
      else base;
    cleaned.(name := Some(key))
  }

  /** One layer per object, in the objects' order, each named after its key. */
  method ImportLayers(objects: Objects, opts: Option<ImportOptions>, arcs: Option<ArcCollection>, env: Collaborators)
    returns (layers: seq<Layer>)
    ensures |layers| == |objects|
    ensures forall i :: 0 <= i < |objects| ==> layers[i] == ImportedLayer(env, opts, arcs, objects[i].0, objects[i].1)
  {
    layers := [];
    var i := 0;
    while i < |objects|
      invariant 0 <= i <= |objects|
      invariant |layers| == i
      invariant forall j :: 0 <= j < i ==> layers[j] == ImportedLayer(env, opts, arcs, objects[j].0, objects[j].1)
    {
      var (name, obj) := objects[i];
      var lyr := env.importObject(obj, opts);
      if env.layerHasPaths(lyr) {
        lyr := lyr.(shapes := env.cleanShapes(lyr.shapes, arcs, lyr.geometryType));
      }
      lyr := lyr.(name := Some(name));
      layers := layers + [lyr];
      i := i + 1;
    }
  }

  /** Distinct object keys give distinct layer names, key i naming layer i. */
  lemma ImportedLayerNamesDistinct(objects: Objects, opts: Option<ImportOptions>, arcs: Option<ArcCollection>,
                                   env: Collaborators, layers: seq<Layer>)
    requires KeysDistinct(objects)
    requires |layers| == |objects|
    requires forall i :: 0 <= i < |objects| ==> layers[i] == ImportedLayer(env, opts, arcs, objects[i].0, objects[i].1)
    ensures forall i, j :: 0 <= i < j < |layers| ==> layers[i].name != layers[j].name
  {
  }

  // ---------------------------------------------------------------------
  // Import: the entry point

  /**
   * Imports a topology. When it has arcs they are decoded and rounded in
   * place and a shared arc store is built from them; otherwise the dataset
   * has no arc store and no position is touched.
   */
  method ImportTopoJSON(topology: Topology, opts: Option<ImportOptions>, env: Collaborators)
    returns (dataset: Dataset)
    requires topology.Valid()
    modifies topology.ArcArrays()
    ensures !topology.HasArcs() ==> dataset.arcs == None && topology.ArcContents() == old(topology.ArcContents())
    ensures topology.HasArcs() ==>
      && topology.ArcContents() == PreparedArcs(old(topology.ArcContents()), topology.transform, opts)
      && dataset.arcs == Some(ArcCollection(topology.ArcContents()))
    ensures |dataset.layers| == |topology.objects|
    ensures forall i :: 0 <= i < |topology.objects| ==>
      dataset.layers[i] == ImportedLayer(env, opts, dataset.arcs, topology.objects[i].0, topology.objects[i].1)
    ensures forall i, j :: 0 <= i < j < |dataset.layers| ==> dataset.layers[i].name != dataset.layers[j].name
    ensures dataset.info == Some(EmptyInfo)
  {
    var arcs: Option<ArcCollection> := None;
    if topology.HasArcs() {
      var wire := topology.arcs.value;
      PrepareArcs(wire, topology.transform, opts);
      arcs := Some(ArcCollection(Contents(wire)));
    }
    var layers := ImportLayers(topology.objects, opts, arcs, env);
    ImportedLayerNamesDistinct(topology.objects, opts, arcs, env, layers);
    dataset := Dataset(layers, arcs, Some(EmptyInfo));
  }

  // ---------------------------------------------------------------------
  // Export

  /** The keys whose arrays the formatted output keeps on one line. */
  const CompactKeys: seq<string> := ["coordinates", "arcs", "bbox", "translate", "scale"]

  const JsonSuffix: string := ".json"

  predicate EndsWithJson(s: string) {
    |s| > |JsonSuffix| && s[|s| - |JsonSuffix|..] == JsonSuffix
  }

  /**
   * The output file name: the output_file option when it is a non-empty
   * string; else, when the dataset records its input files, their common
   * base name (or "output" when that is empty) plus ".json"; else
   * "output.json".
   */
  function OutputFilename(opts: ExportOptions, info: Option<Info>, commonFileBase: seq<string> -> string): (filename: string)
    ensures filename != ""
    ensures opts.outputFile.Some? && opts.outputFile.value != "" ==> filename == opts.outputFile.value
    ensures !(opts.outputFile.Some? && opts.outputFile.value != "") ==> EndsWithJson(filename)
  {
    if opts.outputFile.Some? && opts.outputFile.value != "" then
      opts.outputFile.value
    else if info.Some? && info.value.inputFiles.Some? then
      var base := commonFileBase(info.value.inputFiles.value);
      (if base != "" then base else "output") + JsonSuffix
    else
      "output" + JsonSuffix
  }

  /**
   * A name not taken from output_file is a non-empty stem plus ".json"; the
   * stem is the input files' common base when there is one, "output" when
   * there is none.
   */
  lemma DerivedFilename(opts: ExportOptions, info: Option<Info>, commonFileBase: seq<string> -> string)
    requires !(opts.outputFile.Some? && opts.outputFile.value != "")
    ensures var filename := OutputFilename(opts, info, commonFileBase);
      var stem := filename[..|filename| - |JsonSuffix|];
      && stem != ""
      && filename == stem + JsonSuffix
      && (info.Some? && info.value.inputFiles.Some? && commonFileBase(info.value.inputFiles.value) != "" ==>
            stem == commonFileBase(info.value.inputFiles.value))
      && (!(info.Some? && info.value.inputFiles.Some? && commonFileBase(info.value.inputFiles.value) != "") ==>
            stem == "output")
  {
  }

  /**
   * Exports a dataset as exactly one file: the topology built from its
   * layers and arcs, serialized (formatted when prettify is set), under the
   * name OutputFilename chooses.
   */
  function ExportTopoJSON(dataset: Dataset, opts: ExportOptions, env: Collaborators): (files: seq<OutputFile>)
    ensures |files| == 1
    ensures files[0].filename == OutputFilename(opts, dataset.info, env.commonFileBase)
    ensures var topology := env.exportTopology(dataset.layers, dataset.arcs, opts);
      files[0].content == if opts.prettify then env.formattedStringify(CompactKeys, topology) else env.stringify(topology)
  {
    var topology := env.exportTopology(dataset.layers, dataset.arcs, opts);
    var content := if opts.prettify then env.formattedStringify(CompactKeys, topology) else env.stringify(topology);
    [OutputFile(content, OutputFilename(opts, dataset.info, env.commonFileBase))]
  }
}
