# mapshaper TopoJSON import and export, modelled in Dafny

This project models the TopoJSON entry points of mapshaper
(`src/topojson/mapshaper-topojson.js`):

- **`importTopoJSON`** turns a Topology into a dataset. When the topology has a
  non-empty `arcs` array, its arcs are prepared in place. They are
  delta-decoded and dequantized when a `transform` is present. After that they
  are snapped to `opts.precision` when that option is truthy. The shared arc
  store is then built from the prepared positions. Each entry of `objects`, in
  key order, becomes a layer. A layer with paths is cleaned against the shared
  arcs, every layer is named after its key, and the layers are collected in
  order. The result is `{layers, arcs, info: {}}`.
- **`exportTopoJSON`** turns a dataset into exactly one output file. Its content
  is the exported topology, serialized plainly or in the formatted mode that
  keeps the arrays of `coordinates`, `arcs`, `bbox`, `translate` and `scale` on
  one line. Its name comes from a three-way fallback: `output_file`, else the
  common base of the recorded input files (or `output`) plus `.json`, else
  `output.json`.

Modules:

- `Wrappers` (`wrappers.dfy`): `Option`, standing for a property that may be absent.
- `Geometry` (`geometry.dfy`): positions, and the coordinate transform (dequantize,
  quantize). It also holds `Math.round` and snapping to a precision.
- `Delta` (`delta.dfy`): delta decoding as a prefix sum, as sections 2.1.2 and 2.1.3
  of the TopoJSON Format Specification define it. Also its inverse, delta encoding,
  with both round trips.
- `ArcDecoder` (`arc_decoder.dfy`): the in-place passes over the arc arrays, one arc
  and all arcs: decode (`decodeArcs`) and round (`roundCoords`).
- `TopoModel` (`topo_model.dfy`): the entities. The Topology is a class whose arc
  arrays are overwritten. Layers, the dataset, the options and the output file are
  values. The collaborators this file calls are bundled as function-typed
  parameters.
- `TopoJson` (`topojson.dfy`): the two entry points, and the specification of
  what import does to the arcs, with its lemmas.

Idealisations and modelling choices:

- Coordinates are exact `real`s, an idealisation of JavaScript doubles. The same
  arrays hold the integer deltas before decoding and the real positions after it,
  as in the program. Integer deltas are reals with no fractional part.
  `PrefixSumsQuantized` shows that they decode to integer grid positions.
- Dequantization `q * scale + translate` is computed exactly. Quantization rounds
  with `Math.round` (halves go up).
- `decodeArcs` and `roundCoords` live in files that are not part of this model.
  They are modelled from the TopoJSON Format Specification and from their
  documented effect. Decoding keeps a running grid position per arc and
  overwrites each position with the dequantized running sum. Rounding replaces
  every coordinate `v` with `Math.round(v / p) * p`.
- JavaScript truthiness is written out. An absent or zero precision means no
  rounding. An absent or empty `output_file` is not used. Any recorded
  `input_files` array counts, even an empty one. An empty common base falls back
  to `output`.
- An absent `arcs` and an empty `arcs` behave the same: nothing is decoded or
  rounded, and the dataset's `arcs` is absent. This follows the code. The code
  also still cleans path layers in that case, passing an absent arc store. So the
  dataset can lack an arc store even when a layer has paths.
- The topology's arc arrays must be pairwise distinct (`Topology.Valid`). If one
  array stood for two arcs, the in-place decode would run on it twice and corrupt
  it. A parsed JSON document always meets this.
- The arc store (`ArcCollection`) is a value snapshot of the prepared positions.

## Model

| member | source | states |
|---|---|---|
| TopoJson.ImportTopoJSON | src/topojson/mapshaper-topojson.js:8-47 | without non-empty arcs, no position changes and the dataset has no arc store. Otherwise the arc arrays now hold the prepared arcs and the store holds exactly those. There is one layer per object, in order, built against that same store, the layer names are pairwise distinct (object keys are distinct), and `info` is empty. |
| TopoJson.PrepareArcs | src/topojson/mapshaper-topojson.js:16-24 | the arc arrays are overwritten with the decoded-then-rounded positions: decoded only with a transform, rounded only with a truthy precision, rounding after decoding |
| TopoJson.RoundingPrecision | src/topojson/mapshaper-topojson.js:22 | rounding is requested exactly when the options are given and carry a non-zero precision, and then the precision is the one given |
| TopoJson.PreparedArcsShape | src/topojson/mapshaper-topojson.js:16-26 | preparation keeps the number of arcs and the number of positions of each arc |
| TopoJson.PreparedWithoutTransform | src/topojson/mapshaper-topojson.js:18-24 | without a transform, positions are left exactly as given, or only snapped when a precision is requested |
| TopoJson.PreparedArcsRoundTrip | src/topojson/mapshaper-topojson.js:18-20 | with a non-degenerate transform and integer wire arcs, quantizing and delta-encoding the decoded arcs gives back the wire arcs |
| TopoJson.PreparedArcsRoundedLast | src/topojson/mapshaper-topojson.js:18-24 | with a truthy precision p, every prepared coordinate is a multiple of p and rounding again changes nothing, so rounding came after decoding |
| TopoJson.ImportedLayer | src/topojson/mapshaper-topojson.js:30-37 | the layer is named after its key and keeps its geometry type. A layer that `layerHasPaths` accepts gets its shapes cleaned against the shared arcs and its geometry type. Any other layer is the imported one with only the name set. |
| TopoJson.ImportLayers | src/topojson/mapshaper-topojson.js:29-38 | one layer per object, in the objects' order, layer i being object i imported, cleaned if it has paths, and named |
| TopoJson.ImportedLayerNamesDistinct | src/topojson/mapshaper-topojson.js:36-37 | distinct object keys give distinct layer names |
| TopoJson.OutputFilename | src/topojson/mapshaper-topojson.js:57-64 | the name is never empty. A non-empty `output_file` is used as is. Any other name ends in `.json`. |
| TopoJson.DerivedFilename | src/topojson/mapshaper-topojson.js:59-64 | a name not taken from `output_file` is a non-empty stem plus `.json`. The stem is the input files' common base when that exists and is non-empty, and `output` otherwise. |
| TopoJson.ExportTopoJSON | src/topojson/mapshaper-topojson.js:49-81 | exactly one file, named by `OutputFilename`, holding the exported topology serialized plainly or in the formatted mode with the five compact keys |
| ArcDecoder.DecodedArc | src/topojson/mapshaper-topojson.js:19 | decoding keeps an arc's length |
| ArcDecoder.DecodedArcAt | src/topojson/mapshaper-topojson.js:19 | the first decoded position is the first pair dequantized. Position k is grid position k-1 plus delta k, dequantized. |
| ArcDecoder.DecodedArcRoundTrip | src/topojson/mapshaper-topojson.js:19 | quantizing and delta-encoding a decoded integer arc gives back the encoded pairs |
| ArcDecoder.DecodeTwiceDiffers | src/topojson/mapshaper-topojson.js:6 | decoding is not idempotent: for some arc and transform a second decode changes the positions, so the in-place decode must reach each arc array once |
| ArcDecoder.DecodeArc | src/topojson/mapshaper-topojson.js:19 | overwrites one arc's array with its decoded positions |
| ArcDecoder.DecodeArcs | src/topojson/mapshaper-topojson.js:19 | overwrites every arc's array with its decoded positions |
| ArcDecoder.RoundedArc | src/topojson/mapshaper-topojson.js:23 | rounding keeps an arc's length |
| ArcDecoder.RoundedArcIdempotent | src/topojson/mapshaper-topojson.js:23 | rounding an arc twice equals rounding it once |
| ArcDecoder.RoundArc | src/topojson/mapshaper-topojson.js:23 | overwrites one arc's array with its snapped positions |
| ArcDecoder.RoundCoords | src/topojson/mapshaper-topojson.js:23 | overwrites every arc's array with its snapped positions |
| Delta.PrefixSumsFirst | src/topojson/mapshaper-topojson.js:19 | the first decoded position is the first pair, taken as absolute |
| Delta.PrefixSumsStep | src/topojson/mapshaper-topojson.js:19 | decoded position k is decoded position k-1 plus delta k |
| Delta.EncodeDecoded | src/topojson/mapshaper-topojson.js:19 | delta-encoding decoded positions gives back the encoded pairs |
| Delta.DecodeEncoded | src/topojson/mapshaper-topojson.js:19 | decoding delta-encoded positions gives back the positions |
| Delta.PrefixSumsQuantized | src/topojson/mapshaper-topojson.js:19 | integer deltas decode to integer grid positions |
| Geometry.QuantizeToReal | src/topojson/mapshaper-topojson.js:19 | quantizing a dequantized grid position gives back that position, when the scale is not zero |
| Geometry.RoundHalfUp | src/topojson/mapshaper-topojson.js:23 | the result is the integer within one half of the input, halves rounded up |
| Geometry.Snap | src/topojson/mapshaper-topojson.js:23 | the snapped value is a multiple of the precision within half a precision of the input |
| Geometry.SnapIdempotent | src/topojson/mapshaper-topojson.js:23 | snapping a snapped value leaves it unchanged |

## Left out

- Parsing a string argument with `JSON.parse` (lines 12-14): the model takes the parsed topology.
- The serializers (`JSON.stringify`, `getFormattedStringify`, lines 51-56) are
  opaque functions of the exported topology. The model does not capture their text.
- The collaborators defined in other files are parameters about which nothing is
  assumed: `TopoJSON.importObject`, `MapShaper.layerHasPaths`, `MapShaper.cleanShapes`,
  `TopoJSON.exportTopology` and `getCommonFileBase`. `MapShaper.cleanShapes` updates
  the layer's shapes in place; the model gives the cleaned shapes as its result.
- TopoJson.ImportTopoJSON: errors the collaborators raise are not modelled: a
  malformed transform, an arc index out of range, or an unsupported or mixed
  geometry type. A failing collaborator aborts the import, and the model has no
  such path.
- Floating point: dequantization and rounding use exact reals. NaN, infinities and
  rounding error are not modelled.
- The full pass-through of an empty-arcs point topology through import and export
  is not proved. It depends on `importObject` and `exportTopology`, which are not
  part of this model. What import itself guarantees in that case is stated:
  positions are untouched and the arc store is absent.
- The commented-out `topojson_divide` splitting (lines 65-76) is dead code.
- Other options the collaborators read (besides `precision`, `prettify` and
  `output_file`) are not modelled.
