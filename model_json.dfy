/**
 * The model.json fix-up of the TensorFlow.js export
 * (server/training/convert_to_tfjs.py, `fix_model_json`): every InputLayer's
 * config gets `batch_shape` renamed to `batch_input_shape` (unless that key is
 * already there) and loses its `optional` key. The file read and write are
 * not modelled; a Python exception (KeyError, TypeError, AttributeError)
 * is None, and then nothing is written.
 */
module ModelJson {
  import opened Wrappers
  import opened Json

  const BATCH_SHAPE: string := "batch_shape"
  const BATCH_INPUT_SHAPE: string := "batch_input_shape"
  const OPTIONAL: string := "optional"

  /** The config of an InputLayer after the two fixes. */
  function FixConfig(c: map<string, Json>): map<string, Json> {
    var renamed :=
      if BATCH_SHAPE in c && BATCH_INPUT_SHAPE !in c
      then (c - {BATCH_SHAPE})[BATCH_INPUT_SHAPE := c[BATCH_SHAPE]]
      else c;
    renamed - {OPTIONAL}
  }

  predicate IsInputLayer(layer: map<string, Json>) {
    "class_name" in layer && layer["class_name"] == JStr("InputLayer")
  }

  /** One turn of the `for layer in layers` loop. A layer that is not an
      object, has no class_name, or is an InputLayer without an object
      config makes the script fail. */
  function FixLayer(layer: Json): Option<Json> {
    if !layer.JObj? || "class_name" !in layer.fields then None
    else if !IsInputLayer(layer.fields) then Some(layer)
    else if "config" !in layer.fields || !layer.fields["config"].JObj? then None
    else Some(JObj(layer.fields["config" := JObj(FixConfig(layer.fields["config"].fields))]))
  }

  /** The whole loop: fails if some layer does, and otherwise fixes every
      layer in place, keeping their number and order. */
  function FixLayers(layers: seq<Json>): (r: Option<seq<Json>>)
    ensures r.Some? <==> forall k :: 0 <= k < |layers| ==> FixLayer(layers[k]).Some?
    ensures r.Some? ==> |r.value| == |layers|
    ensures r.Some? ==> forall k :: 0 <= k < |layers| ==> r.value[k] == FixLayer(layers[k]).value
  {
    if layers == [] then Some([])
    else
      var init :- FixLayers(layers[..|layers| - 1]);
      var last :- FixLayer(layers[|layers| - 1]);
      Some(init + [last])
  }

  /** `model[key]` on a JSON value. */
  function Field(j: Json, key: string): Option<Json> {
    if j.JObj? && key in j.fields then Some(j.fields[key]) else None
  }

  /** The loop over the value at the end of the path: a list gets its layers
      fixed, an empty dict or string stays as it is. */
  function FixLayerList(layers: Json): Option<Json> {
    var items :- LoopItems(layers);
    var fixed :- FixLayers(items);
    Some(if layers.JArr? then JArr(fixed) else layers)
  }

  /** Where the layer list sits in model.json. */
  const LAYERS_PATH: seq<string> := ["modelTopology", "model_config", "config", "layers"]

  /** The document with the layer list at `path` fixed in place. */
  function FixAt(j: Json, path: seq<string>): Option<Json>
    decreases |path|
  {
    if path == [] then FixLayerList(j)
    else
      var child :- Field(j, path[0]);
      var fixed :- FixAt(child, path[1..]);
      Some(JObj(j.fields[path[0] := fixed]))
  }

  /** `fix_model_json` between the read and the write. */
  function FixModelJson(model: Json): Option<Json> {
    FixAt(model, LAYERS_PATH)
  }

  // ------------------------------------------------------------------
  // Properties
  // ------------------------------------------------------------------

  /** The rename: `batch_input_shape` afterwards holds the old
      `batch_input_shape` if there was one, else the old `batch_shape`;
      `batch_shape` goes exactly when it was renamed; `optional` is gone
      whether or not it was there. */
  lemma FixConfigRename(c: map<string, Json>)
    ensures var r := FixConfig(c);
      && OPTIONAL !in r
      && (BATCH_INPUT_SHAPE in r <==> BATCH_INPUT_SHAPE in c || BATCH_SHAPE in c)
      && (BATCH_INPUT_SHAPE in c ==> r[BATCH_INPUT_SHAPE] == c[BATCH_INPUT_SHAPE])
      && (BATCH_INPUT_SHAPE !in c && BATCH_SHAPE in c ==>
            r[BATCH_INPUT_SHAPE] == c[BATCH_SHAPE] && BATCH_SHAPE !in r)
      && (BATCH_INPUT_SHAPE in c && BATCH_SHAPE in c ==> r[BATCH_SHAPE] == c[BATCH_SHAPE])
      && (BATCH_SHAPE in r ==> BATCH_SHAPE in c)
  {
  }

  /** No key other than the three named ones changes. */
  lemma FixConfigKeepsOtherKeys(c: map<string, Json>, k: string)
    requires k !in {BATCH_SHAPE, BATCH_INPUT_SHAPE, OPTIONAL}
    ensures k in FixConfig(c) <==> k in c
    ensures k in c ==> FixConfig(c)[k] == c[k]
  {
  }

  lemma FixConfigIdempotent(c: map<string, Json>)
    ensures FixConfig(FixConfig(c)) == FixConfig(c)
  {
    var r := FixConfig(c);
    assert BATCH_INPUT_SHAPE in r || BATCH_SHAPE !in r;
    assert OPTIONAL !in r;
    assert r - {OPTIONAL} == r;
  }

  /** Only InputLayers change, and of an InputLayer only its config. */
  lemma FixLayerOnlyInputLayers(layer: Json)
    requires FixLayer(layer).Some?
    ensures layer.JObj? && FixLayer(layer).value.JObj?
    ensures !IsInputLayer(layer.fields) ==> FixLayer(layer).value == layer
    ensures IsInputLayer(layer.fields) ==>
      var r := FixLayer(layer).value.fields;
      && r.Keys == layer.fields.Keys
      && (forall k :: k in r && k != "config" ==> r[k] == layer.fields[k])
      && layer.fields["config"].JObj?
      && r["config"] == JObj(FixConfig(layer.fields["config"].fields))
  {
  }

  lemma FixLayerIdempotent(layer: Json)
    requires FixLayer(layer).Some?
    ensures FixLayer(FixLayer(layer).value) == FixLayer(layer)
  {
    if IsInputLayer(layer.fields) {
      var c := layer.fields["config"].fields;
      FixConfigIdempotent(c);
      var once := layer.fields["config" := JObj(FixConfig(c))];
      assert IsInputLayer(once);
      assert once["config" := JObj(FixConfig(FixConfig(c)))] == once;
    }
  }

  /** Applying the rewrite twice gives the same layers as applying it once. */
  lemma FixLayersIdempotent(layers: seq<Json>)
    requires FixLayers(layers).Some?
    ensures FixLayers(FixLayers(layers).value) == FixLayers(layers)
  {
    var once := FixLayers(layers).value;
    forall k | 0 <= k < |once| ensures FixLayer(once[k]) == Some(once[k]) {
      FixLayerIdempotent(layers[k]);
    }
    var twice := FixLayers(once).value;
    assert twice == once;
  }

  lemma FixLayerListIdempotent(layers: Json)
    requires FixLayerList(layers).Some?
    ensures FixLayerList(FixLayerList(layers).value) == FixLayerList(layers)
  {
    var items := LoopItems(layers).value;
    FixLayersIdempotent(items);
    if !layers.JArr? {
      assert items == [];
    }
  }

  /** Fixing an already fixed document changes nothing more. */
  lemma {:induction false} FixAtIdempotent(j: Json, path: seq<string>)
    requires FixAt(j, path).Some?
    ensures FixAt(FixAt(j, path).value, path) == FixAt(j, path)
    decreases |path|
  {
    if path == [] {
      FixLayerListIdempotent(j);
    } else {
      var child := j.fields[path[0]];
      FixAtIdempotent(child, path[1..]);
      var fixed := FixAt(child, path[1..]).value;
      var once := j.fields[path[0] := fixed];
      assert Field(JObj(once), path[0]) == Some(fixed);
      assert once[path[0] := fixed] == once;
    }
  }

  /** The document changes only along the path: every other key of every
      object on the way keeps its value. */
  lemma FixAtKeepsSiblings(j: Json, path: seq<string>)
    requires path != [] && FixAt(j, path).Some?
    ensures j.JObj? && FixAt(j, path).value.JObj?
    ensures FixAt(j, path).value.fields.Keys == j.fields.Keys
    ensures forall k :: k in j.fields && k != path[0] ==> FixAt(j, path).value.fields[k] == j.fields[k]
  {
  }

  lemma FixModelJsonIdempotent(model: Json)
    requires FixModelJson(model).Some?
    ensures FixModelJson(FixModelJson(model).value) == FixModelJson(model)
  {
    FixAtIdempotent(model, LAYERS_PATH);
  }

  // ------------------------------------------------------------------
  // The loop, in place
  // ------------------------------------------------------------------

  /** The `for layer in layers` loop over the layer list. On failure, the
      layers before the failing one are already fixed (the script then stops
      before writing anything). */
  method FixModelLayers(layers: array<Json>) returns (ok: bool)
    modifies layers
    ensures ok <==> FixLayers(old(layers[..])).Some?
    ensures ok ==> layers[..] == FixLayers(old(layers[..])).value
  {
    for i := 0 to layers.Length
      invariant layers[i..] == old(layers[i..])
      invariant forall k :: 0 <= k < i ==>
        FixLayer(old(layers[k])).Some? && layers[k] == FixLayer(old(layers[k])).value
    {
      var fixed := FixLayer(layers[i]);
      if fixed.None? {
        assert !FixLayers(old(layers[..])).Some? by {
          assert old(layers[..])[i] == old(layers[i]);
        }
        return false;
      }
      layers[i] := fixed.value;
    }
    ok := true;
  }
}
