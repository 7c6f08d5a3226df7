/**
 * The workflow node-id normaliser of handler.py (`normalize_workflow_for_caching`).
 *
 * Pass one gives every node a new id: a fixed name when its class_type is in
 * a table, else `lower(class_type)` with spaces turned into `_`, then `_` and
 * the 1-based count of that class_type so far. Pass two rebuilds the graph
 * under the new ids and rewrites every two-element list input whose
 * stringified head is an old id. The same algorithm is copied in
 * send_request.py and test_workflow_normalization.py with their own tables,
 * so it is written once here with the table as a parameter.
 */
module Normalize {
  import opened Wrappers
  import opened Dict
  import opened Json

  /** A workflow graph: node id to node object (`class_type`, `inputs`, `_meta`). */
  type Workflow = Dict<Json>

  /** A fixed class_type to node-id table. */
  type Table = map<string, string>

  /** The table of handler.py. */
  const HandlerTable: Table := map[
    "LoadDiffusionModelShared //Inspire" := "model_loader_1",
    "CLIPLoader" := "clip_loader_1",
    "VAELoader" := "vae_loader_1",
    "CLIPVisionLoader" := "clip_vision_loader_1",
    "WanImageToVideo" := "wan_i2v_1",
    "LoadImage" := "load_image_1",
    "CLIPVisionEncode" := "clip_vision_encode_1",
    "ModelSamplingSD3" := "model_sampling_1",
    "KSampler" := "ksampler_1",
    "VAEDecode" := "vae_decode_1",
    "CLIPTextEncode" := "clip_text_encode",
    "SaveAnimatedWEBP" := "save_webp_1",
    "VHS_VideoCombine" := "vhs_videocombine_1"
  ]

  /** `node_data.get("class_type", "")` */
  function ClassType(node: Json): string
  {
    if node.JObj? then
      match Get<Json>(node.fields, "class_type")
      case Some(JStr(s)) => s
      case _ => ""
    else ""
  }

  /**
   * A node the normaliser processes without raising: a dict whose
   * class_type, when present, is a string (`.lower()` is called on it) and
   * whose inputs, when present, is a dict (`.items()` is called on it).
   */
  predicate NodeOk(node: Json)
  {
    && node.JObj?
    && DistinctKeys(node.fields)
    && (match Get(node.fields, "class_type") case Some(v) => v.JStr? case None => true)
    && (match Get(node.fields, "inputs") case Some(v) => v.JObj? && DistinctKeys(v.fields) case None => true)
  }

  predicate WellFormed(w: Workflow)
  {
    DistinctKeys(w) && forall i | 0 <= i < |w| :: NodeOk(w[i].1)
  }

  function LowerChar(c: char): char
  {
    if 'A' <= c <= 'Z' then (c as int + 32) as char else c
  }

  /** `s.lower().replace(' ', '_')` on ASCII text. */
  function Slug(s: string): string
  {
    if s == [] then [] else [if s[0] == ' ' then '_' else LowerChar(s[0])] + Slug(s[1..])
  }

  /** How many of the first `n` nodes of `w` have class_type `c`. */
  function CountUpTo(w: Workflow, n: nat, c: string): nat
    requires n <= |w|
  {
    if n == 0 then 0
    else CountUpTo(w, n - 1, c) + (if ClassType(w[n - 1].1) == c then 1 else 0)
  }

  /** How many nodes of `w` have class type `c`. */
  function CountClass(w: Workflow, c: string): nat
  {
    CountUpTo(w, |w|, c)
  }

  /** The id a node of class `c` gets when it is the `n`-th of its class outside the table. */
  function CountedId(c: string, n: nat): string
  {
    Slug(c) + "_" + NatToString(n)
  }

  /** The id pass one gives the node at position `i`. */
  function NewId(t: Table, w: Workflow, i: nat): string
    requires i < |w|
  {
    var c := ClassType(w[i].1);
    if c in t then t[c] else CountedId(c, CountUpTo(w, i + 1, c))
  }

  /** The new ids, node by node, in iteration order. */
  function Ids(t: Table, w: Workflow): (ids: seq<string>)
    ensures |ids| == |w|
  {
    seq(|w|, i requires 0 <= i < |w| => NewId(t, w, i))
  }

  predicate Injective(s: seq<string>)
  {
    forall i, j | 0 <= i < j < |s| :: s[i] != s[j]
  }

  /** `old_to_new_id` once the first `n` nodes have been given the ids `ids`. */
  function IdMapOf(w: Workflow, ids: seq<string>, n: nat): map<string, string>
    requires n <= |w| == |ids|
  {
    if n == 0 then map[] else IdMapOf(w, ids, n - 1)[w[n - 1].0 := ids[n - 1]]
  }

  /** `old_to_new_id` after pass one. */
  function IdMap(t: Table, w: Workflow): map<string, string>
  {
    IdMapOf(w, Ids(t, w), |w|)
  }

  /** A two-element list: the shape of a `[node_id, output_index]` reference. */
  predicate IsReference(v: Json)
  {
    v.JList? && |v.items| == 2
  }

  /** One input value after pass two. */
  function RewriteValue(v: Json, m: map<string, string>): Json
  {
    if IsReference(v) && PyStr(v.items[0]) in m then JList([JStr(m[PyStr(v.items[0])]), v.items[1]])
    else v
  }

  function RewriteInputs(inputs: Obj, m: map<string, string>): (r: Obj)
    ensures |r| == |inputs|
  {
    seq(|inputs|, j requires 0 <= j < |inputs| => (inputs[j].0, RewriteValue(inputs[j].1, m)))
  }

  /** A node after pass two: its inputs rewritten, every other field as it was. */
  function RewriteNode(node: Json, m: map<string, string>): Json
  {
    match node
    case JObj(fields) =>
      (match Get<Json>(fields, "inputs")
       case Some(JObj(inputs)) => JObj(Put(fields, "inputs", JObj(RewriteInputs(inputs, m))))
       case _ => node)
    case _ => node
  }

  /** A reference-shaped value whose stringified head is one of `keys`; any other value trivially. */
  predicate Resolves(v: Json, keys: set<string>)
  {
    IsReference(v) ==> PyStr(v.items[0]) in keys
  }

  /** Every reference-shaped input of `node` names one of `keys`. */
  predicate NodeResolves(node: Json, keys: set<string>)
  {
    match node
    case JObj(fields) =>
      (match Get<Json>(fields, "inputs")
       case Some(JObj(inputs)) => forall j | 0 <= j < |inputs| :: Resolves(inputs[j].1, keys)
       case _ => true)
    case _ => true
  }

  /** Every reference-shaped input in the workflow names a node of the workflow. */
  predicate AllResolve(w: Workflow)
  {
    forall i | 0 <= i < |w| :: NodeResolves(w[i].1, Keys(w))
  }

  /** Every node id of `w` has an entry in `m`. */
  predicate Covers(w: Workflow, m: map<string, string>)
  {
    forall i | 0 <= i < |w| :: w[i].0 in m
  }

  /** `new_workflow` after pass two has seen the first `n` nodes; it depends only on `old_to_new_id`. */
  function Rebuild(w: Workflow, m: map<string, string>, n: nat): Workflow
    requires n <= |w| && Covers(w, m)
  {
    if n == 0 then []
    else Put(Rebuild(w, m, n - 1), m[w[n - 1].0], RewriteNode(w[n - 1].1, m))
  }

  /** The normalised workflow. */
  function Normalized(t: Table, w: Workflow): Workflow
  {
    IdMapCovers(t, w);
    Rebuild(w, IdMap(t, w), |w|)
  }

  // ----- the two passes, as the source runs them -----

  /** The generic two-pass normaliser; its copies differ only in `t`. */
  method NormalizeIds(w: Workflow, t: Table) returns (r: Workflow)
    requires WellFormed(w)
    ensures r == Normalized(t, w)
  {
    var oldToNew := AssignIds(w, t);
    IdMapCovers(t, w);
    r := RebuildWorkflow(w, oldToNew);
  }

  /** Pass two: every node under its new id, with its references rewritten. */
  method RebuildWorkflow(w: Workflow, oldToNew: map<string, string>) returns (r: Workflow)
    requires Covers(w, oldToNew) && forall i | 0 <= i < |w| :: NodeOk(w[i].1)
    ensures r == Rebuild(w, oldToNew, |w|)
  {
    r := [];
    var i := 0;
    while i < |w|
      invariant i <= |w|
      invariant r == Rebuild(w, oldToNew, i)
    {
      var newId := oldToNew[w[i].0];
      var newNode := RewriteNodeInputs(w[i].1, oldToNew);
      r := Put(r, newId, newNode);
      i := i + 1;
    }
  }

  /** Pass one: the old-to-new id map, counting class types as they come. */
  method AssignIds(w: Workflow, t: Table) returns (oldToNew: map<string, string>)
    ensures oldToNew == IdMap(t, w)
  {
    oldToNew := map[];
    var counters: map<string, nat> := map[];
    var i := 0;
    while i < |w|
      invariant i <= |w|
      invariant oldToNew == IdMapOf(w, Ids(t, w), i)
      invariant counters == Counters(t, w, i)
    {
      var newId;
      counters, newId := NextId(t, w, i, counters);
      IdMapOfStep(w, Ids(t, w), i, oldToNew, w[i].0, newId);
      oldToNew := oldToNew[w[i].0 := newId];
      i := i + 1;
    }
  }

  /** One step of pass one: the new id of node `i`, bumping its class type's counter when it is outside the table. */
  method NextId(t: Table, w: Workflow, i: nat, counters: map<string, nat>) returns (counters': map<string, nat>, newId: string)
    requires i < |w| && counters == Counters(t, w, i)
    ensures counters' == Counters(t, w, i + 1)
    ensures newId == Ids(t, w)[i]
  {
    var classType := ClassType(w[i].1);
    CountersAt(t, w, i, classType);
    CountersStep(t, w, i, counters, classType);
    counters' := counters;
    if classType in t {
      newId := t[classType];
    } else {
      if classType !in counters' {
        counters' := counters'[classType := 1];
      } else {
        counters' := counters'[classType := counters'[classType] + 1];
      }
      assert counters'[classType] == CountUpTo(w, i + 1, classType);
      newId := CountedId(classType, counters'[classType]);
    }
    assert newId == NewId(t, w, i);
  }

  /** The body of pass two for one node: a copy whose reference-shaped inputs are rewritten. */
  method RewriteNodeInputs(node: Json, oldToNew: map<string, string>) returns (newNode: Json)
    requires NodeOk(node)
    ensures newNode == RewriteNode(node, oldToNew)
  {
    newNode := node;
    var inputs := Get(node.fields, "inputs");
    if inputs.Some? {
      var rewritten := RewriteReferences(inputs.value.fields, oldToNew);
      newNode := JObj(Put(node.fields, "inputs", JObj(rewritten)));
    }
  }

  /** The inner loop of pass two: overwrite each reference-shaped input in place. */
  method RewriteReferences(inputs: Obj, oldToNew: map<string, string>) returns (r: Obj)
    ensures r == RewriteInputs(inputs, oldToNew)
  {
    r := inputs;
    var j := 0;
    while j < |r|
      invariant j <= |r| == |inputs|
      invariant r[..j] == RewriteInputs(inputs, oldToNew)[..j]
      invariant r[j..] == inputs[j..]
    {
      var (key, value) := r[j];
      if value.JList? && |value.items| == 2 {
        var referenced := PyStr(value.items[0]);
        if referenced in oldToNew {
          r := r[j := (key, JList([JStr(oldToNew[referenced]), value.items[1]]))];
        }
      }
      assert r[j] == RewriteInputs(inputs, oldToNew)[j];
      j := j + 1;
    }
  }

  // ----- lemmas the passes rely on -----

  /** The `class_type_counters` dict of pass one after the first `n` nodes. */
  function Counters(t: Table, w: Workflow, n: nat): map<string, nat>
    requires n <= |w|
  {
    if n == 0 then map[]
    else
      var m := Counters(t, w, n - 1);
      var c := ClassType(w[n - 1].1);
      if c in t then m else m[c := (if c in m then m[c] else 0) + 1]
  }

  /** A class type has a counter exactly when it is outside the table and has been seen; the counter is its count. */
  lemma {:induction false} CountersAt(t: Table, w: Workflow, n: nat, c: string)
    requires n <= |w|
    ensures c in Counters(t, w, n) <==> c !in t && CountUpTo(w, n, c) > 0
    ensures c in Counters(t, w, n) ==> Counters(t, w, n)[c] == CountUpTo(w, n, c)
  {
    if n > 0 {
      CountersAt(t, w, n - 1, c);
    }
  }

  lemma {:induction false} CountersStep(t: Table, w: Workflow, i: nat, m: map<string, nat>, c: string)
    requires i < |w| && m == Counters(t, w, i) && c == ClassType(w[i].1)
    ensures c in t ==> Counters(t, w, i + 1) == m
    ensures c !in t && c !in m ==> Counters(t, w, i + 1) == m[c := 1]
    ensures c !in t && c in m ==> Counters(t, w, i + 1) == m[c := m[c] + 1]
  {
  }

  lemma {:induction false} IdMapOfStep(w: Workflow, ids: seq<string>, i: nat, m: map<string, string>, k: string, v: string)
    requires i < |w| == |ids| && m == IdMapOf(w, ids, i) && k == w[i].0 && v == ids[i]
    ensures m[k := v] == IdMapOf(w, ids, i + 1)
  {
  }

  /** `old_to_new_id` has an entry for every old id that has been seen, and no other. */
  lemma {:induction false} IdMapOfKeys(w: Workflow, ids: seq<string>, n: nat)
    requires n <= |w| == |ids|
    ensures IdMapOf(w, ids, n).Keys == set j | 0 <= j < n :: w[j].0
  {
    if n > 0 {
      IdMapOfKeys(w, ids, n - 1);
      assert (set j | 0 <= j < n :: w[j].0) == (set j | 0 <= j < n - 1 :: w[j].0) + {w[n - 1].0};
    }
  }

  /** Each seen old id maps to the id its node was given. */
  lemma {:induction false} IdMapOfAt(w: Workflow, ids: seq<string>, n: nat)
    requires n <= |w| == |ids| && DistinctKeys(w)
    ensures forall j | 0 <= j < n :: w[j].0 in IdMapOf(w, ids, n) && IdMapOf(w, ids, n)[w[j].0] == ids[j]
  {
    if n > 0 {
      IdMapOfAt(w, ids, n - 1);
      var m := IdMapOf(w, ids, n);
      forall j | 0 <= j < n ensures w[j].0 in m && m[w[j].0] == ids[j] {
        if j < n - 1 {
          DistinctKeysIndex(w, j, n - 1);
        }
      }
    }
  }

  lemma {:induction false} IdMapCovers(t: Table, w: Workflow)
    ensures Covers(w, IdMap(t, w))
  {
    IdMapOfKeys(w, Ids(t, w), |w|);
    forall i | 0 <= i < |w| ensures w[i].0 in IdMap(t, w) {
      assert w[i].0 in set j | 0 <= j < |w| :: w[j].0;
    }
  }

  lemma {:induction false} IdMapAt(t: Table, w: Workflow, i: nat)
    requires i < |w| && DistinctKeys(w)
    ensures w[i].0 in IdMap(t, w) && IdMap(t, w)[w[i].0] == Ids(t, w)[i]
  {
    IdMapOfAt(w, Ids(t, w), |w|);
  }
}
