/**
 * test_workflow_normalization.py: its copy of the normaliser, whose table
 * lacks VHS_VideoCombine, and `test_normalization`, which normalises a
 * workflow twice, compares the results and scans the output for
 * references to nodes that do not exist.
 */
module NormTest {
  import opened Wrappers
  import opened Dict
  import opened Json
  import opened Normalize
  import opened NormalizeFacts

  /** The table of the test script: handler.py's without VHS_VideoCombine. */
  const TestTable: Table := map[
    "LoadDiffusionModelShared //Inspire" := "model_loader_1",
    "CLIPLoader" := "clip_loader_1",
    "VAELoader" := "vae_loader_1",
    "CLIPVisionLoader" := "clip_vision_loader_1",
    "WanImageToVideo" := "wan_i2v_1",
    "LoadImage" := "load_image_1",
    "CLIPVisionEncode" := "clip_vision_encode_1",
    "ModelSamplingSD3" := "model_sampling_1",
    "KSampler" := "ksampler_1",
    "VAEDecode" := "vae_decode_1",
    "CLIPTextEncode" := "clip_text_encode",
    "SaveAnimatedWEBP" := "save_webp_1"
  ]

  const Vhs: string := "VHS_VideoCombine"

  /** The test script's normaliser. */
  method NormalizeWorkflowNodeIds(w: Workflow) returns (r: Workflow)
    requires WellFormed(w)
    ensures r == Normalized(TestTable, w)
  {
    r := NormalizeIds(w, TestTable);
  }

  // ----- agreement with handler.py's table -----

  lemma {:induction false} TestTableIsHandlerTableWithoutVhs()
    ensures TestTable == HandlerTable - {Vhs}
  {
  }

  /** `Slug` lowers each letter and turns each space into `_`, keeping the length. */
  lemma {:induction false} SlugAt(s: string)
    ensures |Slug(s)| == |s|
    ensures forall i | 0 <= i < |s| :: Slug(s)[i] == if s[i] == ' ' then '_' else LowerChar(s[i])
  {
    if s != [] {
      SlugAt(s[1..]);
    }
  }

  lemma {:induction false} CountMonotone(w: Workflow, n: nat, m: nat, c: string)
    requires n <= m <= |w|
    ensures CountUpTo(w, n, c) <= CountUpTo(w, m, c)
  {
    if n < m {
      CountMonotone(w, n, m - 1, c);
    }
  }

  lemma {:induction false} NatToStringOne(n: nat)
    ensures NatToString(n) == "1" <==> n == 1
  {
    if n >= 10 {
      assert |NatToString(n)| >= 2;
    }
  }

  /** `Slug` of a concatenation is the concatenation of the slugs. */
  lemma {:induction false} SlugAppend(a: string, b: string)
    ensures Slug(a + b) == Slug(a) + Slug(b)
  {
    if a == [] {
      assert a + b == b;
    } else {
      assert (a + b)[0] == a[0] && (a + b)[1..] == a[1..] + b;
      SlugAppend(a[1..], b);
    }
  }

  /** The slug of a four-letter piece without spaces, letter by letter. */
  lemma {:induction false} Slug4(s: string)
    requires |s| == 4 && ' ' !in s
    ensures Slug(s) == [LowerChar(s[0]), LowerChar(s[1]), LowerChar(s[2]), LowerChar(s[3])]
  {
    SlugAt(s);
  }

  lemma {:induction false} VhsPieces()
    ensures Vhs == "VHS_" + "Vide" + "oCom" + "bine"
    ensures "vhs_" + "vide" + "ocom" + "bine" + "_" + "1" == HandlerTable[Vhs]
  {
  }

  lemma {:induction false} SlugPieces()
    ensures Slug("VHS_") == "vhs_" && Slug("Vide") == "vide"
    ensures Slug("oCom") == "ocom" && Slug("bine") == "bine"
  {
    Slug4("VHS_");
    Slug4("Vide");
    Slug4("oCom");
    Slug4("bine");
  }

  /** The first counted id of a class name made of four pieces, from the pieces' slugs. */
  lemma {:induction false} CountedIdFromPieces(c: string, p1: string, p2: string, p3: string, p4: string)
    requires c == p1 + p2 + p3 + p4
    ensures CountedId(c, 1) == Slug(p1) + Slug(p2) + Slug(p3) + Slug(p4) + "_" + "1"
  {
    SlugAppend(p1, p2);
    SlugAppend(p1 + p2, p3);
    SlugAppend(p1 + p2 + p3, p4);
    assert NatToString(1) == "1";
  }

  /** The first counted id of VHS_VideoCombine is handler.py's fixed id for it. */
  lemma {:induction false} SlugVhs()
    ensures CountedId(Vhs, 1) == HandlerTable[Vhs]
  {
    VhsPieces();
    SlugPieces();
    CountedIdFromPieces(Vhs, "VHS_", "Vide", "oCom", "bine");
  }

  /** Counted ids of one class differ from its first exactly for counts other than 1. */
  lemma {:induction false} CountedIdFirst(c: string, k: nat)
    ensures CountedId(c, k) == CountedId(c, 1) <==> k == 1
  {
    var prefix := Slug(c) + "_";
    assert (prefix + NatToString(k))[|prefix|..] == NatToString(k);
    assert (prefix + NatToString(1))[|prefix|..] == NatToString(1);
    NatToStringOne(k);
  }

  /**
   * Two tables that differ only in class `x`, which the larger one maps to
   * the first counted id of `x`, give a node the same id exactly when it is
   * not a node of class `x` after the first.
   */
  lemma {:induction false} IdsAgreeWithout(small: Table, large: Table, x: string, w: Workflow, i: nat)
    requires small == large - {x} && x in large && large[x] == CountedId(x, 1)
    requires i < |w|
    ensures Ids(small, w)[i] == Ids(large, w)[i] <==> ClassType(w[i].1) != x || CountUpTo(w, i + 1, x) == 1
  {
    CountedIdFirst(x, CountUpTo(w, i + 1, x));
  }

  /**
   * Both tables give a node the same id, except a VHS_VideoCombine node
   * after the first: the test script counts it to `vhs_videocombine_2`,
   * `_3`, ... where handler.py's table always says `vhs_videocombine_1`.
   */
  lemma {:induction false} IdsAgreeAt(w: Workflow, i: nat)
    requires i < |w|
    ensures Ids(TestTable, w)[i] == Ids(HandlerTable, w)[i] <==>
              ClassType(w[i].1) != Vhs || CountUpTo(w, i + 1, Vhs) == 1
  {
    TestTableIsHandlerTableWithoutVhs();
    SlugVhs();
    IdsAgreeWithout(TestTable, HandlerTable, Vhs, w, i);
  }

  /** With at most one node of class `x`, two tables that differ only in `x` assign the same ids. */
  lemma {:induction false} IdsAgreeAll(small: Table, large: Table, x: string, w: Workflow)
    requires small == large - {x} && x in large && large[x] == CountedId(x, 1)
    requires CountClass(w, x) <= 1
    ensures Ids(small, w) == Ids(large, w)
  {
    forall i | 0 <= i < |w| ensures Ids(small, w)[i] == Ids(large, w)[i] {
      IdAgrees(small, large, x, w, i);
    }
  }

  lemma {:induction false} IdAgrees(small: Table, large: Table, x: string, w: Workflow, i: nat)
    requires small == large - {x} && x in large && large[x] == CountedId(x, 1)
    requires CountClass(w, x) <= 1 && i < |w|
    ensures Ids(small, w)[i] == Ids(large, w)[i]
  {
    IdsAgreeWithout(small, large, x, w, i);
    if ClassType(w[i].1) == x {
      CountMonotone(w, i + 1, |w|, x);
      assert CountUpTo(w, i + 1, x) == CountUpTo(w, i, x) + 1;
    }
  }

  /**
   * With at most one VHS_VideoCombine node the test script's normaliser
   * returns exactly what handler.py's does.
   */
  lemma {:induction false} TablesAgree(w: Workflow)
    requires CountClass(w, Vhs) <= 1
    ensures Normalized(TestTable, w) == Normalized(HandlerTable, w)
  {
    TestTableIsHandlerTableWithoutVhs();
    SlugVhs();
    IdsAgreeAll(TestTable, HandlerTable, Vhs, w);
  }

  /** A class with two nodes among the first `n` has a node, among them, that is its second or later. */
  lemma {:induction false} LaterPeer(w: Workflow, n: nat, c: string) returns (i: nat)
    requires n <= |w| && CountUpTo(w, n, c) >= 2
    ensures i < n && ClassType(w[i].1) == c && CountUpTo(w, i + 1, c) >= 2
  {
    if CountUpTo(w, n - 1, c) >= 2 {
      i := LaterPeer(w, n - 1, c);
    } else {
      i := n - 1;
    }
  }

  /**
   * Both tables assign a workflow the same ids exactly when it has at most
   * one `VHS_VideoCombine` node; the outputs are then equal too.
   */
  lemma {:induction false} IdsAgreeIff(w: Workflow)
    ensures Ids(TestTable, w) == Ids(HandlerTable, w) <==> CountClass(w, Vhs) <= 1
  {
    if CountClass(w, Vhs) <= 1 {
      TestTableIsHandlerTableWithoutVhs();
      SlugVhs();
      IdsAgreeAll(TestTable, HandlerTable, Vhs, w);
    } else {
      var i := LaterPeer(w, |w|, Vhs);
      IdsAgreeAt(w, i);
    }
  }

  lemma {:induction false} InjectiveTwo(s: seq<string>)
    requires |s| == 2 && s[0] != s[1]
    ensures Injective(s)
  {
    forall i, j | 0 <= i < j < 2 ensures s[i] != s[j] {
      assert i == 0 && j == 1;
    }
  }

  /**
   * Two VHS_VideoCombine nodes and nothing else: handler.py collapses them
   * into one node, the test script keeps both.
   */
  lemma {:induction false} TwoVhsNodesDiverge(w: Workflow)
    requires |w| == 2 && DistinctKeys(w)
    requires ClassType(w[0].1) == Vhs && ClassType(w[1].1) == Vhs
    ensures |Normalized(HandlerTable, w)| == 1
    ensures |Normalized(TestTable, w)| == 2
  {
    IdsAgreeAt(w, 0);
    IdsAgreeAt(w, 1);
    assert CountUpTo(w, 2, Vhs) == 2;
    var hs := Ids(HandlerTable, w);
    assert hs[0] == hs[1];
    var ts := Ids(TestTable, w);
    assert ts[0] != ts[1];
    InjectiveTwo(ts);
    NormalizedSize(HandlerTable, w);
    NormalizedSize(TestTable, w);
    NormalizedKeys(HandlerTable, w);
    assert hs[0] in Keys(Normalized(HandlerTable, w));
  }

  /** Nodes 53 and 70 of the endpoint test's graph, both VHS_VideoCombine. */
  function TwoVhs(): Workflow
  {
    var node := JObj([("class_type", JStr(Vhs))]);
    [("53", node), ("70", node)]
  }

  lemma {:induction false} TwoVhsDiverge()
    ensures WellFormed(TwoVhs())
    ensures |Normalized(HandlerTable, TwoVhs())| == 1 && |Normalized(TestTable, TwoVhs())| == 2
  {
    var w := TwoVhs();
    var node := w[0].1;
    assert NodeOk(node) by {
      assert node.fields[1..] == [];
      assert Get(node.fields, "inputs") == None;
      assert Get(node.fields, "class_type") == Some(JStr(Vhs));
    }
    forall i | 0 <= i < |w| ensures NodeOk(w[i].1) {
      assert w[i].1 == node;
    }
    assert Keys(w[1..]) == {"70"} by {
      assert w[1..][1..] == [];
    }
    TwoVhsNodesDiverge(w);
  }

  // ----- test_normalization's reference scan -----

  /** What the scan needs of each node: a dict whose inputs, if any, are a dict. */
  predicate Scannable(n: Workflow)
  {
    forall i | 0 <= i < |n| ::
      n[i].1.JObj? && match Get(n[i].1.fields, "inputs") case Some(v) => v.JObj? case None => true
  }

  /** The error recorded for input `inputKey` of node `nodeId` when its reference names no node. */
  function DanglingMessage(nodeId: string, head: Json, inputKey: string): string
  {
    "Node " + nodeId + " references non-existent node " + PyStr(head) + " in input " + inputKey
  }

  /** The errors for the first `k` inputs of one node. */
  function InputErrors(nodeId: string, inputs: Obj, keys: set<string>, k: nat): seq<string>
    requires k <= |inputs|
  {
    if k == 0 then []
    else
      InputErrors(nodeId, inputs, keys, k - 1) +
      (if Resolves(inputs[k - 1].1, keys) then []
       else [DanglingMessage(nodeId, inputs[k - 1].1.items[0], inputs[k - 1].0)])
  }

  function NodeErrors(nodeId: string, node: Json, keys: set<string>): seq<string>
  {
    match node
    case JObj(fields) =>
      (match Get<Json>(fields, "inputs")
       case Some(JObj(inputs)) => InputErrors(nodeId, inputs, keys, |inputs|)
       case _ => [])
    case _ => []
  }

  /** `reference_errors` once the first `k` nodes have been scanned. */
  function ScanErrors(n: Workflow, k: nat): seq<string>
    requires k <= |n|
  {
    if k == 0 then [] else ScanErrors(n, k - 1) + NodeErrors(n[k - 1].0, n[k - 1].1, Keys(n))
  }

  /** The nested loops of the scan. */
  method ReferenceErrors(n: Workflow) returns (errors: seq<string>)
    requires Scannable(n)
    ensures errors == ScanErrors(n, |n|)
  {
    errors := [];
    var keys := Keys(n);
    var i := 0;
    while i < |n|
      invariant i <= |n|
      invariant errors == ScanErrors(n, i)
    {
      var inputs := Get(n[i].1.fields, "inputs");
      if inputs.Some? {
        var found := InputReferenceErrors(n[i].0, inputs.value.fields, keys);
        errors := errors + found;
      }
      i := i + 1;
    }
  }

  /** The inner loop of the scan, over the inputs of one node. */
  method InputReferenceErrors(nodeId: string, inputs: Obj, keys: set<string>) returns (errors: seq<string>)
    ensures errors == InputErrors(nodeId, inputs, keys, |inputs|)
  {
    errors := [];
    var j := 0;
    while j < |inputs|
      invariant j <= |inputs|
      invariant errors == InputErrors(nodeId, inputs, keys, j)
    {
      var value := inputs[j].1;
      if value.JList? && |value.items| == 2 {
        var referenced := PyStr(value.items[0]);
        if referenced !in keys {
          errors := errors + [DanglingMessage(nodeId, value.items[0], inputs[j].0)];
        }
      }
      j := j + 1;
    }
  }

  lemma {:induction false} InputErrorsEmpty(nodeId: string, inputs: Obj, keys: set<string>, k: nat)
    requires k <= |inputs|
    ensures InputErrors(nodeId, inputs, keys, k) == [] <==> forall j | 0 <= j < k :: Resolves(inputs[j].1, keys)
  {
    if k > 0 {
      InputErrorsEmpty(nodeId, inputs, keys, k - 1);
    }
  }

  /** The scan finds no error exactly when every reference-shaped input names a node. */
  lemma {:induction false} ScanErrorsEmpty(n: Workflow, k: nat)
    requires k <= |n|
    ensures ScanErrors(n, k) == [] <==> forall i | 0 <= i < k :: NodeResolves(n[i].1, Keys(n))
  {
    if k > 0 {
      ScanErrorsEmpty(n, k - 1);
      var node := n[k - 1].1;
      if node.JObj? {
        var inputs := Get<Json>(node.fields, "inputs");
        if inputs.Some? && inputs.value.JObj? {
          InputErrorsEmpty(n[k - 1].0, inputs.value.fields, Keys(n), |inputs.value.fields|);
        }
      }
    }
  }

  /**
   * `test_normalization` on a loaded workflow (None when the file is
   * missing or does not load). It passes exactly when every reference in
   * the normalised workflow resolves, and it always passes when every
   * reference in the original resolves, colliding ids or not.
   */
  method TestNormalization(original: Option<Workflow>) returns (passed: bool)
    requires original.Some? ==> WellFormed(original.value)
    ensures passed <==> original.Some? && AllResolve(Normalized(TestTable, original.value))
    ensures original.Some? && AllResolve(original.value) ==> passed
  {
    if original.None? {
      return false;
    }
    var w := original.value;
    var normalized := NormalizeWorkflowNodeIds(w);
    var normalizedAgain := NormalizeWorkflowNodeIds(w);
    assert normalized == normalizedAgain;
    NormalizedWellFormed(TestTable, w);
    var errors := ReferenceErrors(normalized);
    ScanErrorsEmpty(normalized, |normalized|);
    passed := errors == [];
    if AllResolve(w) {
      ResolutionPreserved(TestTable, w);
    }
  }
}
