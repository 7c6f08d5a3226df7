/**
 * What the node-id normaliser guarantees: the output keys are the assigned
 * ids, every rewritten reference resolves, colliding ids collapse with the
 * later node winning, the output is no larger than the input (equal exactly
 * when the id assignment is injective), and normalising an injectively
 * normalised workflow again changes nothing.
 */
module NormalizeFacts {
  import opened Wrappers
  import opened Dict
  import opened Json
  import opened Normalize

  // ----- pass two over any id map -----

  /** The keys of pass two's output are the new ids of the nodes seen so far. */
  lemma {:induction false} RebuildKeys(w: Workflow, m: map<string, string>, n: nat)
    requires n <= |w| && Covers(w, m)
    ensures Keys(Rebuild(w, m, n)) == set j | 0 <= j < n :: m[w[j].0]
    ensures DistinctKeys(Rebuild(w, m, n))
  {
    if n > 0 {
      RebuildKeys(w, m, n - 1);
      PutKeys(Rebuild(w, m, n - 1), m[w[n - 1].0], RewriteNode(w[n - 1].1, m));
      PutDistinct(Rebuild(w, m, n - 1), m[w[n - 1].0], RewriteNode(w[n - 1].1, m));
      assert (set j | 0 <= j < n :: m[w[j].0]) == (set j | 0 <= j < n - 1 :: m[w[j].0]) + {m[w[n - 1].0]};
    }
  }

  /** The same, when the id map sends each old id to a given sequence of new ids. */
  lemma {:induction false} RebuildKeysAre(w: Workflow, m: map<string, string>, ids: seq<string>)
    requires |ids| == |w| && Covers(w, m)
    requires forall j | 0 <= j < |w| :: m[w[j].0] == ids[j]
    ensures Keys(Rebuild(w, m, |w|)) == set i | 0 <= i < |w| :: ids[i]
    ensures DistinctKeys(Rebuild(w, m, |w|))
  {
    RebuildKeys(w, m, |w|);
    assert (set j | 0 <= j < |w| :: m[w[j].0]) == set i | 0 <= i < |w| :: ids[i];
  }

  /** Every node of pass two's output is some input node with its references rewritten. */
  lemma {:induction false} RebuildNodes(w: Workflow, m: map<string, string>, n: nat)
    requires n <= |w| && Covers(w, m)
    ensures forall e | e in Rebuild(w, m, n) :: exists j | 0 <= j < n :: e == (m[w[j].0], RewriteNode(w[j].1, m))
  {
    if n > 0 {
      RebuildNodes(w, m, n - 1);
      PutEntries(Rebuild(w, m, n - 1), m[w[n - 1].0], RewriteNode(w[n - 1].1, m));
    }
  }

  /**
   * A node whose id no later node shares ends up under that id; a node
   * whose id a later node shares is overwritten by it.
   */
  lemma {:induction false} RebuildLastWins(w: Workflow, m: map<string, string>, n: nat, i: nat)
    requires i < n <= |w| && Covers(w, m)
    requires forall j | i < j < n :: m[w[j].0] != m[w[i].0]
    ensures Get(Rebuild(w, m, n), m[w[i].0]) == Some(RewriteNode(w[i].1, m))
  {
    PutGet(Rebuild(w, m, n - 1), m[w[n - 1].0], RewriteNode(w[n - 1].1, m));
    if i < n - 1 {
      RebuildLastWins(w, m, n - 1, i);
    }
  }

  /** When the new ids are pairwise distinct, pass two keeps every node, in input order. */
  lemma {:induction false} RebuildInjective(w: Workflow, m: map<string, string>, n: nat)
    requires n <= |w| && Covers(w, m)
    requires forall i, j | 0 <= i < j < n :: m[w[i].0] != m[w[j].0]
    ensures Rebuild(w, m, n) == seq(n, j requires 0 <= j < n => (m[w[j].0], RewriteNode(w[j].1, m)))
  {
    if n > 0 {
      RebuildInjective(w, m, n - 1);
      RebuildKeys(w, m, n - 1);
      var k := m[w[n - 1].0];
      assert k !in Keys(Rebuild(w, m, n - 1));
      PutKeys(Rebuild(w, m, n - 1), k, RewriteNode(w[n - 1].1, m));
    }
  }

  /** Pass two never grows the workflow, and keeps its size exactly when the new ids are distinct. */
  lemma {:induction false} RebuildSize(w: Workflow, m: map<string, string>, n: nat)
    requires n <= |w| && Covers(w, m)
    ensures |Rebuild(w, m, n)| <= n
    ensures |Rebuild(w, m, n)| == n <==> forall i, j | 0 <= i < j < n :: m[w[i].0] != m[w[j].0]
  {
    if n > 0 {
      RebuildSize(w, m, n - 1);
      RebuildKeys(w, m, n - 1);
      var k := m[w[n - 1].0];
      PutKeys(Rebuild(w, m, n - 1), k, RewriteNode(w[n - 1].1, m));
      if k in Keys(Rebuild(w, m, n - 1)) {
        var j :| 0 <= j < n - 1 && m[w[j].0] == k;
        assert !(forall i, j | 0 <= i < j < n :: m[w[i].0] != m[w[j].0]);
      }
    }
  }

  // ----- one node -----

  /** Rewriting touches only the `inputs` field: every other field, the class type included, is kept. */
  lemma {:induction false} RewriteNodeFields(node: Json, m: map<string, string>)
    requires node.JObj?
    ensures RewriteNode(node, m).JObj?
    ensures forall k | k != "inputs" :: Get(RewriteNode(node, m).fields, k) == Get(node.fields, k)
    ensures ClassType(RewriteNode(node, m)) == ClassType(node)
    ensures match Get<Json>(node.fields, "inputs")
            case Some(JObj(inputs)) => Get<Json>(RewriteNode(node, m).fields, "inputs") == Some(JObj(RewriteInputs(inputs, m)))
            case _ => RewriteNode(node, m) == node
  {
    match Get<Json>(node.fields, "inputs")
    case Some(JObj(inputs)) =>
      PutGet(node.fields, "inputs", JObj(RewriteInputs(inputs, m)));
    case _ =>
  }

  /** A reference whose head is an old id is rewritten to a reference to that id's new id. */
  lemma {:induction false} RewriteValueResolves(v: Json, m: map<string, string>, keys: set<string>)
    requires Resolves(v, m.Keys)
    requires forall x | x in m :: m[x] in keys
    ensures Resolves(RewriteValue(v, m), keys)
  {
  }

  // ----- the normaliser -----

  /** The output's keys are exactly the assigned ids, and it is a dict. */
  lemma {:induction false} NormalizedKeys(t: Table, w: Workflow)
    requires DistinctKeys(w)
    ensures Keys(Normalized(t, w)) == set i | 0 <= i < |w| :: Ids(t, w)[i]
    ensures DistinctKeys(Normalized(t, w))
  {
    IdMapCovers(t, w);
    IdMapOfAt(w, Ids(t, w), |w|);
    RebuildKeysAre(w, IdMap(t, w), Ids(t, w));
  }

  /** Every new id a reference can be rewritten to is a key of the output. */
  lemma {:induction false} ReferencesResolve(t: Table, w: Workflow)
    ensures forall x | x in IdMap(t, w) :: IdMap(t, w)[x] in Keys(Normalized(t, w))
  {
    IdMapCovers(t, w);
    var m := IdMap(t, w);
    RebuildKeys(w, m, |w|);
    IdMapOfKeys(w, Ids(t, w), |w|);
    forall x | x in m ensures m[x] in Keys(Normalized(t, w)) {
      var j :| 0 <= j < |w| && w[j].0 == x;
      assert m[x] == m[w[j].0];
    }
  }

  /** The output is never larger than the input, and is as large exactly when the ids are distinct. */
  lemma {:induction false} NormalizedSize(t: Table, w: Workflow)
    requires DistinctKeys(w)
    ensures |Normalized(t, w)| <= |w|
    ensures |Normalized(t, w)| == |w| <==> Injective(Ids(t, w))
  {
    IdMapCovers(t, w);
    RebuildSize(w, IdMap(t, w), |w|);
    IdMapOfAt(w, Ids(t, w), |w|);
  }

  /** Nodes sharing an id collapse into one entry holding the last such node. */
  lemma {:induction false} LaterNodeWins(t: Table, w: Workflow, i: nat)
    requires DistinctKeys(w) && i < |w|
    requires forall j | i < j < |w| :: Ids(t, w)[j] != Ids(t, w)[i]
    ensures Get(Normalized(t, w), Ids(t, w)[i]) == Some(RewriteNode(w[i].1, IdMap(t, w)))
  {
    IdMapCovers(t, w);
    IdMapOfAt(w, Ids(t, w), |w|);
    RebuildLastWins(w, IdMap(t, w), |w|, i);
  }

  /** If every reference in the input names an existing node, so does every reference in the output. */
  lemma {:induction false} ResolutionPreserved(t: Table, w: Workflow)
    requires AllResolve(w)
    ensures AllResolve(Normalized(t, w))
  {
    IdMapCovers(t, w);
    var m := IdMap(t, w);
    var n := Normalized(t, w);
    ReferencesResolve(t, w);
    RebuildNodes(w, m, |w|);
    IdMapOfKeys(w, Ids(t, w), |w|);
    assert Keys(w) <= m.Keys by {
      forall x | x in Keys(w) ensures x in m {
        KeysIndex(w, x);
        var j :| 0 <= j < |w| && w[j].0 == x;
      }
    }
    forall i | 0 <= i < |n| ensures NodeResolves(n[i].1, Keys(n)) {
      assert n[i] in n;
      var j :| 0 <= j < |w| && n[i] == (m[w[j].0], RewriteNode(w[j].1, m));
      NodeResolvesRewritten(w[j].1, m, Keys(w), Keys(n));
    }
  }

  lemma {:induction false} NodeResolvesRewritten(node: Json, m: map<string, string>, before: set<string>, after: set<string>)
    requires NodeResolves(node, before) && before <= m.Keys
    requires forall x | x in m :: m[x] in after
    ensures NodeResolves(RewriteNode(node, m), after)
  {
    if node.JObj? {
      RewriteNodeFields(node, m);
      match Get<Json>(node.fields, "inputs")
      case Some(JObj(inputs)) =>
        forall j | 0 <= j < |inputs| ensures Resolves(RewriteInputs(inputs, m)[j].1, after) {
          RewriteValueResolves(inputs[j].1, m, after);
        }
      case _ =>
    }
  }

  // ----- normalising a normalised workflow -----

  /**
   * The shape of every id the normaliser assigns when the table's values
   * have it: it contains `_` and does not end in `]` or `}`. No `str()` of
   * a number, boolean, None, list or dict has that shape, so only a string
   * head can name such an id.
   */
  predicate IdLike(k: string)
  {
    '_' in k && k[|k| - 1] != ']' && k[|k| - 1] != '}'
  }

  predicate TableIdLike(t: Table)
  {
    forall c | c in t :: IdLike(t[c])
  }

  lemma {:induction false} CountSame(w1: Workflow, w2: Workflow, n: nat, c: string)
    requires n <= |w1| && n <= |w2|
    requires forall j | 0 <= j < n :: ClassType(w1[j].1) == ClassType(w2[j].1)
    ensures CountUpTo(w1, n, c) == CountUpTo(w2, n, c)
  {
    if n > 0 {
      CountSame(w1, w2, n - 1, c);
    }
  }

  /** Pass one looks only at the sequence of class types. */
  lemma {:induction false} SameClassesSameIds(t: Table, w1: Workflow, w2: Workflow)
    requires |w1| == |w2|
    requires forall j | 0 <= j < |w1| :: ClassType(w1[j].1) == ClassType(w2[j].1)
    ensures Ids(t, w1) == Ids(t, w2)
  {
    forall i | 0 <= i < |w1| ensures Ids(t, w1)[i] == Ids(t, w2)[i] {
      SameClassSameId(t, w1, w2, i);
    }
  }

  lemma {:induction false} SameClassSameId(t: Table, w1: Workflow, w2: Workflow, i: nat)
    requires i < |w1| == |w2|
    requires forall j | 0 <= j < |w1| :: ClassType(w1[j].1) == ClassType(w2[j].1)
    ensures NewId(t, w1, i) == NewId(t, w2, i)
  {
    var c := ClassType(w1[i].1);
    assert ClassType(w2[i].1) == c;
    CountSame(w1, w2, i + 1, c);
  }

  lemma {:induction false} CountedIdLike(c: string, n: nat)
    ensures IdLike(CountedId(c, n))
  {
    var k := CountedId(c, n);
    assert k[|Slug(c)|] == '_';
    assert k[|k| - 1] == NatToString(n)[|NatToString(n)| - 1];
  }

  lemma {:induction false} IdsIdLike(t: Table, w: Workflow)
    requires TableIdLike(t)
    ensures forall i | 0 <= i < |w| :: IdLike(Ids(t, w)[i])
  {
    forall i | 0 <= i < |w| ensures IdLike(NewId(t, w, i)) {
      var c := ClassType(w[i].1);
      if c !in t {
        CountedIdLike(c, CountUpTo(w, i + 1, c));
      }
    }
  }

  /** A map that sends each of its id-like keys to itself rewrites no value. */
  lemma {:induction false} RewriteValueFixed(v: Json, m: map<string, string>)
    requires forall k | k in m :: m[k] == k && IdLike(k)
    ensures RewriteValue(v, m) == v
  {
    if IsReference(v) && PyStr(v.items[0]) in m {
      var head := v.items[0];
      var r := PyStr(head);
      assert IdLike(r);
      assert v.items == [head, v.items[1]];
    }
  }

  /** ... and so no node. */
  lemma {:induction false} RewriteNodeFixed(node: Json, m: map<string, string>)
    requires forall k | k in m :: m[k] == k && IdLike(k)
    ensures RewriteNode(node, m) == node
  {
    if node.JObj? {
      match Get<Json>(node.fields, "inputs")
      case Some(JObj(inputs)) =>
        forall j | 0 <= j < |inputs| ensures RewriteInputs(inputs, m)[j] == inputs[j] {
          RewriteValueFixed(inputs[j].1, m);
        }
        assert RewriteInputs(inputs, m) == inputs;
        PutSame(node.fields, "inputs", JObj(inputs));
      case _ =>
    }
  }

  /** With distinct new ids, the output lists every node under its new id, in input order, class types kept. */
  lemma {:induction false} NormalizedInOrder(t: Table, w: Workflow)
    requires DistinctKeys(w) && Injective(Ids(t, w))
    ensures |Normalized(t, w)| == |w|
    ensures forall j | 0 <= j < |w| :: Normalized(t, w)[j].0 == Ids(t, w)[j]
    ensures forall j | 0 <= j < |w| :: ClassType(Normalized(t, w)[j].1) == ClassType(w[j].1)
  {
    IdMapCovers(t, w);
    var m := IdMap(t, w);
    IdMapOfAt(w, Ids(t, w), |w|);
    RebuildInjective(w, m, |w|);
    forall j | 0 <= j < |w| ensures ClassType(RewriteNode(w[j].1, m)) == ClassType(w[j].1) {
      if w[j].1.JObj? {
        RewriteNodeFields(w[j].1, m);
      }
    }
  }

  /**
   * Normalising again an output whose ids were assigned injectively gives
   * the same ids back, maps each of them to itself and rewrites nothing, so
   * the second result equals the first.
   */
  lemma {:induction false} NormalizeTwice(t: Table, w: Workflow)
    requires DistinctKeys(w) && Injective(Ids(t, w)) && TableIdLike(t)
    ensures Ids(t, Normalized(t, w)) == Ids(t, w)
    ensures Normalized(t, Normalized(t, w)) == Normalized(t, w)
  {
    var n := Normalized(t, w);
    NormalizedInOrder(t, w);
    NormalizedKeys(t, w);
    SameClassesSameIds(t, n, w);
    IdsIdLike(t, w);
    var m2 := IdMap(t, n);
    IdMapCovers(t, n);
    IdMapOfAt(n, Ids(t, n), |n|);
    IdMapOfKeys(n, Ids(t, n), |n|);
    forall k | k in m2 ensures m2[k] == k && IdLike(k) {
      var j :| 0 <= j < |n| && n[j].0 == k;
    }
    RebuildInjective(n, m2, |n|);
    forall j | 0 <= j < |n| ensures Rebuild(n, m2, |n|)[j] == n[j] {
      RewriteNodeFixed(n[j].1, m2);
    }
  }

  // ----- well-formedness is kept -----

  /**
   * Every node whose class_type is in the table gets that table's one fixed
   * id, so two such nodes of one class collide and the output loses a node:
   * a workflow's positive and negative CLIPTextEncode prompts become one.
   */
  lemma {:induction false} TablePeersCollapse(t: Table, w: Workflow, i: nat, j: nat)
    requires DistinctKeys(w) && i < j < |w|
    requires ClassType(w[i].1) in t && ClassType(w[j].1) == ClassType(w[i].1)
    ensures Ids(t, w)[i] == Ids(t, w)[j]
    ensures |Normalized(t, w)| < |w|
  {
    NormalizedSize(t, w);
  }

  /** A node the normaliser can process is, after rewriting, still one it can process. */
  lemma {:induction false} RewriteNodeOk(node: Json, m: map<string, string>)
    requires NodeOk(node)
    ensures NodeOk(RewriteNode(node, m))
  {
    RewriteNodeFields(node, m);
    match Get<Json>(node.fields, "inputs")
    case Some(JObj(inputs)) =>
      PutDistinct(node.fields, "inputs", JObj(RewriteInputs(inputs, m)));
      SameKeysDistinct(inputs, RewriteInputs(inputs, m));
    case _ =>
  }

  /** The output of the normaliser can be normalised again without raising. */
  lemma {:induction false} NormalizedWellFormed(t: Table, w: Workflow)
    requires WellFormed(w)
    ensures WellFormed(Normalized(t, w))
  {
    NormalizedKeys(t, w);
    var m := IdMap(t, w);
    IdMapCovers(t, w);
    var n := Normalized(t, w);
    RebuildNodes(w, m, |w|);
    forall i | 0 <= i < |n| ensures NodeOk(n[i].1) {
      assert n[i] in n;
      var j :| 0 <= j < |w| && n[i] == (m[w[j].0], RewriteNode(w[j].1, m));
      RewriteNodeOk(w[j].1, m);
    }
  }

  /** Every fixed id of handler.py's table has the shape of an assigned id. */
  lemma {:induction false} HandlerTableIdLike()
    ensures TableIdLike(HandlerTable)
  {
  }
}
