/** What the walk over a restored worker achieves, read off the state it leaves.  `Worker.Reinitialize` leaves a
    `Good` state whose log is the walk from all the roots. */
module RebindingTheorems {
  import opened Substitution
  import opened Rebinding

  function Visits(s: State, c: nat): nat { multiset(s.past.log)[c] }

  /** What `c` held is replaced, tensor by tensor, by the one map from addresses to new tensors. */
  ghost predicate Substituted(s: State, c: nat)
  {
    && c in s.cells && c in s.past.begun.cells
    && s.cells[c] == Sub(s.past.begun.cells[c], s.memo, s.past.begun.base)
    && Covered(s.past.begun.cells[c], s.memo, s.past.begun.base)
  }

  /** The walk is the substitution on a cell it reaches exactly if it reaches it once, or had nothing to replace. */
  lemma CellIsSubstituted(s: State, c: nat)
    requires Good(s) && c in s.past.log && c in s.cells
    ensures c in s.past.begun.cells
    ensures Substituted(s, c) <==> Visits(s, c) == 1 || !HasManaged(s.past.begun.cells[c], s.past.begun.base)
  {
    assert Sound(Walked, s);
    var v0, v, b := s.past.begun.cells[c], s.cells[c], s.past.begun.base;
    if !HasManaged(v0, b) {
      UnmanagedStays(v0, v, Visits(s, c), s.memo, b);
      UnmanagedIsCovered(v0, s.memo, b);
    } else if Visits(s, c) > 1 {
      StrayedDiffers(v0, v, s.memo, b);
    }
  }

  lemma {:induction false} UnmanagedIsCovered(v: Value, memo: Memo, a: set<int>)
    requires !HasManaged(v, a)
    ensures Covered(v, memo, a)
  {
    if v.TupleV? {
      forall i | 0 <= i < |v.items| ensures Covered(v.items[i], memo, a) {
        UnmanagedIsCovered(v.items[i], memo, a);
      }
    }
  }

  /** All cells at once.  The condition is about the roots and the graph: it can be checked before the walk. */
  lemma WalkIsSubstitution(s: State)
    requires Good(s)
    ensures s.cells.Keys == s.past.begun.cells.Keys
    ensures (forall c :: c in s.cells && c in s.past.log ==> Substituted(s, c)) <==>
            (forall c :: c in s.cells && c in s.past.log ==>
              Visits(s, c) == 1 || !HasManaged(s.past.begun.cells[c], s.past.begun.base))
    ensures forall c :: c in s.cells && c !in s.past.log ==> s.cells[c] == s.past.begun.cells[c]
  {
    assert Sound(Walked, s);
    forall c | c in s.cells && c in s.past.log
      ensures Substituted(s, c) <==> Visits(s, c) == 1 || !HasManaged(s.past.begun.cells[c], s.past.begun.base)
    {
      CellIsSubstituted(s, c);
    }
    forall c | c in s.cells && c !in s.past.log ensures s.cells[c] == s.past.begun.cells[c] {
      assert Visits(s, c) == 0;
    }
  }

  // Two modules that share one parameter object: the walk visits it twice.
  const T0 := Tensor(0, 0, true, 1, 0)
  const T1 := Tensor(1, 1, true, 1, 0)
  const T2 := Tensor(2, 2, true, 1, 0)
  const TIED := State(map[0 := TensorV(T2)], map[1 := false, 2 := false], map[0 := T1, 1 := T2], 2, 3,
                      Past(Begun(map[0 := TensorV(T0)], map[0 := []], map[0 := 0], 1, {0}, {0}), {0, 1, 2}, [0, 0],
                           multiset{0}))

  lemma TiedIsWalked()
    ensures Sound(Walked, TIED)
  {
    assert multiset(TIED.past.log)[0] == 2;
    assert TIED.memo[1] in TIED.memo.Values;
  }

  lemma TiedIsUnseen()
    ensures Sound(Unseen, TIED)
  {
    assert Older(TensorV(T0), 1, {0}, {0, 1, 2});
  }

  lemma TiedIsLive()
    ensures Sound(Live, TIED)
  {
    assert Held(TensorV(T1), TIED.table, {0, 1, 2}, 3) && Held(TensorV(T2), TIED.table, {0, 1, 2}, 3);
  }

  lemma TiedIsDrawn()
    ensures Sound(Drawings, TIED)
  {
    assert Managed(TIED.past.begun.cells, 0, T0, {0});
  }

  const SHARING := Module([0], [], [])

  lemma ModelRootsOfTwo(m: Module)
    ensures ModelRoots([m, m]) == m.params + m.buffers + (m.params + m.buffers) + (m.kvCache + m.kvCache)
  {
    assert [m, m][1..] == [m] && [m][1..] == [];
    assert WeightRoots([m]) == m.params + m.buffers && KvRoots([m]) == m.kvCache;
  }

  lemma WalkOfTwo(g: Graph, rank: map<nat, nat>, c: nat)
    requires Ranked(g, rank) && c in g && g[c] == []
    ensures WalkRoots(g, rank, [c, c]) == [c, c]
  {
    assert WalkAll(g, rank, [], rank[c]) == [];
    assert WalkCell(g, rank, c) == [] + [c] == [c];
    OneMoreRoot(g, rank, [], c);
    OneMoreRoot(g, rank, [] + [c], c);
    assert [] + [c] + [c] == [c, c];
  }

  lemma OneMoreRoot(g: Graph, rank: map<nat, nat>, roots: seq<nat>, c: nat)
    requires Ranked(g, rank) && c in g && forall d :: d in roots ==> d in g
    ensures WalkRoots(g, rank, roots + [c]) == WalkRoots(g, rank, roots) + WalkCell(g, rank, c)
  {
    assert (roots + [c])[..|roots|] == roots;
  }

  /** It is what the walk over the two modules stores into. */
  lemma TiedIsTheWalk()
    ensures ModelRoots([SHARING, SHARING]) == [0, 0]
    ensures var b := TIED.past.begun; Ranked(b.graph, b.rank) && TIED.past.log == WalkRoots(b.graph, b.rank, [0, 0])
  {
    ModelRootsOfTwo(SHARING);
    WalkOfTwo(TIED.past.begun.graph, TIED.past.begun.rank, 0);
  }

  lemma TiedIsFreed()
    ensures Sound(Freed, TIED)
  {
  }

  lemma TiedIsCounted()
    ensures Sound(Counted, TIED)
  {
    assert |TIED.memo| == |TIED.memo.Keys| == |{0, 1}|;
  }

  lemma TiedIsGood()
    ensures Good(TIED)
  {
    TiedIsWalked();
    TiedIsUnseen();
    TiedIsLive();
    TiedIsDrawn();
    TiedIsFreed();
    TiedIsCounted();
    forall clause: Clause ensures Sound(clause, TIED) {
      match clause
      case _ =>
    }
  }

  /** What it then holds is not what the substitution says, though the state is a good one that the walk over two
      modules leaves. */
  lemma TiedParameterStrays()
    ensures Good(TIED) && 0 in TIED.past.log && !Substituted(TIED, 0)
    ensures ModelRoots([SHARING, SHARING]) == [0, 0]
    ensures var b := TIED.past.begun; Ranked(b.graph, b.rank) && TIED.past.log == WalkRoots(b.graph, b.rank, [0, 0])
  {
    TiedIsGood();
    TiedIsTheWalk();
    TiedIsNotSubstituted();
  }

  lemma TiedIsNotSubstituted()
    ensures 0 in TIED.past.log && !Substituted(TIED, 0)
  {
    assert Sub(TensorV(T0), TIED.memo, {0}) == TensorV(T1) && TIED.cells[0] == TensorV(T2);
  }

  /** However often cells are visited, lists and tuples keep their form. */
  lemma NestingKept(s: State, c: nat)
    requires Good(s) && c in s.cells
    ensures c in s.past.begun.cells && SameNesting(s.past.begun.cells[c], s.cells[c])
  {
    assert Sound(Walked, s);
    TracksNesting(s.past.begun.cells[c], s.cells[c], Visits(s, c), s.memo, s.past.begun.base);
  }

  predicate SameNesting(v: Value, w: Value) {
    match v
    case TensorV(_) => w.TensorV?
    case TupleV(items) => w.TupleV? && |w.items| == |items| && forall i :: 0 <= i < |items| ==> SameNesting(items[i], w.items[i])
    case _ => w == v
  }

  lemma {:induction false} TracksNesting(v: Value, w: Value, n: nat, memo: Memo, a: set<int>)
    requires Tracks(v, w, n, memo, a)
    ensures SameNesting(v, w)
    decreases v
  {
    if v.TupleV? {
      forall i | 0 <= i < |v.items| ensures SameNesting(v.items[i], w.items[i]) {
        TracksNesting(v.items[i], w.items[i], n, memo, a);
      }
    }
  }

  /** Tensors at one address stay at one address, tensors at two addresses at two; a replacement is never where a
      tensor that was left alone is. */
  lemma AliasesKept(s: State, c: nat, d: nat, t: Tensor, u: Tensor)
    requires Good(s) && c in s.cells && d in s.cells && Substituted(s, c) && Substituted(s, d)
    requires t in Tensors(s.past.begun.cells[c]) && u in Tensors(s.past.begun.cells[d])
    requires Hits(t, s.past.begun.base)
    ensures var b := s.past.begun.base;
            Renamed(t, s.memo, b).ptr == Renamed(u, s.memo, b).ptr <==> Hits(u, b) && t.ptr == u.ptr
  {
    assert Sound(Walked, s) && Sound(Unseen, s);
    CoversTensor(s.past.begun.cells[c], t, s.memo, s.past.begun.base);
    CoversTensor(s.past.begun.cells[d], u, s.memo, s.past.begun.base);
    TensorsAddress(s.past.begun.cells[d], u);
  }

  lemma {:induction false} CoversTensor(v: Value, t: Tensor, memo: Memo, a: set<int>)
    requires Covered(v, memo, a) && t in Tensors(v)
    ensures Hits(t, a) ==> t.ptr in memo
    ensures Renamed(t, memo, a) in Tensors(Sub(v, memo, a))
  {
    if v.TupleV? {
      var i :| 0 <= i < |v.items| && t in Tensors(v.items[i]);
      CoversTensor(v.items[i], t, memo, a);
      assert Sub(v, memo, a).items[i] == Sub(v.items[i], memo, a);
    }
  }

  lemma {:induction false} SubTensor(v: Value, u: Tensor, memo: Memo, a: set<int>)
    requires Covered(v, memo, a) && u in Tensors(Sub(v, memo, a))
    ensures exists t :: t in Tensors(v) && u == Renamed(t, memo, a) && (Hits(t, a) ==> t.ptr in memo)
  {
    if v.TensorV? {
      assert v.t in Tensors(v);
    } else if v.TupleV? {
      var i :| 0 <= i < |v.items| && u in Tensors(Sub(v, memo, a).items[i]);
      SubTensor(v.items[i], u, memo, a);
      var t :| t in Tensors(v.items[i]) && u == Renamed(t, memo, a) && (Hits(t, a) ==> t.ptr in memo);
      assert t in Tensors(v);
    }
  }

  /** After the walk nothing it reached is backed by an allocation from before the walk. */
  lemma NothingStaleIsReached(s: State, c: nat, u: Tensor)
    requires Good(s) && c in s.cells && c in s.past.log && u in Tensors(s.cells[c])
    ensures u.cuda && u.numel != 0 ==> u.ptr !in s.past.begun.base && u.storage !in s.past.begun.base
  {
    assert Sound(Walked, s) && Sound(Unseen, s);
    var v0, b := s.past.begun.cells[c], s.past.begun.base;
    if Visits(s, c) == 1 {
      SubTensor(v0, u, s.memo, b);
      var t :| t in Tensors(v0) && u == Renamed(t, s.memo, b) && (Hits(t, b) ==> t.ptr in s.memo);
    } else {
      StrayedTensor(v0, s.cells[c], u, s.memo, b);
    }
  }

  lemma {:induction false} StrayedTensor(v0: Value, v: Value, u: Tensor, memo: Memo, a: set<int>)
    requires Strayed(v0, v, memo, a) && u in Tensors(v)
    ensures u in memo.Values || !Hits(u, a)
    decreases v0
  {
    if v0.TupleV? {
      var i :| 0 <= i < |v.items| && u in Tensors(v.items[i]);
      StrayedTensor(v0.items[i], v.items[i], u, memo, a);
    }
  }

  /** `v` holds a list of which `d` is a cell. */
  ghost predicate Mentions(v: Value, d: nat) {
    match v
    case ListV(cells) => d in cells
    case TupleV(items) => exists i :: 0 <= i < |items| && Mentions(items[i], d)
    case _ => false
  }

  lemma {:induction false} MentionsAreRefs(v: Value, d: nat)
    ensures d in Refs(v) <==> Mentions(v, d)
    decreases v, 0
  {
    if v.TupleV? {
      MentionsAreRefsAll(v.items, d);
    }
  }

  lemma {:induction false} MentionsAreRefsAll(items: seq<Value>, d: nat)
    ensures d in RefsAll(items) <==> exists i :: 0 <= i < |items| && Mentions(items[i], d)
    decreases items, 1
  {
    if items != [] {
      MentionsAreRefs(items[0], d);
      MentionsAreRefsAll(items[1..], d);
      if i :| 0 <= i < |items[1..]| && Mentions(items[1..][i], d) {
        assert Mentions(items[i + 1], d);
      }
      if i :| 0 <= i < |items| && Mentions(items[i], d) {
        assert i > 0 ==> items[1..][i - 1] == items[i];
      }
    }
  }

  /** A cell is stored into after the cells of the lists it holds. */
  lemma ListsComeFirst(b: Begun, c: nat, d: nat)
    requires b.graph == GraphOf(b.cells) && Ranked(b.graph, b.rank) && c in b.cells && Mentions(b.cells[c], d)
    ensures var log := WalkCell(b.graph, b.rank, c); |log| > 1 && log[|log| - 1] == c && d in log[..|log| - 1]
  {
    MentionsAreRefs(b.cells[c], d);
    AllAreWalked(b.graph, b.rank, b.graph[c], b.rank[c], d, d);
    var log := WalkCell(b.graph, b.rank, c);
    assert log[..|log| - 1] == WalkAll(b.graph, b.rank, b.graph[c], b.rank[c]);
  }

  /** The walk from some roots reaches these and every cell of every list it finds, inside tuples as well. */
  lemma EverythingIsReached(b: Begun, roots: seq<nat>, c: nat, d: nat)
    requires b.graph == GraphOf(b.cells) && Ranked(b.graph, b.rank) && forall r :: r in roots ==> r in b.cells
    ensures var log := WalkRoots(b.graph, b.rank, roots);
            && (c in roots ==> c in log)
            && (c in log ==> c in b.cells && (Mentions(b.cells[c], d) ==> d in log))
  {
    RootsAreWalked(b.graph, b.rank, roots, c, d);
    if c in b.cells {
      MentionsAreRefs(b.cells[c], d);
    }
  }

  lemma {:induction false} RootsAreWalked(g: Graph, rank: map<nat, nat>, roots: seq<nat>, c: nat, d: nat)
    requires Ranked(g, rank) && forall r :: r in roots ==> r in g
    ensures var log := WalkRoots(g, rank, roots);
            (c in roots ==> c in log) && (c in log ==> c in g && (d in g[c] ==> d in log))
  {
    if roots != [] {
      var n := |roots| - 1;
      assert roots == roots[..n] + [roots[n]];
      RootsAreWalked(g, rank, roots[..n], c, d);
      CellIsWalked(g, rank, roots[n], c, d);
    }
  }

  lemma {:induction false} CellIsWalked(g: Graph, rank: map<nat, nat>, r: nat, c: nat, d: nat)
    requires Ranked(g, rank) && r in g
    ensures var log := WalkCell(g, rank, r); r in log && (c in log ==> c in g && (d in g[c] ==> d in log))
    decreases rank[r], 1, 0
  {
    AllAreWalked(g, rank, g[r], rank[r], c, d);
    AllAreWalked(g, rank, g[r], rank[r], d, d);
  }

  lemma {:induction false} AllAreWalked(g: Graph, rank: map<nat, nat>, ids: seq<nat>, r: nat, c: nat, d: nat)
    requires Ranked(g, rank) && Below(g, rank, ids, r)
    ensures var log := WalkAll(g, rank, ids, r);
            (c in ids ==> c in log) && (c in log ==> c in g && (d in g[c] ==> d in log))
    decreases r, 0, |ids|
  {
    if ids != [] {
      var n := |ids| - 1;
      assert ids == ids[..n] + [ids[n]];
      AllAreWalked(g, rank, ids[..n], r, c, d);
      CellIsWalked(g, rank, ids[n], c, d);
    }
  }

  /** A tensor on the GPU that was backed by such an allocation, through its own address or that of its storage, is gone
      from a cell that was reached; after one visit the cell has the tensor made for its address instead. */
  lemma ManagedIsReplaced(s: State, c: nat, t: Tensor)
    requires Good(s) && c in s.cells && c in s.past.log && c in s.past.begun.cells && t in Tensors(s.past.begun.cells[c])
    requires t.cuda && t.numel != 0 && (t.ptr in s.past.begun.base || t.storage in s.past.begun.base)
    ensures t !in Tensors(s.cells[c]) && s.cells[c] != s.past.begun.cells[c]
    ensures Visits(s, c) == 1 ==> t.ptr in s.memo && s.memo[t.ptr] in Tensors(s.cells[c])
  {
    assert Sound(Walked, s) && Sound(Unseen, s);
    if t in Tensors(s.cells[c]) {
      NothingStaleIsReached(s, c, t);
    }
    if Visits(s, c) == 1 {
      CoversTensor(s.past.begun.cells[c], t, s.memo, s.past.begun.base);
    }
  }

  // ----- Layouts -------------------------------------------------------------------------------------------

  ghost predicate AliasesAgree(b: Begun) {
    forall c, d, t, u :: Managed(b.cells, c, t, b.base) && Managed(b.cells, d, u, b.base) && t.ptr == u.ptr ==> SameForm(t, u)
  }

  ghost predicate FormsKept(s: State) {
    forall c, t :: Managed(s.past.begun.cells, c, t, s.past.begun.base) ==>
                     SameForm(t, Renamed(t, s.memo, s.past.begun.base))
  }

  /** One tensor is made per address, so every slot keeps its shape, stride, dtype and device exactly if the slots
      that shared an address agreed on them. */
  lemma FormsKeptIfAliasesAgree(s: State)
    requires Good(s)
    requires forall c, t :: Managed(s.past.begun.cells, c, t, s.past.begun.base) ==> Substituted(s, c)
    ensures FormsKept(s) <==> AliasesAgree(s.past.begun)
    ensures FormsKept(s) <==>
      forall c, t :: Managed(s.past.begun.cells, c, t, s.past.begun.base) ==>
        var r := Renamed(t, s.memo, s.past.begun.base); r.cuda == t.cuda && r.numel == t.numel && r.layout == t.layout
    ensures var b := s.past.begun;
            AliasesAgree(b) <==>
              (forall c, d, t, u :: Managed(b.cells, c, t, b.base) && Managed(b.cells, d, u, b.base) && t.ptr == u.ptr ==>
                 t.cuda == u.cuda && t.numel == u.numel && t.layout == u.layout)
  {
    var b := s.past.begun;
    if AliasesAgree(b) {
      forall c, t | Managed(b.cells, c, t, b.base) ensures SameForm(t, Renamed(t, s.memo, b.base)) {
        var d, u := DrawnFrom(s, c, t);
      }
    }
    if FormsKept(s) {
      forall c, d, t, u | Managed(b.cells, c, t, b.base) && Managed(b.cells, d, u, b.base) && t.ptr == u.ptr
        ensures SameForm(t, u)
      {
        CoversTensor(b.cells[c], t, s.memo, b.base);
        assert SameForm(t, Renamed(t, s.memo, b.base)) && SameForm(u, Renamed(u, s.memo, b.base));
      }
    }
  }

  lemma DrawnFrom(s: State, c: nat, t: Tensor) returns (d: nat, u: Tensor)
    requires Good(s) && Managed(s.past.begun.cells, c, t, s.past.begun.base) && Substituted(s, c)
    ensures Managed(s.past.begun.cells, d, u, s.past.begun.base) && u.ptr == t.ptr && t.ptr in s.memo
    ensures SameForm(u, s.memo[t.ptr])
  {
    var b := s.past.begun;
    CoversTensor(b.cells[c], t, s.memo, b.base);
    TensorsAddress(b.cells[c], t);
    assert t.ptr < b.next by { assert Sound(Unseen, s); assert Sound(Walked, s); }
    assert Drawn(t.ptr, s.memo[t.ptr], b.cells, b.base) by { assert Sound(Drawings, s); }
    d, u :| Managed(b.cells, d, u, b.base) && u.ptr == t.ptr && SameForm(u, s.memo[t.ptr]);
  }

  // ----- The allocator -------------------------------------------------------------------------------------

  /** The sleeping allocations are released once, by the pass, and freeing them later releases nothing; any other is
      released when it is freed, and only then. */
  lemma NothingIsReleasedTwice(s: State, a: nat)
    requires Good(s)
    ensures s.past.released[a] <= 1
    ensures a in s.past.begun.stale ==> s.past.released[a] == 1
    ensures a !in s.past.begun.stale ==> (s.past.released[a] == 1 <==> a in s.past.mine && a !in s.table)
    ensures a in s.table && a in s.past.begun.stale ==> Free(s, a).past.released == s.past.released
    ensures a in s.table && a !in s.past.begun.stale ==>
              s.past.released[a] == 0 && Free(s, a).past.released[a] == 1
  {
    assert Sound(Freed, s) && Sound(Live, s);
  }

  /** The two counters together count the addresses replaced, whatever was visited how often. */
  lemma CountersCountAddresses(s: State)
    requires Good(s)
    ensures s.replaced == |s.memo.Keys| && |s.memo.Keys| == |s.memo.Values|
  {
    assert Sound(Counted, s) && Sound(Unseen, s);
    DistinctValues(s.memo);
  }

  lemma {:induction false} DistinctValues(memo: Memo)
    requires Injective(memo)
    ensures |memo.Keys| == |memo.Values|
    decreases |memo|
  {
    if memo != map[] {
      var p :| p in memo;
      var rest := memo - {p};
      assert rest.Keys == memo.Keys - {p};
      assert rest.Values == memo.Values - {memo[p]} by {
        forall f | f in memo.Values - {memo[p]} ensures f in rest.Values {
          var q :| q in memo && memo[q] == f;
          assert q in rest;
        }
      }
      assert memo[p] in memo.Values;
      assert |rest| == |rest.Keys| && |memo| == |memo.Keys|;
      DistinctValues(rest);
    } else {
      assert memo.Keys == {} && memo.Values == {};
    }
  }
}
