/** Rebinding a restored worker's tensors: the values, and the pure substitution the walk is compared with. */
module Substitution {

  /** `layout` stands for shape, stride, dtype and device; `storage` is -1 when asking for it raises. */
  datatype Tensor = Tensor(ptr: nat, storage: int, cuda: bool, numel: nat, layout: nat)

  /** What a cell holds.  A list is known by its cells; a tuple is its items. */
  datatype Value = TensorV(t: Tensor) | ListV(cells: seq<nat>) | TupleV(items: seq<Value>) | Other

  type Memo = map<nat, Tensor>

  /** `t` is backed by one of the allocations `a`. */
  predicate Hits(t: Tensor, a: set<int>) {
    t.cuda && t.numel != 0 && (t.ptr in a || t.storage in a)
  }

  function Renamed(t: Tensor, memo: Memo, a: set<int>): Tensor {
    if Hits(t, a) && t.ptr in memo then memo[t.ptr] else t
  }

  /** Every tensor backed by `a` replaced by what `memo` says for its address; nothing else touched. */
  function Sub(v: Value, memo: Memo, a: set<int>): Value {
    match v
    case TensorV(t) => TensorV(Renamed(t, memo, a))
    case TupleV(items) => TupleV(seq(|items|, i requires 0 <= i < |items| => Sub(items[i], memo, a)))
    case _ => v
  }

  function Addresses(v: Value): set<int> {
    match v
    case TensorV(t) => {t.ptr as int, t.storage}
    case TupleV(items) => set i, x | 0 <= i < |items| && x in Addresses(items[i]) :: x
    case _ => {}
  }

  function Tensors(v: Value): set<Tensor> {
    match v
    case TensorV(t) => {t}
    case TupleV(items) => set i, t | 0 <= i < |items| && t in Tensors(items[i]) :: t
    case _ => {}
  }

  /** Same shape, stride, dtype and device. */
  predicate SameForm(t: Tensor, u: Tensor) {
    t.cuda == u.cuda && t.numel == u.numel && t.layout == u.layout
  }

  /** `memo` covers all the tensors in `v` that are backed by `a`. */
  ghost predicate Covered(v: Value, memo: Memo, a: set<int>) {
    match v
    case TensorV(t) => Hits(t, a) ==> t.ptr in memo
    case TupleV(items) => forall i :: 0 <= i < |items| ==> Covered(items[i], memo, a)
    case _ => true
  }

  ghost predicate HasManaged(v: Value, a: set<int>) {
    match v
    case TensorV(t) => Hits(t, a)
    case TupleV(items) => exists i :: 0 <= i < |items| && HasManaged(items[i], a)
    case _ => false
  }

  /** `v` has the form of `v0`, but where `v0` has a tensor backed by `a`, it has some replacement that is not the
      one for that tensor's address. */
  ghost predicate Strayed(v0: Value, v: Value, memo: Memo, a: set<int>)
    decreases v0
  {
    match v0
    case TensorV(t0) =>
      if Hits(t0, a) then v.TensorV? && v.t in memo.Values && t0.ptr in memo && v.t != memo[t0.ptr] else v == v0
    case TupleV(items) =>
      v.TupleV? && |v.items| == |items| && forall i :: 0 <= i < |items| ==> Strayed(items[i], v.items[i], memo, a)
    case _ => v == v0
  }

  /** What a cell that held `v0` holds after `n` visits. */
  ghost predicate Tracks(v0: Value, v: Value, n: nat, memo: Memo, a: set<int>) {
    if n == 0 then v == v0
    else if n == 1 then v == Sub(v0, memo, a) && Covered(v0, memo, a)
    else Strayed(v0, v, memo, a)
  }

  ghost predicate Extends(memo: Memo, more: Memo) {
    forall p :: p in memo ==> p in more && more[p] == memo[p]
  }

  ghost predicate Injective(memo: Memo) {
    forall p, q :: p in memo && q in memo && memo[p].ptr == memo[q].ptr ==> p == q
  }

  // ----- Laws ----------------------------------------------------------------------------------------------

  /** Replacements made later do not change what was replaced before. */
  lemma {:induction false} SubGrows(v: Value, memo: Memo, more: Memo, a: set<int>)
    requires Extends(memo, more) && Covered(v, memo, a)
    ensures Sub(v, more, a) == Sub(v, memo, a) && Covered(v, more, a)
  {
    if v.TupleV? {
      forall i | 0 <= i < |v.items|
        ensures Sub(v.items[i], more, a) == Sub(v.items[i], memo, a) && Covered(v.items[i], more, a)
      {
        SubGrows(v.items[i], memo, more, a);
      }
    }
  }

  lemma {:induction false} StrayedGrows(v0: Value, v: Value, memo: Memo, more: Memo, a: set<int>)
    requires Extends(memo, more) && Strayed(v0, v, memo, a)
    ensures Strayed(v0, v, more, a)
    decreases v0
  {
    match v0 {
      case TensorV(t0) =>
        if Hits(t0, a) {
          var p :| p in memo && memo[p] == v.t;
          assert more[p] == v.t;
        }
      case TupleV(items) =>
        forall i | 0 <= i < |items| ensures Strayed(items[i], v.items[i], more, a) {
          StrayedGrows(items[i], v.items[i], memo, more, a);
        }
      case _ =>
    }
  }

  lemma TracksGrows(v0: Value, v: Value, n: nat, memo: Memo, more: Memo, a: set<int>)
    requires Extends(memo, more) && Tracks(v0, v, n, memo, a)
    ensures Tracks(v0, v, n, more, a)
  {
    if n == 1 {
      SubGrows(v0, memo, more, a);
    } else if n > 1 {
      StrayedGrows(v0, v, memo, more, a);
    }
  }

  /** Two sets of allocations that agree on the addresses of `v` give the same substitution. */
  lemma {:induction false} SubAgrees(v: Value, memo: Memo, a: set<int>, b: set<int>)
    requires forall x :: x in Addresses(v) ==> (x in a <==> x in b)
    ensures Sub(v, memo, a) == Sub(v, memo, b) && (Covered(v, memo, a) <==> Covered(v, memo, b))
  {
    if v.TupleV? {
      forall i | 0 <= i < |v.items|
        ensures Sub(v.items[i], memo, a) == Sub(v.items[i], memo, b)
        ensures Covered(v.items[i], memo, a) <==> Covered(v.items[i], memo, b)
      {
        assert forall x :: x in Addresses(v.items[i]) ==> x in Addresses(v);
        SubAgrees(v.items[i], memo, a, b);
      }
    }
  }

  /** What is replaced stays replaced when there are more replacements and more allocations, none of them at an
      address that `v` uses. */
  lemma Stable(v: Value, memo: Memo, more: Memo, b: set<int>, b': set<int>)
    requires Extends(memo, more) && Covered(v, memo, b)
    requires forall x :: x in Addresses(v) ==> (x in b <==> x in b')
    ensures Sub(v, more, b') == Sub(v, memo, b) && Covered(v, more, b')
  {
    SubAgrees(v, memo, b, b');
    SubGrows(v, memo, more, b');
  }

  /** Conditions on replacements: each is an allocation of `b` at an address from `low` up, and no two share one. */
  ghost predicate Fresh(memo: Memo, low: int, b: set<int>) {
    && Injective(memo)
    && (forall p :: p in memo ==> Hits(memo[p], b) && memo[p].ptr >= low && memo[p].storage >= low)
  }

  /** The addresses in `v0` are older than that, and backed by `b` if by `a`. */
  ghost predicate Older(v0: Value, low: int, a: set<int>, b: set<int>) {
    forall x :: x in Addresses(v0) ==> x < low && (x in a <==> x in b)
  }

  lemma FreshGrows(memo: Memo, p: nat, f: Tensor, low: int, b: set<int>)
    requires Fresh(memo, low, b) && p !in memo && Hits(f, b) && f.ptr >= low && f.storage >= low
    requires forall q :: q in memo ==> memo[q].ptr < f.ptr
    ensures Fresh(memo[p := f], low, b) && Extends(memo, memo[p := f])
  {
  }

  lemma FreshWidens(memo: Memo, low: int, b: set<int>, b': set<int>)
    requires Fresh(memo, low, b) && b <= b'
    ensures Fresh(memo, low, b')
  {
  }

  /** One more visit moves a cell to the next stage of `Tracks`. */
  lemma VisitTracks(v0: Value, v: Value, n: nat, memo: Memo, low: int, a: set<int>, b: set<int>)
    requires Tracks(v0, v, n, memo, a) && Fresh(memo, low, b) && Covered(v, memo, b)
    requires Older(v0, low, a, b)
    ensures Tracks(v0, Sub(v, memo, b), n + 1, memo, a)
  {
    if n == 0 {
      SubAgrees(v0, memo, a, b);
    } else if n == 1 {
      SecondVisitStrays(v0, memo, low, a, b);
    } else {
      LaterVisitStrays(v0, v, memo, low, a, b);
    }
  }

  lemma {:induction false} SecondVisitStrays(v0: Value, memo: Memo, low: int, a: set<int>, b: set<int>)
    requires Covered(v0, memo, a) && Fresh(memo, low, b) && Covered(Sub(v0, memo, a), memo, b)
    requires Older(v0, low, a, b)
    ensures Strayed(v0, Sub(Sub(v0, memo, a), memo, b), memo, a)
  {
    match v0 {
      case TensorV(t0) =>
        if Hits(t0, a) {
          var f := memo[t0.ptr];
          assert Sub(v0, memo, a) == TensorV(f);
          assert memo[f.ptr] in memo.Values;
          assert f.ptr != t0.ptr;
        }
      case TupleV(items) =>
        forall i | 0 <= i < |items| ensures Strayed(items[i], Sub(Sub(items[i], memo, a), memo, b), memo, a) {
          assert forall x :: x in Addresses(items[i]) ==> x in Addresses(v0);
          assert Sub(v0, memo, a).items[i] == Sub(items[i], memo, a);
          SecondVisitStrays(items[i], memo, low, a, b);
        }
      case _ =>
    }
  }

  lemma {:induction false} LaterVisitStrays(v0: Value, v: Value, memo: Memo, low: int, a: set<int>, b: set<int>)
    requires Strayed(v0, v, memo, a) && Fresh(memo, low, b) && Covered(v, memo, b)
    requires Older(v0, low, a, b)
    ensures Strayed(v0, Sub(v, memo, b), memo, a)
    decreases v0
  {
    match v0 {
      case TensorV(t0) =>
        if Hits(t0, a) {
          var p :| p in memo && memo[p] == v.t;
          assert memo[v.t.ptr] in memo.Values;
          assert v.t.ptr != t0.ptr;
        }
      case TupleV(items) =>
        forall i | 0 <= i < |items| ensures Strayed(items[i], Sub(v.items[i], memo, b), memo, a) {
          assert forall x :: x in Addresses(items[i]) ==> x in Addresses(v0);
          LaterVisitStrays(items[i], v.items[i], memo, low, a, b);
        }
      case _ =>
    }
  }

  /** So a cell that had a managed tensor ends as the substitution says exactly if it was visited once. */
  lemma {:induction false} StrayedDiffers(v0: Value, v: Value, memo: Memo, a: set<int>)
    requires Strayed(v0, v, memo, a) && HasManaged(v0, a)
    ensures v != Sub(v0, memo, a)
    decreases v0
  {
    if v0.TupleV? {
      var i :| 0 <= i < |v0.items| && HasManaged(v0.items[i], a);
      StrayedDiffers(v0.items[i], v.items[i], memo, a);
      assert Sub(v0, memo, a).items[i] == Sub(v0.items[i], memo, a);
    }
  }

  /** Without a managed tensor nothing happens to it, however often it is visited. */
  lemma {:induction false} UnmanagedStays(v0: Value, v: Value, n: nat, memo: Memo, a: set<int>)
    requires Tracks(v0, v, n, memo, a) && !HasManaged(v0, a)
    ensures v == v0 == Sub(v0, memo, a)
    decreases v0
  {
    if v0.TupleV? {
      forall i | 0 <= i < |v0.items| ensures Sub(v0.items[i], memo, a) == v0.items[i] {
        UnmanagedStays(v0.items[i], v0.items[i], 0, memo, a);
      }
      if n > 1 {
        forall i | 0 <= i < |v0.items| ensures v.items[i] == v0.items[i] {
          UnmanagedStays(v0.items[i], v.items[i], n, memo, a);
        }
        assert v.items == v0.items;
      }
    }
  }

  /** A cell only ever holds tensors it began with, and replacements. */
  lemma {:induction false} TracksTensors(v0: Value, v: Value, n: nat, memo: Memo, a: set<int>, t: Tensor)
    requires Tracks(v0, v, n, memo, a) && t in Tensors(v)
    ensures t in Tensors(v0) || t in memo.Values
    decreases v0
  {
    match v0 {
      case TensorV(t0) =>
        if n == 1 && Hits(t0, a) {
          assert memo[t0.ptr] in memo.Values;
        }
      case TupleV(items) =>
        var i :| 0 <= i < |v.items| && t in Tensors(v.items[i]);
        TracksTensors(items[i], v.items[i], n, memo, a, t);
      case _ =>
    }
  }

  lemma {:induction false} AddressIsATensors(v: Value, x: int)
    requires x in Addresses(v)
    ensures exists t :: t in Tensors(v) && x in Addresses(TensorV(t))
  {
    match v {
      case TensorV(t) =>
        assert t in Tensors(v);
      case TupleV(items) =>
        var i :| 0 <= i < |items| && x in Addresses(items[i]);
        AddressIsATensors(items[i], x);
        var t :| t in Tensors(items[i]) && x in Addresses(TensorV(t));
        assert t in Tensors(v);
      case _ =>
    }
  }

  lemma {:induction false} TensorsAddress(v: Value, t: Tensor)
    requires t in Tensors(v)
    ensures Addresses(TensorV(t)) <= Addresses(v)
  {
    if v.TupleV? {
      var i :| 0 <= i < |v.items| && t in Tensors(v.items[i]);
      TensorsAddress(v.items[i], t);
    }
  }

  // ----- Shape: which cells a value refers to ---------------------------------------------------------------

  /** The cells of the lists in `v`, in the order they are met. */
  function Refs(v: Value): seq<nat> {
    match v
    case ListV(cells) => cells
    case TupleV(items) => RefsAll(items)
    case _ => []
  }

  function RefsAll(items: seq<Value>): seq<nat> {
    if items == [] then [] else Refs(items[0]) + RefsAll(items[1..])
  }

  lemma {:induction false} SubKeepsRefs(v: Value, memo: Memo, a: set<int>)
    ensures Refs(Sub(v, memo, a)) == Refs(v)
    decreases v, 1
  {
    if v.TupleV? {
      forall i | 0 <= i < |v.items| ensures Refs(Sub(v.items[i], memo, a)) == Refs(v.items[i]) {
        SubKeepsRefs(v.items[i], memo, a);
      }
      RefsPointwise(Sub(v, memo, a).items, v.items);
    }
  }

  lemma {:induction false} RefsPointwise(xs: seq<Value>, ys: seq<Value>)
    requires |xs| == |ys| && forall i :: 0 <= i < |xs| ==> Refs(xs[i]) == Refs(ys[i])
    ensures RefsAll(xs) == RefsAll(ys)
  {
    if xs != [] {
      RefsPointwise(xs[1..], ys[1..]);
    }
  }

  lemma {:induction false} RefsSplit(items: seq<Value>, i: nat)
    requires i < |items|
    ensures RefsAll(items[..i + 1]) == RefsAll(items[..i]) + Refs(items[i])
  {
    if i == 0 {
      assert items[..1][1..] == [];
    } else {
      RefsSplit(items[1..], i - 1);
      assert items[..i + 1][1..] == items[1..][..i];
      assert items[..i][1..] == items[1..][..i - 1];
    }
  }

  lemma {:induction false} ItemRefs(items: seq<Value>, i: nat, c: nat)
    requires i < |items| && c in Refs(items[i])
    ensures c in RefsAll(items)
  {
    if i > 0 {
      ItemRefs(items[1..], i - 1, c);
    }
  }

  // ----- The order of the walk -----------------------------------------------------------------------------

  type Graph = map<nat, seq<nat>>

  function GraphOf(cells: map<nat, Value>): Graph { map c | c in cells :: Refs(cells[c]) }

  /** No list contains itself. */
  ghost predicate Ranked(g: Graph, rank: map<nat, nat>) {
    && g.Keys <= rank.Keys
    && forall c :: c in g ==> Below(g, rank, g[c], rank[c])
  }

  ghost predicate Below(g: Graph, rank: map<nat, nat>, ids: seq<nat>, r: nat) {
    forall i :: 0 <= i < |ids| ==> ids[i] in g && ids[i] in rank && rank[ids[i]] < r
  }

  /** The cells stored into, in order, when `c` is visited: first what it refers to, then `c`. */
  ghost function WalkCell(g: Graph, rank: map<nat, nat>, c: nat): seq<nat>
    requires Ranked(g, rank) && c in g
    decreases rank[c], 1, 0
  {
    WalkAll(g, rank, g[c], rank[c]) + [c]
  }

  ghost function WalkAll(g: Graph, rank: map<nat, nat>, ids: seq<nat>, r: nat): seq<nat>
    requires Ranked(g, rank) && Below(g, rank, ids, r)
    decreases r, 0, |ids|
  {
    if ids == [] then []
    else WalkAll(g, rank, ids[..|ids| - 1], r) + WalkCell(g, rank, ids[|ids| - 1])
  }

  lemma {:induction false} WalkJoins(g: Graph, rank: map<nat, nat>, xs: seq<nat>, ys: seq<nat>, r: nat)
    requires Ranked(g, rank) && Below(g, rank, xs, r) && Below(g, rank, ys, r)
    ensures Below(g, rank, xs + ys, r)
    ensures WalkAll(g, rank, xs + ys, r) == WalkAll(g, rank, xs, r) + WalkAll(g, rank, ys, r)
    decreases |ys|
  {
    if ys == [] {
      assert xs + ys == xs;
    } else {
      var zs := ys[..|ys| - 1];
      WalkJoins(g, rank, xs, zs, r);
      assert (xs + ys)[..|xs + ys| - 1] == xs + zs;
    }
  }

  /** The walk from `roots`, one after the other. */
  ghost function WalkRoots(g: Graph, rank: map<nat, nat>, roots: seq<nat>): seq<nat>
    requires Ranked(g, rank) && forall c :: c in roots ==> c in g
  {
    if roots == [] then []
    else WalkRoots(g, rank, roots[..|roots| - 1]) + WalkCell(g, rank, roots[|roots| - 1])
  }
}
