/** `_reinitialize_worker_allocations`: the in-place walk over a restored worker, and the allocator under it. */
module Rebinding {
  import opened Substitution

  datatype Tag = Weights | KvCache

  /** A module's parameter objects, buffer slots and, if it has one, its `kv_cache` attribute, as cells. */
  datatype Module = Module(params: seq<nat>, buffers: seq<nat>, kvCache: seq<nat>)

  type Cells = map<nat, Value>

  // ----- The invariant, clause by clause -------------------------------------------------------------------

  /** Cells are where their visits put them. */
  ghost predicate Tracking(cells: Cells, cells0: Cells, graph: Graph, log: seq<nat>, memo: Memo, base: set<int>) {
    && cells.Keys == cells0.Keys == graph.Keys
    && forall c :: c in cells ==>
         Tracks(cells0[c], cells[c], multiset(log)[c], memo, base) && Refs(cells[c]) == graph[c]
  }

  /** New allocations are at addresses never seen before. */
  ghost predicate Dated(mine: set<int>, next: nat, next0: nat, base: set<int>, cells0: Cells, memo: Memo) {
    && next0 <= next && (forall x :: x in mine ==> 0 <= x < next) && (forall x :: x in base ==> x < next0)
    && (forall c :: c in cells0 ==> Older(cells0[c], next0, base, mine))
    && Fresh(memo, next0, mine)
  }

  /** Nothing that is still referred to is ever freed. */
  ghost predicate Holding(table: map<nat, bool>, mine: set<int>, next: nat, cells: Cells, memo: Memo) {
    && table.Keys <= mine
    && (forall c :: c in cells ==> Held(cells[c], table, mine, next))
    && (forall p :: p in memo ==> Held(TensorV(memo[p]), table, mine, next))
  }

  ghost predicate Held(v: Value, table: map<nat, bool>, mine: set<int>, next: nat) {
    forall x :: x in Addresses(v) ==> x < next && (x in mine ==> x in table)
  }

  /** The allocations asleep when the pass began are released once, by the pass; the others once they are freed. */
  ghost predicate ReleasedOnce(released: multiset<nat>, mine: set<int>, table: map<nat, bool>, stale: set<nat>) {
    && (forall a :: a in table ==> (table[a] <==> a in stale)) && (forall a :: a in stale ==> a in mine)
    && (forall a: nat :: released[a] == if a in stale || (a in mine && a !in table) then 1 else 0)
  }

  /** A replacement has the form of some tensor that was at the address it stands for. */
  ghost predicate Shaped(memo: Memo, cells0: Cells, next0: nat, base: set<int>) {
    forall p :: p in memo && p < next0 ==> Drawn(p, memo[p], cells0, base)
  }

  ghost predicate Drawn(p: nat, f: Tensor, cells0: Cells, base: set<int>) {
    exists c, t :: Managed(cells0, c, t, base) && t.ptr == p && SameForm(t, f)
  }

  /** Cell `c` began with tensor `t` in it, and `t` is backed by one of the allocations there were. */
  ghost predicate Managed(cells0: Cells, c: nat, t: Tensor, base: set<int>) {
    c in cells0 && t in Tensors(cells0[c]) && Hits(t, base)
  }

  ghost predicate Known(t: Tensor, cells0: Cells, next0: nat) {
    t.ptr < next0 ==> exists c :: c in cells0 && t in Tensors(cells0[c])
  }

  /** The clauses of a worker's invariant. */
  datatype Clause = Walked | Unseen | Live | Freed | Drawings | Counted

  /** A worker's fields: the ones the walk works on, and what is remembered about it. */
  datatype State = State(cells: Cells, table: map<nat, bool>, memo: Memo, replaced: nat, next: nat, past: Past)
  datatype Past = Past(begun: Begun, mine: set<int>, log: seq<nat>, released: multiset<nat>)
  datatype Begun = Begun(cells: Cells, graph: Graph, rank: map<nat, nat>, next: nat, base: set<int>, stale: set<nat>)

  ghost predicate Good(s: State) {
    && Ranked(s.past.begun.graph, s.past.begun.rank) && s.cells.Keys == s.past.begun.graph.Keys
    && forall clause: Clause :: Sound(clause, s)
  }

  ghost predicate Sound(clause: Clause, s: State) {
    match clause
    case Walked => Tracking(s.cells, s.past.begun.cells, s.past.begun.graph, s.past.log, s.memo, s.past.begun.base)
    case Unseen => Dated(s.past.mine, s.next, s.past.begun.next, s.past.begun.base, s.past.begun.cells, s.memo)
    case Live => Holding(s.table, s.past.mine, s.next, s.cells, s.memo)
    case Freed => ReleasedOnce(s.past.released, s.past.mine, s.table, s.past.begun.stale)
    case Drawings => Shaped(s.memo, s.past.begun.cells, s.past.begun.next, s.past.begun.base)
    case Counted => s.replaced == |s.memo|
  }

  // ----- Steps ---------------------------------------------------------------------------------------------

  function Free(s: State, ptr: nat): State
    requires ptr in s.table
  {
    s.(table := s.table - {ptr},
       past := s.past.(released := if s.table[ptr] then s.past.released else s.past.released + multiset{ptr}))
  }

  lemma FreeKeeps(s: State, ptr: nat)
    requires Good(s) && ptr in s.table && !InUse(ptr, s.cells, s.memo)
    ensures Good(Free(s, ptr))
  {
    forall clause: Clause ensures Sound(clause, Free(s, ptr)) {
      assert Sound(clause, s) && Sound(Live, s);
      match clause
      case Live => FreeKeepsHolding(s.table, s.past.mine, s.next, s.cells, s.memo, ptr);
      case Freed => FreeKeepsReleased(s.past.released, s.past.mine, s.table, s.past.begun.stale, ptr);
      case _ =>
    }
  }

  function Alloc(s: State, address: nat): State {
    s.(table := s.table[address := false], next := address + 1,
       past := s.past.(mine := s.past.mine + {address as int}))
  }

  lemma AllocKeeps(s: State, address: nat)
    requires Good(s) && address >= s.next
    ensures Good(Alloc(s, address))
  {
    var b := s.past.begun;
    forall clause: Clause ensures Sound(clause, Alloc(s, address)) {
      assert Sound(clause, s);
      match clause
      case Unseen => AllocateKeepsDated(s.past.mine, s.next, b.next, b.base, b.cells, s.memo, address);
      case Live => AllocateKeepsHolding(s.table, s.past.mine, s.next, s.cells, s.memo, address);
      case Freed =>
        assert Sound(Unseen, s);
        AllocateKeepsReleased(s.past.released, s.past.mine, s.table, b.stale, s.next, address);
      case _ =>
    }
  }

  /** `f` may stand for `p` from now on. */
  ghost predicate Suits(s: State, p: nat, f: Tensor) {
    && p !in s.memo && Held(TensorV(f), s.table, s.past.mine, s.next) && Hits(f, s.past.mine)
    && f.ptr >= s.past.begun.next && f.storage >= s.past.begun.next && (forall q :: q in s.memo ==> s.memo[q].ptr < f.ptr)
    && (p < s.past.begun.next ==> Drawn(p, f, s.past.begun.cells, s.past.begun.base))
  }

  function Memoise(s: State, p: nat, f: Tensor): State { s.(memo := s.memo[p := f], replaced := s.replaced + 1) }

  lemma MemoiseKeeps(s: State, p: nat, f: Tensor)
    requires Good(s) && Suits(s, p, f)
    ensures Good(Memoise(s, p, f))
  {
    var b := s.past.begun;
    forall clause: Clause ensures Sound(clause, Memoise(s, p, f)) {
      assert Sound(clause, s);
      match clause
      case Walked => RememberKeepsTracking(s.cells, b.cells, b.graph, s.past.log, s.memo, b.base, p, f);
      case Unseen => FreshGrows(s.memo, p, f, b.next, s.past.mine);
      case _ =>
    }
  }

  function Rebind(s: State, c: nat): State
    requires c in s.cells
  {
    s.(cells := s.cells[c := Sub(s.cells[c], s.memo, s.past.mine)], past := s.past.(log := s.past.log + [c]))
  }

  lemma RebindKeeps(s: State, c: nat)
    requires Good(s) && c in s.cells && Covered(s.cells[c], s.memo, s.past.mine)
    ensures Good(Rebind(s, c))
  {
    var b := s.past.begun;
    forall clause: Clause ensures Sound(clause, Rebind(s, c)) {
      assert Sound(clause, s);
      match clause
      case Walked =>
        assert Sound(Unseen, s);
        StoreKeepsTracking(s.cells, b.cells, b.graph, s.past.log, s.memo, b.base, s.past.mine, s.next, b.next, c);
      case Live => StoreKeepsHolding(s.table, s.past.mine, s.next, s.cells, s.memo, c);
      case _ =>
    }
  }

  predicate InUse(a: int, cells: Cells, memo: Memo) {
    || (exists c :: c in cells && a in Addresses(cells[c]))
    || (exists p :: p in memo && a in Addresses(TensorV(memo[p])))
  }

  lemma FreeKeepsHolding(table: map<nat, bool>, mine: set<int>, next: nat, cells: Cells, memo: Memo, ptr: nat)
    requires Holding(table, mine, next, cells, memo) && !InUse(ptr, cells, memo)
    ensures Holding(table - {ptr}, mine, next, cells, memo)
  {
    forall c | c in cells ensures Held(cells[c], table - {ptr}, mine, next) {
      assert Held(cells[c], table, mine, next);
    }
    forall p | p in memo ensures Held(TensorV(memo[p]), table - {ptr}, mine, next) {
      assert Held(TensorV(memo[p]), table, mine, next);
    }
  }

  lemma FreeKeepsReleased(released: multiset<nat>, mine: set<int>, table: map<nat, bool>,
                          stale: set<nat>, ptr: nat)
    requires ReleasedOnce(released, mine, table, stale) && ptr in table && table.Keys <= mine
    ensures ReleasedOnce(if table[ptr] then released else released + multiset{ptr}, mine, table - {ptr}, stale)
  {
  }

  lemma MadeBelow(table: map<nat, bool>, mine: set<int>, next: nat, cells: Cells, memo: Memo)
    requires Holding(table, mine, next, cells, memo)
    ensures forall p :: p in memo ==> memo[p].ptr < next
  {
    forall p | p in memo ensures memo[p].ptr < next {
      assert memo[p].ptr in Addresses(TensorV(memo[p])) && Held(TensorV(memo[p]), table, mine, next);
    }
  }

  lemma AllocateKeepsDated(mine: set<int>, next: nat, next0: nat, base: set<int>, cells0: Cells, memo: Memo,
                           address: nat)
    requires Dated(mine, next, next0, base, cells0, memo) && address >= next
    ensures Dated(mine + {address as int}, address + 1, next0, base, cells0, memo)
  {
    FreshWidens(memo, next0, mine, mine + {address as int});
    forall c | c in cells0 ensures Older(cells0[c], next0, base, mine + {address as int}) {
      assert Older(cells0[c], next0, base, mine);
    }
  }

  lemma AllocateKeepsHolding(table: map<nat, bool>, mine: set<int>, next: nat, cells: Cells, memo: Memo, address: nat)
    requires Holding(table, mine, next, cells, memo) && address >= next
    ensures Holding(table[address := false], mine + {address as int}, address + 1, cells, memo)
  {
    var table', mine' := table[address := false], mine + {address as int};
    forall c | c in cells ensures Held(cells[c], table', mine', address + 1) {
      assert Held(cells[c], table, mine, next);
    }
    forall p | p in memo ensures Held(TensorV(memo[p]), table', mine', address + 1) {
      assert Held(TensorV(memo[p]), table, mine, next);
    }
  }

  lemma AllocateKeepsReleased(released: multiset<nat>, mine: set<int>, table: map<nat, bool>, stale: set<nat>,
                              next: nat, address: nat)
    requires ReleasedOnce(released, mine, table, stale) && address >= next && forall x :: x in mine ==> x < next
    ensures ReleasedOnce(released, mine + {address as int}, table[address := false], stale)
  {
  }

  lemma RememberKeepsTracking(cells: Cells, cells0: Cells, graph: Graph, log: seq<nat>, memo: Memo, base: set<int>,
                              p: nat, f: Tensor)
    requires Tracking(cells, cells0, graph, log, memo, base) && p !in memo
    ensures Tracking(cells, cells0, graph, log, memo[p := f], base)
  {
    forall c | c in cells ensures Tracks(cells0[c], cells[c], multiset(log)[c], memo[p := f], base) {
      TracksGrows(cells0[c], cells[c], multiset(log)[c], memo, memo[p := f], base);
    }
  }

  lemma StoreKeepsTracking(cells: Cells, cells0: Cells, graph: Graph, log: seq<nat>, memo: Memo, base: set<int>,
                           mine: set<int>, next: nat, next0: nat, c: nat)
    requires Tracking(cells, cells0, graph, log, memo, base) && Dated(mine, next, next0, base, cells0, memo)
    requires c in cells && Covered(cells[c], memo, mine)
    ensures Tracking(cells[c := Sub(cells[c], memo, mine)], cells0, graph, log + [c], memo, base)
  {
    VisitTracks(cells0[c], cells[c], multiset(log)[c], memo, next0, base, mine);
    SubKeepsRefs(cells[c], memo, mine);
  }

  lemma StoreKeepsHolding(table: map<nat, bool>, mine: set<int>, next: nat, cells: Cells, memo: Memo, c: nat)
    requires Holding(table, mine, next, cells, memo) && c in cells
    ensures Holding(table, mine, next, cells[c := Sub(cells[c], memo, mine)], memo)
  {
    SubHeld(cells[c], table, mine, next, memo);
  }

  lemma {:induction false} SubHeld(v: Value, table: map<nat, bool>, mine: set<int>, next: nat, memo: Memo)
    requires Held(v, table, mine, next) && forall p :: p in memo ==> Held(TensorV(memo[p]), table, mine, next)
    ensures Held(Sub(v, memo, mine), table, mine, next)
  {
    if v.TupleV? {
      forall i | 0 <= i < |v.items| ensures Held(Sub(v.items[i], memo, mine), table, mine, next) {
        assert Addresses(v.items[i]) <= Addresses(v);
        SubHeld(v.items[i], table, mine, next, memo);
      }
    }
  }

  lemma BeginKeeps(b: Begun, table: map<nat, bool>, released: multiset<nat>)
    requires b.graph == GraphOf(b.cells) && Ranked(b.graph, b.rank)
    requires b.base == (set a | a in table :: a as int) && b.stale == set a | a in table && table[a]
    requires forall a :: a in table ==> a < b.next
    requires forall c, x :: c in b.cells && x in Addresses(b.cells[c]) ==> x < b.next
    requires forall a: nat :: released[a] == if a in table && table[a] then 1 else 0
    ensures Good(State(b.cells, table, map[], 0, b.next, Past(b, b.base, [], released)))
  {
    var s := State(b.cells, table, map[], 0, b.next, Past(b, b.base, [], released));
    forall clause: Clause ensures Sound(clause, s) {
      match clause
      case Unseen => assert forall c :: c in b.cells ==> Older(b.cells[c], b.next, b.base, b.base);
      case Live => assert forall c :: c in b.cells ==> Held(b.cells[c], table, b.base, b.next);
      case _ =>
    }
  }

  // ----- The roots of the walk -----------------------------------------------------------------------------

  predicate Within(roots: seq<nat>, ids: set<nat>) { forall c :: c in roots ==> c in ids }

  function WeightRoots(model: seq<Module>): seq<nat> {
    if model == [] then [] else model[0].params + model[0].buffers + WeightRoots(model[1..])
  }

  function KvRoots(model: seq<Module>): seq<nat> {
    if model == [] then [] else model[0].kvCache + KvRoots(model[1..])
  }

  function ModelRoots(model: seq<Module>): seq<nat> { WeightRoots(model) + KvRoots(model) }

  lemma {:induction false} WeightsSplit(model: seq<Module>, i: nat, ids: set<nat>)
    requires i < |model| && Within(WeightRoots(model), ids)
    ensures WeightRoots(model[..i + 1]) == WeightRoots(model[..i]) + (model[i].params + model[i].buffers)
    ensures Within(model[i].params, ids) && Within(model[i].buffers, ids)
  {
    if i == 0 {
      assert model[..1][1..] == [];
    } else {
      WeightsSplit(model[1..], i - 1, ids);
      assert model[..i + 1][1..] == model[1..][..i];
      assert model[..i][1..] == model[1..][..i - 1];
    }
  }

  lemma {:induction false} KvSplit(model: seq<Module>, i: nat, ids: set<nat>)
    requires i < |model| && Within(KvRoots(model), ids)
    ensures KvRoots(model[..i + 1]) == KvRoots(model[..i]) + model[i].kvCache
    ensures Within(model[i].kvCache, ids)
  {
    if i == 0 {
      assert model[..1][1..] == [];
    } else {
      KvSplit(model[1..], i - 1, ids);
      assert model[..i + 1][1..] == model[1..][..i];
      assert model[..i][1..] == model[1..][..i - 1];
    }
  }

  // ----- Composing steps of the walk -----------------------------------------------------------------------

  ghost predicate Later(memo: Memo, next: nat, mine: set<int>, memo': Memo, next': nat, mine': set<int>) {
    && Extends(memo, memo') && next <= next'
    && forall x :: x < next ==> (x in mine <==> x in mine')
  }

  /** The first items, as they are replaced by now. */
  ghost predicate Replaced(items: seq<Value>, done: seq<Value>, memo: Memo, mine: set<int>) {
    && |done| <= |items|
    && forall k :: 0 <= k < |done| ==> done[k] == Sub(items[k], memo, mine) && Covered(items[k], memo, mine)
  }

  lemma ReplacedGrows(v: Value, done: seq<Value>, r: Value, memo: Memo, next: nat, mine: set<int>,
                      memo': Memo, next': nat, mine': set<int>)
    requires v.TupleV? && Replaced(v.items, done, memo, mine) && |done| < |v.items|
    requires Later(memo, next, mine, memo', next', mine') && forall x :: x in Addresses(v) ==> x < next
    requires r == Sub(v.items[|done|], memo', mine') && Covered(v.items[|done|], memo', mine')
    ensures Replaced(v.items, done + [r], memo', mine')
  {
    forall k | 0 <= k < |done|
      ensures done[k] == Sub(v.items[k], memo', mine') && Covered(v.items[k], memo', mine')
    {
      assert forall x :: x in Addresses(v.items[k]) ==> x in Addresses(v);
      Stable(v.items[k], memo, memo', mine, mine');
    }
  }

  lemma ItemOf(v: Value, n: nat, g: Graph, rank: map<nat, nat>, r: nat)
    requires v.TupleV? && n < |v.items| && Below(g, rank, Refs(v), r)
    ensures Tensors(v.items[n]) <= Tensors(v) && Below(g, rank, Refs(v.items[n]), r)
  {
    var refs := Refs(v.items[n]);
    forall i | 0 <= i < |refs| ensures refs[i] in Refs(v) {
      ItemRefs(v.items, n, refs[i]);
    }
  }

  lemma TupleStep(items: seq<Value>, n: nat, g: Graph, rank: map<nat, nat>, r: nat,
                  log: seq<nat>, log': seq<nat>, log'': seq<nat>)
    requires n < |items| && Ranked(g, rank) && Below(g, rank, RefsAll(items[..n]), r) && Below(g, rank, Refs(items[n]), r)
    requires log' == log + WalkAll(g, rank, RefsAll(items[..n]), r)
    requires log'' == log' + WalkAll(g, rank, Refs(items[n]), r)
    ensures Below(g, rank, RefsAll(items[..n + 1]), r) && log'' == log + WalkAll(g, rank, RefsAll(items[..n + 1]), r)
  {
    RefsSplit(items, n);
    WalkJoins(g, rank, RefsAll(items[..n]), Refs(items[n]), r);
  }

  /** Cells of rank `r` and up hold what they held. */
  ghost predicate Kept(cells: map<nat, Value>, cells': map<nat, Value>, rank: map<nat, nat>, r: nat) {
    && cells'.Keys == cells.Keys <= rank.Keys
    && forall c :: c in cells && rank[c] >= r ==> cells'[c] == cells[c]
  }

  lemma KeptStore(cells: Cells, cells': Cells, c: nat, w: Value, rank: map<nat, nat>)
    requires c in cells && cells'.Keys == cells.Keys <= rank.Keys && Kept(cells, cells', rank, rank[c])
    ensures Kept(cells, cells'[c := w], rank, rank[c] + 1)
  {
  }

  lemma Regroup(a: seq<nat>, b: seq<nat>, c: seq<nat>)
    ensures a + b + c == a + (b + c)
  {
  }

  class Worker {
    /** Everything that holds a tensor: parameter objects, buffer slots, attributes, list cells. */
    var cells: Cells
    /** `pointer_to_data`: whether the allocation at an address is asleep. */
    var table: map<nat, bool>
    /** `replacement_by_pointer` and `replaced`. */
    var memo: Memo
    var weights: nat
    var kvCache: nat
    /** Every address handed out so far is below this one. */
    var next: nat

    // history
    ghost var begun: Begun         // how the walk began
    ghost var mine: set<int>       // allocations in the table at any time
    ghost var log: seq<nat>        // cells stored into
    ghost var roots: seq<nat>      // roots visited
    ghost var released: multiset<nat>

    ghost function Snapshot(): State
      reads this
    {
      State(cells, table, memo, weights + kvCache, next, Past(begun, mine, log, released))
    }

    ghost predicate Valid()
      reads this
    {
      Good(Snapshot())
    }

    /** What the walk never does: forget a replacement, or turn an address that was in use into an allocation of
        its own. */
    twostate predicate Monotone()
      reads this`memo, this`next, this`mine
    {
      Later(old(memo), old(next), old(mine), memo, next, mine)
    }

    /** Only the counter for `tag` has changed. */
    twostate predicate Books(tag: Tag)
      reads this`weights, this`kvCache
    {
      if tag.Weights? then kvCache == old(kvCache) else weights == old(weights)
    }

    // ----- The allocator -----------------------------------------------------------------------------------

    /** The patched free callback.  A sleeping allocation hands no chunks back; any other goes through the
        original callback, which hands its chunks back to be unmapped and released. */
    method FreeCallback(ptr: nat) returns (chunks: bool)
      requires Valid() && ptr in table && !InUse(ptr, cells, memo)
      modifies this`table, this`released
      ensures Valid() && table == old(table) - {ptr}
      ensures chunks <==> ptr !in begun.stale
      ensures released == (if chunks then old(released) + multiset{ptr} else old(released))
    {
      assert Sound(Freed, Snapshot());
      FreeKeeps(Snapshot(), ptr);
      chunks := !table[ptr];
      if chunks {
        released := released + multiset{ptr};
      }
      table := table - {ptr};
    }

    /** Garbage collection: some allocations that nothing refers to any more are freed. */
    method Collect()
      requires Valid()
      modifies this`table, this`released
      ensures Valid() && table.Keys <= old(table.Keys)
    {
      var n: nat :| true;
      while n > 0
        invariant Valid() && table.Keys <= old(table.Keys)
      {
        var a: nat :| true;
        if a in table && !InUse(a, cells, memo) {
          var _ := FreeCallback(a);
        }
        n := n - 1;
      }
    }

    /** `unmap_and_release` for every allocation asleep when the pass starts; a call that raises is logged and
        does not stop the pass. */
    method ReleaseStale()
      modifies this`released
      ensures forall a: nat :: released[a] == old(released)[a] + if a in table && table[a] then 1 else 0
    {
      var stale := set a | a in table && table[a];
      ghost var all := stale;
      while stale != {}
        invariant stale <= all
        invariant forall a: nat :: released[a] == old(released)[a] + if a in all && a !in stale then 1 else 0
        decreases stale
      {
        var a :| a in stale;
        released := released + multiset{a};
        stale := stale - {a};
      }
    }

    // ----- The walk ----------------------------------------------------------------------------------------

    /** `is_managed`. */
    method IsManaged(t: Tensor) returns (b: bool)
      requires Valid() && Held(TensorV(t), table, mine, next)
      ensures b <==> t.cuda && t.numel != 0 && (t.ptr in table || (t.storage >= 0 && t.storage in table))
      ensures b <==> Hits(t, mine)
    {
      assert Sound(Live, Snapshot()) && Sound(Unseen, Snapshot());
      if !t.cuda || t.numel == 0 {
        return false;
      }
      b := t.ptr in table;
      if !b {
        b := t.storage >= 0 && t.storage in table;
      }
    }

    /** `torch.empty_strided` in a restore pool: a new allocation at an address never handed out before, laid out
        like `t`. */
    method Allocate(t: Tensor) returns (f: Tensor)
      requires Valid() && t.cuda && t.numel != 0
      modifies this`table, this`next, this`mine
      ensures Valid() && Monotone()
      ensures Held(TensorV(f), table, mine, next) && Hits(f, mine)
      ensures SameForm(t, f) && f.cuda == t.cuda && f.numel == t.numel && f.layout == t.layout
      ensures f.ptr >= old(next) && f.storage >= old(next)
    {
      var gap: nat :| true;
      var address: nat := next + gap;
      f := Tensor(address, address, t.cuda, t.numel, t.layout);
      AllocKeeps(Snapshot(), address);
      table, next, mine := table[address := false], address + 1, mine + {address as int};
    }

    method Remember(ptr: nat, f: Tensor, tag: Tag)
      requires Valid() && Suits(Snapshot(), ptr, f)
      modifies this`memo, this`weights, this`kvCache
      ensures Valid() && Monotone() && Books(tag) && memo == old(memo)[ptr := f]
    {
      MemoiseKeeps(Snapshot(), ptr, f);
      memo := memo[ptr := f];
      if tag.Weights? {
        weights := weights + 1;
      } else {
        kvCache := kvCache + 1;
      }
    }

    /** `replacement`: the tensor already made for this address, or a new one. */
    method Replacement(t: Tensor, tag: Tag) returns (f: Tensor)
      requires Valid() && Held(TensorV(t), table, mine, next) && Hits(t, mine) && Known(t, begun.cells, begun.next)
      modifies this`table, this`memo, this`weights, this`kvCache, this`next, this`mine
      ensures Valid() && Monotone() && Books(tag)
      ensures t.ptr in memo && f == memo[t.ptr]
    {
      if t.ptr in memo {
        f := memo[t.ptr];
      } else {
        assert Sound(Unseen, Snapshot()) && Sound(Live, Snapshot()) by { assert Valid(); }
        MadeBelow(table, mine, next, cells, memo);
        if t.ptr < begun.next {
          var c :| c in begun.cells && t in Tensors(begun.cells[c]);
          TensorsAddress(begun.cells[c], t);
          assert Managed(begun.cells, c, t, begun.base);
        }
        f := Allocate(t);
        Remember(t.ptr, f, tag);
      }
    }

    /** `replace_tensor`. */
    method ReplaceTensor(t: Tensor, tag: Tag) returns (r: Tensor)
      requires Valid() && Held(TensorV(t), table, mine, next) && Known(t, begun.cells, begun.next)
      modifies this`table, this`memo, this`weights, this`kvCache, this`next, this`mine
      ensures Valid() && Monotone() && Books(tag)
      ensures TensorV(r) == Sub(TensorV(t), memo, mine) && Covered(TensorV(t), memo, mine)
    {
      r := t;
      var managed := IsManaged(t);
      if managed {
        r := Replacement(t, tag);
      }
    }

    lemma HeldAddresses(holder: nat, v: Value)
      requires Valid() && holder in cells && Tensors(v) <= Tensors(cells[holder])
      ensures forall x :: x in Addresses(v) ==> x < next
    {
      assert Sound(Live, Snapshot()) && Held(cells[holder], table, mine, next);
      forall x | x in Addresses(v) ensures x < next {
        AddressIsATensors(v, x);
        var t :| t in Tensors(v) && x in Addresses(TensorV(t));
        TensorsAddress(cells[holder], t);
      }
    }

    lemma HeldTensor(holder: nat, t: Tensor)
      requires Valid() && holder in cells && t in Tensors(cells[holder])
      ensures Held(TensorV(t), table, mine, next) && Known(t, begun.cells, begun.next)
    {
      assert Sound(Live, Snapshot()) && Held(cells[holder], table, mine, next);
      TensorsAddress(cells[holder], t);
      assert Sound(Walked, Snapshot()) && Sound(Unseen, Snapshot());
      TracksTensors(begun.cells[holder], cells[holder], multiset(log)[holder], memo, begun.base, t);
    }

    /** `replace_nested` on what cell `holder` holds, or on a part of it. */
    method ReplaceNested(v: Value, ghost holder: nat, tag: Tag) returns (w: Value)
      requires Valid() && holder in cells && Tensors(v) <= Tensors(cells[holder])
      requires Below(begun.graph, begun.rank, Refs(v), begun.rank[holder])
      modifies this`cells, this`table, this`memo, this`weights, this`kvCache, this`next, this`mine
      modifies this`log, this`released
      ensures Valid() && Monotone() && Books(tag)
      ensures w == Sub(v, memo, mine) && Covered(v, memo, mine)
      ensures log == old(log) + WalkAll(begun.graph, begun.rank, Refs(v), begun.rank[holder])
      ensures Kept(old(cells), cells, begun.rank, begun.rank[holder])
      decreases begun.rank[holder], 0, v, 1
    {
      match v
      case TensorV(t) =>
        HeldTensor(holder, t);
        var r := ReplaceTensor(t, tag);
        w := TensorV(r);
      case ListV(ids) =>
        w := v;
        ReplaceList(v, holder, tag);
      case TupleV(items) =>
        w := ReplaceTuple(v, holder, tag);
      case Other =>
        w := v;
    }

    method ReplaceList(v: Value, ghost holder: nat, tag: Tag)
      requires Valid() && holder in cells && v.ListV?
      requires Below(begun.graph, begun.rank, v.cells, begun.rank[holder])
      modifies this`cells, this`table, this`memo, this`weights, this`kvCache, this`next, this`mine
      modifies this`log, this`released
      ensures Valid() && Monotone() && Books(tag)
      ensures log == old(log) + WalkAll(begun.graph, begun.rank, v.cells, begun.rank[holder])
      ensures Kept(old(cells), cells, begun.rank, begun.rank[holder])
      decreases begun.rank[holder], 0, v, 0
    {
      var i := 0;
      while i < |v.cells|
        invariant 0 <= i <= |v.cells| && Valid() && Monotone() && Books(tag)
        invariant Below(begun.graph, begun.rank, v.cells[..i], begun.rank[holder])
        invariant log == old(log) + WalkAll(begun.graph, begun.rank, v.cells[..i], begun.rank[holder])
        invariant Kept(old(cells), cells, begun.rank, begun.rank[holder])
      {
        VisitCell(v.cells[i], tag);
        assert v.cells[..i + 1][..i] == v.cells[..i];
        i := i + 1;
      }
      assert v.cells[..i] == v.cells;
    }

    method ReplaceTuple(v: Value, ghost holder: nat, tag: Tag) returns (w: Value)
      requires Valid() && holder in cells && v.TupleV? && Tensors(v) <= Tensors(cells[holder])
      requires Below(begun.graph, begun.rank, Refs(v), begun.rank[holder])
      modifies this`cells, this`table, this`memo, this`weights, this`kvCache, this`next, this`mine
      modifies this`log, this`released
      ensures Valid() && Monotone() && Books(tag)
      ensures w == Sub(v, memo, mine) && Covered(v, memo, mine)
      ensures log == old(log) + WalkAll(begun.graph, begun.rank, Refs(v), begun.rank[holder])
      ensures Kept(old(cells), cells, begun.rank, begun.rank[holder])
      decreases begun.rank[holder], 0, v, 0
    {
      var done := [];
      while |done| < |v.items|
        invariant |done| <= |v.items| && Valid() && Monotone() && Books(tag)
        invariant Replaced(v.items, done, memo, mine)
        invariant Below(begun.graph, begun.rank, RefsAll(v.items[..|done|]), begun.rank[holder])
        invariant log == old(log) + WalkAll(begun.graph, begun.rank, RefsAll(v.items[..|done|]), begun.rank[holder])
        invariant Kept(old(cells), cells, begun.rank, begun.rank[holder])
      {
        ItemOf(v, |done|, begun.graph, begun.rank, begun.rank[holder]);
        HeldAddresses(holder, v);
        label before:
        var r := ReplaceNested(v.items[|done|], holder, tag);
        TupleStep(v.items, |done|, begun.graph, begun.rank, begun.rank[holder], old(log), old@before(log), log);
        ReplacedGrows(v, done, r, old@before(memo), old@before(next), old@before(mine), memo, next, mine);
        done := done + [r];
      }
      assert v.items[..|done|] == v.items;
      w := TupleV(done);
    }

    /** Store into a cell what its value is replaced by; the value it held may be garbage then. */
    method VisitCell(c: nat, tag: Tag)
      requires Valid() && c in cells
      modifies this`cells, this`table, this`memo, this`weights, this`kvCache, this`next, this`mine
      modifies this`log, this`released
      ensures Valid() && Monotone() && Books(tag)
      ensures log == old(log) + WalkCell(begun.graph, begun.rank, c)
      ensures Kept(old(cells), cells, begun.rank, begun.rank[c] + 1)
      decreases begun.rank[c], 2
    {
      Rebind(c, tag);
      Collect();
    }

    method Rebind(c: nat, tag: Tag)
      requires Valid() && c in cells
      modifies this`cells, this`table, this`memo, this`weights, this`kvCache, this`next, this`mine
      modifies this`log, this`released
      ensures Valid() && Monotone() && Books(tag)
      ensures log == old(log) + WalkCell(begun.graph, begun.rank, c)
      ensures Kept(old(cells), cells, begun.rank, begun.rank[c] + 1)
      decreases begun.rank[c], 1
    {
      RefersAsBefore(c);
      var w := ReplaceNested(cells[c], c, tag);
      KeptStore(old(cells), cells, c, w, begun.rank);
      Regroup(old(log), WalkAll(begun.graph, begun.rank, begun.graph[c], begun.rank[c]), [c]);
      Store(c, w);
    }

    lemma RefersAsBefore(c: nat)
      requires Valid() && c in cells
      ensures Refs(cells[c]) == begun.graph[c] && Below(begun.graph, begun.rank, Refs(cells[c]), begun.rank[c])
    {
      assert Sound(Walked, Snapshot());
    }

    method Store(c: nat, w: Value)
      requires Valid() && c in cells && w == Sub(cells[c], memo, mine) && Covered(cells[c], memo, mine)
      modifies this`cells, this`log
      ensures Valid()
      ensures cells == old(cells)[c := w] && log == old(log) + [c]
    {
      RebindKeeps(Snapshot(), c);
      cells := cells[c := w];
      log := log + [c];
    }

    // ----- The roots ---------------------------------------------------------------------------------------

    /** The cells stored into are those of the walk from `roots`. */
    ghost predicate Followed()
      reads this
    {
      && Ranked(begun.graph, begun.rank) && (forall c :: c in roots ==> c in begun.graph)
      && log == WalkRoots(begun.graph, begun.rank, roots)
    }

    method VisitRoot(c: nat, tag: Tag)
      requires Valid() && Followed() && c in cells
      modifies this`cells, this`table, this`memo, this`weights, this`kvCache, this`next, this`mine
      modifies this`log, this`released, this`roots
      ensures Valid() && Followed() && Books(tag) && cells.Keys == old(cells.Keys) && roots == old(roots) + [c]
    {
      VisitCell(c, tag);
      assert (roots + [c])[..|roots|] == roots;
      roots := roots + [c];
    }

    method VisitAll(ids: seq<nat>, tag: Tag)
      requires Valid() && Followed() && Within(ids, cells.Keys)
      modifies this`cells, this`table, this`memo, this`weights, this`kvCache, this`next, this`mine
      modifies this`log, this`released, this`roots
      ensures Valid() && Followed() && Books(tag) && cells.Keys == old(cells.Keys) && roots == old(roots) + ids
    {
      var i := 0;
      while i < |ids|
        invariant 0 <= i <= |ids| && Valid() && Followed() && Books(tag) && cells.Keys == old(cells.Keys)
        invariant roots == old(roots) + ids[..i]
      {
        VisitRoot(ids[i], tag);
        i := i + 1;
      }
    }

    /** `replace_model`: parameters and buffers of every module, then every module's `kv_cache`. */
    method ReplaceModel(model: seq<Module>)
      requires Valid() && Followed() && Within(ModelRoots(model), cells.Keys)
      modifies this`cells, this`table, this`memo, this`weights, this`kvCache, this`next, this`mine
      modifies this`log, this`released, this`roots
      ensures Valid() && Followed() && cells.Keys == old(cells.Keys) && roots == old(roots) + ModelRoots(model)
    {
      ReplaceWeights(model);
      ReplaceKv(model);
    }

    /** `replace_module`. */
    method ReplaceModule(m: Module)
      requires Valid() && Followed() && Within(m.params, cells.Keys) && Within(m.buffers, cells.Keys)
      modifies this`cells, this`table, this`memo, this`weights, this`kvCache, this`next, this`mine
      modifies this`log, this`released, this`roots
      ensures Valid() && Followed() && Books(Weights) && cells.Keys == old(cells.Keys)
      ensures roots == old(roots) + (m.params + m.buffers)
    {
      VisitAll(m.params, Weights);
      VisitAll(m.buffers, Weights);
    }

    method ReplaceWeights(model: seq<Module>)
      requires Valid() && Followed() && Within(WeightRoots(model), cells.Keys)
      modifies this`cells, this`table, this`memo, this`weights, this`kvCache, this`next, this`mine
      modifies this`log, this`released, this`roots
      ensures Valid() && Followed() && Books(Weights) && cells.Keys == old(cells.Keys) && roots == old(roots) + WeightRoots(model)
    {
      var i := 0;
      while i < |model|
        invariant 0 <= i <= |model| && Valid() && Followed() && Books(Weights) && cells.Keys == old(cells.Keys)
        invariant roots == old(roots) + WeightRoots(model[..i])
      {
        WeightsSplit(model, i, cells.Keys);
        Regroup(old(roots), WeightRoots(model[..i]), model[i].params + model[i].buffers);
        ReplaceModule(model[i]);
        i := i + 1;
      }
      assert model[..i] == model;
    }

    method ReplaceKv(model: seq<Module>)
      requires Valid() && Followed() && Within(KvRoots(model), cells.Keys)
      modifies this`cells, this`table, this`memo, this`weights, this`kvCache, this`next, this`mine
      modifies this`log, this`released, this`roots
      ensures Valid() && Followed() && Books(KvCache) && cells.Keys == old(cells.Keys) && roots == old(roots) + KvRoots(model)
    {
      var i := 0;
      while i < |model|
        invariant 0 <= i <= |model| && Valid() && Followed() && Books(KvCache) && cells.Keys == old(cells.Keys)
        invariant roots == old(roots) + KvRoots(model[..i])
      {
        KvSplit(model, i, cells.Keys);
        Regroup(old(roots), KvRoots(model[..i]), model[i].kvCache);
        VisitAll(model[i].kvCache, KvCache);
        i := i + 1;
      }
      assert model[..i] == model;
    }

    /** `_reinitialize_worker_allocations`.  `rank` shows that no list contains itself. */
    method Reinitialize(model: seq<Module>, draft: seq<Module>, kvCaches: nat, crossLayers: seq<nat>,
                        ghost rank: map<nat, nat>)
      requires Within(ModelRoots(model), cells.Keys) && Within(ModelRoots(draft), cells.Keys)
      requires kvCaches in cells && Within(crossLayers, cells.Keys)
      requires Ranked(GraphOf(cells), rank) && Ready()
      modifies this
      ensures Valid() && Followed()
      ensures begun == Begun(old(cells), GraphOf(old(cells)), rank, old(next), old(Taken()), old(Asleep()))
      ensures roots == ModelRoots(model) + ModelRoots(draft) + ([kvCaches] + crossLayers)
    {
      Begin(rank);
      Walk(model, draft, kvCaches, crossLayers);
      Collect();
    }

    method Begin(ghost rank: map<nat, nat>)
      requires Ranked(GraphOf(cells), rank) && Ready()
      modifies this`memo, this`weights, this`kvCache, this`begun, this`mine, this`log, this`roots, this`released
      ensures Valid() && Followed() && roots == []
      ensures begun == Begun(cells, GraphOf(cells), rank, next, Taken(), Asleep())
    {
      released := multiset{};
      ReleaseStale();
      memo, weights, kvCache, roots, log := map[], 0, 0, [], [];
      SetOut(rank);
    }

    ghost method SetOut(rank: map<nat, nat>)
      requires Ranked(GraphOf(cells), rank) && Ready() && memo == map[] && weights == kvCache == 0 && roots == log == []
      requires forall a: nat :: released[a] == if a in table && table[a] then 1 else 0
      modifies this`begun, this`mine
      ensures Valid() && Followed()
      ensures begun == Begun(cells, GraphOf(cells), rank, next, Taken(), Asleep())
    {
      begun, mine := Begun(cells, GraphOf(cells), rank, next, Taken(), Asleep()), Taken();
      BeginKeeps(begun, table, released);
    }

    method Walk(model: seq<Module>, draft: seq<Module>, kvCaches: nat, crossLayers: seq<nat>)
      requires Valid() && Followed() && roots == []
      requires Within(ModelRoots(model), cells.Keys) && Within(ModelRoots(draft), cells.Keys)
      requires kvCaches in cells && Within(crossLayers, cells.Keys)
      modifies this`cells, this`table, this`memo, this`weights, this`kvCache, this`next, this`mine
      modifies this`log, this`released, this`roots
      ensures Valid() && Followed()
      ensures roots == ModelRoots(model) + ModelRoots(draft) + ([kvCaches] + crossLayers)
    {
      ReplaceModels(model, draft);
      ReplaceCaches(kvCaches, crossLayers);
    }

    /** The model, then the draft model, which is empty if there is none. */
    method ReplaceModels(model: seq<Module>, draft: seq<Module>)
      requires Valid() && Followed() && roots == []
      requires Within(ModelRoots(model), cells.Keys) && Within(ModelRoots(draft), cells.Keys)
      modifies this`cells, this`table, this`memo, this`weights, this`kvCache, this`next, this`mine
      modifies this`log, this`released, this`roots
      ensures Valid() && Followed() && cells.Keys == old(cells.Keys) && roots == ModelRoots(model) + ModelRoots(draft)
    {
      ReplaceModel(model);
      ReplaceModel(draft);
    }

    /** The model runner's `kv_caches`, and `cross_layers_kv_cache` if it is there. */
    method ReplaceCaches(kvCaches: nat, crossLayers: seq<nat>)
      requires Valid() && Followed() && kvCaches in cells && Within(crossLayers, cells.Keys)
      modifies this`cells, this`table, this`memo, this`weights, this`kvCache, this`next, this`mine
      modifies this`log, this`released, this`roots
      ensures Valid() && Followed() && Books(KvCache) && cells.Keys == old(cells.Keys)
      ensures roots == old(roots) + ([kvCaches] + crossLayers)
    {
      VisitRoot(kvCaches, KvCache);
      VisitAll(crossLayers, KvCache);
    }

    ghost function Taken(): set<int>
      reads this`table
    {
      set a | a in table :: a as int
    }

    ghost function Asleep(): set<nat>
      reads this`table
    {
      set a | a in table && table[a]
    }

    /** Before the walk: every address in use was handed out before. */
    ghost predicate Ready()
      reads this`cells, this`table, this`next
    {
      && (forall a :: a in table ==> a < next)
      && (forall c, x :: c in cells && x in Addresses(cells[c]) ==> x < next)
    }
  }
}
