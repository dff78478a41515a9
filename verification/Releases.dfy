/** A local restore that failed can be tried again, so more than one pass may run over one table of allocations.
    How often each allocation is then unmapped and released. */
module Releases {
  import opened Rebinding

  /** A pass begins; the allocator hands out an address, or gets one back through the patched free callback. */
  datatype Event = Pass | Malloc(address: nat) | Drop(ptr: nat)

  function Asleep(table: map<nat, bool>): set<nat> { set a | a in table && table[a] }

  predicate AsleepIn(s: State, a: nat) { a in s.table && s.table[a] }

  function Apply(s: State, e: Event): State {
    match e
    case Pass => s.(past := s.past.(released := s.past.released + multiset(Asleep(s.table))))
    case Malloc(address) => if address >= s.next then Alloc(s, address) else s
    case Drop(ptr) => if ptr in s.table then Free(s, ptr) else s
  }

  function Run(s: State, run: seq<Event>): State
    decreases |run|
  {
    if run == [] then s else Run(Apply(s, run[0]), run[1..])
  }

  /** The allocator has handed out only addresses before the next one. */
  predicate Numbered(s: State) { forall a :: a in s.table ==> a < s.next }

  /** How many passes begin before `a` is freed. */
  function PassesBefore(run: seq<Event>, a: nat): nat {
    if run == [] || run[0] == Drop(a) then 0 else (if run[0].Pass? then 1 else 0) + PassesBefore(run[1..], a)
  }

  /** What sleeps stays asleep until it is freed, and nothing falls asleep. */
  lemma {:induction false} AsleepUntilFreed(s: State, run: seq<Event>, a: nat)
    requires Numbered(s)
    ensures AsleepIn(Run(s, run), a) <==> AsleepIn(s, a) && Drop(a) !in run
    decreases |run|
  {
    if run != [] {
      AsleepUntilFreed(Apply(s, run[0]), run[1..], a);
      assert run == [run[0]] + run[1..];
    }
  }

  lemma OneStep(s: State, e: Event, a: nat)
    requires Numbered(s)
    ensures var s', now := Apply(s, e), s.past.released[a];
            && Numbered(s') && s'.next >= s.next
            && (a in s'.table <==> (a in s.table && e != Drop(a)) || (e == Malloc(a) && a >= s.next))
            && (a in s.table && a in s'.table ==> s'.table[a] == s.table[a])
            && (a !in s.table && a in s'.table ==> !s'.table[a])
            && s'.past.released[a] == now
                 + if (AsleepIn(s, a) && e.Pass?) || (a in s.table && !s.table[a] && e == Drop(a)) then 1 else 0
  {
  }

  /** An allocation that sleeps is released once by every pass before it is freed; one that does not is released when
      it is freed. */
  lemma {:induction false} HowOften(s: State, run: seq<Event>, a: nat)
    requires Numbered(s)
    ensures AsleepIn(s, a) ==> Run(s, run).past.released[a] == s.past.released[a] + PassesBefore(run, a)
    ensures a in s.table && !s.table[a] ==>
              Run(s, run).past.released[a] == s.past.released[a] + if Drop(a) in run then 1 else 0
    ensures a !in s.table ==> Run(s, run).past.released[a] <= s.past.released[a] + 1
    ensures a !in s.table && a < s.next ==> Run(s, run).past.released[a] == s.past.released[a]
    decreases |run|
  {
    if run != [] {
      OneStep(s, run[0], a);
      HowOften(Apply(s, run[0]), run[1..], a);
      assert run == [run[0]] + run[1..];
    }
  }

  /** Two passes begin before `a` is freed. */
  predicate TwoPasses(run: seq<Event>, a: nat) {
    exists i, j :: 0 <= i < j < |run| && run[i].Pass? && run[j].Pass? && Drop(a) !in run[..j]
  }

  lemma {:induction false} Counted(run: seq<Event>, a: nat)
    ensures PassesBefore(run, a) >= 1 <==> exists j :: 0 <= j < |run| && run[j].Pass? && Drop(a) !in run[..j]
    ensures PassesBefore(run, a) >= 2 <==> TwoPasses(run, a)
  {
    if run != [] && run[0] != Drop(a) {
      var rest := run[1..];
      Counted(rest, a);
      forall j | 0 <= j < |rest| ensures Drop(a) in run[..j + 1] <==> Drop(a) in rest[..j] {
        assert run[..j + 1] == [run[0]] + rest[..j];
      }
    }
  }

  /** An allocation is released twice exactly if it sleeps, and two passes begin before it is freed. */
  lemma ReleasedTwice(s: State, run: seq<Event>, a: nat)
    requires Numbered(s) && s.past.released == multiset{}
    ensures Run(s, run).past.released[a] >= 2 <==> AsleepIn(s, a) && TwoPasses(run, a)
  {
    HowOften(s, run, a);
    Counted(run, a);
  }

  /** Hence a second pass releases again whatever still sleeps in the table. */
  lemma TriedAgain(s: State, a: nat)
    requires Numbered(s) && s.past.released == multiset{} && AsleepIn(s, a)
    ensures Run(s, [Pass, Pass]).past.released[a] == 2 && Run(s, [Pass, Drop(a), Pass]).past.released[a] == 1
  {
    HowOften(s, [Pass, Pass], a);
    HowOften(s, [Pass, Drop(a), Pass], a);
    assert PassesBefore([Pass], a) == 1;
  }
}
