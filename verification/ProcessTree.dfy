/** Walking and killing a process tree, over one snapshot of the process table. */
module ProcessTree {
  import opened Wrappers

  /** The children that the kernel lists for each process, in its order. */
  type Table = map<nat, seq<nat>>

  /** `children`: nothing for a process that is gone or not ours. */
  function Children(t: Table, pid: nat): seq<nat> { if pid in t then t[pid] else [] }

  predicate IsChild(t: Table, parent: nat, child: nat) { parent in t && child in t[parent] }

  /** A process has one parent, is listed once, and is one deeper than its parent. */
  ghost predicate Forest(t: Table, depth: map<nat, nat>) {
    && (forall p, c :: IsChild(t, p, c) ==> p in depth && c in depth && depth[c] == depth[p] + 1)
    && (forall p, q, c :: IsChild(t, p, c) && IsChild(t, q, c) ==> p == q)
    && (forall p :: p in t ==> Distinct(t[p]))
  }

  ghost predicate Distinct(s: seq<nat>) { forall i, j :: 0 <= i < j < |s| ==> s[i] != s[j] }

  /** `p` is `d` generations below `root`. */
  ghost predicate Below(t: Table, root: nat, p: nat, d: nat)
    decreases d
  {
    if d == 0 then p == root else exists q :: IsChild(t, q, p) && Below(t, root, q, d - 1)
  }

  ghost predicate Descends(t: Table, root: nat, p: nat) { exists d: nat :: d > 0 && Below(t, root, p, d) }

  function Known(t: Table): set<nat> { t.Keys + set p, c | p in t && c in t[p] :: c }

  // ----- The walk ------------------------------------------------------------------------------------------

  /** `all` is the root and what was found so far; the children of the first `m` of it have been added. */
  ghost predicate Walked(t: Table, depth: map<nat, nat>, root: nat, all: seq<nat>, m: nat) {
    && m <= |all| && |all| > 0 && all[0] == root && Distinct(all)
    && Rooted(t, all, m) && Closed(t, all, m) && Ordered(depth, all, m)
  }

  /** All but the root have their parent before them, among the first `m`. */
  ghost predicate Rooted(t: Table, all: seq<nat>, m: nat) {
    forall i :: 1 <= i < |all| ==> HasParent(t, all, i, m)
  }

  ghost predicate HasParent(t: Table, all: seq<nat>, i: nat, m: nat)
    requires i < |all|
  {
    exists j :: 0 <= j < i && j < m && IsChild(t, all[j], all[i])
  }

  ghost predicate Closed(t: Table, all: seq<nat>, m: nat)
    requires m <= |all|
  {
    forall i, c :: 0 <= i < m && IsChild(t, all[i], c) ==> c in all
  }

  /** Depths do not decrease, and stay within one of the next to be visited. */
  ghost predicate Ordered(depth: map<nat, nat>, all: seq<nat>, m: nat) {
    && (forall i :: 0 <= i < |all| ==> all[i] in depth)
    && (forall i, j :: 0 <= i <= j < |all| ==> depth[all[i]] <= depth[all[j]])
    && (m < |all| ==> depth[all[|all| - 1]] <= depth[all[m]] + 1)
  }

  lemma NewAreDistinct(t: Table, depth: map<nat, nat>, root: nat, all: seq<nat>, m: nat)
    requires Forest(t, depth) && Walked(t, depth, root, all, m) && m < |all|
    ensures Distinct(all + Children(t, all[m]))
  {
    var kids := Children(t, all[m]);
    forall i, k | 0 <= i < |all| && 0 <= k < |kids| ensures all[i] != kids[k] {
      assert IsChild(t, all[m], kids[k]);
      assert depth[all[0]] <= depth[all[m]];
      assert i > 0 ==> HasParent(t, all, i, m);
    }
  }

  lemma NewAreRooted(t: Table, all: seq<nat>, m: nat)
    requires Rooted(t, all, m) && m < |all|
    ensures Rooted(t, all + Children(t, all[m]), m + 1)
  {
    var more, n := all + Children(t, all[m]), m + 1;
    forall i | 1 <= i < |more| ensures HasParent(t, more, i, n) {
      if i < |all| {
        assert HasParent(t, all, i, m);
        var j :| 0 <= j < i && j < m && IsChild(t, all[j], all[i]);
        assert IsChild(t, more[j], more[i]);
      } else {
        assert IsChild(t, more[m], more[i]);
      }
    }
  }

  lemma NewAreOrdered(t: Table, depth: map<nat, nat>, all: seq<nat>, m: nat)
    requires Forest(t, depth) && Ordered(depth, all, m) && m < |all|
    ensures Ordered(depth, all + Children(t, all[m]), m + 1)
  {
    var kids := Children(t, all[m]);
    var more := all + kids;
    forall k | 0 <= k < |kids| ensures kids[k] in depth && depth[kids[k]] == depth[all[m]] + 1 {
      assert IsChild(t, all[m], kids[k]);
    }
    assert forall i :: 0 <= i < |more| ==> more[i] in depth && (i >= |all| ==> depth[more[i]] == depth[all[m]] + 1);
    assert forall i :: 0 <= i < |all| ==> depth[more[i]] <= depth[all[|all| - 1]];
  }

  lemma StepKeepsWalked(t: Table, depth: map<nat, nat>, root: nat, all: seq<nat>, m: nat)
    requires Forest(t, depth) && Walked(t, depth, root, all, m) && m < |all|
    ensures Walked(t, depth, root, all + Children(t, all[m]), m + 1)
  {
    NewAreDistinct(t, depth, root, all, m);
    NewAreRooted(t, all, m);
    NewAreOrdered(t, depth, all, m);
    var more := all + Children(t, all[m]);
    forall i, c | 0 <= i < m + 1 && IsChild(t, more[i], c) ensures c in more {
      assert i < m ==> IsChild(t, all[i], c);
    }
  }

  /** `descendants`: every proper descendant once, parents before children, and no process before a shallower one. */
  method Descendants(t: Table, root: nat, ghost depth: map<nat, nat>) returns (found: seq<nat>)
    requires Forest(t, depth) && root in depth
    ensures Walked(t, depth, root, [root] + found, |found| + 1)
  {
    found := [];
    var queue := [root];
    ghost var all, m, limit := [root], 0, |Known(t) + {root}|;
    while queue != []
      invariant Walked(t, depth, root, all, m) && queue == all[m..]
      invariant all == [root] + found
      decreases limit - m
    {
      var kids := Children(t, queue[0]);
      FewAreKnown(t, depth, root, all, m);
      StepKeepsWalked(t, depth, root, all, m);
      Extended(root, found, all, kids, m);
      found, queue := found + kids, queue[1..] + kids;
      all, m := all + kids, m + 1;
    }
  }

  lemma Extended(root: nat, found: seq<nat>, all: seq<nat>, kids: seq<nat>, m: nat)
    requires all == [root] + found && m < |all|
    ensures all + kids == [root] + (found + kids)
    ensures all[m..][0] == all[m] && all[m..][1..] + kids == (all + kids)[m + 1..]
  {
  }

  lemma FewAreKnown(t: Table, depth: map<nat, nat>, root: nat, all: seq<nat>, m: nat)
    requires Walked(t, depth, root, all, m)
    ensures |all| <= |Known(t) + {root}|
  {
    forall i | 0 <= i < |all| ensures all[i] in Known(t) + {root} {
      if i > 0 {
        assert HasParent(t, all, i, m);
      }
    }
    DistinctIsFew(all, Known(t) + {root});
  }

  lemma {:induction false} DistinctIsFew(s: seq<nat>, a: set<nat>)
    requires Distinct(s) && forall i :: 0 <= i < |s| ==> s[i] in a
    ensures |s| <= |a|
  {
    if s != [] {
      DistinctIsFew(s[1..], a - {s[0]});
    }
  }

  /** So what it returns is exactly the descendants. */
  lemma WalkFindsDescendants(t: Table, depth: map<nat, nat>, root: nat, found: seq<nat>, p: nat)
    requires Forest(t, depth) && Walked(t, depth, root, [root] + found, |found| + 1)
    ensures p in found <==> Descends(t, root, p)
  {
    var all := [root] + found;
    if i :| 0 <= i < |found| && found[i] == p {
      var d := FoundIsBelow(t, depth, root, all, i + 1);
    }
    if d: nat :| d > 0 && Below(t, root, p, d) {
      BelowIsFound(t, depth, root, all, p, d);
      BelowIsDeeper(t, depth, root, p, d);
    }
  }

  lemma {:induction false} FoundIsBelow(t: Table, depth: map<nat, nat>, root: nat, all: seq<nat>, i: nat) returns (d: nat)
    requires Walked(t, depth, root, all, |all|) && i < |all|
    ensures Below(t, root, all[i], d) && (i > 0 ==> d > 0)
    decreases i
  {
    if i == 0 {
      d := 0;
    } else {
      assert HasParent(t, all, i, |all|);
      var k :| 0 <= k < i && IsChild(t, all[k], all[i]);
      d := FoundIsBelow(t, depth, root, all, k);
      d := d + 1;
    }
  }

  lemma {:induction false} BelowIsFound(t: Table, depth: map<nat, nat>, root: nat, all: seq<nat>, p: nat, d: nat)
    requires Walked(t, depth, root, all, |all|) && Below(t, root, p, d)
    ensures p in all
    decreases d
  {
    if d > 0 {
      var q :| IsChild(t, q, p) && Below(t, root, q, d - 1);
      BelowIsFound(t, depth, root, all, q, d - 1);
    }
  }

  lemma {:induction false} BelowIsDeeper(t: Table, depth: map<nat, nat>, root: nat, p: nat, d: nat)
    requires Forest(t, depth) && Below(t, root, p, d) && root in depth
    ensures p in depth && depth[p] == depth[root] + d
    decreases d
  {
    if d > 0 {
      var q :| IsChild(t, q, p) && Below(t, root, q, d - 1);
      BelowIsDeeper(t, depth, root, q, d - 1);
    }
  }

  lemma ParentsComeFirst(t: Table, depth: map<nat, nat>, root: nat, all: seq<nat>, a: nat, b: nat)
    requires Forest(t, depth) && Walked(t, depth, root, all, |all|) && a < |all| && b < |all|
    requires IsChild(t, all[a], all[b])
    ensures a < b
  {
    assert depth[all[b]] == depth[all[a]] + 1;
  }

  lemma {:induction false} BelowIsAtLeast(t: Table, depth: map<nat, nat>, root: nat, all: seq<nat>, i: nat, p: nat)
    requires Walked(t, depth, root, all, |all|) && i < |all| && p in all[i..]
    ensures p in depth && all[i] in depth && depth[all[i]] <= depth[p]
  {
    var k :| 0 <= k < |all[i..]| && all[i..][k] == p;
    assert all[i + k] == p;
  }

  // ----- Its users -----------------------------------------------------------------------------------------

  ghost predicate InTree(t: Table, root: nat, p: nat) { p == root || Descends(t, root, p) }

  lemma WalkFindsTree(t: Table, depth: map<nat, nat>, root: nat, found: seq<nat>)
    requires Forest(t, depth) && Walked(t, depth, root, [root] + found, |found| + 1)
    ensures forall p :: p in found <==> Descends(t, root, p)
    ensures forall p :: p in [root] + found <==> InTree(t, root, p)
  {
    forall p ensures p in found <==> Descends(t, root, p) {
      WalkFindsDescendants(t, depth, root, found, p);
    }
  }

  ghost predicate Shallowest(t: Table, depth: map<nat, nat>, root: nat, engines: set<nat>, p: nat) {
    && p in engines && InTree(t, root, p) && p in depth
    && forall q :: q in engines && InTree(t, root, q) ==> q in depth && depth[p] <= depth[q]
  }

  lemma FirstIsShallowest(t: Table, depth: map<nat, nat>, root: nat, found: seq<nat>, engines: set<nat>, i: nat)
    requires Forest(t, depth) && Walked(t, depth, root, [root] + found, |found| + 1)
    requires i <= |found| && ([root] + found)[i] in engines
    requires forall k :: 0 <= k < i ==> ([root] + found)[k] !in engines
    ensures Shallowest(t, depth, root, engines, ([root] + found)[i])
  {
    var all := [root] + found;
    WalkFindsTree(t, depth, root, found);
    assert all[i] in all;
    BelowIsAtLeast(t, depth, root, all, i, all[i]);
    forall q | q in engines && InTree(t, root, q) ensures q in depth && depth[all[i]] <= depth[q] {
      FoundLater(all, engines, i, q);
      BelowIsAtLeast(t, depth, root, all, i, q);
    }
  }

  lemma FoundLater(all: seq<nat>, engines: set<nat>, i: nat, q: nat)
    requires i <= |all| && q in all && q in engines && forall k :: 0 <= k < i ==> all[k] !in engines
    ensures q in all[i..]
  {
    assert all == all[..i] + all[i..];
  }

  /** `find_engine`; `engines` are the processes whose name or command line says so. */
  method FindEngine(t: Table, root: nat, engines: set<nat>, ghost depth: map<nat, nat>) returns (found: Option<nat>)
    requires Forest(t, depth) && root in depth
    ensures found.None? <==> forall p :: InTree(t, root, p) ==> p !in engines
    ensures found.Some? ==> Shallowest(t, depth, root, engines, found.value)
  {
    var below := Descendants(t, root, depth);
    var all := [root] + below;
    var i := 0;
    while i < |all|
      invariant 0 <= i <= |all| && forall k :: 0 <= k < i ==> all[k] !in engines
    {
      if all[i] in engines {
        FirstIsShallowest(t, depth, root, below, engines, i);
        return Some(all[i]);
      }
      i := i + 1;
    }
    WalkFindsTree(t, depth, root, below);
    found := None;
  }

  /** `terminate_tree`: one signal for each process, every child before its parent, the root last. */
  method TerminateTree(t: Table, root: nat, ghost depth: map<nat, nat>) returns (killed: seq<nat>)
    requires Forest(t, depth) && root in depth
    ensures Distinct(killed) && killed != [] && killed[|killed| - 1] == root
    ensures forall p :: p in killed <==> InTree(t, root, p)
    ensures forall i, j :: 0 <= i < |killed| && 0 <= j < |killed| && IsChild(t, killed[i], killed[j]) ==> j < i
  {
    var found := Descendants(t, root, depth);
    WalkFindsTree(t, depth, root, found);
    var pids := Reversed(found);
    pids := pids + [root];
    ReversedWalk(t, depth, root, [root] + found, pids);
    killed := [];
    var i := 0;
    while i < |pids|
      invariant 0 <= i <= |pids| && killed == pids[..i]
    {
      killed := killed + [pids[i]];
      i := i + 1;
    }
  }

  method Reversed(s: seq<nat>) returns (r: seq<nat>)
    ensures |r| == |s| && forall k :: 0 <= k < |r| ==> r[k] == s[|s| - 1 - k]
  {
    r := [];
    while |r| < |s|
      invariant |r| <= |s| && forall k :: 0 <= k < |r| ==> r[k] == s[|s| - 1 - k]
    {
      r := r + [s[|s| - 1 - |r|]];
    }
  }

  lemma ReversedWalk(t: Table, depth: map<nat, nat>, root: nat, all: seq<nat>, pids: seq<nat>)
    requires Forest(t, depth) && Walked(t, depth, root, all, |all|)
    requires |pids| == |all| && forall k :: 0 <= k < |all| ==> pids[k] == all[|all| - 1 - k]
    ensures Distinct(pids) && pids[|pids| - 1] == root && (forall p :: p in pids <==> p in all)
    ensures forall i, j :: 0 <= i < |pids| && 0 <= j < |pids| && IsChild(t, pids[i], pids[j]) ==> j < i
  {
    var n := |all| - 1;
    forall p ensures p in pids <==> p in all {
      if k :| 0 <= k < |all| && all[k] == p {
        assert pids[n - k] == p;
      }
    }
    forall i, j | 0 <= i < |pids| && 0 <= j < |pids| && IsChild(t, pids[i], pids[j]) ensures j < i {
      ParentsComeFirst(t, depth, root, all, n - i, n - j);
    }
  }

  function Only(s: seq<nat>, a: set<nat>): seq<nat> {
    if s == [] then [] else Only(s[..|s| - 1], a) + if s[|s| - 1] in a then [s[|s| - 1]] else []
  }

  lemma {:induction false} OnlySome(s: seq<nat>, a: set<nat>)
    requires Distinct(s)
    ensures Distinct(Only(s, a)) && forall p :: p in Only(s, a) <==> p in s && p in a
  {
    if s != [] {
      OnlySome(s[..|s| - 1], a);
      assert forall i :: 0 <= i < |s| - 1 ==> s[..|s| - 1][i] == s[i];
      assert s == s[..|s| - 1] + [s[|s| - 1]];
      assert s[|s| - 1] !in s[..|s| - 1];
    }
  }

  /** `find_resource_trackers`: the descendants that are trackers, each once. */
  method FindResourceTrackers(t: Table, root: nat, trackers: set<nat>, ghost depth: map<nat, nat>) returns (found: seq<nat>)
    requires Forest(t, depth) && root in depth
    ensures Distinct(found) && forall p :: p in found <==> p in trackers && Descends(t, root, p)
  {
    var all := Descendants(t, root, depth);
    WalkFindsTree(t, depth, root, all);
    assert Distinct(all) by {
      assert forall i :: 0 <= i < |all| ==> ([root] + all)[i + 1] == all[i];
    }
    OnlySome(all, trackers);
    found := [];
    var i := 0;
    while i < |all|
      invariant 0 <= i <= |all| && found == Only(all[..i], trackers)
    {
      assert all[..i + 1][..i] == all[..i];
      if all[i] in trackers {
        found := found + [all[i]];
      }
      i := i + 1;
    }
    assert all[..i] == all;
  }
}
