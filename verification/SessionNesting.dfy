/**
 Which session rows render at the top level. Parent pointers are arbitrary: they may dangle, point to
 the entry itself or form cycles.
 */
module SessionNesting {
  import opened Common

  type Key = (string, string)

  /** A rollup entry; an absent client or session id reads as the empty string. */
  datatype Entry = NotAMapping | Entry(client: string, sessionId: string, parentId: Option<string>)

  /** Keys in order of first appearance, and each key's raw parent (the first entry of a key wins). */
  datatype Rollup = Rollup(order: seq<Key>, parents: map<Key, Option<Key>>)

  function KeyOf(e: Entry): Key
    requires e.Entry?
  {
    (e.client, e.sessionId)
  }

  function ParentOf(e: Entry): Option<Key>
    requires e.Entry?
  {
    if e.parentId.Some? then Some((e.client, e.parentId.value)) else None
  }

  function Read(entries: seq<Entry>): (r: Rollup)
    ensures r.parents.Keys == set k | k in r.order
    ensures forall i, j :: 0 <= i < j < |r.order| ==> r.order[i] != r.order[j]
    decreases |entries|
  {
    if entries == [] then Rollup([], map[])
    else
      var before, e := Read(entries[..|entries| - 1]), entries[|entries| - 1];
      if e.NotAMapping? || KeyOf(e) in before.parents then before
      else Rollup(before.order + [KeyOf(e)], before.parents[KeyOf(e) := ParentOf(e)])
  }

  /** The first entry with its key, at position i. */
  predicate FirstOfKey(entries: seq<Entry>, i: nat) {
    && i < |entries| && entries[i].Entry?
    && forall j :: 0 <= j < i && entries[j].Entry? ==>
      entries[j].client != entries[i].client || entries[j].sessionId != entries[i].sessionId
  }

  /** The first entry with key k. */
  predicate FirstWith(entries: seq<Entry>, i: nat, k: Key) {
    FirstOfKey(entries, i) && entries[i].client == k.0 && entries[i].sessionId == k.1
  }

  ghost predicate HasFirst(entries: seq<Entry>, k: Key) { exists i: nat :: FirstWith(entries, i, k) }

  /** The parent recorded for a key agrees with an entry. */
  predicate ParentReads(parent: Option<Key>, e: Entry)
    requires e.Entry?
  {
    match parent
    case None => e.parentId.None?
    case Some(p) => p.0 == e.client && e.parentId == Some(p.1)
  }

  lemma FirstOfLonger(entries: seq<Entry>, k: Key)
    requires entries != []
    ensures var n := |entries| - 1; var init := entries[..n];
      && (forall i: nat :: FirstWith(entries, i, k) <==> FirstWith(init, i, k) || (i == n && FirstWith(entries, n, k)))
      && (forall i: nat :: FirstWith(init, i, k) ==> i < n && init[i] == entries[i])
      && (FirstWith(entries, n, k) <==> entries[n].Entry? && KeyOf(entries[n]) == k && !HasFirst(init, k))
  {
    var n := |entries| - 1;
    if entries[n].Entry? && KeyOf(entries[n]) == k {
      LastWithKey(entries);
    }
    forall i: nat ensures i < n ==> (FirstWith(entries, i, k) <==> FirstWith(entries[..n], i, k)) {
      assert i < n ==> entries[..n][i] == entries[i];
    }
  }

  /**
   Keys are client and session id; the first entry of a key counts, later ones do not. A parent is the recorded session
   of the same client, if one is recorded.
   */
  lemma {:induction false} ReadMeaning(entries: seq<Entry>, k: Key)
    ensures k in Read(entries).parents <==> HasFirst(entries, k)
    ensures forall i: nat :: FirstWith(entries, i, k) ==>
      k in Read(entries).parents && ParentReads(Read(entries).parents[k], entries[i])
    decreases |entries|
  {
    if entries != [] {
      ReadMeaning(entries[..|entries| - 1], k);
      FirstOfLonger(entries, k);
      hide FirstWith;
    }
  }

  lemma LastWithKey(entries: seq<Entry>)
    requires entries != [] && entries[|entries| - 1].Entry?
    ensures var n := |entries| - 1; var k := KeyOf(entries[n]);
      FirstWith(entries, n, k) <==> forall i: nat :: !FirstWith(entries[..n], i, k)
  {
    var n := |entries| - 1;
    var init, k := entries[..n], KeyOf(entries[n]);
    if !FirstWith(entries, n, k) {
      var j: nat :| j < n && entries[j].Entry? && KeyOf(entries[j]) == k;
      var i := EarliestWith(init, j);
      assert FirstWith(init, i, k);
    }
    if i: nat :| FirstWith(init, i, k) {
      assert entries[i] == init[i];
    }
  }

  lemma {:induction false} EarliestWith(entries: seq<Entry>, j: nat) returns (i: nat)
    requires j < |entries| && entries[j].Entry?
    ensures FirstWith(entries, i, KeyOf(entries[j]))
    decreases j
  {
    if FirstOfKey(entries, j) {
      i := j;
    } else {
      var k: nat :| k < j && entries[k].Entry? && KeyOf(entries[k]) == KeyOf(entries[j]);
      i := EarliestWith(entries, k);
    }
  }

  type Parents = map<Key, Option<Key>>

  /** The parent of k if it is another entry of the rollup. */
  function Usable(g: Parents, k: Key): Option<Key> {
    if k in g && g[k].Some? && g[k].value != k && g[k].value in g then g[k] else None
  }

  /** n steps up from k, as long as the parents are usable. */
  function Climb(g: Parents, k: Key, n: nat): Option<Key>
    decreases n
  {
    if n == 0 then Some(k)
    else match Usable(g, k)
      case Some(parent) => Climb(g, parent, n - 1)
      case None => None
  }

  ghost predicate OnCycle(g: Parents, k: Key) { exists n: nat :: ReturnsAfter(g, k, n) }

  predicate ReturnsAfter(g: Parents, k: Key, n: nat) { n > 0 && Climb(g, k, n) == Some(k) }

  /** The labelling the walk must find: true is "renders as its own row". */
  ghost predicate FitsAt(g: Parents, top: map<Key, bool>, k: Key)
    requires k in g && k in top
  {
    if OnCycle(g, k) || Usable(g, k).None? then top[k]
    else Usable(g, k).value in top && top[k] == !top[Usable(g, k).value]
  }

  ghost predicate Labelling(g: Parents, top: map<Key, bool>) {
    top.Keys == g.Keys && forall k :: k in g ==> FitsAt(g, top, k)
  }

  function Marks(g: Parents, rows: set<Key>): map<Key, bool> { map k | k in g :: k in rows }

  /** The set of keys the walk must return. */
  ghost predicate TopLevel(g: Parents, rows: set<Key>) { rows <= g.Keys && Labelling(g, Marks(g, rows)) }

  // ---------- The labelling is unique ----------

  lemma {:induction false} ClimbAdds(g: Parents, k: Key, m: nat, n: nat)
    ensures Climb(g, k, m + n) == if Climb(g, k, m).Some? then Climb(g, Climb(g, k, m).value, n) else None
    decreases m
  {
    if m > 0 && Usable(g, k).Some? {
      ClimbAdds(g, Usable(g, k).value, m - 1, n);
    }
  }

  predicate Reaches(g: Parents, start: Key, k: Key, m: nat) { Climb(g, start, m) == Some(k) }

  ghost predicate Passed(g: Parents, start: Key, n: nat, k: Key) { exists m: nat :: m < n && Reaches(g, start, k, m) }

  /** Walking up from a disagreement, with the set of keys passed, must end; a repeated key is on a cycle. */
  lemma {:induction false} Agree(g: Parents, a: map<Key, bool>, b: map<Key, bool>, start: Key, n: nat, k: Key, passed: set<Key>)
    requires Labelling(g, a) && Labelling(g, b) && k in g && Reaches(g, start, k, n)
    requires passed <= g.Keys && k !in passed && forall p :: p in passed ==> Passed(g, start, n, p)
    ensures a[k] == b[k]
    decreases g.Keys - passed
  {
    if !OnCycle(g, k) && Usable(g, k).Some? {
      var parent := Usable(g, k).value;
      ClimbAdds(g, start, n, 1);
      assert Climb(g, k, 1) == Some(parent);
      forall p | p in passed + {k} ensures Passed(g, start, n + 1, p) {
        if p == k {
          assert Reaches(g, start, p, n);
        } else {
          var m: nat :| m < n && Reaches(g, start, p, m);
        }
      }
      if parent in passed + {k} {
        // the walk closed a cycle through k
        var m: nat :| m < n + 1 && Reaches(g, start, parent, m);
        ClimbAdds(g, start, m, n - m);
        ClimbAdds(g, k, 1, n - m);
        assert ReturnsAfter(g, k, n - m + 1);
      } else {
        Agree(g, a, b, start, n + 1, parent, passed + {k});
      }
    }
  }

  lemma LabellingIsUnique(g: Parents, a: map<Key, bool>, b: map<Key, bool>)
    requires Labelling(g, a) && Labelling(g, b)
    ensures a == b
  {
    forall k | k in g ensures a[k] == b[k] {
      assert Reaches(g, k, k, 0);
      Agree(g, a, b, k, 0, k, {});
    }
  }

  lemma TopLevelIsUnique(g: Parents, rows: set<Key>, rows': set<Key>)
    requires TopLevel(g, rows) && TopLevel(g, rows')
    ensures rows == rows'
  {
    LabellingIsUnique(g, Marks(g, rows), Marks(g, rows'));
    forall k | k in g ensures k in rows <==> k in rows' {
      assert Marks(g, rows)[k] == Marks(g, rows')[k];
    }
  }

  // ---------- Consequences ----------

  /** Cycle members and keys without a usable parent are rows; of any other key and its parent exactly one is. */
  lemma RowsMeaning(g: Parents, rows: set<Key>, k: Key)
    requires TopLevel(g, rows) && k in g
    ensures OnCycle(g, k) || Usable(g, k).None? ==> k in rows
    ensures !OnCycle(g, k) && Usable(g, k).Some? ==> (k in rows <==> Usable(g, k).value !in rows)
    ensures k !in rows ==> Usable(g, k).Some? && Usable(g, k).value in rows
  {
    assert FitsAt(g, Marks(g, rows), k);
  }

  predicate DuplicateFree(entries: seq<Entry>) {
    forall i, j :: 0 <= i < j < |entries| && entries[i].Entry? && entries[j].Entry? ==> KeyOf(entries[i]) != KeyOf(entries[j])
  }

  lemma {:induction false} ReadKeepsEntries(entries: seq<Entry>)
    requires DuplicateFree(entries)
    ensures forall k :: k in Read(entries).parents ==>
      exists e :: e in entries && e.Entry? && KeyOf(e) == k && Read(entries).parents[k] == ParentOf(e)
    ensures forall e :: e in entries && e.Entry? ==>
      KeyOf(e) in Read(entries).parents && Read(entries).parents[KeyOf(e)] == ParentOf(e)
    decreases |entries|
  {
    if entries != [] {
      var init, last := entries[..|entries| - 1], entries[|entries| - 1];
      ReadKeepsEntries(init);
      assert entries == init + [last];
    }
  }

  lemma SameEntriesSameGraph(a: seq<Entry>, b: seq<Entry>)
    requires DuplicateFree(a) && DuplicateFree(b) && forall e :: e in a <==> e in b
    ensures Read(a).parents == Read(b).parents
  {
    ReadKeepsEntries(a);
    ReadKeepsEntries(b);
    hide Read, DuplicateFree;
    var p, q := Read(a).parents, Read(b).parents;
    forall k ensures (k in p <==> k in q) && (k in p ==> p[k] == q[k]) {
      if k in p {
        var e :| e in a && e.Entry? && KeyOf(e) == k && p[k] == ParentOf(e);
        assert e in b;
      }
    }
  }

  /** Reordering entries without duplicate keys changes neither the graph nor, hence, the labelling. */
  lemma OrderIsIrrelevant(a: seq<Entry>, b: seq<Entry>, rows: set<Key>, rows': set<Key>)
    requires DuplicateFree(a) && DuplicateFree(b) && multiset(a) == multiset(b)
    requires TopLevel(Read(a).parents, rows) && TopLevel(Read(b).parents, rows')
    ensures rows == rows'
  {
    hide Read, DuplicateFree, TopLevel;
    forall e ensures e in a <==> e in b {
      assert e in multiset(a) <==> e in multiset(b);
    }
    SameEntriesSameGraph(a, b);
    TopLevelIsUnique(Read(a).parents, rows, rows');
  }

  // ---------- The walk ----------

  ghost predicate Closed(g: Parents, done: set<Key>) {
    forall k :: k in done && Usable(g, k).Some? ==> Usable(g, k).value in done
  }

  /** Labels decided so far: closed under parents, each one right. */
  ghost predicate Decided(g: Parents, top: map<Key, bool>) {
    top.Keys <= g.Keys && Closed(g, top.Keys) && forall k :: k in top ==> FitsAt(g, top, k)
  }

  /** The keys of a path, each the usable parent of the one before, ending just below `current`. */
  ghost predicate Chain(g: Parents, path: seq<Key>, current: Key) {
    && (forall i :: 0 <= i < |path| ==> path[i] in g)
    && (forall i, j :: 0 <= i < j < |path| ==> path[i] != path[j])
    && (forall i :: 0 <= i < |path| ==> Linked(g, path, current, i))
  }

  ghost predicate Linked(g: Parents, path: seq<Key>, current: Key, i: nat)
    requires i < |path|
  {
    Usable(g, path[i]) == Some(if i + 1 < |path| then path[i + 1] else current)
  }

  lemma {:induction false} ClosedHolds(g: Parents, done: set<Key>, k: Key, n: nat)
    requires Closed(g, done) && k in done && Climb(g, k, n).Some?
    ensures Climb(g, k, n).value in done
    decreases n
  {
    if n > 0 {
      ClosedHolds(g, done, Usable(g, k).value, n - 1);
    }
  }

  /** A key below a closed set but outside it can never come back to itself. */
  lemma NotOnCycle(g: Parents, done: set<Key>, k: Key)
    requires Closed(g, done) && k !in done && Usable(g, k).Some? && Usable(g, k).value in done
    ensures !OnCycle(g, k)
  {
    if OnCycle(g, k) {
      var n: nat :| ReturnsAfter(g, k, n);
      ClosedHolds(g, done, Usable(g, k).value, n - 1);
    }
  }

  lemma {:induction false} ClimbChain(g: Parents, path: seq<Key>, current: Key, i: nat, j: nat)
    requires Chain(g, path, current) && i <= j <= |path|
    ensures i < |path| ==> Climb(g, path[i], j - i) == Some(if j < |path| then path[j] else current)
    decreases j - i
  {
    if i < j {
      assert Linked(g, path, current, i);
      ClimbChain(g, path, current, i + 1, j);
      if i + 1 == |path| {
        assert Climb(g, path[i], 1) == Climb(g, current, 0);
      }
    }
  }

  /** A path that runs into its own member at `at` has closed a cycle from there on. */
  lemma CycleFound(g: Parents, path: seq<Key>, at: nat, i: nat)
    requires at <= i < |path| && Chain(g, path, path[at])
    ensures OnCycle(g, path[i])
  {
    ClimbChain(g, path, path[at], i, |path|);
    ClimbChain(g, path, path[at], at, i);
    ClimbAdds(g, path[i], |path| - i, i - at);
    assert ReturnsAfter(g, path[i], |path| - at);
  }

  lemma AddTop(g: Parents, top: map<Key, bool>, k: Key)
    requires Decided(g, top) && k in g && k !in top && Usable(g, k).None?
    ensures Decided(g, top[k := true])
  {
    forall j | j in top ensures FitsAt(g, top[k := true], j) {
      assert FitsAt(g, top, j);
    }
  }

  lemma AddBelow(g: Parents, top: map<Key, bool>, k: Key)
    requires Decided(g, top) && k in g && k !in top && Usable(g, k).Some? && Usable(g, k).value in top
    ensures Decided(g, top[k := !top[Usable(g, k).value]])
  {
    NotOnCycle(g, top.Keys, k);
    forall j | j in top ensures FitsAt(g, top[k := !top[Usable(g, k).value]], j) {
      assert FitsAt(g, top, j);
    }
  }

  /** The members of a found cycle, all top-level. */
  function Lit(path: seq<Key>): (m: map<Key, bool>)
    ensures m.Keys == (set k | k in path) && forall k :: k in m ==> m[k]
  {
    map k | k in path :: true
  }

  lemma AddCycle(g: Parents, top: map<Key, bool>, path: seq<Key>, at: nat)
    requires Decided(g, top) && at < |path| && Chain(g, path, path[at])
    requires forall k :: k in path ==> k !in top
    ensures Decided(g, top + Lit(path[at..]))
  {
    var more := top + Lit(path[at..]);
    forall k | k in path[at..]
      ensures OnCycle(g, k) && Usable(g, k).Some? && Usable(g, k).value in more && more[k]
    {
      var i :| at <= i < |path| && path[i] == k;
      CycleFound(g, path, at, i);
      assert Linked(g, path, path[at], i);
      assert path[at..][0] == path[at];
      assert i + 1 < |path| ==> path[at..][i + 1 - at] == path[i + 1];
      assert Usable(g, k).value in path[at..];
    }
    forall k | k in top ensures FitsAt(g, more, k) {
      assert FitsAt(g, top, k);
    }
  }

  lemma LabelledRows(g: Parents, top: map<Key, bool>)
    requires Labelling(g, top)
    ensures TopLevel(g, TopKeys(top))
  {
    assert Marks(g, TopKeys(top)) == top;
  }

  function TopKeys(top: map<Key, bool>): set<Key> { set k | k in top && top[k] }

  /** The keys walked: each of them pushed on a path exactly once, over the whole call. */
  ghost predicate PushedOnce(pushes: seq<Key>, keys: set<Key>) {
    (set k | k in pushes) == keys && forall i, j :: 0 <= i < j < |pushes| ==> pushes[i] != pushes[j]
  }

  lemma PushOne(pushes: seq<Key>, keys: set<Key>, k: Key)
    requires PushedOnce(pushes, keys) && k !in keys
    ensures PushedOnce(pushes + [k], keys + {k})
  {
    assert forall j :: j in pushes + [k] <==> j in pushes || j == k;
  }

  lemma AllDecided(g: Parents, top: map<Key, bool>)
    requires Decided(g, top) && g.Keys <= top.Keys
    ensures Labelling(g, top)
  {
  }

  /** `_top_level_session_keys`. */
  method TopLevelSessionKeys(entries: seq<Entry>)
    returns (result: set<Key>, ghost pushes: seq<Key>)
    ensures TopLevel(Read(entries).parents, result)
    ensures PushedOnce(pushes, Read(entries).parents.Keys)
  {
    hide Decided, PushedOnce, Labelling, TopLevel, Read;
    var order, parents := ReadEntries(entries);
    var flags: map<Key, bool> := map[];
    pushes := [];
    NothingDecided(parents);
    assert flags.Keys == {};
    var n := 0;
    while n < |order|
      invariant n <= |order| && Decided(parents, flags) && PushedOnce(pushes, flags.Keys) && flags.Keys <= parents.Keys
      invariant forall i :: 0 <= i < n ==> order[i] in flags
    {
      if order[n] !in flags {
        flags, pushes := Walk(parents, flags, order[n], pushes);
      }
      n := n + 1;
    }
    result := TopKeys(flags);
    AllDecided(parents, flags);
    LabelledRows(parents, flags);
  }

  lemma NothingDecided(g: Parents)
    ensures Decided(g, map[]) && PushedOnce([], {})
  {
  }

  method ReadEntries(entries: seq<Entry>) returns (order: seq<Key>, parents: Parents)
    ensures Rollup(order, parents) == Read(entries)
  {
    order, parents := [], map[];
    var i := 0;
    while i < |entries|
      invariant i <= |entries| && Rollup(order, parents) == Read(entries[..i])
    {
      var e := entries[i];
      assert entries[..i + 1][..|entries[..i + 1]| - 1] == entries[..i];
      if e.Entry? && KeyOf(e) !in parents {
        order := order + [KeyOf(e)];
        parents := parents[KeyOf(e) := ParentOf(e)];
      }
      i := i + 1;
    }
    assert entries[..i] == entries;
  }

  /** The walk's bookkeeping: `position` indexes the path. */
  ghost predicate Positioned(path: seq<Key>, position: map<Key, nat>) {
    && (forall k :: k in path <==> k in position)
    && (forall k :: k in position ==> position[k] < |path| && path[position[k]] == k)
  }

  lemma ExtendChain(g: Parents, path: seq<Key>, position: map<Key, nat>, current: Key, parent: Key)
    requires Chain(g, path, current) && Positioned(path, position) && current in g && current !in position
    requires Usable(g, current) == Some(parent)
    ensures Chain(g, path + [current], parent)
  {
    forall i | 0 <= i < |path| + 1 ensures Linked(g, path + [current], parent, i) {
      assert i < |path| ==> Linked(g, path, current, i);
    }
  }

  lemma ExtendPosition(path: seq<Key>, position: map<Key, nat>, current: Key)
    requires Positioned(path, position) && current !in position
    ensures Positioned(path + [current], position[current := |path|])
  {
  }

  lemma CutChain(g: Parents, path: seq<Key>, at: nat)
    requires at < |path| && Chain(g, path, path[at])
    ensures Chain(g, path[..at], path[at])
    ensures (set k | k in path[..at]) !! (set k | k in path[at..])
    ensures (set k | k in path[..at]) + (set k | k in path[at..]) == set k | k in path
  {
    assert path == path[..at] + path[at..];
    forall i | 0 <= i < at ensures Linked(g, path[..at], path[at], i) {
      assert Linked(g, path, path[at], i);
    }
  }

  lemma UsableOrNot(g: Parents, k: Key)
    requires k in g
    ensures Usable(g, k) == if g[k].None? || g[k].value == k || g[k].value !in g then None else g[k]
  {
  }

  lemma PathKeys(path: seq<Key>, position: map<Key, nat>)
    requires Positioned(path, position)
    ensures (set k | k in path) == position.Keys
    ensures forall k :: k in position ==> position[k] < |path| && path[position[k]] == k
  {
  }

  lemma EmptyPath(g: Parents, start: Key)
    ensures Chain(g, [], start) && Positioned([], map[])
  {
  }

  /** Labels a path from its upper end down. */
  method Unwind(parents: Parents, decided: map<Key, bool>, path: seq<Key>, current: Key, flag: bool)
    returns (top: map<Key, bool>)
    requires Decided(parents, decided) && Chain(parents, path, current)
    requires current in decided && flag == decided[current] && forall k :: k in path ==> k !in decided
    ensures Decided(parents, top) && top.Keys == decided.Keys + set k | k in path
  {
    hide Decided;
    top := decided;
    var parentIsTop := flag;
    var i := |path|;
    while i > 0
      invariant 0 <= i <= |path| && Decided(parents, top)
      invariant top.Keys == decided.Keys + set k | k in path[i..]
      invariant (if i < |path| then path[i] else current) in top
      invariant parentIsTop == top[if i < |path| then path[i] else current]
    {
      i := i - 1;
      assert path[i..] == [path[i]] + path[i + 1..];
      assert path[i] !in path[i + 1..];
      assert Linked(parents, path, current, i);
      AddBelow(parents, top, path[i]);
      parentIsTop := !parentIsTop;
      top := top[path[i] := parentIsTop];
    }
    assert path[0..] == path;
  }

  /** Climbs from one undecided key until something is decided, then labels the path on the way back. */
  method Walk(parents: Parents, flags: map<Key, bool>, start: Key, ghost pushed: seq<Key>)
    returns (top: map<Key, bool>, ghost pushes: seq<Key>)
    requires Decided(parents, flags) && flags.Keys <= parents.Keys && start in parents && start !in flags && PushedOnce(pushed, flags.Keys)
    ensures Decided(parents, top) && PushedOnce(pushes, top.Keys)
    ensures start in top && flags.Keys <= top.Keys <= parents.Keys
  {
    hide FitsAt, Closed, Usable, Climb, OnCycle, Chain, Positioned, Decided, PushedOnce;
    top, pushes := flags, pushed;
    var path: seq<Key> := [];
    var position: map<Key, nat> := map[];
    var current := start;
    var parentIsTop := true;
    EmptyPath(parents, start);
    assert flags.Keys + position.Keys == flags.Keys;
    while true
      invariant Chain(parents, path, current) && Positioned(path, position) && current in parents && top == flags
      invariant start in position || (path == [] && current == start)
      invariant position.Keys !! flags.Keys && position.Keys <= parents.Keys
      invariant PushedOnce(pushes, flags.Keys + position.Keys)
      decreases parents.Keys - position.Keys
    {
      PathKeys(path, position);
      if current in top {
        parentIsTop := top[current];
        break;
      }
      if current in position {
        var at := position[current];
        AddCycle(parents, top, path, at);
        CutChain(parents, path, at);
        top := top + Lit(path[at..]);
        path := path[..at];
        parentIsTop := true;
        break;
      }
      PushOne(pushes, flags.Keys + position.Keys, current);
      pushes := pushes + [current];
      ghost var below, before := path, position;
      ExtendPosition(path, position, current);
      assert flags.Keys + position.Keys + {current} == flags.Keys + position[current := |path|].Keys;
      position := position[current := |path|];
      path := path + [current];
      UsableOrNot(parents, current);
      var parent := parents[current];
      if parent.None? || parent.value == current || parent.value !in parents {
        AddTop(parents, top, current);
        top := top[current := true];
        path := path[..|path| - 1];
        assert path == below;
        assert position.Keys == (set k | k in path) + {current};
        parentIsTop := true;
        break;
      }
      ExtendChain(parents, below, before, current, parent.value);
      current := parent.value;
    }
    assert flags.Keys + position.Keys == top.Keys + set k | k in path;
    top := Unwind(parents, top, path, current, parentIsTop);
  }
}
