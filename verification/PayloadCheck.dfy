/** The build-time gate over a frozen payload: every alias safe, every entry inside, no directory cycle. */
module PayloadCheck {
  import opened Common
  import opened TreeDigest

  /** A path as its components from the file-system root. */
  type Place = seq<string>

  /** What `stat` says of a resolved place; `children` is what `iterdir` lists when it is a directory, absent when that raises. */
  datatype Node = Node(mode: bv16, children: Option<seq<string>>)

  /** `links` is what `readlink` answers for symlinks, `resolved` where strict resolution of a path ends. */
  datatype FileSystem = FileSystem(links: map<Place, string>, resolved: map<Place, Place>, nodes: map<Place, Node>)

  datatype Reason = NotADirectory | AbsoluteAlias | ClimbingAlias | BrokenAlias | Outside | WritableByOthers | Cyclic | Unlistable | Unsupported

  datatype Fault = Fault(path: Place, reason: Reason)

  predicate IsDirectory(mode: bv16) { mode & 0xF000 == 0x4000 }
  predicate IsRegular(mode: bv16) { mode & 0xF000 == 0x8000 }
  predicate OthersMayWrite(mode: bv16) { mode & 0x12 != 0 }

  /** The kinds of a mode are those of its top four bits; others may write by the group's or the world's write bit. */
  lemma ModeMeaning(mode: bv16)
    ensures IsDirectory(mode) <==> mode >> 12 == 4
    ensures IsRegular(mode) <==> mode >> 12 == 8
    ensures OthersMayWrite(mode) <==> (mode >> 4) & 1 == 1 || (mode >> 1) & 1 == 1
  {
  }

  predicate Absolute(link: string) { link != "" && link[0] == '/' }

  /** An alias is refused when it begins with a slash or has a component that climbs. */
  lemma AliasMeaning(link: string)
    ensures Absolute(link) <==> "/" <= link
    ensures ".." in SplitSlash(link) <==> HasComponent(link, "..")
  {
    PartsMeaning(link);
    hide SplitSlash, HasComponent;
  }

  datatype Unit = Unit

  /** `check`: the first fault met, depth first. */
  function Check(fs: FileSystem, root: Place, path: Place, ancestors: set<Place>): Result<Unit, Fault>
    decreases fs.nodes.Keys - ancestors, 0
  {
    if path in fs.links && Absolute(fs.links[path]) then Failure(Fault(path, AbsoluteAlias))
    else if path in fs.links && ".." in SplitSlash(fs.links[path]) then Failure(Fault(path, ClimbingAlias))
    else if path !in fs.resolved || fs.resolved[path] !in fs.nodes then Failure(Fault(path, BrokenAlias))
    else
      var target := fs.resolved[path];
      var node := fs.nodes[target];
      if !(root <= target) then Failure(Fault(path, Outside))
      else if OthersMayWrite(node.mode) then Failure(Fault(path, WritableByOthers))
      else if IsDirectory(node.mode) then
        if target in ancestors then Failure(Fault(path, Cyclic))
        else if node.children.None? then Failure(Fault(path, Unlistable))
        else
          assert fs.nodes.Keys - (ancestors + {target}) < fs.nodes.Keys - ancestors by {
            assert target in fs.nodes.Keys - ancestors;
          }
          CheckChildren(fs, root, target, node.children.value, ancestors + {target})
      else if !IsRegular(node.mode) then Failure(Fault(path, Unsupported))
      else Success(Unit)
  }

  /** The loop over `target.iterdir()`. */
  function CheckChildren(fs: FileSystem, root: Place, target: Place, names: seq<string>, ancestors: set<Place>)
    : Result<Unit, Fault>
    decreases fs.nodes.Keys - ancestors, 1 + |names|
  {
    if names == [] then Success(Unit)
    else
      var first := Check(fs, root, target + [names[0]], ancestors);
      if first.Failure? then first else CheckChildren(fs, root, target, names[1..], ancestors)
  }

  /** `validate_payload`. */
  function Validate(fs: FileSystem, given: Place): Result<Unit, Fault> {
    if given in fs.links || !LeadsToDirectory(fs, given) then Failure(Fault(given, NotADirectory))
    else Check(fs, fs.resolved[given], fs.resolved[given], {})
  }

  predicate LeadsToDirectory(fs: FileSystem, path: Place) {
    path in fs.resolved && fs.resolved[path] in fs.nodes && IsDirectory(fs.nodes[fs.resolved[path]].mode)
  }

  // ---------- What the gate promises ----------

  /** The local checks on one entry. */
  predicate EntryOk(fs: FileSystem, root: Place, path: Place) {
    && (path in fs.links ==> !Absolute(fs.links[path]) && ".." !in SplitSlash(fs.links[path]))
    && path in fs.resolved && root <= fs.resolved[path] && fs.resolved[path] in fs.nodes
    && !OthersMayWrite(fs.nodes[fs.resolved[path]].mode)
    && (IsDirectory(fs.nodes[fs.resolved[path]].mode) || IsRegular(fs.nodes[fs.resolved[path]].mode))
  }

  /** A directory the path leads to, if any, can be listed. */
  predicate Listable(fs: FileSystem, path: Place) { LeadsToDirectory(fs, path) ==> fs.nodes[fs.resolved[path]].children.Some? }

  /** `next` is listed by the directory `path` leads to. */
  predicate Lists(fs: FileSystem, path: Place, next: Place) {
    && LeadsToDirectory(fs, path) && Listable(fs, path)
    && var target := fs.resolved[path];
      next != [] && next[..|next| - 1] == target && next[|next| - 1] in fs.nodes[target].children.value
  }

  /** A way through the payload, each entry listed by the directory the one before leads to. */
  ghost predicate Walk(fs: FileSystem, way: seq<Place>) {
    way != [] && forall i :: 0 <= i < |way| - 1 ==> Lists(fs, way[i], way[i + 1])
  }

  /** Two entries lead to the same directory. */
  predicate SameDirectory(fs: FileSystem, p: Place, q: Place) {
    LeadsToDirectory(fs, p) && LeadsToDirectory(fs, q) && fs.resolved[p] == fs.resolved[q]
  }

  /** The last entry of a way passes the local checks and leads back to no directory of the way or of `above`. */
  ghost predicate EndOk(fs: FileSystem, root: Place, way: seq<Place>, above: set<Place>)
    requires way != []
  {
    var last := way[|way| - 1];
    && EntryOk(fs, root, last) && Listable(fs, last)
    && (LeadsToDirectory(fs, last) ==> fs.resolved[last] !in above)
    && forall i :: 0 <= i < |way| - 1 ==> !SameDirectory(fs, way[i], last)
  }

  ghost predicate AllWaysOk(fs: FileSystem, root: Place, path: Place, above: set<Place>) {
    forall way :: Walk(fs, way) && way[0] == path ==> EndOk(fs, root, way, above)
  }

  lemma LongerWay(fs: FileSystem, root: Place, path: Place, rest: seq<Place>, above: set<Place>)
    requires Walk(fs, rest) && Lists(fs, path, rest[0])
    ensures Walk(fs, [path] + rest)
    ensures EndOk(fs, root, [path] + rest, above) <==> EndOk(fs, root, rest, above + {fs.resolved[path]})
  {
    hide EntryOk;
    var way := [path] + rest;
    forall i | 0 <= i < |way| - 1 ensures Lists(fs, way[i], way[i + 1]) {
      if i > 0 { assert Lists(fs, rest[i - 1], rest[i - 1 + 1]); }
    }
    var last := rest[|rest| - 1];
    assert way[|way| - 1] == last;
    if EndOk(fs, root, way, above) {
      assert !SameDirectory(fs, way[0], last);
      forall i | 0 <= i < |rest| - 1 ensures !SameDirectory(fs, rest[i], last) {
        assert !SameDirectory(fs, way[i + 1], last);
      }
    }
    if EndOk(fs, root, rest, above + {fs.resolved[path]}) {
      forall i | 0 <= i < |way| - 1 ensures !SameDirectory(fs, way[i], last) {
        if i > 0 { assert !SameDirectory(fs, rest[i - 1], last); }
      }
    }
  }

  /** All ways from an entry are fine when the entry is, and all ways from what it lists are. */
  lemma WaysSplit(fs: FileSystem, root: Place, path: Place, above: set<Place>)
    ensures AllWaysOk(fs, root, path, above)
            <==> && EndOk(fs, root, [path], above)
                 && forall next :: Lists(fs, path, next) ==> AllWaysOk(fs, root, next, above + {fs.resolved[path]})
  {
    hide EndOk;
    if AllWaysOk(fs, root, path, above) {
      assert Walk(fs, [path]);
      forall next | Lists(fs, path, next) ensures AllWaysOk(fs, root, next, above + {fs.resolved[path]}) {
        forall rest | Walk(fs, rest) && rest[0] == next ensures EndOk(fs, root, rest, above + {fs.resolved[path]}) {
          LongerWay(fs, root, path, rest, above);
          assert ([path] + rest)[0] == path;
        }
      }
    }
    if EndOk(fs, root, [path], above)
       && forall next :: Lists(fs, path, next) ==> AllWaysOk(fs, root, next, above + {fs.resolved[path]})
    {
      forall way | Walk(fs, way) && way[0] == path ensures EndOk(fs, root, way, above) {
        if |way| == 1 {
          assert way == [path];
        } else {
          var rest := way[1..];
          assert Lists(fs, way[0], way[1]);
          assert Walk(fs, rest) by {
            forall i | 0 <= i < |rest| - 1 ensures Lists(fs, rest[i], rest[i + 1]) {
              assert Lists(fs, way[i + 1], way[i + 1 + 1]);
            }
          }
          LongerWay(fs, root, path, rest, above);
          assert way == [path] + rest;
        }
      }
    }
  }

  /** The recursive check passes exactly when every way from its entry is fine. */
  lemma {:induction false} CheckMeaning(fs: FileSystem, root: Place, path: Place, above: set<Place>)
    ensures Check(fs, root, path, above).Success? <==> AllWaysOk(fs, root, path, above)
    decreases fs.nodes.Keys - above, 0
  {
    hide AllWaysOk, Absolute, SplitSlash, IsDirectory, IsRegular, OthersMayWrite, CheckChildren;
    WaysSplit(fs, root, path, above);
    if EndOk(fs, root, [path], above) && LeadsToDirectory(fs, path) {
      var target := fs.resolved[path];
      var names := fs.nodes[target].children.value;
      assert target in fs.nodes.Keys - above;
      assert fs.nodes.Keys - (above + {target}) < fs.nodes.Keys - above;
      ChildrenMeaning(fs, root, target, names, above + {target});
      forall next ensures Lists(fs, path, next) <==> exists name :: name in names && next == target + [name] {
        if Lists(fs, path, next) { assert next == target + [next[|next| - 1]]; }
      }
      assert forall name :: name in names ==> Lists(fs, path, target + [name]);
    }
  }

  lemma {:induction false} ChildrenMeaning(fs: FileSystem, root: Place, target: Place, names: seq<string>, above: set<Place>)
    ensures CheckChildren(fs, root, target, names, above).Success?
            <==> forall name :: name in names ==> AllWaysOk(fs, root, target + [name], above)
    decreases fs.nodes.Keys - above, 1 + |names|
  {
    hide AllWaysOk, Check;
    if names != [] {
      CheckMeaning(fs, root, target + [names[0]], above);
      ChildrenMeaning(fs, root, target, names[1..], above);
      assert names == [names[0]] + names[1..];
    }
  }

  /** No way through the payload enters one directory twice. */
  ghost predicate Acyclic(fs: FileSystem, root: Place) {
    forall way, i, j :: Walk(fs, way) && way[0] == root && 0 <= i < j < |way| ==> !SameDirectory(fs, way[i], way[j])
  }

  ghost predicate EveryEntryOk(fs: FileSystem, root: Place) {
    forall way :: Walk(fs, way) && way[0] == root ==> EntryOk(fs, root, way[|way| - 1]) && Listable(fs, way[|way| - 1])
  }

  lemma PrefixWalks(fs: FileSystem, way: seq<Place>, n: nat)
    requires Walk(fs, way) && 0 < n <= |way|
    ensures Walk(fs, way[..n])
  {
    forall i | 0 <= i < n - 1 ensures Lists(fs, way[..n][i], way[..n][i + 1]) {
      assert Lists(fs, way[i], way[i + 1]);
    }
  }

  /** The gate passes exactly the payloads whose reachable entries are all fine and listable and whose directories have no cycle. */
  lemma ValidIff(fs: FileSystem, given: Place)
    ensures Validate(fs, given).Success?
            <==> && given !in fs.links && LeadsToDirectory(fs, given)
                 && EveryEntryOk(fs, fs.resolved[given]) && Acyclic(fs, fs.resolved[given])
  {
    hide EntryOk, SameDirectory, Lists, Check;
    if given !in fs.links && LeadsToDirectory(fs, given) {
      var root := fs.resolved[given];
      CheckMeaning(fs, root, root, {});
      if AllWaysOk(fs, root, root, {}) {
        forall way, i, j | Walk(fs, way) && way[0] == root && 0 <= i < j < |way|
          ensures !SameDirectory(fs, way[i], way[j])
        {
          PrefixWalks(fs, way, j + 1);
          assert EndOk(fs, root, way[..j + 1], {});
        }
      }
    }
  }

  /** A refusal names an entry that the payload reaches and that breaks one of the rules. */
  lemma {:induction false} FaultIsReal(fs: FileSystem, root: Place, path: Place, above: set<Place>) returns (way: seq<Place>)
    requires Check(fs, root, path, above).Failure?
    ensures Walk(fs, way) && way[0] == path && way[|way| - 1] == Check(fs, root, path, above).error.path
    ensures !EndOk(fs, root, way, above)
    ensures var reason := Check(fs, root, path, above).error.reason;
      && (reason == Cyclic || reason == Unlistable <==> EntryOk(fs, root, way[|way| - 1]))
      && (reason == Unlistable ==> !Listable(fs, way[|way| - 1]))
      && (reason == Cyclic ==> LeadsToDirectory(fs, way[|way| - 1]))
    decreases fs.nodes.Keys - above, 0
  {
    hide Absolute, SplitSlash, IsDirectory, IsRegular, OthersMayWrite, CheckChildren;
    if !EndOk(fs, root, [path], above) {
      way := [path];
    } else {
      var target := fs.resolved[path];
      assert target in fs.nodes.Keys - above;
      assert fs.nodes.Keys - (above + {target}) < fs.nodes.Keys - above;
      var rest := ChildFaultIsReal(fs, root, target, fs.nodes[target].children.value, above + {target});
      assert Lists(fs, path, rest[0]);
      LongerWay(fs, root, path, rest, above);
      way := [path] + rest;
    }
  }

  lemma {:induction false} ChildFaultIsReal(fs: FileSystem, root: Place, target: Place, names: seq<string>, above: set<Place>)
    returns (way: seq<Place>)
    requires CheckChildren(fs, root, target, names, above).Failure?
    ensures Walk(fs, way) && way[|way| - 1] == CheckChildren(fs, root, target, names, above).error.path
    ensures exists name :: name in names && way[0] == target + [name]
    ensures !EndOk(fs, root, way, above)
    ensures var reason := CheckChildren(fs, root, target, names, above).error.reason;
      && (reason == Cyclic || reason == Unlistable <==> EntryOk(fs, root, way[|way| - 1]))
      && (reason == Unlistable ==> !Listable(fs, way[|way| - 1]))
      && (reason == Cyclic ==> LeadsToDirectory(fs, way[|way| - 1]))
    decreases fs.nodes.Keys - above, 1 + |names|
  {
    hide Check, EndOk, Walk;
    if Check(fs, root, target + [names[0]], above).Failure? {
      way := FaultIsReal(fs, root, target + [names[0]], above);
    } else {
      way := ChildFaultIsReal(fs, root, target, names[1..], above);
    }
  }
}
