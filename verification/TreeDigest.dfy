/** The byte stream behind a source-tree digest: framed so that it determines every path and content. */
module TreeDigest {
  import opened Common
  import opened Ordering
  import opened ActionLog

  datatype DigestError = NoPaths | BadPath | DuplicatePath | TooLong

  // ---------- Scope paths ----------

  /** `value.split("/")`. */
  function SplitSlash(value: string): (parts: seq<string>)
    ensures parts != []
    decreases |value|
  {
    if value == "" then [""]
    else
      var rest := SplitSlash(value[1..]);
      if value[0] == '/' then [""] + rest else [[value[0]] + rest[0]] + rest[1..]
  }

  function JoinSlash(parts: seq<string>): string
    requires parts != []
    decreases |parts|
  {
    if |parts| == 1 then parts[0] else parts[0] + "/" + JoinSlash(parts[1..])
  }

  lemma JoinPrepend(c: char, parts: seq<string>)
    requires parts != []
    ensures JoinSlash([[c] + parts[0]] + parts[1..]) == [c] + JoinSlash(parts)
  {
    var longer := [[c] + parts[0]] + parts[1..];
    assert longer[1..] == parts[1..];
    if |parts| > 1 {
      assert [c] + (parts[0] + "/" + JoinSlash(parts[1..])) == ([c] + parts[0]) + "/" + JoinSlash(parts[1..]);
    }
  }

  /** The parts hold no slash, and joined by slashes they are the value. */
  lemma {:induction false} SplitMeaning(value: string)
    ensures JoinSlash(SplitSlash(value)) == value && forall part :: part in SplitSlash(value) ==> '/' !in part
    decreases |value|
  {
    if value != "" {
      var rest := SplitSlash(value[1..]);
      SplitMeaning(value[1..]);
      assert value == [value[0]] + value[1..];
      if value[0] == '/' {
        assert ([""] + rest)[1..] == rest;
      } else {
        JoinPrepend(value[0], rest);
      }
    }
  }

  /** The characters from i up to j hold no slash and lie between two, or between one and an end. */
  predicate Component(value: string, i: nat, j: nat) {
    && i <= j <= |value| && '/' !in value[i..j]
    && (i == 0 || value[i - 1] == '/') && (j == |value| || value[j] == '/')
  }

  ghost predicate HasLater(value: string, part: string) {
    exists i: nat, j: nat :: i > 0 && Component(value, i, j) && value[i..j] == part
  }

  ghost predicate HasFirst(value: string, part: string) { exists j: nat :: Component(value, 0, j) && value[0..j] == part }

  lemma ComponentsShift(value: string, i: nat, j: nat)
    requires value != ""
    ensures i > 0 || value[0] == '/' ==> (Component(value, i + 1, j + 1) <==> Component(value[1..], i, j))
    ensures value[0] != '/' ==> !Component(value, 1, j)
    ensures i <= j < |value| ==> value[i + 1..j + 1] == value[1..][i..j]
  {
    if i <= j < |value| {
      var a, b := value[i + 1..j + 1], value[1..][i..j];
      assert |a| == |b| && forall k :: 0 <= k < |a| ==> a[k] == b[k];
    }
  }

  lemma SlashInFront(value: string, j: nat)
    requires 0 < j <= |value| && value[0] == '/'
    ensures '/' in value[0..j]
  {
    assert value[0..j][0] == '/';
  }

  lemma LaterShifts(value: string, part: string)
    requires value != ""
    ensures HasLater(value, part) <==> HasLater(value[1..], part) || (value[0] == '/' && HasFirst(value[1..], part))
  {
    var rest := value[1..];
    if i: nat, j: nat :| i > 0 && Component(value, i, j) && value[i..j] == part {
      ComponentsShift(value, i - 1, j - 1);
      ComponentsShift(value, 0, j);
      assert Component(rest, i - 1, j - 1) && rest[i - 1..j - 1] == part;
    }
    if i: nat, j: nat :| i > 0 && Component(rest, i, j) && rest[i..j] == part {
      ComponentsShift(value, i, j);
      assert Component(value, i + 1, j + 1) && value[i + 1..j + 1] == part;
    }
    if j: nat :| value[0] == '/' && Component(rest, 0, j) && rest[0..j] == part {
      ComponentsShift(value, 0, j);
      assert Component(value, 1, j + 1) && value[1..j + 1] == part;
    }
  }

  lemma FirstShifts(value: string, part: string)
    requires value != ""
    ensures HasFirst(value, part) <==>
      if value[0] == '/' then part == "" else part != "" && part[0] == value[0] && HasFirst(value[1..], part[1..])
  {
    var rest := value[1..];
    if j: nat :| Component(value, 0, j) && value[0..j] == part {
      if value[0] == '/' {
        if j > 0 { SlashInFront(value, j); }
      } else {
        assert j > 0;
        assert part == [value[0]] + rest[0..j - 1];
        assert Component(rest, 0, j - 1) && rest[0..j - 1] == part[1..];
      }
    }
    if value[0] == '/' {
      assert Component(value, 0, 0) && value[0..0] == "";
    } else if part != "" && part[0] == value[0] {
      if j: nat :| Component(rest, 0, j) && rest[0..j] == part[1..] {
        assert value[0..j + 1] == [value[0]] + rest[0..j] == part;
        assert Component(value, 0, j + 1);
      }
    }
  }

  /** The parts of a path are its components, the one at the front first. */
  lemma {:induction false} PartsAreComponents(value: string)
    ensures forall part :: part == SplitSlash(value)[0] <==> HasFirst(value, part)
    ensures forall part :: part in SplitSlash(value)[1..] <==> HasLater(value, part)
    decreases |value|
  {
    if value == "" {
      assert Component(value, 0, 0);
    } else {
      var parts := SplitSlash(value[1..]);
      PartsAreComponents(value[1..]);
      assert parts == [parts[0]] + parts[1..];
      hide HasFirst, HasLater;
      forall part
        ensures part == SplitSlash(value)[0] <==> HasFirst(value, part)
        ensures part in SplitSlash(value)[1..] <==> HasLater(value, part)
      {
        FirstShifts(value, part);
        LaterShifts(value, part);
        assert part != "" ==> part == [part[0]] + part[1..];
      }
    }
  }

  ghost predicate HasComponent(value: string, part: string) { exists i: nat, j: nat :: Component(value, i, j) && value[i..j] == part }

  lemma PartsMeaning(value: string)
    ensures forall part :: part in SplitSlash(value) <==> HasComponent(value, part)
  {
    PartsAreComponents(value);
    var parts := SplitSlash(value);
    assert parts == [parts[0]] + parts[1..];
    hide SplitSlash;
    forall part ensures HasComponent(value, part) <==> HasFirst(value, part) || HasLater(value, part) {
      if i: nat, j: nat :| Component(value, i, j) && value[i..j] == part {
        assert if i == 0 then HasFirst(value, part) else HasLater(value, part);
      }
    }
  }

  /** A canonical path is not empty, holds no backslash and no NUL, and no component of it is empty, `.` or `..`. */
  lemma CanonicalMeaning(value: string)
    ensures CanonicalPath(value) <==>
      && value != "" && (forall k :: 0 <= k < |value| ==> value[k] != '\\' && value[k] != '\0')
      && !HasComponent(value, "") && !HasComponent(value, ".") && !HasComponent(value, "..")
  {
    PartsMeaning(value);
    hide SplitSlash, HasComponent;
  }

  predicate CanonicalPath(value: string) {
    && value != "" && '\\' !in value && '\0' !in value
    && forall part :: part in SplitSlash(value) ==> part != "" && part != "." && part != ".."
  }

  ghost predicate Sorted(s: seq<string>) { forall i, j :: 0 <= i < j < |s| ==> Le(s[i], s[j]) }

  function Insert(x: string, s: seq<string>): (r: seq<string>)
    decreases |s|
  {
    if s == [] then [x] else if Le(x, s[0]) then [x] + s else [s[0]] + Insert(x, s[1..])
  }

  /** Python's `sorted` on strings. */
  function Sort(s: seq<string>): (r: seq<string>)
    decreases |s|
  {
    if s == [] then [] else Insert(s[0], Sort(s[1..]))
  }

  lemma InFront(x: string, s: seq<string>)
    requires Sorted(s) && forall y :: y in s ==> Le(x, y)
    ensures Sorted([x] + s)
  {
    hide Le;
  }

  lemma FirstIsLeast(x: string, s: seq<string>)
    requires Sorted(s) && s != [] && Le(x, s[0])
    ensures forall y :: y in s ==> Le(x, y)
  {
    hide Le;
    forall j | 0 <= j < |s| ensures Le(x, s[j]) {
      if j > 0 { LeTransitive(x, s[0], s[j]); }
    }
  }

  lemma {:induction false} InsertAdds(x: string, s: seq<string>)
    ensures multiset(Insert(x, s)) == multiset(s) + multiset{x}
    ensures forall y :: y in Insert(x, s) <==> y == x || y in s
    decreases |s|
  {
    hide Le;
    if s != [] {
      assert s == [s[0]] + s[1..];
      InsertAdds(x, s[1..]);
    }
  }

  lemma {:induction false} InsertKeeps(x: string, s: seq<string>)
    requires Sorted(s)
    ensures Sorted(Insert(x, s)) && multiset(Insert(x, s)) == multiset(s) + multiset{x}
    decreases |s|
  {
    hide Le;
    InsertAdds(x, s);
    if s != [] {
      if Le(x, s[0]) {
        FirstIsLeast(x, s);
        InFront(x, s);
      } else {
        LeTotal(x, s[0]);
        InsertKeeps(x, s[1..]);
        InsertAdds(x, s[1..]);
        hide Insert;
        InFront(s[0], Insert(x, s[1..]));
      }
    }
  }

  lemma {:induction false} SortSorts(s: seq<string>)
    ensures Sorted(Sort(s)) && multiset(Sort(s)) == multiset(s)
    decreases |s|
  {
    if s != [] {
      assert s == [s[0]] + s[1..];
      SortSorts(s[1..]);
      InsertKeeps(s[0], Sort(s[1..]));
    }
  }

  lemma HeadsAgree(a: seq<string>, b: seq<string>)
    requires Sorted(a) && Sorted(b) && multiset(a) == multiset(b) && a != []
    ensures b != [] && a[0] == b[0]
  {
    hide Le;
    assert a[0] in multiset(a) && a[0] in multiset(b);
    assert b[0] in multiset(b) && b[0] in multiset(a);
    var i :| 0 <= i < |b| && b[i] == a[0];
    var j :| 0 <= j < |a| && a[j] == b[0];
    LeReflexive(a[0]);
    LeAntisymmetric(a[0], b[0]);
  }

  lemma TailsAgree(a: seq<string>, b: seq<string>)
    requires a != [] && b != [] && a[0] == b[0] && multiset(a) == multiset(b)
    ensures multiset(a[1..]) == multiset(b[1..])
  {
    assert a == [a[0]] + a[1..] && b == [b[0]] + b[1..];
    assert multiset(a[1..]) == multiset(a) - multiset{a[0]};
    assert multiset(b[1..]) == multiset(b) - multiset{b[0]};
  }

  lemma {:induction false} SortedIsUnique(a: seq<string>, b: seq<string>)
    requires Sorted(a) && Sorted(b) && multiset(a) == multiset(b)
    ensures a == b
    decreases |a|
  {
    hide Le;
    if a == [] {
      if b != [] { HeadsAgree(b, a); }
    } else {
      HeadsAgree(a, b);
      TailsAgree(a, b);
      SortedIsUnique(a[1..], b[1..]);
      assert a == [a[0]] + a[1..] && b == [b[0]] + b[1..];
    }
  }

  /** `_canonical_scope_paths`. */
  function ScopePaths(values: seq<string>): Result<seq<string>, DigestError> {
    if values == [] then Failure(NoPaths)
    else if exists v :: v in values && !CanonicalPath(v) then Failure(BadPath)
    else if |(set v | v in values)| != |values| then Failure(DuplicatePath)
    else Success(Sort(values))
  }

  method CanonicalScopePaths(values: seq<string>) returns (r: Result<seq<string>, DigestError>)
    ensures r == ScopePaths(values)
  {
    if values == [] {
      return Failure(NoPaths);
    }
    var normalized: seq<string> := [];
    while |normalized| < |values|
      invariant |normalized| <= |values| && normalized == values[..|normalized|]
      invariant forall v :: v in normalized ==> CanonicalPath(v)
      decreases |values| - |normalized|
    {
      var value := values[|normalized|];
      if !CanonicalPath(value) {
        return Failure(BadPath);
      }
      normalized := normalized + [value];
    }
    assert normalized == values;
    if |(set v | v in normalized)| != |normalized| {
      return Failure(DuplicatePath);
    }
    return Success(Sort(normalized));
  }

  // ---------- Framing ----------

  function Pow256(k: nat): nat
    ensures Pow256(k) > 0
  {
    if k == 0 then 1 else 256 * Pow256(k - 1)
  }

  /** `n.to_bytes(k, "big")`. */
  function BigEndian(n: nat, k: nat): (bytes: seq<Byte>)
    ensures |bytes| == k
    decreases k
  {
    if k == 0 then [] else BigEndian(n / 256, k - 1) + [(n % 256) as Byte]
  }

  /** The number eight-byte and other framings stand for, most significant byte first. */
  function Value(bytes: seq<Byte>): nat
    decreases |bytes|
  {
    if bytes == [] then 0 else bytes[0] as nat * Pow256(|bytes| - 1) + Value(bytes[1..])
  }

  lemma {:induction false} ValueOfLast(bytes: seq<Byte>, last: Byte)
    ensures Value(bytes + [last]) == 256 * Value(bytes) + last as nat
    decreases |bytes|
  {
    if bytes == [] {
      assert bytes + [last] == [last] && [last][1..] == [];
    } else {
      ValueOfLast(bytes[1..], last);
      assert (bytes + [last])[1..] == bytes[1..] + [last];
      assert Pow256(|bytes|) == 256 * Pow256(|bytes| - 1);
      Exchange(bytes[0] as nat, Pow256(|bytes| - 1));
    }
  }

  lemma Exchange(b: nat, p: nat)
    ensures b * (256 * p) == 256 * (b * p)
  {
  }

  /** A length below the limit is written so that it reads back, most significant byte first. */
  lemma {:induction false} BigEndianReads(n: nat, k: nat)
    requires n < Pow256(k)
    ensures Value(BigEndian(n, k)) == n
    decreases k
  {
    if k > 0 {
      BigEndianReads(n / 256, k - 1);
      ValueOfLast(BigEndian(n / 256, k - 1), (n % 256) as Byte);
    }
  }

  lemma {:induction false} BigEndianIsInjective(m: nat, n: nat, k: nat)
    requires m < Pow256(k) && n < Pow256(k) && BigEndian(m, k) == BigEndian(n, k)
    ensures m == n
    decreases k
  {
    if k > 0 {
      var a, b := BigEndian(m / 256, k - 1), BigEndian(n / 256, k - 1);
      assert a == BigEndian(m, k)[..k - 1] && b == BigEndian(n, k)[..k - 1];
      assert BigEndian(m, k)[k - 1] == (m % 256) as Byte && BigEndian(n, k)[k - 1] == (n % 256) as Byte;
      BigEndianIsInjective(m / 256, n / 256, k - 1);
    }
  }

  const LIMIT: nat := Pow256(8)

  function Framed(bytes: seq<Byte>): seq<Byte> { BigEndian(|bytes|, 8) + bytes }

  type Blob = seq<Byte>

  /** One path and its content, as bytes. */
  datatype Item = Item(path: Blob, content: Blob) {
    predicate Fits() { |path| < LIMIT && |content| < LIMIT }
  }

  function Frames(items: seq<Item>): seq<Byte>
    decreases |items|
  {
    if items == [] then []
    else Frames(items[..|items| - 1]) + Framed(items[|items| - 1].path) + Framed(items[|items| - 1].content)
  }

  function Stream(domain: Blob, items: seq<Item>): seq<Byte> { domain + BigEndian(|items|, 8) + Frames(items) }

  lemma FramedFirst(a: Blob, x: Blob, b: Blob, y: Blob)
    requires |a| < LIMIT && |b| < LIMIT && Framed(a) + x == Framed(b) + y
    ensures a == b && x == y
  {
    var s, t := Framed(a) + x, Framed(b) + y;
    assert s[..8] == BigEndian(|a|, 8) && t[..8] == BigEndian(|b|, 8);
    BigEndianIsInjective(|a|, |b|, 8);
    assert s[8..8 + |a|] == a && t[8..8 + |b|] == b;
    assert s[8 + |a|..] == x && t[8 + |b|..] == y;
  }

  lemma Reassociate(p: Blob, c: Blob, m: Blob, q: Blob, d: Blob)
    ensures (p + (c + m)) + q + d == p + (c + (m + q + d))
  {
  }

  /** Frames read from the front. */
  lemma {:induction false} FramesFront(items: seq<Item>)
    requires items != []
    ensures Frames(items) == Framed(items[0].path) + (Framed(items[0].content) + Frames(items[1..]))
    decreases |items|
  {
    hide Framed;
    var n := |items| - 1;
    if n == 0 {
      assert items[1..] == [] && items[..0] == [];
      NoFrames();
    } else {
      FramesFront(items[..n]);
      assert items[1..][..n - 1] == items[..n][1..];
      assert items[1..][n - 1] == items[n];
      var m, q, d := Frames(items[1..n]), Framed(items[n].path), Framed(items[n].content);
      assert items[..n][1..] == items[1..n];
      assert Frames(items[1..]) == m + q + d;
      Reassociate(Framed(items[0].path), Framed(items[0].content), m, q, d);
    }
  }

  lemma FirstFramesAgree(a: seq<Item>, b: seq<Item>)
    requires a != [] && b != [] && a[0].Fits() && b[0].Fits() && Frames(a) == Frames(b)
    ensures a[0] == b[0] && Frames(a[1..]) == Frames(b[1..])
  {
    hide Framed, Frames;
    FramesFront(a);
    FramesFront(b);
    FramedFirst(a[0].path, Framed(a[0].content) + Frames(a[1..]), b[0].path, Framed(b[0].content) + Frames(b[1..]));
    FramedFirst(a[0].content, Frames(a[1..]), b[0].content, Frames(b[1..]));
  }

  lemma {:induction false} FramesAreInjective(a: seq<Item>, b: seq<Item>)
    requires |a| == |b| && Frames(a) == Frames(b)
    requires forall i :: 0 <= i < |a| ==> a[i].Fits() && b[i].Fits()
    ensures a == b
    decreases |a|
  {
    hide Framed, Frames, Item.Fits;
    if a != [] {
      FirstFramesAgree(a, b);
      FramesAreInjective(a[1..], b[1..]);
      assert a == [a[0]] + a[1..] && b == [b[0]] + b[1..];
    }
  }

  // ---------- The digest of a tree ----------

  /** How a path is encoded; UTF-8 encodes different strings differently. */
  ghost predicate Distinguishes(encode: string -> Blob) { forall p, q :: encode(p) == encode(q) ==> p == q }

  function Items(encode: string -> Blob, paths: seq<string>, read: string -> Blob): seq<Item> {
    seq(|paths|, i requires 0 <= i < |paths| => Item(encode(paths[i]), read(paths[i])))
  }

  /** The bytes `_tree_digest` feeds to the hash; lengths that do not fit eight bytes raise. */
  function TreeStream(domain: Blob, encode: string -> Blob, paths: seq<string>, read: string -> Blob): Result<Blob, DigestError> {
    match ScopePaths(paths)
    case Failure(error) => Failure(error)
    case Success(canonical) =>
      var items := Items(encode, canonical, read);
      if |items| >= LIMIT || exists i :: 0 <= i < |items| && !items[i].Fits() then Failure(TooLong)
      else Success(Stream(domain, items))
  }

  class Hasher {
    var fed: Blob

    constructor (domain: Blob)
      ensures fed == domain
    {
      fed := domain;
    }

    method Update(bytes: Blob)
      modifies this
      ensures fed == old(fed) + bytes
    {
      fed := fed + bytes;
    }
  }

  /** `_tree_digest`, up to the final hash of what was fed. */
  method TreeDigest(domain: Blob, encode: string -> Blob, paths: seq<string>, read: string -> Blob)
    returns (r: Result<Blob, DigestError>)
    ensures r == TreeStream(domain, encode, paths, read)
  {
    hide Frames, Framed, Pow256, BigEndian, CanonicalPath, Sort;
    var scope := CanonicalScopePaths(paths);
    if scope.Failure? {
      return Failure(scope.error);
    }
    var canonical := scope.value;
    ghost var items := Items(encode, canonical, read);
    if |canonical| >= LIMIT {
      return Failure(TooLong);
    }
    var digest := new Hasher(domain);
    digest.Update(BigEndian(|canonical|, 8));
    NoFrames();
    var i := 0;
    while i < |canonical|
      invariant i <= |canonical| && fresh(digest)
      invariant digest.fed == domain + BigEndian(|canonical|, 8) + Frames(items[..i])
      invariant forall j :: 0 <= j < i ==> items[j].Fits()
    {
      var path, content := encode(canonical[i]), read(canonical[i]);
      assert items[i] == Item(path, content);
      if |path| >= LIMIT || |content| >= LIMIT {
        return Failure(TooLong);
      }
      FramesSnoc(items, i);
      digest.Update(Framed(path));
      digest.Update(Framed(content));
      i := i + 1;
    }
    assert items[..i] == items;
    r := Success(digest.fed);
  }

  lemma NoFrames()
    ensures Frames([]) == []
  {
  }

  lemma FramesSnoc(items: seq<Item>, i: nat)
    requires i < |items|
    ensures Frames(items[..i + 1]) == Frames(items[..i]) + Framed(items[i].path) + Framed(items[i].content)
  {
    assert items[..i + 1][..i] == items[..i];
  }

  lemma SameElements(a: seq<string>, b: seq<string>)
    requires multiset(a) == multiset(b)
    ensures |a| == |b| && (set v | v in a) == (set v | v in b) && forall v :: v in a <==> v in b
  {
    assert |a| == |multiset(a)| == |multiset(b)| == |b|;
    forall v ensures v in a <==> v in b {
      assert v in multiset(a) <==> v in multiset(b);
    }
  }

  lemma ScopeIgnoresOrder(a: seq<string>, b: seq<string>)
    requires multiset(a) == multiset(b)
    ensures ScopePaths(a) == ScopePaths(b)
  {
    hide CanonicalPath, Sort, Sorted;
    SameElements(a, b);
    SortSorts(a);
    SortSorts(b);
    SortedIsUnique(Sort(a), Sort(b));
  }

  /** The order in which paths are given changes nothing. */
  lemma ArgumentOrderIsIrrelevant(domain: Blob, encode: string -> Blob, a: seq<string>, b: seq<string>, read: string -> Blob)
    requires multiset(a) == multiset(b)
    ensures TreeStream(domain, encode, a, read) == TreeStream(domain, encode, b, read)
  {
    hide ScopePaths;
    ScopeIgnoresOrder(a, b);
  }

  lemma {:induction false} DistinctHaveNoRepeats(s: seq<string>)
    ensures |(set v | v in s)| == |s| <==> forall i, j :: 0 <= i < j < |s| ==> s[i] != s[j]
    ensures |(set v | v in s)| <= |s|
    decreases |s|
  {
    if s != [] {
      var init, last := s[..|s| - 1], s[|s| - 1];
      DistinctHaveNoRepeats(init);
      assert s == init + [last];
      assert (set v | v in s) == (set v | v in init) + {last};
      if last in init {
        assert (set v | v in s) == (set v | v in init);
        var i :| 0 <= i < |init| && init[i] == last;
        assert s[i] == s[|s| - 1];
      }
    }
  }

  /** Accepted scopes are the non-empty lists of distinct canonical paths; they come out sorted, nothing added or lost. */
  lemma ScopeIsASortedArrangement(values: seq<string>)
    ensures ScopePaths(values).Success?
            <==> && values != [] && (forall v :: v in values ==> CanonicalPath(v))
                 && forall i, j :: 0 <= i < j < |values| ==> values[i] != values[j]
    ensures ScopePaths(values).Success?
            ==> && Sorted(ScopePaths(values).value) && multiset(ScopePaths(values).value) == multiset(values)
  {
    hide CanonicalPath, Sort, Sorted;
    DistinctHaveNoRepeats(values);
    SortSorts(values);
  }

  /** The same paths, in order, with the same contents at each. */
  ghost predicate SameTree(p: seq<string>, readA: string -> Blob, q: seq<string>, readB: string -> Blob) {
    p == q && forall v :: v in p ==> readA(v) == readB(v)
  }

  lemma ItemsDetermineTrees(encode: string -> Blob, p: seq<string>, readA: string -> Blob, q: seq<string>, readB: string -> Blob)
    requires Distinguishes(encode)
    ensures Items(encode, p, readA) == Items(encode, q, readB) <==> SameTree(p, readA, q, readB)
  {
    var ia, ib := Items(encode, p, readA), Items(encode, q, readB);
    if SameTree(p, readA, q, readB) {
      assert forall i :: 0 <= i < |p| ==> p[i] in p && ia[i] == ib[i];
      assert ia == ib;
    }
    if ia == ib {
      assert |p| == |ia| == |q|;
      forall i | 0 <= i < |p| ensures p[i] == q[i] && readA(p[i]) == readB(p[i]) {
        assert ia[i].path == ib[i].path && ia[i].content == ib[i].content;
      }
    }
  }

  /** Two trees feed the same bytes exactly when they have the same paths with the same contents. */
  lemma StreamsDetermineTrees(
    domain: Blob, encode: string -> Blob, a: seq<string>, readA: string -> Blob, b: seq<string>, readB: string -> Blob)
    requires Distinguishes(encode)
    requires TreeStream(domain, encode, a, readA).Success? && TreeStream(domain, encode, b, readB).Success?
    ensures TreeStream(domain, encode, a, readA) == TreeStream(domain, encode, b, readB)
            <==> Sort(a) == Sort(b) && forall p :: p in a ==> readA(p) == readB(p)
  {
    hide CanonicalPath, Sort, Stream, Items, Sorted, Distinguishes, Item.Fits;
    var p, q := Sort(a), Sort(b);
    var ia, ib := Items(encode, p, readA), Items(encode, q, readB);
    SortSorts(a);
    forall v ensures v in a <==> v in p {
      assert v in multiset(a) <==> v in multiset(p);
    }
    ItemsDetermineTrees(encode, p, readA, q, readB);
    if Stream(domain, ia) == Stream(domain, ib) {
      StreamsAreInjective(domain, ia, ib);
    }
  }

  lemma StreamsAreInjective(domain: Blob, a: seq<Item>, b: seq<Item>)
    requires Stream(domain, a) == Stream(domain, b) && |a| < LIMIT && |b| < LIMIT
    requires forall i :: 0 <= i < |a| ==> a[i].Fits()
    requires forall i :: 0 <= i < |b| ==> b[i].Fits()
    ensures a == b
  {
    hide Frames, Item.Fits;
    var s, t := Stream(domain, a), Stream(domain, b);
    assert s[|domain|..|domain| + 8] == BigEndian(|a|, 8) && t[|domain|..|domain| + 8] == BigEndian(|b|, 8);
    BigEndianIsInjective(|a|, |b|, 8);
    assert s[|domain| + 8..] == Frames(a) && t[|domain| + 8..] == Frames(b);
    FramesAreInjective(a, b);
  }
}
