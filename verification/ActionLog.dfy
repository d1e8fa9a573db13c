/**
 The action log as bytes. Records are generic: the file layer knows only a codec that prints a record
 on one line and decodes nothing from a proper prefix of what it printed.
 */
module ActionLog {
  import opened Common

  newtype Byte = x: int | 0 <= x < 256

  const LF: Byte := 10
  const CR: Byte := 13

  predicate IsBreak(b: Byte) { b == LF || b == CR }

  /** `raw.strip()` leaves nothing. */
  predicate Blank(line: seq<Byte>) {
    forall i :: 0 <= i < |line| ==> line[i] == 32 || 9 <= line[i] <= 13
  }

  /** Space, tab, line feed, vertical tab, form feed and carriage return are what Python strips from bytes. */
  lemma BlankMeaning(line: seq<Byte>)
    ensures Blank(line) <==> forall i :: 0 <= i < |line| ==> line[i] in {32, 9, 10, 11, 12, 13}
  {
  }

  /** `bytes.splitlines()`: LF, CR and CR LF end a line; an unterminated last line counts. */
  function Lines(file: seq<Byte>): seq<seq<Byte>>
    decreases |file|
  {
    if file == [] then []
    else if file[0] == CR && |file| > 1 && file[1] == LF then [[]] + Lines(file[2..])
    else if IsBreak(file[0]) then [[]] + Lines(file[1..])
    else Extend(file[0], Lines(file[1..]))
  }

  /** One more byte at the front of the first line. */
  function Extend(b: Byte, lines: seq<seq<Byte>>): seq<seq<Byte>> {
    if lines == [] then [[b]] else [[b] + lines[0]] + lines[1..]
  }

  /** How a line may end: a line feed, a carriage return with or without one, or, at the end of the file, not at all. */
  predicate Ending(bytes: seq<Byte>) { bytes == [] || bytes == [LF] || bytes == [CR] || bytes == [CR, LF] }

  function Rejoined(lines: seq<seq<Byte>>, endings: seq<seq<Byte>>): seq<Byte>
    requires |lines| == |endings|
    decreases |lines|
  {
    if lines == [] then [] else lines[0] + endings[0] + Rejoined(lines[1..], endings[1..])
  }

  predicate Unbroken(line: seq<Byte>) { forall j :: 0 <= j < |line| ==> line[j] != LF && line[j] != CR }

  /** The lines with their endings are the file; every break ends a line, a pair only one, and nothing else does. */
  ghost predicate Splits(file: seq<Byte>, lines: seq<seq<Byte>>, endings: seq<seq<Byte>>) {
    && |lines| == |endings| && Rejoined(lines, endings) == file
    && (forall i :: 0 <= i < |lines| ==> Unbroken(lines[i]) && Ending(endings[i]))
    && (forall i :: 0 <= i < |lines| && endings[i] == [] ==> i == |lines| - 1 && lines[i] != [])
    && (forall i :: 0 <= i < |lines| - 1 && endings[i] == [CR] && lines[i + 1] == [] ==> endings[i + 1][0] != LF)
  }

  lemma {:induction false} LinesMeaning(file: seq<Byte>) returns (endings: seq<seq<Byte>>)
    ensures Splits(file, Lines(file), endings)
    decreases |file|
  {
    if file == [] {
      endings := [];
    } else if IsBreak(file[0]) {
      var n := FirstCut(file);
      var rest := LinesMeaning(file[n..]);
      LinesStep(file);
      endings := [file[..n]] + rest;
      BreakSplits(file, n, Lines(file[n..]), rest);
    } else {
      var rest := LinesMeaning(file[1..]);
      endings := if rest == [] then [[]] else rest;
      ByteSplits(file, Lines(file[1..]), rest);
    }
  }

  lemma BreakSplits(file: seq<Byte>, n: nat, lines: seq<seq<Byte>>, endings: seq<seq<Byte>>)
    requires file != [] && IsBreak(file[0]) && n == FirstCut(file) && Splits(file[n..], lines, endings)
    ensures Splits(file, [[]] + lines, [file[..n]] + endings)
  {
    var l, e := [[]] + lines, [file[..n]] + endings;
    assert l[1..] == lines && e[1..] == endings && Rejoined(l, e) == file[..n] + file[n..] == file;
    assert file[..n] == [LF] || file[..n] == [CR] || file[..n] == [CR, LF];
    if lines != [] && file[..n] == [CR] && lines[0] == [] {
      assert Rejoined(lines, endings) == endings[0] + Rejoined(lines[1..], endings[1..]);
      assert endings[0] != [] && file[n] == endings[0][0];
    }
    forall i | 0 <= i < |l| ensures Unbroken(l[i]) && Ending(e[i]) && (e[i] == [] ==> i == |l| - 1 && l[i] != []) {
      assert i > 0 ==> l[i] == lines[i - 1] && e[i] == endings[i - 1];
    }
    forall i | 0 <= i < |l| - 1 && e[i] == [CR] && l[i + 1] == [] ensures e[i + 1][0] != LF {
      assert i > 0 ==> l[i + 1] == lines[i - 1 + 1] && e[i] == endings[i - 1] && e[i + 1] == endings[i - 1 + 1];
    }
  }

  lemma ByteSplits(file: seq<Byte>, lines: seq<seq<Byte>>, endings: seq<seq<Byte>>)
    requires file != [] && !IsBreak(file[0]) && Splits(file[1..], lines, endings)
    ensures Splits(file, Extend(file[0], lines), if endings == [] then [[]] else endings)
  {
    var l, e := Extend(file[0], lines), if endings == [] then [[]] else endings;
    assert file == [file[0]] + file[1..];
    if lines != [] {
      assert l[1..] == lines[1..] && l[0] == [file[0]] + lines[0];
      assert Rejoined(l, e) == l[0] + e[0] + Rejoined(lines[1..], endings[1..]);
    } else {
      assert Rejoined(l, e) == file;
    }
    forall i | 0 <= i < |l| ensures Unbroken(l[i]) && Ending(e[i]) && (e[i] == [] ==> i == |l| - 1 && l[i] != []) {
      assert i > 0 ==> l[i] == lines[i];
    }
  }

  // ---------- Lines and concatenation ----------

  predicate OneLine(record: seq<Byte>) {
    record != [] && forall i :: 0 <= i < |record| ==> !IsBreak(record[i])
  }

  predicate Terminated(file: seq<Byte>) { file == [] || file[|file| - 1] == LF }

  lemma LinesOfBreak(b: Byte)
    ensures Lines([LF]) == [[]] && Extend(b, [[]]) == [[b]]
  {
    assert [LF][1..] == [];
    var empty: seq<seq<Byte>> := [[]];
    assert empty[1..] == [];
    assert [b] + empty[0] == [b];
  }

  lemma {:induction false} LinesOfOne(record: seq<Byte>, tail: seq<Byte>)
    requires OneLine(record) && (tail == [] || tail == [LF])
    ensures Lines(record + tail) == [record]
    decreases |record|
  {
    var whole := record + tail;
    assert whole[0] == record[0];
    assert whole[1..] == record[1..] + tail;
    if |record| == 1 {
      assert whole[1..] == tail;
      assert record == [record[0]];
      LinesOfBreak(record[0]);
    } else {
      LinesOfOne(record[1..], tail);
      assert [record[0]] + record[1..] == record;
    }
  }

  lemma ExtendAppend(b: Byte, lines: seq<seq<Byte>>, more: seq<seq<Byte>>)
    requires lines != []
    ensures Extend(b, lines + more) == Extend(b, lines) + more
  {
    assert (lines + more)[1..] == lines[1..] + more;
  }

  lemma {:induction false} LinesAppend(file: seq<Byte>, more: seq<Byte>)
    requires Terminated(file)
    ensures Lines(file + more) == Lines(file) + Lines(more)
    decreases |file|
  {
    hide Lines, Extend;
    var whole := file + more;
    if file == [] {
      assert whole == more;
      NoLines();
    } else {
      var n := FirstCut(file);
      LinesStep(file);
      var rest := file[n..];
      assert whole[n..] == rest + more;
      LinesAppend(rest, more);
      LinesStep(whole);
      StepsJoin(file[0], Lines(rest), Lines(more));
      TerminatedRest(file);
    }
  }

  lemma NoLines()
    ensures Lines([]) == []
  {
  }

  lemma StepsJoin(b: Byte, lines: seq<seq<Byte>>, more: seq<seq<Byte>>)
    ensures [[]] + (lines + more) == [[]] + lines + more
    ensures lines != [] ==> Extend(b, lines + more) == Extend(b, lines) + more
  {
    if lines != [] {
      ExtendAppend(b, lines, more);
    }
  }

  /** A terminated file that does not begin with a break goes on after its first byte. */
  lemma TerminatedRest(file: seq<Byte>)
    requires Terminated(file) && file != []
    ensures !IsBreak(file[0]) ==> Lines(file[1..]) != []
  {
    if !IsBreak(file[0]) {
      assert file[1..] != [];
    }
  }

  /** How many bytes the first step of `Lines` consumes. */
  function FirstCut(file: seq<Byte>): nat
    requires file != []
  {
    if file[0] == CR && |file| > 1 && file[1] == LF then 2 else 1
  }

  lemma LinesStep(file: seq<Byte>)
    requires file != []
    ensures FirstCut(file) <= |file| && var rest := Lines(file[FirstCut(file)..]);
      Lines(file) == if IsBreak(file[0]) then [[]] + rest else Extend(file[0], rest)
  {
  }

  /** A line feed after an unterminated file closes its last line and adds none. */
  lemma {:induction false} LinesTerminate(file: seq<Byte>)
    requires !Terminated(file)
    ensures Lines(file + [LF]) == Lines(file)
    decreases |file|
  {
    var whole := file + [LF];
    if |file| == 1 {
      LinesOfBreak(file[0]);
      assert whole[1..] == [LF] && whole[2..] == [] && file[1..] == [];
    } else if file[0] == CR && file[1] == LF {
      assert whole[2..] == file[2..] + [LF];
      LinesTerminate(file[2..]);
    } else {
      assert whole[1..] == file[1..] + [LF];
      LinesTerminate(file[1..]);
    }
  }

  // ---------- Appending ----------

  /** `_append_unlocked` first closes a line that some earlier writer left open. */
  function Separator(file: seq<Byte>): seq<Byte> {
    if Terminated(file) then [] else [LF]
  }

  function Appended(file: seq<Byte>, record: seq<Byte>): seq<Byte> {
    file + Separator(file) + record + [LF]
  }

  /** The file when the append stopped after `reach` bytes (all of them when `reach` is larger). */
  function Torn(file: seq<Byte>, record: seq<Byte>, reach: nat): seq<Byte> {
    var all := Appended(file, record);
    if |file| + reach < |all| then all[..|file| + reach] else all
  }

  /** Whether that many bytes hold the whole record; the final line feed is not needed. */
  predicate Reaches(file: seq<Byte>, record: seq<Byte>, reach: nat) {
    reach >= |Separator(file)| + |record|
  }

  lemma LinesOfSeparated(file: seq<Byte>)
    ensures Terminated(file + Separator(file)) && Lines(file + Separator(file)) == Lines(file)
  {
    if Terminated(file) {
      assert file + Separator(file) == file;
    } else {
      LinesTerminate(file);
    }
  }

  /** Every append lands on a line of its own, whatever bytes the file holds. */
  lemma AppendAddsOneLine(file: seq<Byte>, record: seq<Byte>)
    requires OneLine(record)
    ensures Lines(Appended(file, record)) == Lines(file) + [record]
  {
    LinesOfSeparated(file);
    LinesAppend(file + Separator(file), record + [LF]);
    LinesOfOne(record, [LF]);
    assert Appended(file, record) == (file + Separator(file)) + (record + [LF]);
  }

  /** The lines after an append that stopped anywhere: untouched, or one more with a prefix of the record. */
  lemma TornAddsAtMostOneLine(file: seq<Byte>, record: seq<Byte>, reach: nat)
    requires OneLine(record)
    ensures Lines(Torn(file, record, reach)) ==
            if reach <= |Separator(file)| then Lines(file)
            else if Reaches(file, record, reach) then Lines(file) + [record]
            else Lines(file) + [record[..reach - |Separator(file)|]]
  {
    var start := file + Separator(file);
    var torn := Torn(file, record, reach);
    LinesOfSeparated(file);
    if reach <= |Separator(file)| {
      if reach == 0 { assert torn == file; } else { assert torn == start; }
    } else if reach > |Separator(file)| + |record| {
      AppendAddsOneLine(file, record);
    } else {
      var part := record[..reach - |Separator(file)|];
      assert torn == start + part;
      assert part + [] == part;
      LinesAppend(start, part);
      LinesOfOne(part, []);
      assert reach == |Separator(file)| + |record| ==> part == record;
    }
  }

  /** The file that `_append_unlocked` extends. */
  class ActionFile {
    var bytes: seq<Byte>

    constructor ()
      ensures bytes == []
    {
      bytes := [];
    }

    method Append(record: seq<Byte>)
      modifies this
      ensures bytes == Appended(old(bytes), record)
    {
      if |bytes| != 0 {
        if bytes[|bytes| - 1] != LF {
          bytes := bytes + [LF];
        }
      }
      bytes := bytes + (record + [LF]);
    }
  }

  // ---------- Records ----------

  datatype Codec<!E> = Codec(encode: E -> seq<Byte>, decode: seq<Byte> -> Option<E>)

  /** What is assumed of the JSON library together with the record hash, for one event that is written. */
  ghost predicate FaithfulAt<E>(c: Codec<E>, e: E) {
    var record := c.encode(e);
    && OneLine(record) && !Blank(record) && c.decode(record) == Some(e)
    && forall n :: 0 <= n < |record| ==> c.decode(record[..n]).None?
  }

  /** What one line contributes: blank lines and undecodable ones nothing. */
  function Decoded<E>(c: Codec<E>, line: seq<Byte>): Option<E> {
    if Blank(line) then None else c.decode(line)
  }

  function Records<E>(c: Codec<E>, lines: seq<seq<Byte>>): seq<E>
    decreases |lines|
  {
    if lines == [] then []
    else
      var before := Records(c, lines[..|lines| - 1]);
      match Decoded(c, lines[|lines| - 1])
      case Some(e) => before + [e]
      case None => before
  }

  lemma RecordsSnoc<E>(c: Codec<E>, lines: seq<seq<Byte>>, line: seq<Byte>)
    ensures Records(c, lines + [line]) ==
            Records(c, lines) + match Decoded(c, line) { case Some(e) => [e] case None => [] }
  {
    assert (lines + [line])[..|lines + [line]| - 1] == lines;
  }

  /** One append that may stop after any number of its bytes. */
  datatype Write<E> = Write(event: E, reach: nat)

  function Written<E>(c: Codec<E>, file: seq<Byte>, w: Write<E>): seq<Byte> {
    Torn(file, c.encode(w.event), w.reach)
  }

  /** The event, if all its bytes reached the file. */
  function Gain<E>(c: Codec<E>, file: seq<Byte>, w: Write<E>): seq<E> {
    if Reaches(file, c.encode(w.event), w.reach) then [w.event] else []
  }

  /** The events a reader decodes from the file. */
  function Contents<E>(c: Codec<E>, file: seq<Byte>): seq<E> { Records(c, Lines(file)) }

  /** A torn append adds the record exactly when all its bytes were written, and otherwise nothing. */
  lemma TornAppendIsAllOrNothing<E>(c: Codec<E>, file: seq<Byte>, w: Write<E>)
    requires FaithfulAt(c, w.event)
    ensures Contents(c, Written(c, file, w)) == Contents(c, file) + Gain(c, file, w)
  {
    var record, reach := c.encode(w.event), w.reach;
    assert OneLine(record) && !Blank(record);
    TornAddsAtMostOneLine(file, record, reach);
    if reach > |Separator(file)| {
      var n := if Reaches(file, record, reach) then |record| else reach - |Separator(file)|;
      RecordsSnoc(c, Lines(file), record[..n]);
      assert record[..|record|] == record;
    }
  }

  function Run<E>(c: Codec<E>, file: seq<Byte>, writes: seq<Write<E>>): seq<Byte>
    decreases |writes|
  {
    if writes == [] then file else Run(c, Written(c, file, writes[0]), writes[1..])
  }

  /** The events whose bytes all reached the file. */
  function Completed<E>(c: Codec<E>, file: seq<Byte>, writes: seq<Write<E>>): seq<E>
    decreases |writes|
  {
    if writes == [] then []
    else Gain(c, file, writes[0]) + Completed(c, Written(c, file, writes[0]), writes[1..])
  }

  /** Over any run of appends that may each stop anywhere, the file holds exactly the completed ones. */
  lemma {:induction false} RunsAreCrashSafe<E>(c: Codec<E>, file: seq<Byte>, writes: seq<Write<E>>)
    requires forall w :: w in writes ==> FaithfulAt(c, w.event)
    ensures Contents(c, Run(c, file, writes)) == Contents(c, file) + Completed(c, file, writes)
    decreases |writes|
  {
    hide Written, Gain, Contents, FaithfulAt;
    if writes != [] {
      TornAppendIsAllOrNothing(c, file, writes[0]);
      RunsAreCrashSafe(c, Written(c, file, writes[0]), writes[1..]);
    }
  }

  // ---------- The assumption can be met ----------

  /** Numbers in unary, between braces. */
  function UnaryBytes(n: nat): (line: seq<Byte>)
    ensures |line| == n + 2
  {
    [123] + seq(n, _ => 120) + [125]
  }

  function UnaryValue(line: seq<Byte>): (n: Option<nat>)
    ensures n.Some? ==> n.value == |line| - 2
  {
    if |line| >= 2 && line == UnaryBytes(|line| - 2) then Some(|line| - 2) else None
  }

  lemma UnaryPrefix(n: nat, k: nat)
    requires k < n + 2
    ensures UnaryValue(UnaryBytes(n)[..k]).None?
  {
    var part := UnaryBytes(n)[..k];
    if k >= 2 {
      assert part[k - 1] != UnaryBytes(k - 2)[k - 1];
    }
  }

  function IndexOf<E(==)>(events: seq<E>, e: E): (i: nat)
    requires e in events
    ensures i < |events| && events[i] == e
    decreases |events|
  {
    assert events == events[..|events| - 1] + [events[|events| - 1]];
    if e in events[..|events| - 1] then IndexOf(events[..|events| - 1], e) else |events| - 1
  }

  /** A codec for a list of events: each is printed as its position. */
  function CodecOf<E(==)>(events: seq<E>): Codec<E> {
    Codec(
      (e: E) => if e in events then UnaryBytes(IndexOf(events, e)) else [],
      line => match UnaryValue(line)
              case Some(n) => if n < |events| then Some(events[n]) else None
              case None => None)
  }

  /** Any list of events has a codec that is faithful at each of them. */
  lemma CodecOfIsFaithful<E>(events: seq<E>, e: E)
    requires e in events
    ensures FaithfulAt(CodecOf(events), e)
  {
    var n := IndexOf(events, e);
    var record := UnaryBytes(n);
    assert CodecOf(events).encode(e) == record && record[0] == 123;
    assert UnaryValue(record) == Some(n);
    forall k | 0 <= k < |record| ensures CodecOf(events).decode(record[..k]).None? {
      UnaryPrefix(n, k);
    }
  }
}
