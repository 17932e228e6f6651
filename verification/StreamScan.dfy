/**
 Reading the agent's event stream as it goes past, in whatever chunks it comes: the artifact
 and the usage a run must outlive it by. What a line decodes to is given by a `Reader`.
 */
module StreamScan {
  import opened Prelude
  import Pricing

  newtype byte = x: int | 0 <= x < 256

  const NEWLINE: byte := 10
  const PREFIX: seq<byte> := [100, 97, 116, 97, 58, 32]
  const MAX_TAIL := 8192

  /** `Done` carries the project's id, empty when there is none, and the usage when it was reported. */
  datatype Event = Done(project: string, usage: Option<Pricing.Usage>) | ArtifactStep | OtherEvent

  /** `decode` is the JSON of a line's data; `mention` the artifact id found in a line's text. */
  datatype Reader = Reader(decode: seq<byte> -> Option<Event>, mention: seq<byte> -> Option<string>)

  datatype Found = Found(artifact: string, usage: Pricing.Usage)

  const NOTHING := Found("", Pricing.NO_USAGE)

  // ---------- one line ----------

  datatype Signal = Silence | Finished(project: string, usage: Option<Pricing.Usage>) | Mentioned(id: string)

  function SignalOf(r: Reader, line: seq<byte>): Signal {
    if !(PREFIX <= line) then Silence
    else
      match r.decode(line[|PREFIX|..])
      case Some(Done(project, usage)) => Finished(project, usage)
      case Some(ArtifactStep) =>
        (match r.mention(line)
         case Some(id) => Mentioned(id)
         case None => Silence)
      case _ => Silence
  }

  function Heard(f: Found, s: Signal): Found {
    match s
    case Silence => f
    case Finished(project, usage) =>
      Found(if project != "" then project else f.artifact, if usage.Some? then usage.value else f.usage)
    case Mentioned(id) => if f.artifact == "" then f.(artifact := id) else f
  }

  function ReadAll(r: Reader, f: Found, lines: seq<seq<byte>>): Found {
    if lines == [] then f else Heard(ReadAll(r, f, lines[..|lines| - 1]), SignalOf(r, lines[|lines| - 1]))
  }

  /** Bytes that spell an ASCII text. */
  predicate Spells(bytes: seq<byte>, text: string) {
    |bytes| == |text| && forall i :: 0 <= i < |text| ==> bytes[i] as int == text[i] as int
  }

  /**
   What a line tells: nothing unless it starts with `data: ` and the rest decodes; then the
   project and usage of a `done`, or the id an artifact step mentions.
   */
  lemma OnlyDataLinesTell(r: Reader, line: seq<byte>)
    ensures
      if |line| >= 6 && Spells(line[..6], "data: ") && r.decode(line[6..]).Some? then
        (match r.decode(line[6..]).value
         case Done(project, usage) => SignalOf(r, line) == Finished(project, usage)
         case ArtifactStep =>
           SignalOf(r, line) == if r.mention(line).Some? then Mentioned(r.mention(line).value) else Silence
         case OtherEvent => SignalOf(r, line) == Silence)
      else SignalOf(r, line) == Silence
  {
    if |line| >= 6 {
      assert PREFIX <= line <==> line[..6] == PREFIX;
      assert Spells(line[..6], "data: ") <==> line[..6] == PREFIX;
    }
  }

  // ---------- cutting into lines ----------

  datatype Cut = Cut(lines: seq<seq<byte>>, tail: seq<byte>)

  /** The complete lines of a buffer, and what follows the last newline. */
  function Lines(buffer: seq<byte>): Cut {
    if buffer == [] then Cut([], [])
    else
      var before, last := Lines(buffer[..|buffer| - 1]), buffer[|buffer| - 1];
      if last == NEWLINE then Cut(before.lines + [before.tail], []) else Cut(before.lines, before.tail + [last])
  }

  function LastBytes(s: seq<byte>): seq<byte> {
    if |s| <= MAX_TAIL then s else s[|s| - MAX_TAIL..]
  }

  /** What cutting means: the lines and the tail, rejoined by newlines, are the buffer, and none holds one. */
  function Joined(lines: seq<seq<byte>>): seq<byte> {
    if lines == [] then [] else Joined(lines[..|lines| - 1]) + lines[|lines| - 1] + [NEWLINE]
  }

  lemma {:induction false} LinesRejoin(buffer: seq<byte>)
    ensures Joined(Lines(buffer).lines) + Lines(buffer).tail == buffer
  {
    if buffer != [] {
      var before, last := buffer[..|buffer| - 1], buffer[|buffer| - 1];
      LinesRejoin(before);
      var cut := Lines(before);
      assert buffer == before + [last];
      if last == NEWLINE {
        assert (cut.lines + [cut.tail])[..|cut.lines|] == cut.lines;
        assert Joined(cut.lines) + cut.tail + [last] + [] == before + [last];
      } else {
        assert Joined(cut.lines) + (cut.tail + [last]) == before + [last];
      }
    }
  }

  lemma {:induction false} LinesHoldNoNewline(buffer: seq<byte>)
    ensures NEWLINE !in Lines(buffer).tail && forall line :: line in Lines(buffer).lines ==> NEWLINE !in line
  {
    if buffer != [] {
      LinesHoldNoNewline(buffer[..|buffer| - 1]);
    }
  }

  // ---------- the scan ----------

  datatype Scan = Scan(found: Found, tail: seq<byte>)

  const FRESH := Scan(NOTHING, [])

  function Fed(r: Reader, s: Scan, chunk: seq<byte>): Scan {
    var cut := Lines(s.tail + chunk);
    Scan(ReadAll(r, s.found, cut.lines), LastBytes(cut.tail))
  }

  function FedAll(r: Reader, s: Scan, chunks: seq<seq<byte>>): Scan {
    if chunks == [] then s else Fed(r, FedAll(r, s, chunks[..|chunks| - 1]), chunks[|chunks| - 1])
  }

  function Concat(chunks: seq<seq<byte>>): seq<byte> {
    if chunks == [] then [] else Concat(chunks[..|chunks| - 1]) + chunks[|chunks| - 1]
  }

  class StreamScan {
    const reader: Reader
    var artifact: string
    var usage: Pricing.Usage
    var tail: seq<byte>

    function Value(): Scan
      reads this
    {
      Scan(Found(artifact, usage), tail)
    }

    constructor (reader: Reader)
      ensures this.reader == reader && Value() == FRESH
    {
      this.reader := reader;
      artifact, usage, tail := "", Pricing.NO_USAGE, [];
    }

    method Feed(chunk: seq<byte>)
      modifies this
      ensures Value() == Fed(reader, old(Value()), chunk)
    {
      var cut := Lines(tail + chunk);
      tail := LastBytes(cut.tail);
      ghost var before := Value().found;
      for i := 0 to |cut.lines|
        invariant Value() == Scan(ReadAll(reader, before, cut.lines[..i]), LastBytes(cut.tail))
      {
        assert cut.lines[..i + 1][..i] == cut.lines[..i];
        Read(cut.lines[i]);
      }
      assert cut.lines[..|cut.lines|] == cut.lines;
    }

    method Read(line: seq<byte>)
      modifies this`artifact, this`usage
      ensures Value().found == Heard(old(Value()).found, SignalOf(reader, line))
    {
      if !(PREFIX <= line) {
        return;
      }
      var event := reader.decode(line[|PREFIX|..]);
      if event.None? {
        return;
      }
      if event.value.Done? {
        if event.value.project != "" {
          artifact := event.value.project;
        }
        if event.value.usage.Some? {
          usage := event.value.usage.value;
        }
        return;
      }
      if artifact == "" && event.value.ArtifactStep? {
        var id := reader.mention(line);
        if id.Some? {
          artifact := id.value;
        }
      }
    }
  }

  // ---------- chunks do not matter ----------

  lemma {:induction false} LinesSplit(a: seq<byte>, b: seq<byte>)
    ensures Lines(a + b) == Cut(Lines(a).lines + Lines(Lines(a).tail + b).lines, Lines(Lines(a).tail + b).tail)
    decreases |b|
  {
    var t := Lines(a).tail;
    if b == [] {
      assert a + b == a && t + b == t;
      LinesHoldNoNewline(a);
      NoNewlineNoLine(t);
    } else {
      var before, last := b[..|b| - 1], b[|b| - 1];
      assert (a + b)[..|a + b| - 1] == a + before && (t + b)[..|t + b| - 1] == t + before;
      LinesSplit(a, before);
    }
  }

  lemma {:induction false} NoNewlineNoLine(s: seq<byte>)
    requires NEWLINE !in s
    ensures Lines(s) == Cut([], s)
  {
    if s != [] {
      NoNewlineNoLine(s[..|s| - 1]);
      assert s == s[..|s| - 1] + [s[|s| - 1]];
    }
  }

  lemma {:induction false} ReadAllConcat(r: Reader, f: Found, a: seq<seq<byte>>, b: seq<seq<byte>>)
    ensures ReadAll(r, f, a + b) == ReadAll(r, ReadAll(r, f, a), b)
    decreases |b|
  {
    if b == [] {
      assert a + b == a;
    } else {
      assert (a + b)[..|a + b| - 1] == a + b[..|b| - 1];
      ReadAllConcat(r, f, a, b[..|b| - 1]);
    }
  }

  /** The lines the scan is shown when a stream comes in these chunks, and the tail it keeps. */
  function CutAll(chunks: seq<seq<byte>>): Cut {
    if chunks == [] then Cut([], [])
    else
      var before := CutAll(chunks[..|chunks| - 1]);
      var now := Lines(before.tail + chunks[|chunks| - 1]);
      Cut(before.lines + now.lines, LastBytes(now.tail))
  }

  /** The lines and the tail of the stream itself. */
  function CutWhole(stream: seq<byte>): Cut {
    Cut(Lines(stream).lines, LastBytes(Lines(stream).tail))
  }

  lemma {:induction false} FedIsCut(r: Reader, chunks: seq<seq<byte>>)
    ensures FedAll(r, FRESH, chunks) == Scan(ReadAll(r, NOTHING, CutAll(chunks).lines), CutAll(chunks).tail)
  {
    if chunks != [] {
      var before := CutAll(chunks[..|chunks| - 1]);
      FedIsCut(r, chunks[..|chunks| - 1]);
      ReadAllConcat(r, NOTHING, before.lines, Lines(before.tail + chunks[|chunks| - 1]).lines);
    }
  }

  ghost predicate NoLongLine(s: seq<byte>) {
    forall line :: line in Lines(s).lines ==> |line| <= MAX_TAIL
  }

  lemma FirstLineGrows(t: seq<byte>, b: seq<byte>) returns (first: seq<byte>)
    requires NEWLINE !in t && NEWLINE in b
    ensures first in Lines(t + b).lines && t <= first
    decreases |b|
  {
    var before, last := b[..|b| - 1], b[|b| - 1];
    assert b == before + [last];
    assert (t + b)[..|t + b| - 1] == t + before;
    if NEWLINE in before {
      first := FirstLineGrows(t, before);
    } else {
      NoNewlineNoLine(t + before);
      first := t + before;
    }
  }

  lemma PrefixHasNoLongLine(a: seq<byte>, b: seq<byte>)
    requires NoLongLine(a + b)
    ensures NoLongLine(a)
  {
    LinesSplit(a, b);
  }

  /** A stream with no long line never ends a line whose beginning is already too long. */
  lemma LongTailStaysOpen(a: seq<byte>, b: seq<byte>)
    requires NoLongLine(a + b) && |Lines(a).tail| > MAX_TAIL
    ensures NEWLINE !in b
  {
    LinesSplit(a, b);
    LinesHoldNoNewline(a);
    if NEWLINE in b {
      var first := FirstLineGrows(Lines(a).tail, b);
      assert false;
    }
  }

  lemma LastBytesGrow(t: seq<byte>, more: seq<byte>)
    ensures LastBytes(LastBytes(t) + more) == LastBytes(t + more)
  {
  }

  lemma OneMoreChunk(stream: seq<byte>, chunk: seq<byte>)
    requires NoLongLine(stream + chunk)
    ensures
      var before, now := CutWhole(stream), Lines(LastBytes(Lines(stream).tail) + chunk);
      Cut(before.lines + now.lines, LastBytes(now.tail)) == CutWhole(stream + chunk)
  {
    var t := Lines(stream).tail;
    LinesSplit(stream, chunk);
    if |t| > MAX_TAIL {
      LongTailStaysOpen(stream, chunk);
      LinesHoldNoNewline(stream);
      NoNewlineNoLine(t + chunk);
      NoNewlineNoLine(LastBytes(t) + chunk);
      LastBytesGrow(t, chunk);
    }
  }

  /** With no long line, the lines read and the tail kept are those of the stream, whatever the chunks. */
  lemma {:induction false} ChunksCutAlike(chunks: seq<seq<byte>>)
    requires NoLongLine(Concat(chunks))
    ensures CutAll(chunks) == CutWhole(Concat(chunks))
  {
    if chunks != [] {
      var before, last := chunks[..|chunks| - 1], chunks[|chunks| - 1];
      PrefixHasNoLongLine(Concat(before), last);
      ChunksCutAlike(before);
      OneMoreChunk(Concat(before), last);
    }
  }

  /** Where a long line ends: everything before its newline is a prefix with an over-long tail. */
  lemma {:induction false} WhereALongLineEnds(s: seq<byte>) returns (p: seq<byte>, q: seq<byte>)
    requires !NoLongLine(s)
    ensures s == p + [NEWLINE] + q && |Lines(p).tail| > MAX_TAIL
  {
    var before, last := s[..|s| - 1], s[|s| - 1];
    assert s == before + [last];
    if NoLongLine(before) {
      p, q := before, [];
    } else {
      var q0;
      p, q0 := WhereALongLineEnds(before);
      q := q0 + [last];
    }
  }

  lemma NewlineClosesTheTail(p: seq<byte>, q: seq<byte>)
    ensures Lines(p + [NEWLINE] + q).lines == Lines(p).lines + [Lines(p).tail] + Lines(q).lines
  {
    assert (p + [NEWLINE])[..|p|] == p;
    LinesSplit(p + [NEWLINE], q);
    assert [] + q == q;
  }

  lemma SplitAtALongLine(p: seq<byte>, q: seq<byte>)
    requires |Lines(p).tail| > MAX_TAIL
    ensures CutAll([p, [NEWLINE] + q]).lines ==
            Lines(p).lines + ([LastBytes(Lines(p).tail)] + Lines(q).lines)
  {
    var kept := LastBytes(Lines(p).tail);
    LinesHoldNoNewline(p);
    CutTwo(p, [NEWLINE] + q);
    OneLineFirst(kept, q);
  }

  lemma OneLineFirst(line: seq<byte>, rest: seq<byte>)
    requires NEWLINE !in line
    ensures Lines(line + ([NEWLINE] + rest)).lines == [line] + Lines(rest).lines
  {
    NoNewlineNoLine(line);
    NewlineClosesTheTail(line, rest);
    assert line + ([NEWLINE] + rest) == line + [NEWLINE] + rest;
    assert [] + [line] + Lines(rest).lines == [line] + Lines(rest).lines;
  }

  lemma CutTwo(a: seq<byte>, b: seq<byte>)
    ensures CutAll([a, b]).lines == Lines(a).lines + Lines(LastBytes(Lines(a).tail) + b).lines
  {
    var first, both := [a], [a, b];
    assert first[..0] == [] && both[..1] == first && [] + a == a;
    assert CutAll(first).lines == [] + Lines(a).lines == Lines(a).lines;
    assert CutAll(first).tail == LastBytes(Lines(a).tail);
  }

  lemma ALongLineIsCutShort(s: seq<byte>) returns (chunks: seq<seq<byte>>)
    requires !NoLongLine(s)
    ensures Concat(chunks) == s && CutAll(chunks).lines != Lines(s).lines
  {
    var p, q := WhereALongLineEnds(s);
    chunks := [p, [NEWLINE] + q];
    assert chunks[..1] == [p] && [p][..0] == [] && [] + p == p;
    assert Concat([p]) == p;
    assert p + ([NEWLINE] + q) == p + [NEWLINE] + q;
    SplitAtALongLine(p, q);
    NewlineClosesTheTail(p, q);
    var k := |Lines(p).lines|;
    assert CutAll(chunks).lines[k] == LastBytes(Lines(p).tail);
    assert Lines(s).lines[k] == Lines(p).tail;
  }

  ghost predicate CutAlikeHoweverItComes(s: seq<byte>) {
    forall chunks :: Concat(chunks) == s ==> CutAll(chunks) == CutWhole(s)
  }

  /** A stream is read as the same lines whatever its chunks exactly when no line is longer than the tail kept. */
  lemma ReadAlikeIffNoLineIsLong(s: seq<byte>)
    ensures CutAlikeHoweverItComes(s) <==> NoLongLine(s)
  {
    if NoLongLine(s) {
      forall chunks | Concat(chunks) == s ensures CutAll(chunks) == CutWhole(s) {
        ChunksCutAlike(chunks);
      }
    } else {
      var chunks := ALongLineIsCutShort(s);
      assert CutAll(chunks) != CutWhole(s);
    }
  }

  /**
   Feeding a stream in any chunks ends in the same artifact, usage and tail as feeding it
   whole, as long as no complete line of it is longer than the tail that is kept.
   */
  lemma ChunksDoNotMatter(r: Reader, chunks: seq<seq<byte>>)
    requires NoLongLine(Concat(chunks))
    ensures FedAll(r, FRESH, chunks) == Fed(r, FRESH, Concat(chunks))
  {
    FedIsCut(r, chunks);
    ChunksCutAlike(chunks);
    assert [] + Concat(chunks) == Concat(chunks);
  }

  /** Whatever is fed, and however, the tail that is kept is bounded. */
  lemma TailIsBounded(r: Reader, chunks: seq<seq<byte>>)
    ensures |FedAll(r, FRESH, chunks).tail| <= 8192
  {
  }

  /** What is kept of a piece of a line between chunks: all of it up to 8192 bytes, or its last 8192. */
  lemma TheEndOfALineIsKept(r: Reader, piece: seq<byte>)
    requires forall i :: 0 <= i < |piece| ==> piece[i] as int != '\n' as int
    ensures
      var kept := Fed(r, FRESH, piece).tail;
      if |piece| <= 8192 then kept == piece else |kept| == 8192 && kept == piece[|piece| - 8192..]
  {
    assert [] + piece == piece;
    NoNewlineNoLine(piece);
  }

  /** What that costs: an event longer than the tail, whose newline comes in a later chunk, is not heard. */
  lemma LongEventIsLost(r: Reader, line: seq<byte>, rest: seq<byte>)
    requires NEWLINE !in line && |line| > MAX_TAIL && !(PREFIX <= LastBytes(line)) && NEWLINE !in rest
    ensures Fed(r, FRESH, line + ([NEWLINE] + rest)).found == Heard(NOTHING, SignalOf(r, line))
    ensures FedAll(r, FRESH, [line, [NEWLINE] + rest]).found == NOTHING
  {
    HeardWhole(r, line, rest);
    NoNewlineNoLine(line);
    NoNewlineNoLine(rest);
    FedIsCut(r, [line, [NEWLINE] + rest]);
    SplitAtALongLine(line, rest);
    OneLine(r, LastBytes(line), [] + ([LastBytes(line)] + []));
  }

  lemma HeardWhole(r: Reader, line: seq<byte>, rest: seq<byte>)
    requires NEWLINE !in line && NEWLINE !in rest
    ensures Fed(r, FRESH, line + ([NEWLINE] + rest)).found == Heard(NOTHING, SignalOf(r, line))
  {
    NoNewlineNoLine(rest);
    OneLineFirst(line, rest);
    OneLine(r, line, [line] + []);
    assert [] + (line + ([NEWLINE] + rest)) == line + ([NEWLINE] + rest);
  }

  lemma OneLine(r: Reader, line: seq<byte>, lines: seq<seq<byte>>)
    requires lines == [line]
    ensures ReadAll(r, NOTHING, lines) == Heard(NOTHING, SignalOf(r, line))
  {
    assert lines[..0] == [];
  }

  // ---------- what the fold finds ----------

  function LastProject(r: Reader, lines: seq<seq<byte>>): string {
    if lines == [] then ""
    else
      match SignalOf(r, lines[|lines| - 1])
      case Finished(project, _) => if project != "" then project else LastProject(r, lines[..|lines| - 1])
      case _ => LastProject(r, lines[..|lines| - 1])
  }

  function FirstMention(r: Reader, lines: seq<seq<byte>>): string {
    if lines == [] then ""
    else
      match SignalOf(r, lines[0])
      case Mentioned(id) => if id != "" then id else FirstMention(r, lines[1..])
      case _ => FirstMention(r, lines[1..])
  }

  function LastUsage(r: Reader, lines: seq<seq<byte>>): Pricing.Usage {
    if lines == [] then Pricing.NO_USAGE
    else
      match SignalOf(r, lines[|lines| - 1])
      case Finished(_, usage) => if usage.Some? then usage.value else LastUsage(r, lines[..|lines| - 1])
      case _ => LastUsage(r, lines[..|lines| - 1])
  }

  lemma {:induction false} FirstMentionAppend(r: Reader, lines: seq<seq<byte>>, line: seq<byte>)
    ensures FirstMention(r, lines + [line]) ==
            if FirstMention(r, lines) != "" then FirstMention(r, lines) else FirstMention(r, [line])
  {
    if lines == [] {
      assert lines + [line] == [line];
    } else {
      assert (lines + [line])[1..] == lines[1..] + [line];
      FirstMentionAppend(r, lines[1..], line);
    }
  }

  /** The last `done` naming a project wins; the first artifact step is only the fallback; the last usage counts. */
  lemma {:induction false} DoneWinsOverMentions(r: Reader, lines: seq<seq<byte>>)
    ensures
      var project := LastProject(r, lines);
      ReadAll(r, NOTHING, lines) ==
      Found(if project != "" then project else FirstMention(r, lines), LastUsage(r, lines))
  {
    if lines != [] {
      var before, last := lines[..|lines| - 1], lines[|lines| - 1];
      DoneWinsOverMentions(r, before);
      assert lines == before + [last];
      FirstMentionAppend(r, before, last);
      assert [last][1..] == [];
    }
  }
}
