/**
 A reader that follows a run's log while it is written: `follow` cut where it hands a chunk over
 and where it waits to be woken. What it is never given, and exactly when.
 */
module LiveReader {
  import opened RunLog

  /**
   Where the reader stands: the place in the log it reads from next, and while it hands chunks
   over, those of its copied slice still to come.
   */
  datatype Reader = Reader(cursor: nat, slice: seq<Chunk>, yielding: bool, heard: seq<Chunk>)

  /** The log's chunks, its reader, and what there was to hear: the log it found, and everything appended since. */
  datatype World = World(chunks: seq<Chunk>, reader: Reader, owed: seq<Chunk>)

  /** The writer appends a chunk, or the reader goes on until it next hands over a chunk or waits. */
  datatype Step = Say(chunk: Chunk) | Resume

  function Opened(chunks: seq<Chunk>): World {
    World(chunks, Reader(0, [], false, []), chunks)
  }

  /** A slice handed over leaves the cursor at the length the log has by then. */
  function Resumed(r: Reader, chunks: seq<Chunk>): Reader {
    if r.yielding then
      if r.slice != [] then r.(heard := r.heard + [r.slice[0]], slice := r.slice[1..])
      else r.(cursor := |chunks|, yielding := false)
    else if r.cursor < |chunks| then
      r.(heard := r.heard + [chunks[r.cursor]], slice := chunks[r.cursor + 1..], yielding := true)
    else r
  }

  function Next(w: World, step: Step, maxBytes: nat): World {
    match step
    case Say(chunk) => w.(chunks := Trimmed(w.chunks + [chunk], maxBytes), owed := w.owed + [chunk])
    case Resume => w.(reader := Resumed(w.reader, w.chunks))
  }

  function Run(chunks: seq<Chunk>, steps: seq<Step>, maxBytes: nat): World {
    if steps == [] then Opened(chunks)
    else Next(Run(chunks, steps[..|steps| - 1], maxBytes), steps[|steps| - 1], maxBytes)
  }

  /** Nothing is left to hand over: the reader waits to be woken, or stops if the log has ended. */
  predicate Drained(w: World) { !w.reader.yielding && w.reader.cursor >= |w.chunks| }

  /** An append the reader will not hear of, or that drops or shifts what it has yet to read. */
  predicate Misses(w: World, step: Step, maxBytes: nat) {
    step.Say? && (w.reader.yielding || Trimmed(w.chunks + [step.chunk], maxBytes) != w.chunks + [step.chunk])
  }

  predicate NeverMisses(chunks: seq<Chunk>, steps: seq<Step>, maxBytes: nat) {
    steps == []
    || (NeverMisses(chunks, steps[..|steps| - 1], maxBytes)
        && !Misses(Run(chunks, steps[..|steps| - 1], maxBytes), steps[|steps| - 1], maxBytes))
  }

  /** What the reader would still be given if nothing more were appended. */
  function ToCome(w: World): seq<Chunk> {
    if w.reader.yielding then w.reader.slice
    else if w.reader.cursor < |w.chunks| then w.chunks[w.reader.cursor..]
    else []
  }

  lemma {:induction false} TrimmingShortens(chunks: seq<Chunk>, maxBytes: nat)
    ensures |Trimmed(chunks, maxBytes)| <= |chunks|
    ensures |Trimmed(chunks, maxBytes)| == |chunks| ==> Trimmed(chunks, maxBytes) == chunks
    decreases |chunks|
  {
    if Total(chunks) > maxBytes && |chunks| > 1 {
      TrimmingShortens(chunks[1..], maxBytes);
    }
  }

  /** A step never makes up for what was missed, and a miss is one chunk more at least. */
  lemma StepNeverRecovers(w: World, step: Step, maxBytes: nat)
    ensures
      var after := Next(w, step, maxBytes);
      && |after.owed| - |after.reader.heard| - |ToCome(after)| >= |w.owed| - |w.reader.heard| - |ToCome(w)|
      && (Misses(w, step, maxBytes) ==>
            |after.owed| - |after.reader.heard| - |ToCome(after)| > |w.owed| - |w.reader.heard| - |ToCome(w)|)
  {
    if step.Say? {
      TrimmingShortens(w.chunks + [step.chunk], maxBytes);
    }
  }

  /** Everything owed was handed over or is still to come, and the cursor is inside the log. */
  predicate Whole(w: World) { w.reader.heard + ToCome(w) == w.owed && w.reader.cursor <= |w.chunks| }

  lemma SayingLosesNothing(w: World, chunk: Chunk, maxBytes: nat)
    requires Whole(w) && !Misses(w, Say(chunk), maxBytes)
    ensures Whole(Next(w, Say(chunk), maxBytes))
  {
    var after := Next(w, Say(chunk), maxBytes);
    assert after.chunks == w.chunks + [chunk];
    assert ToCome(after) == ToCome(w) + [chunk];
  }

  lemma ResumingLosesNothing(w: World, maxBytes: nat)
    requires Whole(w)
    ensures Whole(Next(w, Resume, maxBytes))
  {
    if ToCome(w) != [] {
      HandingOver(w.reader, w.chunks);
      OneAcross(w.reader.heard, ToCome(w));
    }
  }

  lemma OneAcross(heard: seq<Chunk>, coming: seq<Chunk>)
    requires coming != []
    ensures heard + [coming[0]] + coming[1..] == heard + coming
  {
  }

  /** What is handed over is the first of what was to come. */
  lemma HandingOver(r: Reader, chunks: seq<Chunk>)
    requires ToCome(World(chunks, r, [])) != []
    ensures
      var before, after := ToCome(World(chunks, r, [])), Resumed(r, chunks);
      && after.heard == r.heard + [before[0]] && after.cursor == r.cursor
      && ToCome(World(chunks, after, [])) == before[1..]
  {
  }

  lemma {:induction false} MissedOnceIsMissed(chunks: seq<Chunk>, steps: seq<Step>, maxBytes: nat)
    ensures
      var w := Run(chunks, steps, maxBytes);
      && |w.reader.heard| + |ToCome(w)| <= |w.owed|
      && (!NeverMisses(chunks, steps, maxBytes) ==> |w.reader.heard| + |ToCome(w)| < |w.owed|)
  {
    if steps != [] {
      var before := steps[..|steps| - 1];
      MissedOnceIsMissed(chunks, before, maxBytes);
      StepNeverRecovers(Run(chunks, before, maxBytes), steps[|before|], maxBytes);
    }
  }

  lemma {:induction false} NothingMissedIsHeard(chunks: seq<Chunk>, steps: seq<Step>, maxBytes: nat)
    requires NeverMisses(chunks, steps, maxBytes)
    ensures Whole(Run(chunks, steps, maxBytes))
  {
    if steps != [] {
      var before := steps[..|steps| - 1];
      NothingMissedIsHeard(chunks, before, maxBytes);
      match steps[|before|]
      case Say(chunk) => SayingLosesNothing(Run(chunks, before, maxBytes), chunk, maxBytes);
      case Resume => ResumingLosesNothing(Run(chunks, before, maxBytes), maxBytes);
    }
  }

  /**
   A reader that has caught up was given everything the log held and everything appended since
   it began, in order, exactly when nothing was appended while it was handing a slice over and
   no append made the log drop a chunk.
   */
  lemma HeardEverythingIffNothingMissed(chunks: seq<Chunk>, steps: seq<Step>, maxBytes: nat)
    requires Drained(Run(chunks, steps, maxBytes))
    ensures
      var w := Run(chunks, steps, maxBytes);
      w.reader.heard == w.owed <==> NeverMisses(chunks, steps, maxBytes)
  {
    MissedOnceIsMissed(chunks, steps, maxBytes);
    if NeverMisses(chunks, steps, maxBytes) {
      NothingMissedIsHeard(chunks, steps, maxBytes);
    }
  }
}
