/**
 The orchestrator itself, one command at a time, over the runs it stores, the log it keeps and
 the ledger it charges. Each command is proved to be its own steps of `Orchestration` taken in
 a row, so what is proved there of every interleaving holds of these commands.

 What an agent answered, or that it did not, is an argument.
 */
module Orchestrator {
  import opened Prelude
  import opened Runs
  import O = Orchestration
  import Ledger
  import Pricing
  import RunLog
  import StreamScan

  /**
   How a generation's stream went: it never opened, broke after some chunks, was let go by its
   reader after some, or came whole.
   */
  datatype Stream =
    | Refused
    | Broken(chunks: seq<RunLog.Chunk>)
    | LetGo(chunks: seq<RunLog.Chunk>)
    | Whole(chunks: seq<RunLog.Chunk>)

  // ---------- each command as steps taken in a row ----------

  function PlannedBy(answer: Option<Document>): O.Step {
    match answer
    case None => O.Gone(0)
    case Some(d) => O.Planned(0, d)
  }

  function AnalysedBy(answer: Option<Document>): O.Step {
    match answer
    case None => O.Gone(0)
    case Some(d) => O.Analysed(0, d)
  }

  function RevisedBy(answer: Option<Document>): O.Step {
    match answer
    case None => O.Gone(0)
    case Some(d) => O.Revised(0, d)
  }

  predicate AsksTheUser(analysis: Option<Document>) { analysis.Some? && Questions(analysis.value.questions) != [] }

  datatype Command =
    | Start(id: string, idea: string, account: string, allowed: bool,
            analysis: Option<Document>, plan: Option<Document>)
    | Answers(id: string, given: seq<Answer>, plan: Option<Document>)
    | Rejects(id: string, feedback: string, plan: Option<Document>)
    | Approves(id: string)
    | Generates(id: string, stream: Stream, now: int)

  function StepsOf(c: Command, reader: StreamScan.Reader, metered: bool): seq<O.Step> {
    match c
    case Start(id, idea, account, allowed, analysis, plan) =>
      if metered && account != "" && !allowed then []
      else
        [O.Start(0, id, idea, account), AnalysedBy(analysis)] +
        (if AsksTheUser(analysis) then [O.Put(0)] else [PlannedBy(plan), O.Put(0)])
    case Answers(id, given, plan) => [O.Answers(0, id, given), PlannedBy(plan), O.Put(0)]
    case Rejects(id, feedback, plan) => [O.Rejects(0, id, feedback), RevisedBy(plan), O.Put(0)]
    case Approves(id) => [O.Approves(0, id), O.Put(0)]
    case Generates(id, stream, now) =>
      [O.Generates(0, id), O.Opened(0)] +
      (match stream
       case Refused => [O.Gone(0)]
       case Broken(_) => [O.Broke(0), O.Put(0)]
       case LetGo(_) => [O.Gone(0)]
       case Whole(chunks) =>
         var found := StreamScan.FedAll(reader, StreamScan.FRESH, chunks).found;
         [O.Ended(0, found.artifact, found.usage), O.Charged(0, metered, now), O.Put(0)])
  }

  lemma {:induction false} AfterKeepsTheGate(rates: Pricing.Rates, w: O.World, steps: seq<O.Step>)
    requires O.Gated(w)
    ensures O.Gated(O.After(rates, w, steps))
  {
    if steps != [] {
      AfterKeepsTheGate(rates, w, steps[..|steps| - 1]);
      O.StepKeepsTheGate(rates, O.After(rates, w, steps[..|steps| - 1]), steps[|steps| - 1]);
    }
  }

  lemma OneMoreStep(rates: Pricing.Rates, w: O.World, steps: seq<O.Step>, step: O.Step)
    ensures O.After(rates, w, steps + [step]) == O.Next(rates, O.After(rates, w, steps), step)
  {
    assert (steps + [step])[..|steps|] == steps;
  }

  /** The log holds what a reader who comes late is told of these chunks. */
  predicate Told(l: RunLog.Logs, id: string, chunks: seq<RunLog.Chunk>, maxBytes: nat, ended: bool) {
    var told := RunLog.Trimmed(chunks, maxBytes);
    id in l.kept && l.kept[id] == RunLog.Log(told, RunLog.Total(told), ended)
  }

  lemma ToldOneMore(l: RunLog.Logs, id: string, chunks: seq<RunLog.Chunk>, chunk: RunLog.Chunk, maxBytes: nat,
                    maxRuns: nat)
    requires maxRuns > 0 && Told(l, id, chunks, maxBytes, false)
    ensures Told(l.Appended(id, chunk, maxBytes, maxRuns), id, chunks + [chunk], maxBytes, false)
  {
    RunLog.TrimAsItComes(chunks, chunk, maxBytes);
  }

  // ---------- the orchestrator ----------

  class RunOrchestrator {
    var runs: map<string, Run>
    var ledger: seq<Ledger.Entry>
    ghost var approvals: set<(string, Document)>
    ghost var earned: set<string>
    const log: RunLog.InMemoryRunLog
    const rates: Pricing.Rates
    const reader: StreamScan.Reader
    const metered: bool

    ghost function Value(): O.World
      reads this
    {
      O.World(runs, map[], ledger, approvals, earned)
    }

    ghost function Done(c: Command): O.World
      reads this
    {
      O.After(rates, Value(), StepsOf(c, reader, metered))
    }

    constructor (log: RunLog.InMemoryRunLog, rates: Pricing.Rates, reader: StreamScan.Reader, metered: bool)
      ensures Value() == O.START
      ensures this.log == log && this.rates == rates && this.reader == reader && this.metered == metered
    {
      runs, ledger, approvals, earned := map[], [], {}, {};
      this.log, this.rates, this.reader, this.metered := log, rates, reader, metered;
    }

    method Approve(id: string) returns (r: Option<Run>)
      modifies this
      ensures Value() == old(Done(Approves(id)))
      ensures r.Some? <==> id in old(runs) && old(runs)[id].state.PlanReview?
      ensures r.Some? ==> r.value.id in runs && runs[r.value.id] == r.value && r.value.plan == old(runs)[id].plan
    {
      ghost var w := InARow2(rates, Value(), O.Approves(0, id), O.Put(0));
      ApproveInARow(rates, Value(), id);
      if id !in runs {
        return None;
      }
      r := runs[id].Moved(RunEvent.Approve);
      if r.Some? {
        runs := runs[r.value.id := r.value];
        approvals := w.approvals;
      }
    }

    method Answer(id: string, given: seq<Answer>, plan: Option<Document>) returns (r: Option<Run>)
      modifies this
      ensures Value() == old(Done(Answers(id, given, plan)))
      ensures r.Some? ==> r.value.id in runs && runs[r.value.id] == r.value && id in old(runs)
      ensures r.Some? && Distinct(old(runs)[id].answers) ==>
                NothingIsLost(old(runs)[id].answers, given, r.value.answers)
      ensures r.Some? ==>
                && r.value.id == old(runs)[id].id && r.value.idea == old(runs)[id].idea
                && r.value.account == old(runs)[id].account && r.value.rounds >= old(runs)[id].rounds
      ensures r.None? ==> runs == old(runs)
    {
      AnswerInARow(rates, Value(), id, given, plan, reader, metered);
      if id !in runs || plan.None? {
        return None;
      }
      if Distinct(runs[id].answers) {
        AnsweringLosesNothing(runs[id], given);
      }
      r := O.AfterPlanning(runs[id].Answering(given), plan.value);
      if r.Some? {
        runs := runs[r.value.id := r.value];
      }
    }

    method Reject(id: string, feedback: string, plan: Option<Document>) returns (r: Option<Run>)
      modifies this
      ensures Value() == old(Done(Rejects(id, feedback, plan)))
      ensures r.Some? ==> r.value.id in runs && runs[r.value.id] == r.value && r.value.plan == plan
      ensures r.None? ==> runs == old(runs)
    {
      RejectInARow(rates, Value(), id, feedback, plan, reader, metered);
      if Blank(feedback) || id !in runs {
        return None;
      }
      var revising := O.ToRevise(runs[id]);
      if revising.None? {
        return None;
      }
      if plan.None? {
        return None;
      }
      r := O.AfterRevision(revising.value, plan.value);
      if r.Some? {
        runs := runs[r.value.id := r.value];
      }
    }

    /** `allowed` is what `authorize` said of the account, asked before any agent is. */
    method Start(id: string, idea: string, account: string, allowed: bool, analysis: Option<Document>,
                 plan: Option<Document>)
      returns (r: Option<Run>)
      modifies this
      ensures Value() == old(Done(Command.Start(id, idea, account, allowed, analysis, plan)))
      ensures r.Some? ==> r.value.id == id && id in runs && runs[id] == r.value
      ensures r.None? ==> runs == old(runs)
      ensures metered && account != "" && !allowed ==> r.None?
    {
      if metered && account != "" && !allowed {
        return None;
      }
      StartInARow(rates, Value(), id, idea, account, allowed, analysis, plan, reader, metered);
      r := Open(id, idea, account, analysis, plan);
      if r.Some? {
        runs := runs[id := r.value];
      }
    }

    /** Everything `start` does between being allowed and storing the run. */
    method Open(id: string, idea: string, account: string, analysis: Option<Document>, plan: Option<Document>)
      returns (r: Option<Run>)
      ensures r == Begun(id, idea, account, analysis, plan)
      ensures r.Some? ==> r.value.id == id
    {
      var started := Started(id, idea, account);
      if started.None? || analysis.None? {
        return None;
      }
      var described := started.value.Moved(Describe);
      var asked := Questions(analysis.value.questions);
      r := described.value.Asked(analysis.value.summary, asked);
      if asked == [] {
        if plan.None? {
          return None;
        }
        r := O.AfterPlanning(r.value, plan.value);
      }
    }

    method Generate(id: string, stream: Stream, now: int) returns (began: bool)
      requires log.Valid()
      modifies this, log
      ensures log.Valid() && Value() == old(Done(Generates(id, stream, now)))
      ensures began <==> id in old(runs) && old(runs)[id].state.PlanApproved?
      ensures began && !stream.Refused? ==> Told(log.Value(), old(runs)[id].id, stream.chunks, log.maxBytes, true)
    {
      GenerateInARow(rates, Value(), id, stream, reader, metered, now);
      began := Proceed(id, stream, now);
    }

    method Proceed(id: string, stream: Stream, now: int) returns (began: bool)
      requires log.Valid()
      modifies this, log
      ensures log.Valid() && Value() == Generated(rates, old(Value()), id, stream, reader, metered, now)
      ensures began <==> id in old(runs) && old(runs)[id].state.PlanApproved?
      ensures began && !stream.Refused? ==> Told(log.Value(), old(runs)[id].id, stream.chunks, log.maxBytes, true)
    {
      if id !in runs {
        return false;
      }
      var generating := runs[id].Moved(RunEvent.Generate);
      if generating.None? {
        return false;
      }
      began := true;
      Begin(generating.value, stream, now);
    }

    /** The run is stored as generating before its stream opens; one that never opens, or is let go, leaves it so. */
    method Begin(run: Run, stream: Stream, now: int)
      requires run.state.BackendGeneration? && log.Valid()
      modifies this, log
      ensures log.Valid() && Value() == Streamed(rates, old(Value()), run, stream, reader, metered, now)
      ensures !stream.Refused? ==> Told(log.Value(), run.id, stream.chunks, log.maxBytes, true)
    {
      runs := runs[run.id := run];
      if stream.Refused? {
        return;
      }
      var found := Watch(run.id, stream.chunks);
      if !stream.LetGo? {
        Conclude(run, found, stream.Broken?, now);
      }
    }

    method Conclude(run: Run, found: StreamScan.Found, broken: bool, now: int)
      requires run.state.BackendGeneration?
      modifies this
      ensures Value() ==
        if broken || found.artifact == "" then Failed(old(Value()), run)
        else Delivered(rates, old(Value()), run, found, metered, now)
    {
      if broken || found.artifact == "" {
        runs := runs[run.id := run.Moved(Fail).value];
      } else {
        Deliver(run, found, now);
      }
    }

    /** The run is charged for once it has an artifact, and stored with what was debited. */
    method Deliver(run: Run, found: StreamScan.Found, now: int)
      requires run.state.BackendGeneration?
      modifies this
      ensures Value() == Delivered(rates, old(Value()), run, found, metered, now)
    {
      var delivered := run.Delivered(found.artifact).value;
      var billed := O.Billed(ledger, rates, delivered, found.usage, metered, now);
      ledger := O.Debited(ledger, rates, delivered, found.usage, metered, now);
      if !found.usage.IsEmpty() {
        earned := earned + {run.id};
      }
      runs := runs[run.id := billed];
    }

    /** Keeps each chunk before reading it, and lets the readers go however the stream ended. */
    method Watch(id: string, chunks: seq<RunLog.Chunk>) returns (found: StreamScan.Found)
      requires log.Valid()
      modifies log
      ensures log.Valid() && found == StreamScan.FedAll(reader, StreamScan.FRESH, chunks).found
      ensures Told(log.Value(), id, chunks, log.maxBytes, true)
    {
      var scan := new StreamScan.StreamScan(reader);
      RunLog.StartedIsValid(log.Value(), id, log.maxRuns);
      log.Start(id);
      for i := 0 to |chunks|
        invariant log.Valid() && Told(log.Value(), id, chunks[..i], log.maxBytes, false)
        invariant fresh(scan) && scan.reader == reader
        invariant scan.Value() == StreamScan.FedAll(reader, StreamScan.FRESH, chunks[..i])
      {
        assert chunks[..i + 1] == chunks[..i] + [chunks[i]] && chunks[..i + 1][..i] == chunks[..i];
        ToldOneMore(log.Value(), id, chunks[..i], chunks[i], log.maxBytes, log.maxRuns);
        log.Append(id, chunks[i]);
        scan.Feed(chunks[i]);
      }
      assert chunks[..|chunks|] == chunks;
      log.End(id);
      found := scan.Value().found;
    }
  }

  lemma ApproveInARow(rates: Pricing.Rates, w: O.World, id: string)
    requires w.pending == map[]
    ensures
      var after := O.Next(rates, O.Next(rates, w, O.Approves(0, id)), O.Put(0));
      if id in w.runs && w.runs[id].Moved(RunEvent.Approve).Some? then
        var r := w.runs[id].Moved(RunEvent.Approve).value;
        after == O.World(w.runs[r.id := r], map[], w.ledger, after.approvals, w.earned)
      else after == w
  {
    if id in w.runs && w.runs[id].Moved(RunEvent.Approve).Some? {
      assert O.Next(rates, w, O.Approves(0, id)).pending - {0} == map[];
    }
  }

  function Stored(w: O.World, r: Option<Run>): O.World {
    match r
    case None => w
    case Some(run) => w.(runs := w.runs[run.id := run])
  }

  lemma AnswerInARow(rates: Pricing.Rates, w: O.World, id: string, given: seq<Answer>, plan: Option<Document>,
                     reader: StreamScan.Reader, metered: bool)
    requires w.pending == map[]
    ensures O.After(rates, w, StepsOf(Answers(id, given, plan), reader, metered)) ==
            Stored(w, if id in w.runs && plan.Some? then O.AfterPlanning(w.runs[id].Answering(given), plan.value)
                      else None)
  {
    var after := InARow3(rates, w, O.Answers(0, id, given), PlannedBy(plan), O.Put(0));
    assert after.pending == map[];
  }

  lemma RejectInARow(rates: Pricing.Rates, w: O.World, id: string, feedback: string, plan: Option<Document>,
                     reader: StreamScan.Reader, metered: bool)
    requires w.pending == map[]
    ensures O.After(rates, w, StepsOf(Rejects(id, feedback, plan), reader, metered)) ==
            Stored(w, if id in w.runs && !Blank(feedback) && O.ToRevise(w.runs[id]).Some? && plan.Some?
                      then O.AfterRevision(O.ToRevise(w.runs[id]).value, plan.value) else None)
  {
    var after := InARow3(rates, w, O.Rejects(0, id, feedback), RevisedBy(plan), O.Put(0));
    assert after.pending == map[];
  }

  lemma InARow2(rates: Pricing.Rates, w: O.World, a: O.Step, b: O.Step) returns (after: O.World)
    ensures after == O.After(rates, w, [a, b]) == O.Next(rates, O.Next(rates, w, a), b)
  {
    after := O.After(rates, w, [a, b]);
    OneMoreStep(rates, w, [], a);
    OneMoreStep(rates, w, [a], b);
    assert [] + [a] == [a] && [a] + [b] == [a, b];
  }

  lemma InARow3(rates: Pricing.Rates, w: O.World, a: O.Step, b: O.Step, c: O.Step) returns (after: O.World)
    ensures after == O.After(rates, w, [a, b, c]) == O.Next(rates, O.Next(rates, O.Next(rates, w, a), b), c)
  {
    after := O.After(rates, w, [a, b, c]);
    var two := InARow2(rates, w, a, b);
    OneMoreStep(rates, w, [a, b], c);
    assert [a, b] + [c] == [a, b, c];
  }

  /** What `start` stores, when it stores anything. */
  function Begun(id: string, idea: string, account: string, analysis: Option<Document>,
                 plan: Option<Document>): Option<Run> {
    var started := Started(id, idea, account);
    if started.None? || analysis.None? then None
    else
      var asked := Questions(analysis.value.questions);
      var run := started.value.Moved(Describe).value.Asked(analysis.value.summary, asked).value;
      if asked != [] then Some(run) else if plan.None? then None else O.AfterPlanning(run, plan.value)
  }

  lemma StartInARow(rates: Pricing.Rates, w: O.World, id: string, idea: string, account: string,
                    allowed: bool, analysis: Option<Document>, plan: Option<Document>,
                    reader: StreamScan.Reader, metered: bool)
    requires w.pending == map[] && (metered && account != "" ==> allowed)
    ensures
      var after := O.After(rates, w, StepsOf(Start(id, idea, account, allowed, analysis, plan), reader, metered));
      var begun := Begun(id, idea, account, analysis, plan);
      after == if begun.None? then w else w.(runs := w.runs[id := begun.value])
  {
    var a, b := O.Start(0, id, idea, account), AnalysedBy(analysis);
    if AsksTheUser(analysis) {
      assert [a, b] + [O.Put(0)] == [a, b, O.Put(0)];
      var _ := InARow3(rates, w, a, b, O.Put(0));
      StartAskingInARow(rates, w, id, idea, account, analysis.value, plan);
    } else {
      assert [a, b] + [PlannedBy(plan), O.Put(0)] == [a, b, PlannedBy(plan), O.Put(0)];
      var _ := InARow4(rates, w, a, b, PlannedBy(plan), O.Put(0));
      StartPlanningInARow(rates, w, id, idea, account, analysis, plan);
    }
  }

  lemma StartAskingInARow(rates: Pricing.Rates, w: O.World, id: string, idea: string, account: string,
                          analysis: Document, plan: Option<Document>)
    requires w.pending == map[] && Questions(analysis.questions) != []
    ensures
      var after := O.Next(
        rates, O.Next(rates, O.Next(rates, w, O.Start(0, id, idea, account)), O.Analysed(0, analysis)),
        O.Put(0));
      var begun := Begun(id, idea, account, Some(analysis), plan);
      after == if begun.None? then w else w.(runs := w.runs[id := begun.value])
  {
    var after := O.Next(
        rates, O.Next(rates, O.Next(rates, w, O.Start(0, id, idea, account)), O.Analysed(0, analysis)),
        O.Put(0));
    assert after.pending == map[];
  }

  lemma StartPlanningInARow(rates: Pricing.Rates, w: O.World, id: string, idea: string, account: string,
                            analysis: Option<Document>, plan: Option<Document>)
    requires w.pending == map[] && !AsksTheUser(analysis)
    ensures
      var analysed := O.Next(rates, O.Next(rates, w, O.Start(0, id, idea, account)), AnalysedBy(analysis));
      var after := O.Next(rates, O.Next(rates, analysed, PlannedBy(plan)), O.Put(0));
      var begun := Begun(id, idea, account, analysis, plan);
      after == if begun.None? then w else w.(runs := w.runs[id := begun.value])
  {
    AnalysedInARow(rates, w, id, idea, account, analysis);
    if Started(id, idea, account).Some? && analysis.Some? {
      var asked := Started(id, idea, account).value.Moved(Describe).value.Asked(analysis.value.summary, []).value;
      PlannedInARow(rates, w, asked, plan);
    }
  }

  lemma AnalysedInARow(rates: Pricing.Rates, w: O.World, id: string, idea: string, account: string,
                       analysis: Option<Document>)
    requires w.pending == map[] && !AsksTheUser(analysis)
    ensures
      O.Next(rates, O.Next(rates, w, O.Start(0, id, idea, account)), AnalysedBy(analysis)) ==
      if Started(id, idea, account).None? || analysis.None? then w
      else
        var asked := Started(id, idea, account).value.Moved(Describe).value.Asked(analysis.value.summary, []).value;
        w.(pending := map[0 := O.Planning(asked)])
  {
    if Started(id, idea, account).Some? && analysis.None? {
      assert O.Next(rates, w, O.Start(0, id, idea, account)).pending - {0} == map[];
    }
  }

  lemma PlannedInARow(rates: Pricing.Rates, w: O.World, asked: Run, plan: Option<Document>)
    requires w.pending == map[]
    ensures
      O.Next(rates, O.Next(rates, w.(pending := map[0 := O.Planning(asked)]), PlannedBy(plan)), O.Put(0)) ==
      Stored(w, if plan.None? then None else O.AfterPlanning(asked, plan.value))
  {
    var after := O.Next(rates, O.Next(rates, w.(pending := map[0 := O.Planning(asked)]), PlannedBy(plan)), O.Put(0));
    assert after.pending == map[];
  }

  lemma InARow4(rates: Pricing.Rates, w: O.World, a: O.Step, b: O.Step, c: O.Step, d: O.Step) returns (after: O.World)
    ensures after == O.After(rates, w, [a, b, c, d])
    ensures after == O.Next(rates, O.Next(rates, O.Next(rates, O.Next(rates, w, a), b), c), d)
  {
    after := O.After(rates, w, [a, b, c, d]);
    var three := InARow3(rates, w, a, b, c);
    OneMoreStep(rates, w, [a, b, c], d);
    assert [a, b, c] + [d] == [a, b, c, d];
  }

  lemma InARow5(rates: Pricing.Rates, w: O.World, a: O.Step, b: O.Step, c: O.Step, d: O.Step,
                e: O.Step) returns (after: O.World)
    ensures after == O.After(rates, w, [a, b, c, d, e])
    ensures after == O.Next(rates, O.Next(rates, O.Next(rates, O.Next(rates, O.Next(rates, w, a), b), c), d), e)
  {
    after := O.After(rates, w, [a, b, c, d, e]);
    var four := InARow4(rates, w, a, b, c, d);
    OneMoreStep(rates, w, [a, b, c, d], e);
    assert [a, b, c, d] + [e] == [a, b, c, d, e];
  }

  function Began(w: O.World, run: Run): O.World {
    w.(runs := w.runs[run.id := run], pending := map[0 := O.Streaming(run)])
  }

  lemma BeginInARow(rates: Pricing.Rates, w: O.World, id: string)
    requires w.pending == map[]
    ensures O.Next(rates, O.Next(rates, w, O.Generates(0, id)), O.Opened(0)) ==
      if id in w.runs && w.runs[id].Moved(RunEvent.Generate).Some?
      then Began(w, w.runs[id].Moved(RunEvent.Generate).value) else w
  {
  }

  function Failed(w: O.World, run: Run): O.World
    requires run.state.BackendGeneration?
  {
    w.(runs := w.runs[run.id := run.Moved(Fail).value], pending := map[])
  }

  function Delivered(rates: Pricing.Rates, w: O.World, run: Run, found: StreamScan.Found, metered: bool,
                     now: int): O.World
    requires run.state.BackendGeneration?
  {
    var delivered := run.Delivered(found.artifact).value;
    O.World(
      w.runs[run.id := O.Billed(w.ledger, rates, delivered, found.usage, metered, now)], map[],
      O.Debited(w.ledger, rates, delivered, found.usage, metered, now), w.approvals,
      if found.usage.IsEmpty() then w.earned else w.earned + {run.id})
  }

  /** What a run's stream leaves, told from the world before the run was stored as generating. */
  function Streamed(rates: Pricing.Rates, w: O.World, run: Run, stream: Stream, reader: StreamScan.Reader,
                    metered: bool, now: int): O.World
    requires run.state.BackendGeneration?
  {
    match stream
    case Refused => w.(runs := w.runs[run.id := run])
    case Broken(_) => Failed(Began(w, run), run)
    case LetGo(_) => w.(runs := w.runs[run.id := run])
    case Whole(chunks) =>
      var found := StreamScan.FedAll(reader, StreamScan.FRESH, chunks).found;
      if found.artifact == "" then Failed(Began(w, run), run)
      else Delivered(rates, Began(w, run), run, found, metered, now)
  }

  /** What `generate` leaves. */
  function Generated(rates: Pricing.Rates, w: O.World, id: string, stream: Stream, reader: StreamScan.Reader,
                     metered: bool, now: int): O.World {
    if !(id in w.runs && w.runs[id].Moved(RunEvent.Generate).Some?) then w
    else Streamed(rates, w, w.runs[id].Moved(RunEvent.Generate).value, stream, reader, metered, now)
  }

  lemma BreakInARow(rates: Pricing.Rates, w: O.World, run: Run)
    requires w.pending == map[0 := O.Streaming(run)] && run.state.BackendGeneration?
    ensures O.Next(rates, O.Next(rates, w, O.Broke(0)), O.Put(0)) == Failed(w, run)
  {
    assert w.pending[0 := O.Writing(run.Moved(Fail).value)] - {0} == map[];
  }

  lemma EndInARow(rates: Pricing.Rates, w: O.World, run: Run, found: StreamScan.Found, metered: bool, now: int)
    requires w.pending == map[0 := O.Streaming(run)] && run.state.BackendGeneration?
    ensures
      O.Next(
        rates, O.Next(rates, O.Next(rates, w, O.Ended(0, found.artifact, found.usage)), O.Charged(0, metered, now)),
        O.Put(0))
      == if found.artifact == "" then Failed(w, run) else Delivered(rates, w, run, found, metered, now)
  {
    EndedInARow(rates, w, run, found);
    if found.artifact == "" {
      PutInARow(rates, w.(pending := map[0 := O.Writing(run.Moved(Fail).value)]), run.Moved(Fail).value, metered, now);
    } else {
      var earned := if found.usage.IsEmpty() then w.earned else w.earned + {run.id};
      ChargedInARow(rates, w.(earned := earned), run.Delivered(found.artifact).value, found.usage, metered, now);
    }
  }

  lemma EndedInARow(rates: Pricing.Rates, w: O.World, run: Run, found: StreamScan.Found)
    requires w.pending == map[0 := O.Streaming(run)] && run.state.BackendGeneration?
    ensures
      O.Next(rates, w, O.Ended(0, found.artifact, found.usage)) ==
      if found.artifact == "" then w.(pending := map[0 := O.Writing(run.Moved(Fail).value)])
      else
        w.(pending := map[0 := O.Charging(run.Delivered(found.artifact).value, found.usage)],
           earned := if found.usage.IsEmpty() then w.earned else w.earned + {run.id})
  {
  }

  lemma PutInARow(rates: Pricing.Rates, w: O.World, run: Run, metered: bool, now: int)
    requires w.pending == map[0 := O.Writing(run)]
    ensures O.Next(rates, O.Next(rates, w, O.Charged(0, metered, now)), O.Put(0)) ==
            w.(runs := w.runs[run.id := run], pending := map[])
  {
    assert w.pending - {0} == map[];
  }

  lemma ChargedInARow(rates: Pricing.Rates, w: O.World, run: Run, usage: Pricing.Usage, metered: bool, now: int)
    ensures
      O.Next(rates, O.Next(rates, w.(pending := map[0 := O.Charging(run, usage)]), O.Charged(0, metered, now)),
        O.Put(0)) ==
      O.World(w.runs[run.id := O.Billed(w.ledger, rates, run, usage, metered, now)], map[],
              O.Debited(w.ledger, rates, run, usage, metered, now), w.approvals, w.earned)
  {
    var billed := O.Billed(w.ledger, rates, run, usage, metered, now);
    assert map[0 := O.Charging(run, usage)][0 := O.Writing(billed)] - {0} == map[];
  }

  lemma BrokenInARow(rates: Pricing.Rates, w: O.World, id: string)
    requires w.pending == map[]
    ensures
      var began := O.Next(rates, O.Next(rates, w, O.Generates(0, id)), O.Opened(0));
      O.Next(rates, O.Next(rates, began, O.Broke(0)), O.Put(0)) ==
      if id in w.runs && w.runs[id].Moved(RunEvent.Generate).Some? then
        var run := w.runs[id].Moved(RunEvent.Generate).value;
        Failed(Began(w, run), run)
      else w
  {
    BeginInARow(rates, w, id);
    if id in w.runs && w.runs[id].Moved(RunEvent.Generate).Some? {
      var run := w.runs[id].Moved(RunEvent.Generate).value;
      BreakInARow(rates, Began(w, run), run);
    }
  }

  lemma WholeInARow(rates: Pricing.Rates, w: O.World, id: string, found: StreamScan.Found, metered: bool, now: int)
    requires w.pending == map[]
    ensures
      var began := O.Next(rates, O.Next(rates, w, O.Generates(0, id)), O.Opened(0));
      O.Next(
        rates, O.Next(rates, O.Next(rates, began, O.Ended(0, found.artifact, found.usage)), O.Charged(0, metered, now)),
        O.Put(0)) ==
      if id in w.runs && w.runs[id].Moved(RunEvent.Generate).Some? then
        var run := w.runs[id].Moved(RunEvent.Generate).value;
        if found.artifact == "" then Failed(Began(w, run), run)
        else Delivered(rates, Began(w, run), run, found, metered, now)
      else w
  {
    BeginInARow(rates, w, id);
    if id in w.runs && w.runs[id].Moved(RunEvent.Generate).Some? {
      var run := w.runs[id].Moved(RunEvent.Generate).value;
      EndInARow(rates, Began(w, run), run, found, metered, now);
    }
  }

  lemma GenerateInARow(rates: Pricing.Rates, w: O.World, id: string, stream: Stream, reader: StreamScan.Reader,
                       metered: bool, now: int)
    requires w.pending == map[]
    ensures
      var after := O.After(rates, w, StepsOf(Generates(id, stream, now), reader, metered));
      after == Generated(rates, w, id, stream, reader, metered, now)
  {
    var a, b := O.Generates(0, id), O.Opened(0);
    match stream
    case Refused => GoneInARow(rates, w, id);
    case Broken(_) =>
      assert [a, b] + [O.Broke(0), O.Put(0)] == [a, b, O.Broke(0), O.Put(0)];
      var _ := InARow4(rates, w, a, b, O.Broke(0), O.Put(0));
      BrokenInARow(rates, w, id);
    case LetGo(_) => GoneInARow(rates, w, id);
    case Whole(chunks) =>
      var found := StreamScan.FedAll(reader, StreamScan.FRESH, chunks).found;
      var c, d := O.Ended(0, found.artifact, found.usage), O.Charged(0, metered, now);
      assert [a, b] + [c, d, O.Put(0)] == [a, b, c, d, O.Put(0)];
      var _ := InARow5(rates, w, a, b, c, d, O.Put(0));
      WholeInARow(rates, w, id, found, metered, now);
  }

  lemma GoneInARow(rates: Pricing.Rates, w: O.World, id: string)
    requires w.pending == map[]
    ensures
      O.After(rates, w, [O.Generates(0, id), O.Opened(0)] + [O.Gone(0)]) ==
      if id in w.runs && w.runs[id].Moved(RunEvent.Generate).Some? then
        var run := w.runs[id].Moved(RunEvent.Generate).value;
        w.(runs := w.runs[run.id := run])
      else w
  {
    var a, b := O.Generates(0, id), O.Opened(0);
    assert [a, b] + [O.Gone(0)] == [a, b, O.Gone(0)];
    var _ := InARow3(rates, w, a, b, O.Gone(0));
    BeginInARow(rates, w, id);
  }

  /** However a whole stream is cut into chunks, generating from it leaves the same runs and the same ledger. */
  lemma ChunksDoNotMatterToARun(rates: Pricing.Rates, w: O.World, id: string, one: seq<RunLog.Chunk>,
                                other: seq<RunLog.Chunk>,
                                reader: StreamScan.Reader, metered: bool, now: int)
    requires StreamScan.Concat(one) == StreamScan.Concat(other) && StreamScan.NoLongLine(StreamScan.Concat(one))
    ensures O.After(rates, w, StepsOf(Generates(id, Whole(one), now), reader, metered))
         == O.After(rates, w, StepsOf(Generates(id, Whole(other), now), reader, metered))
  {
    StreamScan.ChunksDoNotMatter(reader, one);
    StreamScan.ChunksDoNotMatter(reader, other);
  }
}
