/**
 What each command of the orchestrator stores, and when it stores nothing, told in the fields of
 the run, of what the agents answered and of what the stream held.
 */
module OrchestratorTerms {
  import opened Prelude
  import opened Runs
  import O = Orchestration
  import opened Orchestrator
  import Ledger
  import Pricing
  import Store
  import StreamScan

  // ---------- what an agent's answer leads to ----------

  /** Something is asked. */
  predicate Asks(d: Document) { exists i :: 0 <= i < |d.questions| && !IsWhite(d.questions[i]) }

  /** A plan says what it is for, and holds something. */
  predicate Plans(d: Document) { d.items >= 1 && !IsWhite(d.purpose) }

  lemma AsksIffQuestionsAreLeft(d: Document)
    ensures Asks(d) <==> Questions(d.questions) != []
  {
    QuestionsSaySomething(d.questions);
    if Asks(d) {
      var i :| 0 <= i < |d.questions| && !IsWhite(d.questions[i]);
      assert d.questions[i] in Questions(d.questions);
    }
    if Questions(d.questions) != [] {
      var q := Questions(d.questions)[0];
      assert q in Questions(d.questions);
      var i :| 0 <= i < |d.questions| && d.questions[i] == q;
    }
  }

  /** Asked again while rounds are left, or planned; an answer that does neither stores nothing. */
  lemma PlanningAsksOrPlans(r: Run, d: Document)
    ensures
      O.AfterPlanning(r, d) ==
      if Asks(d) then
        if r.rounds < 2 && r.state in {PmAnalysis, Questionnaire}
        then Some(r.(state := Questionnaire, rounds := r.rounds + 1, questions := Questions(d.questions))) else None
      else if Plans(d) && r.state in {PmAnalysis, Questionnaire, PmRevision}
      then Some(r.(state := PlanReview, plan := Some(d), questions := [])) else None
  {
    AsksIffQuestionsAreLeft(d);
    BlankIsAllWhite(d.purpose);
  }

  // ---------- the commands ----------

  lemma AnswersAreKeptOrNothingIsStored(rates: Pricing.Rates, w: O.World, id: string, given: seq<Answer>,
                                        plan: Option<Document>, reader: StreamScan.Reader, metered: bool)
    requires w.pending == map[] && (id in w.runs ==> Distinct(w.runs[id].answers) && w.runs[id].id == id)
    ensures
      var after := O.After(rates, w, StepsOf(Answers(id, given, plan), reader, metered));
      var stored :=
        && id in w.runs && plan.Some?
        && (if Asks(plan.value) then w.runs[id].rounds < 2 && w.runs[id].state in {PmAnalysis, Questionnaire}
            else Plans(plan.value) && w.runs[id].state in {PmAnalysis, Questionnaire, PmRevision});
      && (!stored ==> after == w)
      && (stored ==>
            var was := w.runs[id];
            && after == w.(runs := after.runs) && id in after.runs && after.runs == w.runs[id := after.runs[id]]
            && NothingIsLost(was.answers, given, after.runs[id].answers)
            && after.runs[id] ==
               if Asks(plan.value)
               then was.(answers := after.runs[id].answers, state := Questionnaire, rounds := was.rounds + 1,
                         questions := Questions(plan.value.questions))
               else was.(answers := after.runs[id].answers, state := PlanReview, plan := plan, questions := []))
  {
    AnswerInARow(rates, w, id, given, plan, reader, metered);
    if id in w.runs && plan.Some? {
      AnsweringLosesNothing(w.runs[id], given);
      PlanningAsksOrPlans(w.runs[id].Answering(given), plan.value);
    }
  }

  lemma RejectionStoresTheNextPlan(rates: Pricing.Rates, w: O.World, id: string, feedback: string,
                                   plan: Option<Document>, reader: StreamScan.Reader, metered: bool)
    requires w.pending == map[] && (id in w.runs ==> w.runs[id].id == id)
    ensures
      O.After(rates, w, StepsOf(Rejects(id, feedback, plan), reader, metered)) ==
      if id in w.runs && w.runs[id].state == PlanReview && !IsWhite(feedback) && plan.Some? && Plans(plan.value)
      then w.(runs := w.runs[id := w.runs[id].(plan := plan, questions := [])])
      else w
  {
    RejectInARow(rates, w, id, feedback, plan, reader, metered);
    BlankIsAllWhite(feedback);
    if plan.Some? {
      BlankIsAllWhite(plan.value.purpose);
    }
  }

  lemma ApprovalMovesTheRun(rates: Pricing.Rates, w: O.World, id: string, reader: StreamScan.Reader, metered: bool)
    requires w.pending == map[] && (id in w.runs ==> w.runs[id].id == id)
    ensures
      var after := O.After(rates, w, StepsOf(Approves(id), reader, metered));
      if id in w.runs && w.runs[id].state == PlanReview
      then
        && after.runs == w.runs[id := w.runs[id].(state := PlanApproved)]
        && after.pending == map[] && after.ledger == w.ledger
      else after == w
  {
    ApproveInARow(rates, w, id);
    var _ := InARow2(rates, w, O.Approves(0, id), O.Put(0));
  }

  /** What `start` stores of an idea saying something in at most 4000 characters, if the agents' answers can be used. */
  lemma StartStoresAQuestionOrAPlan(rates: Pricing.Rates, w: O.World, id: string, idea: string, account: string,
                                    allowed: bool, analysis: Option<Document>, plan: Option<Document>,
                                    reader: StreamScan.Reader, metered: bool)
    requires w.pending == map[]
    ensures
      var after := O.After(rates, w, StepsOf(Start(id, idea, account, allowed, analysis, plan), reader, metered));
      if (metered && account != "" && !allowed) || IsWhite(idea) || |Strip(idea)| > 4000 || analysis.None?
      then after == w
      else
        var first := Run(id, Strip(idea), Questionnaire, 1, [], None, analysis.value.summary,
                         Questions(analysis.value.questions), "", account, 0);
        if Asks(analysis.value) then after == w.(runs := w.runs[id := first])
        else if plan.None? then after == w
        else if Asks(plan.value)
        then after == w.(runs := w.runs[id := first.(rounds := 2, questions := Questions(plan.value.questions))])
        else if Plans(plan.value)
        then after == w.(runs := w.runs[id := first.(state := PlanReview, plan := plan, questions := [])])
        else after == w
  {
    if !(metered && account != "" && !allowed) {
      StartInARow(rates, w, id, idea, account, allowed, analysis, plan, reader, metered);
      RunsStartFromAnIdea(id, idea, account);
      if analysis.Some? && Started(id, idea, account).Some? {
        BegunFrom(id, idea, account, analysis.value, plan);
      }
    }
  }

  lemma BegunFrom(id: string, idea: string, account: string, analysis: Document, plan: Option<Document>)
    requires Started(id, idea, account).Some?
    ensures
      var first := Run(id, Strip(idea), Questionnaire, 1, [], None, analysis.summary,
                       Questions(analysis.questions), "", account, 0);
      Begun(id, idea, account, Some(analysis), plan) ==
      if Asks(analysis) then Some(first)
      else if plan.None? then None
      else if Asks(plan.value) then Some(first.(rounds := 2, questions := Questions(plan.value.questions)))
      else if Plans(plan.value) then Some(first.(state := PlanReview, plan := plan, questions := []))
      else None
  {
    AsksIffQuestionsAreLeft(analysis);
    if plan.Some? {
      var first := Run(id, Strip(idea), Questionnaire, 1, [], None, analysis.summary,
                       Questions(analysis.questions), "", account, 0);
      PlanningAsksOrPlans(first, plan.value);
    }
  }

  // ---------- generating ----------

  /** Whether a delivery is debited: somebody pays for the run, and it used something that costs tokens. */
  predicate IsDebited(rates: Pricing.Rates, account: string, usage: Pricing.Usage, metered: bool) {
    metered && account != "" && (usage.calls > 0 || usage.tokens > 0) && rates.Billable(usage) > 0
  }

  /** A run delivered, and what it is stored as having been charged: what its one row in the ledger says. */
  lemma DeliveryIsDebitedOnce(rates: Pricing.Rates, ledger: seq<Ledger.Entry>, r: Run, usage: Pricing.Usage,
                              metered: bool, now: int)
    ensures
      var row := Ledger.Entry(r.account, Ledger.Usage, 0 - rates.Billable(usage), now, usage.cost, Ledger.ForRun(r.id));
      if !IsDebited(rates, r.account, usage, metered)
      then O.Billed(ledger, rates, r, usage, metered, now) == r
        && O.Debited(ledger, rates, r, usage, metered, now) == ledger
      else
        && O.Debited(ledger, rates, r, usage, metered, now) == Store.Append(ledger, row)
        && (!Store.Recorded(ledger, Ledger.ForRun(r.id)) ==>
              O.Billed(ledger, rates, r, usage, metered, now) == r.(charged := rates.Billable(usage)))
        && (Store.Recorded(ledger, Ledger.ForRun(r.id)) ==>
              var was := Store.Find(ledger, Ledger.ForRun(r.id)).value.tokens;
              O.Billed(ledger, rates, r, usage, metered, now) == r.(charged := if was < 0 then -was else was))
  {
  }

  lemma StreamedFrom(rates: Pricing.Rates, w: O.World, was: Run, stream: Stream, reader: StreamScan.Reader,
                     metered: bool, now: int)
    requires was.state == PlanApproved && w.pending == map[]
    ensures
      var r := was.(state := BackendGeneration);
      var after := Streamed(rates, w, r, stream, reader, metered, now);
      && after.pending == map[] && after.approvals == w.approvals
      && (stream.Refused? || stream.LetGo? ==> after.runs == w.runs[was.id := r] && after.ledger == w.ledger)
      && (stream.Broken? ==> after.runs == w.runs[was.id := r.(state := FailedRun)] && after.ledger == w.ledger)
  {
    PutTwice(w.runs, was.id, was.(state := BackendGeneration), was.(state := FailedRun));
    if stream.Whole? {
      StreamedWhole(rates, w, was, stream, reader, metered, now);
    }
  }

  lemma PutTwice(runs: map<string, Run>, id: string, first: Run, second: Run)
    ensures runs[id := first][id := second] == runs[id := second]
  {
  }

  lemma StreamedWhole(rates: Pricing.Rates, w: O.World, was: Run, stream: Stream, reader: StreamScan.Reader,
                      metered: bool, now: int)
    requires was.state == PlanApproved && w.pending == map[] && stream.Whole?
    ensures
      var found := StreamScan.FedAll(reader, StreamScan.FRESH, stream.chunks).found;
      var delivered := was.(state := ZipReady, artifactId := found.artifact);
      var after := Streamed(rates, w, was.(state := BackendGeneration), stream, reader, metered, now);
      && after.pending == map[] && after.approvals == w.approvals
      && (found.artifact == "" ==>
            after.runs == w.runs[was.id := was.(state := FailedRun)] && after.ledger == w.ledger)
      && (found.artifact != "" ==>
            && after.runs == w.runs[was.id := O.Billed(w.ledger, rates, delivered, found.usage, metered, now)]
            && after.ledger == O.Debited(w.ledger, rates, delivered, found.usage, metered, now))
  {
    var r := was.(state := BackendGeneration);
    var found := StreamScan.FedAll(reader, StreamScan.FRESH, stream.chunks).found;
    PutTwice(w.runs, was.id, r, was.(state := FailedRun));
    var ready := was.(state := ZipReady, artifactId := found.artifact);
    var billed := O.Billed(w.ledger, rates, ready, found.usage, metered, now);
    PutTwice(w.runs, was.id, r, billed);
  }

  /** What a stream that does not come whole leaves of an approved run. */
  ghost predicate EndsUndelivered(w: O.World, after: O.World, was: Run, stream: Stream) {
    && after.pending == map[] && after.approvals == w.approvals
    && (stream.Refused? || stream.LetGo? ==>
          after.runs == w.runs[was.id := was.(state := BackendGeneration)] && after.ledger == w.ledger)
    && (stream.Broken? ==> after.runs == w.runs[was.id := was.(state := FailedRun)] && after.ledger == w.ledger)
  }

  /** What a whole stream leaves of it. */
  ghost predicate EndsAsFound(rates: Pricing.Rates, w: O.World, after: O.World, was: Run, found: StreamScan.Found,
                              metered: bool, now: int) {
    var delivered := was.(state := ZipReady, artifactId := found.artifact);
    && (found.artifact == "" ==>
          after.runs == w.runs[was.id := was.(state := FailedRun)] && after.ledger == w.ledger)
    && (found.artifact != "" ==>
          && after.runs == w.runs[was.id := O.Billed(w.ledger, rates, delivered, found.usage, metered, now)]
          && after.ledger == O.Debited(w.ledger, rates, delivered, found.usage, metered, now))
  }

  lemma GeneratedEnds(rates: Pricing.Rates, w: O.World, id: string, stream: Stream, reader: StreamScan.Reader,
                      metered: bool, now: int, after: O.World)
    requires w.pending == map[] && id in w.runs && w.runs[id].id == id
    requires after == Generated(rates, w, id, stream, reader, metered, now)
    ensures w.runs[id].state != PlanApproved ==> after == w
    ensures w.runs[id].state == PlanApproved ==> EndsUndelivered(w, after, w.runs[id], stream)
    ensures w.runs[id].state == PlanApproved && stream.Whole? ==>
              EndsAsFound(rates, w, after, w.runs[id], StreamScan.FedAll(reader, StreamScan.FRESH, stream.chunks).found,
                          metered, now)
  {
    if w.runs[id].state == PlanApproved {
      StreamedFrom(rates, w, w.runs[id], stream, reader, metered, now);
      if stream.Whole? {
        StreamedWhole(rates, w, w.runs[id], stream, reader, metered, now);
      }
    }
  }

  /**
   Only an approved run is generated. It is left generating when its stream never opens or is let
   go, and failed when it breaks or holds no artifact; a whole stream with one delivers it, and
   debits what it consumed.
   */
  lemma GenerationEndsAsItsStreamDoes(rates: Pricing.Rates, w: O.World, id: string, stream: Stream,
                                      reader: StreamScan.Reader, metered: bool, now: int)
    requires w.pending == map[] && id in w.runs && w.runs[id].id == id
    ensures
      var was, after := w.runs[id], O.After(rates, w, StepsOf(Generates(id, stream, now), reader, metered));
      && (was.state != PlanApproved ==> after == w)
      && (was.state == PlanApproved ==> EndsUndelivered(w, after, was, stream))
      && (was.state == PlanApproved && stream.Whole? ==>
            EndsAsFound(rates, w, after, was, StreamScan.FedAll(reader, StreamScan.FRESH, stream.chunks).found,
                        metered, now))
  {
    GenerateInARow(rates, w, id, stream, reader, metered, now);
    GeneratedEnds(rates, w, id, stream, reader, metered, now,
                  O.After(rates, w, StepsOf(Generates(id, stream, now), reader, metered)));
  }

  // ---------- in every history ----------

  ghost predicate OneAnswerEach(w: O.World) {
    && (forall id :: id in w.runs ==> w.runs[id].id == id && Distinct(w.runs[id].answers))
    && (forall c :: c in w.pending ==> Distinct(w.pending[c].run.answers))
  }

  lemma HeldRunKeepsAnswers(r: Run, d: Document, artifact: string, usage: Pricing.Usage)
    ensures
      && (O.AfterAnalysis(r, d).Some? ==> O.AfterAnalysis(r, d).value.run.answers == r.answers)
      && (O.AfterPlanning(r, d).Some? ==> O.AfterPlanning(r, d).value.answers == r.answers)
      && (O.AfterRevision(r, d).Some? ==> O.AfterRevision(r, d).value.answers == r.answers)
      && (O.AfterStream(r, artifact, usage).Some? ==> O.AfterStream(r, artifact, usage).value.run.answers == r.answers)
  {
  }

  lemma HoldingKeepsOneAnswerEach(w: O.World, after: O.World, call: nat, p: Option<O.Pending>)
    requires OneAnswerEach(w) && after.runs == w.runs && after.pending == O.Waiting(w, call, p).pending
    requires p.Some? ==> Distinct(p.value.run.answers)
    ensures OneAnswerEach(after)
  {
  }

  lemma AnswerKeepsOneAnswerEach(rates: Pricing.Rates, w: O.World, step: O.Step)
    requires OneAnswerEach(w) && (step.Analysed? || step.Planned? || step.Revised?)
    ensures OneAnswerEach(O.Next(rates, w, step))
  {
    if step.call in w.pending {
      var r, after := w.pending[step.call].run, O.Next(rates, w, step);
      HeldRunKeepsAnswers(r, step.answer, "", Pricing.NO_USAGE);
      var p :=
        if step.Analysed? then O.AfterAnalysis(r, step.answer)
        else if step.Planned? then O.ToWrite(O.AfterPlanning(r, step.answer))
        else O.ToWrite(O.AfterRevision(r, step.answer));
      if after != w {
        HoldingKeepsOneAnswerEach(w, after, step.call, p);
      }
    }
  }

  lemma StreamKeepsOneAnswerEach(rates: Pricing.Rates, w: O.World, call: nat, artifact: string, usage: Pricing.Usage)
    requires OneAnswerEach(w)
    ensures OneAnswerEach(O.Next(rates, w, O.Ended(call, artifact, usage)))
    ensures OneAnswerEach(O.Next(rates, w, O.Broke(call)))
  {
    if call in w.pending {
      var r := w.pending[call].run;
      HeldRunKeepsAnswers(r, Document("", "", 0, []), artifact, usage);
      var p := O.AfterStream(r, artifact, usage);
      HoldingKeepsOneAnswerEach(w, O.Waiting(w, call, p), call, p);
      HoldingKeepsOneAnswerEach(w, O.Waiting(w, call, O.ToWrite(r.Moved(Fail))), call, O.ToWrite(r.Moved(Fail)));
    }
  }

  lemma ChargedKeepsOneAnswerEach(rates: Pricing.Rates, w: O.World, step: O.Step)
    requires OneAnswerEach(w) && step.Charged?
    ensures OneAnswerEach(O.Next(rates, w, step))
  {
  }

  lemma StepKeepsOneAnswerEach(rates: Pricing.Rates, w: O.World, step: O.Step)
    requires OneAnswerEach(w)
    ensures OneAnswerEach(O.Next(rates, w, step))
  {
    match step
    case Answers(call, id, given) =>
      if id in w.runs {
        AnsweredOnceEach(w.runs[id], given);
      }
    case Analysed(_, _) => AnswerKeepsOneAnswerEach(rates, w, step);
    case Planned(_, _) => AnswerKeepsOneAnswerEach(rates, w, step);
    case Revised(_, _) => AnswerKeepsOneAnswerEach(rates, w, step);
    case Start(_, _, _, _) =>
    case Charged(_, _, _) => ChargedKeepsOneAnswerEach(rates, w, step);
    case Ended(call, artifact, usage) => StreamKeepsOneAnswerEach(rates, w, call, artifact, usage);
    case Broke(call) => StreamKeepsOneAnswerEach(rates, w, call, "", Pricing.NO_USAGE);
    case _ =>
  }

  /** In every reachable state a stored run has one answer to each question, so no later round can lose one. */
  lemma {:induction false} RunsHaveOneAnswerEach(rates: Pricing.Rates, steps: seq<O.Step>)
    ensures OneAnswerEach(O.After(rates, O.START, steps))
  {
    if steps != [] {
      RunsHaveOneAnswerEach(rates, steps[..|steps| - 1]);
      StepKeepsOneAnswerEach(rates, O.After(rates, O.START, steps[..|steps| - 1]), steps[|steps| - 1]);
    }
  }
}
