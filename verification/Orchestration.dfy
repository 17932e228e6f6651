/**
 The orchestrator's commands, cut wherever they wait: each reads a run, asks an agent, and
 writes a run value it computed from what it read. Any number of them overlap, so a write may
 land long after the value it was computed from has been replaced.
 */
module Orchestration {
  import opened Prelude
  import Pricing
  import Ledger
  import Store
  import Billing
  import opened Runs

  /** Where a command waits, with the run value it holds. */
  datatype Pending =
    | Analysing(run: Run)                    // start: the agent was asked what it understood
    | Planning(run: Run)                     // start or answer: the agent was asked for a plan
    | Revising(run: Run)                     // reject: the agent was asked for another plan
    | Opening(run: Run)                      // generate: about to store the run as generating
    | Streaming(run: Run)                    // generate: the agent's stream is going past
    | Charging(run: Run, usage: Pricing.Usage)
    | Writing(run: Run)                      // about to put this value and be done

  /** `approvals` are the plans an approve command took; `earned` the runs whose delivery consumed something. */
  datatype World = World(
    runs: map<string, Run>, pending: map<nat, Pending>, ledger: seq<Ledger.Entry>,
    approvals: set<(string, Document)>, earned: set<string>)

  const START := World(map[], map[], [], {}, {})

  datatype Step =
    | Start(call: nat, id: string, idea: string, account: string)
    | Analysed(call: nat, answer: Document)
    | Answers(call: nat, id: string, given: seq<Answer>)
    | Planned(call: nat, answer: Document)
    | Rejects(call: nat, id: string, feedback: string)
    | Revised(call: nat, answer: Document)
    | Approves(call: nat, id: string)
    | Generates(call: nat, id: string)
    | Opened(call: nat)
    | Broke(call: nat)
    | Ended(call: nat, artifact: string, usage: Pricing.Usage)
    | Charged(call: nat, metered: bool, now: int)
    | Put(call: nat)
    | Gone(call: nat)                        // the command raised, or was cancelled
    | Forgotten(id: string)                  // the store evicted or expired the run
    | Elsewhere(row: Ledger.Entry)           // another part of the gateway wrote the ledger

  // ---------- the pieces of a command ----------

  /** After `analyze`: a questionnaire to store, or an empty one and on to planning. */
  function AfterAnalysis(r: Run, answer: Document): Option<Pending> {
    var asked := Questions(answer.questions);
    match r.Asked(answer.summary, asked)
    case None => None
    case Some(next) => Some(if asked != [] then Writing(next) else Planning(next))
  }

  /** After `plan`: another questionnaire if rounds remain, or a plan; anything else raises. */
  function AfterPlanning(r: Run, answer: Document): Option<Run> {
    var asked := Questions(answer.questions);
    if asked != [] then
      if r.RoundsLeft() <= 0 then None else r.Asked(r.summary, asked)
    else if !IsPlan(answer) then None
    else r.Proposed(answer)
  }

  function AfterRevision(r: Run, answer: Document): Option<Run> {
    if IsPlan(answer) then r.Proposed(answer) else None
  }

  function ToRevise(r: Run): Option<Run> {
    match r.Moved(Reject)
    case None => None
    case Some(rejected) => rejected.Moved(Revise)
  }

  /** The stream ended: no artifact fails the run, and an artifact delivers it. */
  function AfterStream(r: Run, artifact: string, usage: Pricing.Usage): Option<Pending> {
    if artifact == "" then
      match r.Moved(Fail)
      case None => None
      case Some(failed) => Some(Writing(failed))
    else
      match r.Delivered(artifact)
      case None => None
      case Some(delivered) => Some(Charging(delivered, usage))
  }

  function DebitOf(rates: Pricing.Rates, r: Run, usage: Pricing.Usage, now: int): Ledger.Entry {
    Billing.DebitRow(r.account, r.id, rates.Billable(usage), usage.cost, now)
  }

  predicate Chargeable(rates: Pricing.Rates, r: Run, usage: Pricing.Usage, metered: bool) {
    metered && r.account != "" && !usage.IsEmpty() && rates.Billable(usage) > 0
  }

  /** What was debited is what the row that persisted says, which may be an earlier one. */
  function Billed(ledger: seq<Ledger.Entry>, rates: Pricing.Rates, r: Run, usage: Pricing.Usage, metered: bool,
                  now: int): Run {
    if !Chargeable(rates, r, usage, metered) then r
    else
      var row := Store.Persisted(ledger, DebitOf(rates, r, usage, now));
      r.(charged := if row.tokens < 0 then -row.tokens else row.tokens)
  }

  function Debited(ledger: seq<Ledger.Entry>, rates: Pricing.Rates, r: Run, usage: Pricing.Usage,
                   metered: bool, now: int): seq<Ledger.Entry> {
    if Chargeable(rates, r, usage, metered) then Store.Append(ledger, DebitOf(rates, r, usage, now)) else ledger
  }

  // ---------- steps ----------

  function Waiting(w: World, call: nat, p: Option<Pending>): World {
    match p
    case None => w.(pending := w.pending - {call})
    case Some(next) => w.(pending := w.pending[call := next])
  }

  function ToWrite(r: Option<Run>): Option<Pending> {
    match r
    case None => None
    case Some(run) => Some(Writing(run))
  }

  function Next(rates: Pricing.Rates, w: World, step: Step): World {
    match step
    case Start(call, id, idea, account) =>
      if call in w.pending then w
      else
        (match Started(id, idea, account)
         case None => w
         case Some(r) =>
           match r.Moved(Describe)
           case None => w
           case Some(described) => w.(pending := w.pending[call := Analysing(described)]))
    case Analysed(call, answer) =>
      if call in w.pending && w.pending[call].Analysing?
      then Waiting(w, call, AfterAnalysis(w.pending[call].run, answer))
      else w
    case Answers(call, id, given) =>
      if call !in w.pending && id in w.runs then w.(pending := w.pending[call := Planning(w.runs[id].Answering(given))])
      else w
    case Planned(call, answer) =>
      if call in w.pending && w.pending[call].Planning?
      then Waiting(w, call, ToWrite(AfterPlanning(w.pending[call].run, answer))) else w
    case Rejects(call, id, feedback) =>
      if call in w.pending || id !in w.runs || Blank(feedback) || ToRevise(w.runs[id]).None? then w
      else w.(pending := w.pending[call := Revising(ToRevise(w.runs[id]).value)])
    case Revised(call, answer) =>
      if call in w.pending && w.pending[call].Revising?
      then Waiting(w, call, ToWrite(AfterRevision(w.pending[call].run, answer))) else w
    case Approves(call, id) =>
      if call in w.pending || id !in w.runs || w.runs[id].Moved(Approve).None? then w
      else
        w.(pending := w.pending[call := Writing(w.runs[id].Moved(Approve).value)],
           approvals := if w.runs[id].plan.Some? then w.approvals + {(w.runs[id].id, w.runs[id].plan.value)}
                        else w.approvals)
    case Generates(call, id) =>
      if call in w.pending || id !in w.runs || w.runs[id].Moved(Generate).None? then w
      else w.(pending := w.pending[call := Opening(w.runs[id].Moved(Generate).value)])
    case Opened(call) =>
      if call in w.pending && w.pending[call].Opening? then
        var r := w.pending[call].run;
        w.(runs := w.runs[r.id := r], pending := w.pending[call := Streaming(r)])
      else w
    case Broke(call) =>
      if call in w.pending && w.pending[call].Streaming? then Waiting(w, call, ToWrite(w.pending[call].run.Moved(Fail)))
      else w
    case Ended(call, artifact, usage) =>
      if call in w.pending && w.pending[call].Streaming? then
        var p := AfterStream(w.pending[call].run, artifact, usage);
        Waiting(w, call, p).(
          earned := if p.Some? && p.value.Charging? && !usage.IsEmpty() then w.earned + {p.value.run.id} else w.earned)
      else w
    case Charged(call, metered, now) =>
      if call in w.pending && w.pending[call].Charging? then
        var r, usage := w.pending[call].run, w.pending[call].usage;
        w.(pending := w.pending[call := Writing(Billed(w.ledger, rates, r, usage, metered, now))],
           ledger := Debited(w.ledger, rates, r, usage, metered, now))
      else w
    case Put(call) =>
      if call in w.pending && w.pending[call].Writing? then
        var r := w.pending[call].run;
        w.(runs := w.runs[r.id := r], pending := w.pending - {call})
      else w
    case Gone(call) => w.(pending := w.pending - {call})
    case Forgotten(id) => w.(runs := w.runs - {id})
    case Elsewhere(row) => if row.reference.ForRun? then w else w.(ledger := Store.Append(w.ledger, row))
  }

  function After(rates: Pricing.Rates, w: World, steps: seq<Step>): World {
    if steps == [] then w else Next(rates, After(rates, w, steps[..|steps| - 1]), steps[|steps| - 1])
  }

  // ---------- the gate ----------

  predicate PastTheGate(s: RunState) { s.PlanApproved? || s.BackendGeneration? || s.ZipReady? }

  predicate HasPlan(s: RunState) { PastTheGate(s) || s.PlanReview? || s.PlanRejected? || s.PmRevision? }

  /** A run value that may be held or stored: its plan is a plan, and past the gate it was approved. */
  ghost predicate Proper(w: World, r: Run) {
    && r.rounds <= MAX_ROUNDS
    && (r.plan.Some? ==> IsPlan(r.plan.value))
    && (HasPlan(r.state) ==> r.plan.Some?)
    && (PastTheGate(r.state) ==> (r.id, r.plan.value) in w.approvals)
    && (r.charged != 0 ==>
          exists n :: 0 <= n < |w.ledger| && w.ledger[n].reference == Ledger.ForRun(r.id)
                      && w.ledger[n].tokens + r.charged == 0)
  }

  /** Which states a run can be in where its command waits. */
  predicate Shaped(p: Pending) {
    match p
    case Analysing(r) => r.state.PmAnalysis? && r.rounds == 0
    case Revising(r) => r.state.PmRevision?
    case Opening(r) => r.state.BackendGeneration?
    case Streaming(r) => r.state.BackendGeneration?
    case Charging(r, _) => r.state.ZipReady?
    case _ => true
  }

  ghost predicate Gated(w: World) {
    && (forall id :: id in w.runs ==> w.runs[id].id == id && Proper(w, w.runs[id]))
    && (forall c :: c in w.pending ==>
                      && Proper(w, w.pending[c].run)
                      && Shaped(w.pending[c])
                      && (w.pending[c].Charging? && !w.pending[c].usage.IsEmpty() ==> w.pending[c].run.id in w.earned))
    && Store.Unique(w.ledger)
    && (forall n :: 0 <= n < |w.ledger| && w.ledger[n].reference.ForRun? ==>
                      && w.ledger[n].kind == Ledger.Usage
                      && w.ledger[n].tokens < 0
                      && w.ledger[n].reference.id in w.earned)
  }

  /** A world that only learned more keeps every proper run proper. */
  lemma ProperGrows(w: World, after: World, r: Run)
    requires Proper(w, r) && w.approvals <= after.approvals && w.ledger <= after.ledger
    ensures Proper(after, r)
  {
    if r.charged != 0 {
      var n :| 0 <= n < |w.ledger| && w.ledger[n].reference == Ledger.ForRun(r.id)
               && w.ledger[n].tokens + r.charged == 0;
      assert after.ledger[n] == w.ledger[n];
    }
  }

  /** One command's held value changes, or goes; nothing else does. */
  lemma HoldingKeepsTheGate(w: World, call: nat, p: Option<Pending>)
    requires Gated(w)
    requires p.Some? ==> Proper(w, p.value.run) && Shaped(p.value)
    requires p.Some? && p.value.Charging? && !p.value.usage.IsEmpty() ==> p.value.run.id in w.earned
    ensures Gated(Waiting(w, call, p))
  {
    var after := Waiting(w, call, p);
    forall r | Proper(w, r)
      ensures Proper(after, r)
    {
      ProperGrows(w, after, r);
    }
  }

  lemma AnalysisIsProper(w: World, r: Run, answer: Document)
    requires Proper(w, r) && r.rounds == 0
    ensures var p := AfterAnalysis(r, answer);
            p.Some? ==> Proper(w, p.value.run) && (p.value.Writing? || p.value.Planning?)
  {
  }

  lemma PlanningIsProper(w: World, r: Run, answer: Document)
    requires Proper(w, r)
    ensures AfterPlanning(r, answer).Some? ==> Proper(w, AfterPlanning(r, answer).value)
  {
  }

  lemma RevisionIsProper(w: World, r: Run, answer: Document)
    requires Proper(w, r)
    ensures AfterRevision(r, answer).Some? ==> Proper(w, AfterRevision(r, answer).value)
  {
  }

  lemma StreamEndIsProper(w: World, r: Run, artifact: string, usage: Pricing.Usage)
    requires Proper(w, r)
    ensures
      var p := AfterStream(r, artifact, usage);
      p.Some? ==>
        && Proper(w, p.value.run) && Shaped(p.value)
        && (p.value.Writing? || (p.value.Charging? && p.value.usage == usage))
  {
  }

  lemma StoringKeepsTheGate(w: World, call: nat, p: Option<Pending>)
    requires Gated(w) && call in w.pending
    requires p.Some? ==> p.value == Streaming(w.pending[call].run) && Shaped(p.value)
    ensures
      var r := w.pending[call].run;
      Gated(Waiting(w.(runs := w.runs[r.id := r]), call, p))
  {
    var r := w.pending[call].run;
    PuttingKeepsTheGate(w, r);
    HoldingKeepsTheGate(w.(runs := w.runs[r.id := r]), call, p);
  }

  lemma PuttingKeepsTheGate(w: World, r: Run)
    requires Gated(w) && Proper(w, r)
    ensures Gated(w.(runs := w.runs[r.id := r])) && Proper(w.(runs := w.runs[r.id := r]), r)
  {
    var after := w.(runs := w.runs[r.id := r]);
    forall x | Proper(w, x)
      ensures Proper(after, x)
    {
      ProperGrows(w, after, x);
    }
  }

  lemma ChargingKeepsTheGate(rates: Pricing.Rates, w: World, call: nat, metered: bool, now: int)
    requires Gated(w) && call in w.pending && w.pending[call].Charging?
    ensures Gated(Next(rates, w, Charged(call, metered, now)))
  {
    var r, usage := w.pending[call].run, w.pending[call].usage;
    var debited := w.(ledger := Debited(w.ledger, rates, r, usage, metered, now));
    DebitingKeepsTheGate(rates, w, r, usage, metered, now);
    BilledIsProper(rates, w, r, usage, metered, now);
    HoldingKeepsTheGate(debited, call, Some(Writing(Billed(w.ledger, rates, r, usage, metered, now))));
  }

  lemma DebitingKeepsTheGate(rates: Pricing.Rates, w: World, r: Run, usage: Pricing.Usage, metered: bool, now: int)
    requires Gated(w) && (!usage.IsEmpty() ==> r.id in w.earned)
    ensures Gated(w.(ledger := Debited(w.ledger, rates, r, usage, metered, now)))
  {
    var after := w.(ledger := Debited(w.ledger, rates, r, usage, metered, now));
    Store.AppendKeepsUnique(w.ledger, DebitOf(rates, r, usage, now));
    forall x | Proper(w, x)
      ensures Proper(after, x)
    {
      ProperGrows(w, after, x);
    }
  }

  /** A run billed holds the charge of the row that persisted. */
  lemma BilledIsProper(rates: Pricing.Rates, w: World, r: Run, usage: Pricing.Usage, metered: bool, now: int)
    requires Gated(w) && Proper(w, r)
    ensures Proper(w.(ledger := Debited(w.ledger, rates, r, usage, metered, now)),
                   Billed(w.ledger, rates, r, usage, metered, now))
  {
    if Chargeable(rates, r, usage, metered) {
      var row := DebitOf(rates, r, usage, now);
      var ledger := Store.Append(w.ledger, row);
      Store.AppendIsIdempotent(w.ledger, row, row);
      var kept := Store.Persisted(w.ledger, row);
      var n :| 0 <= n < |ledger| && ledger[n] == kept;
      assert kept.reference == Ledger.ForRun(r.id) && kept.tokens < 0;
    }
  }

  lemma StartingKeepsTheGate(rates: Pricing.Rates, w: World, call: nat, id: string, idea: string, account: string)
    requires Gated(w)
    ensures Gated(Next(rates, w, Start(call, id, idea, account)))
  {
    var started := Started(id, idea, account);
    if call !in w.pending && started.Some? {
      HoldingKeepsTheGate(w, call, Some(Analysing(started.value.Moved(Describe).value)));
    }
  }

  lemma GivingAnswersKeepsTheGate(rates: Pricing.Rates, w: World, call: nat, id: string, given: seq<Answer>)
    requires Gated(w)
    ensures Gated(Next(rates, w, Answers(call, id, given)))
  {
    if call !in w.pending && id in w.runs {
      assert Proper(w, w.runs[id]);
      HoldingKeepsTheGate(w, call, Some(Planning(w.runs[id].Answering(given))));
    }
  }

  lemma RejectingKeepsTheGate(rates: Pricing.Rates, w: World, call: nat, id: string, feedback: string)
    requires Gated(w)
    ensures Gated(Next(rates, w, Rejects(call, id, feedback)))
  {
    if call !in w.pending && id in w.runs && !Blank(feedback) && ToRevise(w.runs[id]).Some? {
      assert Proper(w, w.runs[id]);
      HoldingKeepsTheGate(w, call, Some(Revising(ToRevise(w.runs[id]).value)));
    }
  }

  lemma GeneratingKeepsTheGate(rates: Pricing.Rates, w: World, call: nat, id: string)
    requires Gated(w)
    ensures Gated(Next(rates, w, Generates(call, id)))
  {
    if call !in w.pending && id in w.runs && w.runs[id].Moved(Generate).Some? {
      assert Proper(w, w.runs[id]);
      HoldingKeepsTheGate(w, call, Some(Opening(w.runs[id].Moved(Generate).value)));
    }
  }

  lemma ApprovalIsProper(w: World, was: Run)
    requires Proper(w, was) && was.Moved(Approve).Some?
    ensures was.plan.Some? && Shaped(Writing(was.Moved(Approve).value))
    ensures Proper(w.(approvals := w.approvals + {(was.id, was.plan.value)}), was.Moved(Approve).value)
  {
    ProperGrows(w, w.(approvals := w.approvals + {(was.id, was.plan.value)}), was);
  }

  lemma ApprovingKeepsTheGate(rates: Pricing.Rates, w: World, call: nat, id: string)
    requires Gated(w)
    ensures Gated(Next(rates, w, Approves(call, id)))
  {
    if call !in w.pending && id in w.runs && w.runs[id].Moved(Approve).Some? {
      var was := w.runs[id];
      ApprovalIsProper(w, was);
      var allowed := w.(approvals := w.approvals + {(was.id, was.plan.value)});
      AllowingKeepsTheGate(w, allowed.approvals);
      HoldingKeepsTheGate(allowed, call, Some(Writing(was.Moved(Approve).value)));
    }
  }

  lemma AllowingKeepsTheGate(w: World, approvals: set<(string, Document)>)
    requires Gated(w) && w.approvals <= approvals
    ensures Gated(w.(approvals := approvals))
    ensures forall r :: Proper(w, r) ==> Proper(w.(approvals := approvals), r)
  {
    forall r | Proper(w, r)
      ensures Proper(w.(approvals := approvals), r)
    {
      ProperGrows(w, w.(approvals := approvals), r);
    }
  }

  lemma AnsweringKeepsTheGate(rates: Pricing.Rates, w: World, step: Step)
    requires Gated(w)
    requires step.Analysed? || step.Planned? || step.Revised? || step.Broke?
    ensures Gated(Next(rates, w, step))
  {
    if step.call in w.pending {
      var r := w.pending[step.call].run;
      assert Proper(w, r);
      if step.Analysed? && w.pending[step.call].Analysing? {
        AnalysisIsProper(w, r, step.answer);
        HoldingKeepsTheGate(w, step.call, AfterAnalysis(r, step.answer));
      } else if step.Planned? && w.pending[step.call].Planning? {
        PlanningIsProper(w, r, step.answer);
        HoldingKeepsTheGate(w, step.call, ToWrite(AfterPlanning(r, step.answer)));
      } else if step.Revised? && w.pending[step.call].Revising? {
        RevisionIsProper(w, r, step.answer);
        HoldingKeepsTheGate(w, step.call, ToWrite(AfterRevision(r, step.answer)));
      } else if step.Broke? && w.pending[step.call].Streaming? {
        HoldingKeepsTheGate(w, step.call, ToWrite(r.Moved(Fail)));
      }
    }
  }

  lemma EarningKeepsTheGate(w: World, earned: set<string>)
    requires Gated(w) && w.earned <= earned
    ensures Gated(w.(earned := earned))
  {
    forall x | Proper(w, x)
      ensures Proper(w.(earned := earned), x)
    {
      ProperGrows(w, w.(earned := earned), x);
    }
  }

  lemma EndingKeepsTheGate(rates: Pricing.Rates, w: World, call: nat, artifact: string, usage: Pricing.Usage)
    requires Gated(w)
    ensures Gated(Next(rates, w, Ended(call, artifact, usage)))
  {
    if call in w.pending && w.pending[call].Streaming? {
      var r := w.pending[call].run;
      var earned := Next(rates, w, Ended(call, artifact, usage)).earned;
      EarningKeepsTheGate(w, earned);
      var w' := w.(earned := earned);
      assert Proper(w', r);
      StreamEndIsProper(w', r, artifact, usage);
      HoldingKeepsTheGate(w', call, AfterStream(r, artifact, usage));
    }
  }

  lemma OpeningKeepsTheGate(rates: Pricing.Rates, w: World, call: nat)
    requires Gated(w)
    ensures Gated(Next(rates, w, Opened(call)))
  {
    if call in w.pending && w.pending[call].Opening? {
      StoringKeepsTheGate(w, call, Some(Streaming(w.pending[call].run)));
    }
  }

  lemma WritingKeepsTheGate(rates: Pricing.Rates, w: World, call: nat)
    requires Gated(w)
    ensures Gated(Next(rates, w, Put(call)))
  {
    if call in w.pending && w.pending[call].Writing? {
      StoringKeepsTheGate(w, call, None);
    }
  }

  lemma ChargedKeepsTheGate(rates: Pricing.Rates, w: World, call: nat, metered: bool, now: int)
    requires Gated(w)
    ensures Gated(Next(rates, w, Charged(call, metered, now)))
  {
    if call in w.pending && w.pending[call].Charging? {
      ChargingKeepsTheGate(rates, w, call, metered, now);
    }
  }

  lemma ElsewhereKeepsTheGate(rates: Pricing.Rates, w: World, row: Ledger.Entry)
    requires Gated(w)
    ensures Gated(Next(rates, w, Elsewhere(row)))
  {
    if !row.reference.ForRun? {
      OtherRowsKeepTheGate(w, row);
    }
  }

  lemma StepKeepsTheGate(rates: Pricing.Rates, w: World, step: Step)
    requires Gated(w)
    ensures Gated(Next(rates, w, step))
  {
    match step
    case Approves(call, id) => ApprovingKeepsTheGate(rates, w, call, id);
    case Opened(call) => OpeningKeepsTheGate(rates, w, call);
    case Put(call) => WritingKeepsTheGate(rates, w, call);
    case Ended(call, artifact, usage) => EndingKeepsTheGate(rates, w, call, artifact, usage);
    case Charged(call, metered, now) => ChargedKeepsTheGate(rates, w, call, metered, now);
    case Gone(call) => HoldingKeepsTheGate(w, call, None);
    case Forgotten(id) => ForgettingKeepsTheGate(w, id);
    case Elsewhere(row) => ElsewhereKeepsTheGate(rates, w, row);
    case Analysed(_, _) => AnsweringKeepsTheGate(rates, w, step);
    case Planned(_, _) => AnsweringKeepsTheGate(rates, w, step);
    case Revised(_, _) => AnsweringKeepsTheGate(rates, w, step);
    case Broke(_) => AnsweringKeepsTheGate(rates, w, step);
    case Start(call, id, idea, account) => StartingKeepsTheGate(rates, w, call, id, idea, account);
    case Answers(call, id, given) => GivingAnswersKeepsTheGate(rates, w, call, id, given);
    case Rejects(call, id, feedback) => RejectingKeepsTheGate(rates, w, call, id, feedback);
    case Generates(call, id) => GeneratingKeepsTheGate(rates, w, call, id);
  }

  lemma ForgettingKeepsTheGate(w: World, id: string)
    requires Gated(w)
    ensures Gated(w.(runs := w.runs - {id}))
  {
    forall x | Proper(w, x)
      ensures Proper(w.(runs := w.runs - {id}), x)
    {
      ProperGrows(w, w.(runs := w.runs - {id}), x);
    }
  }

  lemma OtherRowsKeepTheGate(w: World, row: Ledger.Entry)
    requires Gated(w) && !row.reference.ForRun?
    ensures Gated(w.(ledger := Store.Append(w.ledger, row)))
  {
    var after := w.(ledger := Store.Append(w.ledger, row));
    Store.AppendKeepsUnique(w.ledger, row);
    forall x | Proper(w, x)
      ensures Proper(after, x)
    {
      ProperGrows(w, after, x);
    }
  }

  lemma {:induction false} TheGateAlwaysHolds(rates: Pricing.Rates, steps: seq<Step>)
    ensures Gated(After(rates, START, steps))
  {
    if steps != [] {
      TheGateAlwaysHolds(rates, steps[..|steps| - 1]);
      StepKeepsTheGate(rates, After(rates, START, steps[..|steps| - 1]), steps[|steps| - 1]);
    }
  }
}
