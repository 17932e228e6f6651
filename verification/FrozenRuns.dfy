/** When what a stored run has reached is there to stay: its approved plan, or its delivered artifact. */
module FrozenRuns {
  import opened Prelude
  import Pricing
  import opened Runs
  import opened Orchestration

  predicate Final(s: RunState) { PastTheGate(s) || s.FailedRun? }

  /** What a stored run is to keep: past the gate its plan, and once delivered its artifact. */
  datatype Promise = PlanKept(plan: Document) | ArtifactKept(artifact: string)

  predicate Holds(r: Run, kept: Promise) {
    match kept
    case PlanKept(plan) => Final(r.state) && r.plan == Some(plan)
    case ArtifactKept(artifact) => r.state.ZipReady? && r.artifactId == artifact
  }

  /**
   Nothing this command can still write would break the promise. For a plan: it cannot take the
   run back before the gate, or bring another plan. For an artifact: it cannot store the run in
   any other state, or with another artifact.
   */
  predicate Harmless(p: Pending, kept: Promise) {
    if p.Planning? then Target(p.run.state, Propose).None? else Holds(p.run, kept)
  }

  ghost predicate NothingStale(w: World, id: string, kept: Promise) {
    forall c :: c in w.pending && w.pending[c].run.id == id ==> Harmless(w.pending[c], kept)
  }

  predicate Kept(w: World, id: string, kept: Promise) {
    id in w.runs ==> Holds(w.runs[id], kept)
  }

  ghost predicate Restarts(steps: seq<Step>, id: string) {
    exists n :: 0 <= n < |steps| && steps[n].Start? && steps[n].id == id
  }

  lemma StartingIsHarmless(rates: Pricing.Rates, w: World, step: Step, id: string, kept: Promise)
    requires Gated(w) && Kept(w, id, kept) && NothingStale(w, id, kept)
    requires step.Start? && step.id != id
    ensures Kept(Next(rates, w, step), id, kept) && NothingStale(Next(rates, w, step), id, kept)
  {
  }

  lemma AnsweringIsHarmless(rates: Pricing.Rates, w: World, step: Step, id: string, kept: Promise)
    requires Gated(w) && Kept(w, id, kept) && NothingStale(w, id, kept)
    requires step.Answers?
    ensures Kept(Next(rates, w, step), id, kept) && NothingStale(Next(rates, w, step), id, kept)
  {
    if step.call !in w.pending && step.id in w.runs {
      HoldingIsHarmless(w, step.call, Some(Planning(w.runs[step.id].Answering(step.given))), id, kept);
    }
  }

  lemma RejectingIsHarmless(rates: Pricing.Rates, w: World, step: Step, id: string, kept: Promise)
    requires Gated(w) && Kept(w, id, kept) && NothingStale(w, id, kept)
    requires step.Rejects?
    ensures Kept(Next(rates, w, step), id, kept) && NothingStale(Next(rates, w, step), id, kept)
  {
    if step.call !in w.pending && step.id in w.runs && !Blank(step.feedback) && ToRevise(w.runs[step.id]).Some? {
      HoldingIsHarmless(w, step.call, Some(Revising(ToRevise(w.runs[step.id]).value)), id, kept);
    }
  }

  lemma ApprovingIsHarmless(rates: Pricing.Rates, w: World, step: Step, id: string, kept: Promise)
    requires Gated(w) && Kept(w, id, kept) && NothingStale(w, id, kept)
    requires step.Approves?
    ensures Kept(Next(rates, w, step), id, kept) && NothingStale(Next(rates, w, step), id, kept)
  {
    if step.call !in w.pending && step.id in w.runs && w.runs[step.id].Moved(Approve).Some? {
      HoldingIsHarmless(w, step.call, Some(Writing(w.runs[step.id].Moved(Approve).value)), id, kept);
    }
  }

  lemma GeneratingIsHarmless(rates: Pricing.Rates, w: World, step: Step, id: string, kept: Promise)
    requires Gated(w) && Kept(w, id, kept) && NothingStale(w, id, kept)
    requires step.Generates?
    ensures Kept(Next(rates, w, step), id, kept) && NothingStale(Next(rates, w, step), id, kept)
  {
    if step.call !in w.pending && step.id in w.runs && w.runs[step.id].Moved(Generate).Some? {
      HoldingIsHarmless(w, step.call, Some(Opening(w.runs[step.id].Moved(Generate).value)), id, kept);
    }
  }

  lemma HoldingIsHarmless(w: World, call: nat, p: Option<Pending>, id: string, kept: Promise)
    requires NothingStale(w, id, kept)
    requires p.Some? && p.value.run.id == id ==> Harmless(p.value, kept)
    ensures NothingStale(Waiting(w, call, p), id, kept)
  {
  }

  lemma AnalysisIsHarmless(rates: Pricing.Rates, w: World, step: Step, id: string, kept: Promise)
    requires Gated(w) && Kept(w, id, kept) && NothingStale(w, id, kept)
    requires step.Analysed?
    ensures Kept(Next(rates, w, step), id, kept) && NothingStale(Next(rates, w, step), id, kept)
  {
    if step.call in w.pending && w.pending[step.call].Analysing? {
      var p := w.pending[step.call];
      assert Shaped(p);
      HoldingIsHarmless(w, step.call, AfterAnalysis(p.run, step.answer), id, kept);
    }
  }

  lemma TooLateToPlan(r: Run, answer: Document)
    requires Target(r.state, Propose).None?
    ensures AfterPlanning(r, answer).None?
  {
  }

  lemma AnotherRunsPlan(r: Run, answer: Document)
    ensures AfterPlanning(r, answer).Some? ==> AfterPlanning(r, answer).value.id == r.id
  {
  }

  lemma PlanIsHarmless(rates: Pricing.Rates, w: World, step: Step, id: string, kept: Promise)
    requires Gated(w) && Kept(w, id, kept) && NothingStale(w, id, kept)
    requires step.Planned?
    ensures Kept(Next(rates, w, step), id, kept) && NothingStale(Next(rates, w, step), id, kept)
  {
    if step.call in w.pending && w.pending[step.call].Planning? {
      var p := w.pending[step.call];
      assert Shaped(p);
      if p.run.id == id {
        TooLateToPlan(p.run, step.answer);
      } else {
        AnotherRunsPlan(p.run, step.answer);
      }
      HoldingIsHarmless(w, step.call, ToWrite(AfterPlanning(p.run, step.answer)), id, kept);
    }
  }

  lemma RevisionIsHarmless(rates: Pricing.Rates, w: World, step: Step, id: string, kept: Promise)
    requires Gated(w) && Kept(w, id, kept) && NothingStale(w, id, kept)
    requires step.Revised?
    ensures Kept(Next(rates, w, step), id, kept) && NothingStale(Next(rates, w, step), id, kept)
  {
    if step.call in w.pending && w.pending[step.call].Revising? {
      var p := w.pending[step.call];
      assert Shaped(p);
      HoldingIsHarmless(w, step.call, ToWrite(AfterRevision(p.run, step.answer)), id, kept);
    }
  }

  lemma BreakIsHarmless(rates: Pricing.Rates, w: World, step: Step, id: string, kept: Promise)
    requires Gated(w) && Kept(w, id, kept) && NothingStale(w, id, kept)
    requires step.Broke?
    ensures Kept(Next(rates, w, step), id, kept) && NothingStale(Next(rates, w, step), id, kept)
  {
    if step.call in w.pending && w.pending[step.call].Streaming? {
      var p := w.pending[step.call];
      assert Shaped(p);
      HoldingIsHarmless(w, step.call, ToWrite(p.run.Moved(Fail)), id, kept);
    }
  }

  lemma EndedStreamHolds(r: Run, artifact: string, usage: Pricing.Usage, kept: Promise)
    requires r.state.BackendGeneration?
    ensures
      var p := AfterStream(r, artifact, usage);
      p.Some? ==> p.value.run.id == r.id && !p.value.Planning? && (Holds(r, kept) ==> Holds(p.value.run, kept))
  {
  }

  lemma EndIsHarmless(rates: Pricing.Rates, w: World, step: Step, id: string, kept: Promise)
    requires Gated(w) && Kept(w, id, kept) && NothingStale(w, id, kept)
    requires step.Ended?
    ensures Kept(Next(rates, w, step), id, kept) && NothingStale(Next(rates, w, step), id, kept)
  {
    if step.call in w.pending && w.pending[step.call].Streaming? {
      var p := w.pending[step.call];
      assert Shaped(p);
      EndedStreamHolds(p.run, step.artifact, step.usage, kept);
      HoldingIsHarmless(w, step.call, AfterStream(p.run, step.artifact, step.usage), id, kept);
    }
  }

  lemma ChargeIsHarmless(rates: Pricing.Rates, w: World, step: Step, id: string, kept: Promise)
    requires Gated(w) && Kept(w, id, kept) && NothingStale(w, id, kept)
    requires step.Charged?
    ensures Kept(Next(rates, w, step), id, kept) && NothingStale(Next(rates, w, step), id, kept)
  {
    if step.call in w.pending && w.pending[step.call].Charging? {
      var p := w.pending[step.call];
      assert Shaped(p);
      HoldingIsHarmless(w, step.call, Some(Writing(Billed(w.ledger, rates, p.run, p.usage, step.metered, step.now))),
                        id, kept);
    }
  }

  lemma PutIsHarmless(rates: Pricing.Rates, w: World, step: Step, id: string, kept: Promise)
    requires Gated(w) && Kept(w, id, kept) && NothingStale(w, id, kept)
    requires step.Put?
    ensures Kept(Next(rates, w, step), id, kept) && NothingStale(Next(rates, w, step), id, kept)
  {
    if step.call in w.pending && w.pending[step.call].Writing? {
      HoldingIsHarmless(w, step.call, None, id, kept);
    }
  }

  lemma OpeningIsHarmless(rates: Pricing.Rates, w: World, step: Step, id: string, kept: Promise)
    requires Gated(w) && Kept(w, id, kept) && NothingStale(w, id, kept)
    requires step.Opened?
    ensures Kept(Next(rates, w, step), id, kept) && NothingStale(Next(rates, w, step), id, kept)
  {
    if step.call in w.pending && w.pending[step.call].Opening? {
      HoldingIsHarmless(w, step.call, Some(Streaming(w.pending[step.call].run)), id, kept);
    }
  }

  lemma GoingIsHarmless(rates: Pricing.Rates, w: World, step: Step, id: string, kept: Promise)
    requires Kept(w, id, kept) && NothingStale(w, id, kept)
    requires step.Gone?
    ensures Kept(Next(rates, w, step), id, kept) && NothingStale(Next(rates, w, step), id, kept)
  {
    HoldingIsHarmless(w, step.call, None, id, kept);
  }

  lemma ForgettingIsHarmless(rates: Pricing.Rates, w: World, step: Step, id: string, kept: Promise)
    requires Kept(w, id, kept) && NothingStale(w, id, kept)
    requires step.Forgotten? || step.Elsewhere?
    ensures Kept(Next(rates, w, step), id, kept) && NothingStale(Next(rates, w, step), id, kept)
  {
    assert Next(rates, w, step).pending == w.pending;
  }

  lemma StepKeepsThePromise(rates: Pricing.Rates, w: World, step: Step, id: string, kept: Promise)
    requires Gated(w) && Kept(w, id, kept) && NothingStale(w, id, kept)
    requires !(step.Start? && step.id == id)
    ensures Kept(Next(rates, w, step), id, kept) && NothingStale(Next(rates, w, step), id, kept)
  {
    match step
    case Start(_, _, _, _) => StartingIsHarmless(rates, w, step, id, kept);
    case Answers(_, _, _) => AnsweringIsHarmless(rates, w, step, id, kept);
    case Rejects(_, _, _) => RejectingIsHarmless(rates, w, step, id, kept);
    case Approves(_, _) => ApprovingIsHarmless(rates, w, step, id, kept);
    case Generates(_, _) => GeneratingIsHarmless(rates, w, step, id, kept);
    case Analysed(_, _) => AnalysisIsHarmless(rates, w, step, id, kept);
    case Planned(_, _) => PlanIsHarmless(rates, w, step, id, kept);
    case Revised(_, _) => RevisionIsHarmless(rates, w, step, id, kept);
    case Broke(_) => BreakIsHarmless(rates, w, step, id, kept);
    case Ended(_, _, _) => EndIsHarmless(rates, w, step, id, kept);
    case Charged(_, _, _) => ChargeIsHarmless(rates, w, step, id, kept);
    case Put(_) => PutIsHarmless(rates, w, step, id, kept);
    case Opened(_) => OpeningIsHarmless(rates, w, step, id, kept);
    case Gone(_) => GoingIsHarmless(rates, w, step, id, kept);
    case _ => ForgettingIsHarmless(rates, w, step, id, kept);
  }

  /** With nothing stale in flight, no commands but a new start of the run break what it is to keep. */
  lemma {:induction false} PromiseStaysKept(rates: Pricing.Rates, w: World, steps: seq<Step>, id: string, kept: Promise)
    requires Gated(w) && Kept(w, id, kept) && NothingStale(w, id, kept) && !Restarts(steps, id)
    ensures Gated(After(rates, w, steps)) && Kept(After(rates, w, steps), id, kept)
    ensures NothingStale(After(rates, w, steps), id, kept)
  {
    if steps != [] {
      var before, last := steps[..|steps| - 1], steps[|steps| - 1];
      assert !Restarts(before, id) by {
        assert forall n :: 0 <= n < |before| ==> before[n] == steps[n];
      }
      PromiseStaysKept(rates, w, before, id, kept);
      StepKeepsTheGate(rates, After(rates, w, before), last);
      StepKeepsThePromise(rates, After(rates, w, before), last, id, kept);
    }
  }

  /** An answer that is a plan, with nothing left to ask. */
  const SOME_PLAN := Document("", "p", 1, [])
  const SOME_QUESTION := Document("", "", 0, ["q"])

  /** Two steps at most, by which a stale command overwrites the stored run. */
  function Overwriting(call: nat, p: Pending): (Step, Step) {
    match p
    case Analysing(_) => (Analysed(call, SOME_QUESTION), Put(call))
    case Planning(_) => (Planned(call, SOME_PLAN), Put(call))
    case Revising(_) => (Revised(call, SOME_PLAN), Put(call))
    case Opening(_) => (Opened(call), Opened(call))
    case Streaming(_) => (Broke(call), Put(call))
    case Charging(_, _) => (Charged(call, false, 0), Put(call))
    case Writing(_) => (Put(call), Put(call))
  }

  lemma AfterTwo(rates: Pricing.Rates, w: World, a: Step, b: Step)
    ensures After(rates, w, [a, b]) == Next(rates, Next(rates, w, a), b)
  {
    assert [a, b][..1] == [a] && [a][..0] == [];
    assert After(rates, w, [a]) == Next(rates, w, a);
  }

  lemma SampleDocuments()
    ensures IsPlan(SOME_PLAN) && Questions(SOME_PLAN.questions) == []
    ensures Questions(SOME_QUESTION.questions) == ["q"]
  {
    assert Strip("p") == "p" && Strip("q") == "q";
    assert ["q"][1..] == [];
  }

  /** A value on its way to being put, that does not hold the plan, ends up stored. */
  lemma WritingOverwrites(rates: Pricing.Rates, w: World, w': World, call: nat, a: Step, r: Run, kept: Promise)
    requires w' == Next(rates, w, a) && call in w'.pending && w'.pending[call] == Writing(r)
    requires !Holds(r, kept)
    ensures !Kept(After(rates, w, [a, Put(call)]), r.id, kept)
  {
    AfterTwo(rates, w, a, Put(call));
  }

  lemma StaleCommandOverwrites(rates: Pricing.Rates, w: World, call: nat, kept: Promise)
    requires Gated(w) && call in w.pending && !Harmless(w.pending[call], kept)
    ensures
      var (a, b) := Overwriting(call, w.pending[call]);
      !Kept(After(rates, w, [a, b]), w.pending[call].run.id, kept)
  {
    var p := w.pending[call];
    assert Shaped(p);
    if p.Analysing? || p.Planning? || p.Revising? {
      StaleAnswerOverwrites(rates, w, call, kept);
    } else {
      StaleValueOverwrites(rates, w, call, kept);
    }
  }

  lemma StaleAnswerOverwrites(rates: Pricing.Rates, w: World, call: nat, kept: Promise)
    requires call in w.pending && !Harmless(w.pending[call], kept) && Shaped(w.pending[call])
    requires w.pending[call].Analysing? || w.pending[call].Planning? || w.pending[call].Revising?
    ensures
      var (a, b) := Overwriting(call, w.pending[call]);
      !Kept(After(rates, w, [a, b]), w.pending[call].run.id, kept)
  {
    var p, r := w.pending[call], w.pending[call].run;
    SampleDocuments();
    if p.Analysing? {
      var a := Analysed(call, SOME_QUESTION);
      WritingOverwrites(rates, w, Next(rates, w, a), call, a, r.Asked("", ["q"]).value, kept);
    } else if p.Planning? {
      var a := Planned(call, SOME_PLAN);
      WritingOverwrites(rates, w, Next(rates, w, a), call, a, r.Proposed(SOME_PLAN).value, kept);
    } else {
      var a := Revised(call, SOME_PLAN);
      WritingOverwrites(rates, w, Next(rates, w, a), call, a, r.Proposed(SOME_PLAN).value, kept);
    }
  }

  lemma StaleValueOverwrites(rates: Pricing.Rates, w: World, call: nat, kept: Promise)
    requires call in w.pending && !Harmless(w.pending[call], kept) && Shaped(w.pending[call])
    requires !w.pending[call].Analysing? && !w.pending[call].Planning? && !w.pending[call].Revising?
    ensures
      var (a, b) := Overwriting(call, w.pending[call]);
      !Kept(After(rates, w, [a, b]), w.pending[call].run.id, kept)
  {
    var p, r := w.pending[call], w.pending[call].run;
    if p.Opening? {
      AfterTwo(rates, w, Opened(call), Opened(call));
    } else if p.Streaming? {
      WritingOverwrites(rates, w, Next(rates, w, Broke(call)), call, Broke(call), r.Moved(Fail).value, kept);
    } else if p.Charging? {
      WritingOverwrites(rates, w, Next(rates, w, Charged(call, false, 0)), call, Charged(call, false, 0), r, kept);
    } else {
      AfterTwo(rates, w, Put(call), Put(call));
    }
  }

  lemma StaleRunBreaks(rates: Pricing.Rates, w: World, id: string, kept: Promise) returns (steps: seq<Step>)
    requires Gated(w) && !NothingStale(w, id, kept)
    ensures !Restarts(steps, id) && !Kept(After(rates, w, steps), id, kept)
  {
    var c :| c in w.pending && w.pending[c].run.id == id && !Harmless(w.pending[c], kept);
    var (a, b) := Overwriting(c, w.pending[c]);
    StaleCommandOverwrites(rates, w, c, kept);
    steps := [a, b];
  }

  lemma KeptIffNothingIsStale(rates: Pricing.Rates, w: World, id: string, kept: Promise)
    requires Gated(w) && id in w.runs && Holds(w.runs[id], kept)
    ensures (forall steps :: !Restarts(steps, id) ==> Kept(After(rates, w, steps), id, kept))
            <==> NothingStale(w, id, kept)
  {
    if NothingStale(w, id, kept) {
      forall steps | !Restarts(steps, id)
        ensures Kept(After(rates, w, steps), id, kept)
      {
        PromiseStaysKept(rates, w, steps, id, kept);
      }
    } else {
      var steps := StaleRunBreaks(rates, w, id, kept);
    }
  }

  /**
   An approved plan is frozen from here on, and its run stays past the gate or failed, whatever
   commands follow, exactly when no command still in flight holds a value of the run from
   before: one stale answer, landing late, takes an approved run back to review with another plan.
   */
  lemma FrozenIffNothingIsStale(rates: Pricing.Rates, w: World, id: string, plan: Document)
    requires Gated(w) && id in w.runs && PastTheGate(w.runs[id].state) && w.runs[id].plan == Some(plan)
    ensures (forall steps :: !Restarts(steps, id) ==> Kept(After(rates, w, steps), id, PlanKept(plan)))
            <==> NothingStale(w, id, PlanKept(plan))
  {
    KeptIffNothingIsStale(rates, w, id, PlanKept(plan));
  }

  /**
   A delivered run stays delivered, with its artifact, exactly when no other command on it is in
   flight but one that itself holds that delivery, or an answer it was too late for: another
   `generate` in particular may not be, nor an approval that has yet to be stored.
   */
  lemma DeliveryStandsIffNothingIsStale(rates: Pricing.Rates, w: World, id: string, artifact: string)
    requires Gated(w) && id in w.runs && w.runs[id].state.ZipReady? && w.runs[id].artifactId == artifact
    ensures (forall steps :: !Restarts(steps, id) ==> Kept(After(rates, w, steps), id, ArtifactKept(artifact)))
            <==> NothingStale(w, id, ArtifactKept(artifact))
  {
    KeptIffNothingIsStale(rates, w, id, ArtifactKept(artifact));
  }

  // ---------- both are reached ----------

  lemma AfterOneMore(rates: Pricing.Rates, w: World, steps: seq<Step>, step: Step)
    ensures After(rates, w, steps + [step]) == Next(rates, After(rates, w, steps), step)
  {
    assert (steps + [step])[..|steps|] == steps;
  }

  lemma AfterThree(rates: Pricing.Rates, w: World, a: Step, b: Step, c: Step)
    ensures After(rates, w, [a, b, c]) == Next(rates, Next(rates, Next(rates, w, a), b), c)
  {
    AfterTwo(rates, w, a, b);
    AfterOneMore(rates, w, [a, b], c);
    assert [a, b] + [c] == [a, b, c];
  }

  lemma {:induction false} AfterJoins(rates: Pricing.Rates, w: World, first: seq<Step>, rest: seq<Step>)
    ensures After(rates, w, first + rest) == After(rates, After(rates, w, first), rest)
    decreases |rest|
  {
    if rest == [] {
      assert first + rest == first;
    } else {
      AfterJoins(rates, w, first, rest[..|rest| - 1]);
      assert (first + rest)[..|first + rest| - 1] == first + rest[..|rest| - 1];
    }
  }

  /** An idea that is asked nothing about and given a plan at once. */
  function Proposing(id: string, idea: string, account: string): seq<Step> {
    [Start(0, id, idea, account), Analysed(0, SOME_PLAN), Planned(0, SOME_PLAN)] + [Put(0)]
  }

  function InReview(id: string, idea: string, account: string): Run {
    Run(id, Strip(idea), PlanReview, 1, [], Some(SOME_PLAN), "", [], "", account, 0)
  }

  function Only(r: Run, pending: map<nat, Pending>, approvals: set<(string, Document)>, earned: set<string>): World {
    World(map[r.id := r], pending, [], approvals, earned)
  }

  lemma PlanningIsReached(rates: Pricing.Rates, id: string, idea: string, account: string)
    requires Started(id, idea, account).Some?
    ensures
      var analysing := Next(rates, START, Start(0, id, idea, account));
      Next(rates, analysing, Analysed(0, SOME_PLAN)) ==
      World(map[], map[0 := Planning(InReview(id, idea, account).(state := Questionnaire, plan := None))], [], {}, {})
  {
    SampleDocuments();
    var analysing := Next(rates, START, Start(0, id, idea, account));
    assert analysing.pending[0].run == InReview(id, idea, account).(state := PmAnalysis, rounds := 0, plan := None);
  }

  lemma PlanIsHeld(rates: Pricing.Rates, r: Run)
    requires r.state.PlanReview? && r.plan == Some(SOME_PLAN) && r.questions == []
    ensures
      Next(rates, World(map[], map[0 := Planning(r.(state := Questionnaire, plan := None))], [], {}, {}),
           Planned(0, SOME_PLAN)) ==
      World(map[], map[0 := Writing(r)], [], {}, {})
  {
    SampleDocuments();
  }

  lemma FirstPut(rates: Pricing.Rates, r: Run)
    ensures Next(rates, World(map[], map[0 := Writing(r)], [], {}, {}), Put(0)) == Only(r, map[], {}, {})
  {
    assert map[0 := Writing(r)] - {0} == map[];
  }

  lemma ReviewIsReached(rates: Pricing.Rates, id: string, idea: string, account: string)
    requires Started(id, idea, account).Some?
    ensures After(rates, START, Proposing(id, idea, account)) == Only(InReview(id, idea, account), map[], {}, {})
  {
    var asking := [Start(0, id, idea, account), Analysed(0, SOME_PLAN), Planned(0, SOME_PLAN)];
    AfterOneMore(rates, START, asking, Put(0));
    AfterThree(rates, START, asking[0], asking[1], asking[2]);
    PlanningIsReached(rates, id, idea, account);
    PlanIsHeld(rates, InReview(id, idea, account));
    FirstPut(rates, InReview(id, idea, account));
  }

  /**
   A plan that one command rejects and another approves at once: it reads approved, and the
   rejection still in flight will put another in its place.
   */
  lemma StaleRejectionIsReached(rates: Pricing.Rates, id: string, idea: string, account: string, feedback: string)
    requires Started(id, idea, account).Some? && !Blank(feedback)
    ensures
      var w := After(rates, START, Proposing(id, idea, account) + [Rejects(1, id, feedback), Approves(2, id), Put(2)]);
      && id in w.runs && w.runs[id].state.PlanApproved? && w.runs[id].plan == Some(SOME_PLAN)
      && !NothingStale(w, id, PlanKept(SOME_PLAN))
  {
    ReviewIsReached(rates, id, idea, account);
    AfterJoins(rates, START, Proposing(id, idea, account), [Rejects(1, id, feedback), Approves(2, id), Put(2)]);
    RejectedAndApproved(rates, InReview(id, idea, account), feedback);
  }

  lemma RejectedAndApproved(rates: Pricing.Rates, r: Run, feedback: string)
    requires r.state.PlanReview? && r.plan == Some(SOME_PLAN) && !Blank(feedback)
    ensures
      var w := After(rates, Only(r, map[], {}, {}), [Rejects(1, r.id, feedback), Approves(2, r.id), Put(2)]);
      && w.runs == map[r.id := r.(state := PlanApproved)]
      && !NothingStale(w, r.id, PlanKept(SOME_PLAN))
  {
    var rejecting := Revising(r.(state := PmRevision));
    AfterThree(rates, Only(r, map[], {}, {}), Rejects(1, r.id, feedback), Approves(2, r.id), Put(2));
    RejectingIsHeld(rates, r, 1, feedback);
    ApprovingIsHeld(rates, r, map[1 := rejecting], 2);
    PutIsStored(rates, r, map[1 := rejecting], 2, r.(state := PlanApproved), {(r.id, SOME_PLAN)}, {});
    assert map[1 := rejecting][1] == rejecting;
  }

  // One step each, of a world with one run.

  lemma RejectingIsHeld(rates: Pricing.Rates, r: Run, call: nat, feedback: string)
    requires r.state.PlanReview? && !Blank(feedback)
    ensures Next(rates, Only(r, map[], {}, {}), Rejects(call, r.id, feedback)) ==
            Only(r, map[call := Revising(r.(state := PmRevision))], {}, {})
  {
  }

  lemma ApprovingIsHeld(rates: Pricing.Rates, r: Run, others: map<nat, Pending>, call: nat)
    requires r.state.PlanReview? && r.plan == Some(SOME_PLAN) && call !in others
    ensures Next(rates, Only(r, others, {}, {}), Approves(call, r.id)) ==
            Only(r, others[call := Writing(r.(state := PlanApproved))], {(r.id, SOME_PLAN)}, {})
  {
  }

  lemma GeneratingIsHeld(rates: Pricing.Rates, r: Run, others: map<nat, Pending>, call: nat,
                         approvals: set<(string, Document)>)
    requires r.state.PlanApproved? && call !in others
    ensures Next(rates, Only(r, others, approvals, {}), Generates(call, r.id)) ==
            Only(r, others[call := Opening(r.(state := BackendGeneration))], approvals, {})
  {
  }

  lemma OpeningIsStored(rates: Pricing.Rates, r: Run, made: Run, pending: map<nat, Pending>, call: nat,
                        approvals: set<(string, Document)>)
    requires call in pending && pending[call] == Opening(made) && made.id == r.id
    ensures Next(rates, Only(r, pending, approvals, {}), Opened(call)) ==
            Only(made, pending[call := Streaming(made)], approvals, {})
  {
  }

  lemma DeliveryIsHeld(rates: Pricing.Rates, made: Run, pending: map<nat, Pending>, call: nat,
                       approvals: set<(string, Document)>, artifact: string, usage: Pricing.Usage)
    requires call in pending && pending[call] == Streaming(made) && made.state.BackendGeneration? && artifact != ""
    ensures
      Next(rates, Only(made, pending, approvals, {}), Ended(call, artifact, usage)) ==
      Only(made, pending[call := Charging(made.(state := ZipReady, artifactId := artifact), usage)], approvals,
           if usage.IsEmpty() then {} else {made.id})
  {
  }

  lemma UnmeteredIsHeld(rates: Pricing.Rates, r: Run, pending: map<nat, Pending>, call: nat, delivered: Run,
                        usage: Pricing.Usage, approvals: set<(string, Document)>, earned: set<string>)
    requires call in pending && pending[call] == Charging(delivered, usage)
    ensures Next(rates, Only(r, pending, approvals, earned), Charged(call, false, 0)) ==
            Only(r, pending[call := Writing(delivered)], approvals, earned)
  {
  }

  lemma PutIsStored(rates: Pricing.Rates, r: Run, others: map<nat, Pending>, call: nat, value: Run,
                    approvals: set<(string, Document)>, earned: set<string>)
    requires call !in others && value.id == r.id
    ensures Next(rates, Only(r, others[call := Writing(value)], approvals, earned), Put(call)) ==
            Only(value, others, approvals, earned)
  {
    assert others[call := Writing(value)] - {call} == others;
  }

  function Delivering(id: string, artifact: string, usage: Pricing.Usage): seq<Step> {
    [Approves(1, id), Put(1)]
    + ([Generates(2, id), Generates(3, id), Opened(2)] + [Ended(2, artifact, usage), Charged(2, false, 0), Put(2)])
  }

  lemma ApprovedNext(rates: Pricing.Rates, r: Run)
    requires r.state.PlanReview? && r.plan == Some(SOME_PLAN)
    ensures After(rates, Only(r, map[], {}, {}), [Approves(1, r.id), Put(1)]) ==
            Only(r.(state := PlanApproved), map[], {(r.id, SOME_PLAN)}, {})
  {
    AfterTwo(rates, Only(r, map[], {}, {}), Approves(1, r.id), Put(1));
    ApprovingIsHeld(rates, r, map[], 1);
    PutIsStored(rates, r, map[], 1, r.(state := PlanApproved), {(r.id, SOME_PLAN)}, {});
  }

  lemma TwoGenerate(rates: Pricing.Rates, r: Run, approvals: set<(string, Document)>)
    requires r.state.PlanApproved?
    ensures
      var made := r.(state := BackendGeneration);
      After(rates, Only(r, map[], approvals, {}), [Generates(2, r.id), Generates(3, r.id), Opened(2)]) ==
      Only(made, map[3 := Opening(made)][2 := Streaming(made)], approvals, {})
  {
    var made := r.(state := BackendGeneration);
    AfterThree(rates, Only(r, map[], approvals, {}), Generates(2, r.id), Generates(3, r.id), Opened(2));
    GeneratingIsHeld(rates, r, map[], 2, approvals);
    GeneratingIsHeld(rates, r, map[2 := Opening(made)], 3, approvals);
    OpeningIsStored(rates, r, made, map[2 := Opening(made)][3 := Opening(made)], 2, approvals);
    assert map[2 := Opening(made)][3 := Opening(made)][2 := Streaming(made)] ==
           map[3 := Opening(made)][2 := Streaming(made)];
  }

  lemma OneDelivers(rates: Pricing.Rates, made: Run, approvals: set<(string, Document)>, artifact: string,
                    usage: Pricing.Usage)
    requires made.state.BackendGeneration? && artifact != ""
    ensures
      var w := After(rates, Only(made, map[3 := Opening(made)][2 := Streaming(made)], approvals, {}),
                     [Ended(2, artifact, usage), Charged(2, false, 0), Put(2)]);
      && w.runs == map[made.id := made.(state := ZipReady, artifactId := artifact)]
      && w.pending == map[3 := Opening(made)]
  {
    var waiting := map[3 := Opening(made)];
    var before := Only(made, waiting[2 := Streaming(made)], approvals, {});
    var delivered := made.(state := ZipReady, artifactId := artifact);
    AfterThree(rates, before, Ended(2, artifact, usage), Charged(2, false, 0), Put(2));
    DeliveryIsHeld(rates, made, waiting[2 := Streaming(made)], 2, approvals, artifact, usage);
    var earned: set<string> := if usage.IsEmpty() then {} else {made.id};
    assert waiting[2 := Streaming(made)][2 := Charging(delivered, usage)] == waiting[2 := Charging(delivered, usage)];
    UnmeteredIsHeld(rates, made, waiting[2 := Charging(delivered, usage)], 2, delivered, usage, approvals, earned);
    assert waiting[2 := Charging(delivered, usage)][2 := Writing(delivered)] == waiting[2 := Writing(delivered)];
    PutIsStored(rates, made, waiting, 2, delivered, approvals, earned);
  }

  /**
   Two `generate` calls read one approved run. The first delivers; nothing in flight is stale
   for its plan; and the second, storing the run as generating, takes the artifact away.
   */
  lemma SecondGenerateUndoesADelivery(rates: Pricing.Rates, id: string, idea: string, account: string,
                                      artifact: string, usage: Pricing.Usage)
    requires Started(id, idea, account).Some? && artifact != ""
    ensures
      var w := After(rates, START, Proposing(id, idea, account) + Delivering(id, artifact, usage));
      var after := Next(rates, w, Opened(3));
      && id in w.runs && w.runs[id].state.ZipReady? && w.runs[id].artifactId == artifact
      && NothingStale(w, id, PlanKept(SOME_PLAN)) && !NothingStale(w, id, ArtifactKept(artifact))
      && id in after.runs && after.runs[id].state.BackendGeneration? && after.runs[id].artifactId == ""
  {
    var r := InReview(id, idea, account);
    ReviewIsReached(rates, id, idea, account);
    AfterJoins(rates, START, Proposing(id, idea, account), Delivering(id, artifact, usage));
    DeliveredWithOneWaiting(rates, r, artifact, usage);
    var w := After(rates, START, Proposing(id, idea, account) + Delivering(id, artifact, usage));
    assert w.pending[3] == Opening(r.(state := BackendGeneration));
  }

  lemma DeliveredWithOneWaiting(rates: Pricing.Rates, r: Run, artifact: string, usage: Pricing.Usage)
    requires r.state.PlanReview? && r.plan == Some(SOME_PLAN) && artifact != ""
    ensures
      var w := After(rates, Only(r, map[], {}, {}), Delivering(r.id, artifact, usage));
      && w.runs == map[r.id := r.(state := ZipReady, artifactId := artifact)]
      && w.pending == map[3 := Opening(r.(state := BackendGeneration))]
  {
    var approving := [Approves(1, r.id), Put(1)];
    var generating := [Generates(2, r.id), Generates(3, r.id), Opened(2)];
    var ending := [Ended(2, artifact, usage), Charged(2, false, 0), Put(2)];
    AfterJoins(rates, Only(r, map[], {}, {}), approving, generating + ending);
    ApprovedNext(rates, r);
    AfterJoins(rates, After(rates, Only(r, map[], {}, {}), approving), generating, ending);
    TwoGenerate(rates, r.(state := PlanApproved), {(r.id, SOME_PLAN)});
    OneDelivers(rates, r.(state := BackendGeneration), {(r.id, SOME_PLAN)}, artifact, usage);
  }
}
