/** What every history of the orchestrator keeps, however late a write lands. */
module RunHistory {
  import opened Prelude
  import Pricing
  import Ledger
  import opened Runs
  import opened Orchestration

  // ---------- the approval gate ----------

  /** Step `k` was an approve command reading this very plan under review. */
  ghost predicate ApprovedAt(rates: Pricing.Rates, steps: seq<Step>, k: nat, id: string, plan: Document) {
    && k < |steps|
    && steps[k].Approves?
    && var w := After(rates, START, steps[..k]);
    && steps[k].id in w.runs
    && w.runs[steps[k].id].id == id
    && w.runs[steps[k].id].state == PlanReview
    && w.runs[steps[k].id].plan == Some(plan)
  }

  lemma {:induction false} ApprovalsComeFromReview(rates: Pricing.Rates, steps: seq<Step>, id: string, plan: Document)
    requires (id, plan) in After(rates, START, steps).approvals
    ensures exists k: nat :: ApprovedAt(rates, steps, k, id, plan)
  {
    var before, last := steps[..|steps| - 1], steps[|steps| - 1];
    if (id, plan) in After(rates, START, before).approvals {
      ApprovalsComeFromReview(rates, before, id, plan);
      var k: nat :| ApprovedAt(rates, before, k, id, plan);
      assert steps[..k] == before[..k];
      assert ApprovedAt(rates, steps, k, id, plan);
    } else {
      assert ApprovedAt(rates, steps, |steps| - 1, id, plan);
    }
  }

  /**
   Under every interleaving, with stale writes landing late: a run that is ever stored as
   approved, generating or delivered holds a plan that is a plan, and that an approve command
   took from review; and no stored run was ever served more questionnaires than the cap.
   */
  lemma OnlyApprovedPlansAreBuilt(rates: Pricing.Rates, steps: seq<Step>, id: string)
    requires id in After(rates, START, steps).runs
    ensures
      var r := After(rates, START, steps).runs[id];
      && r.rounds <= MAX_ROUNDS
      && (PastTheGate(r.state) ==>
            && r.plan.Some? && IsPlan(r.plan.value)
            && exists k: nat :: ApprovedAt(rates, steps, k, id, r.plan.value))
  {
    TheGateAlwaysHolds(rates, steps);
    var w := After(rates, START, steps);
    assert Proper(w, w.runs[id]);
    if PastTheGate(w.runs[id].state) {
      ApprovalsComeFromReview(rates, steps, id, w.runs[id].plan.value);
    }
  }

  // ---------- one debit per run ----------

  /** Step `k` ended a stream of this run with an artifact and a measured consumption. */
  ghost predicate DeliveredAt(rates: Pricing.Rates, steps: seq<Step>, k: nat, id: string) {
    && k < |steps|
    && steps[k].Ended?
    && steps[k].artifact != ""
    && !steps[k].usage.IsEmpty()
    && var w := After(rates, START, steps[..k]);
    && steps[k].call in w.pending
    && w.pending[steps[k].call].Streaming?
    && w.pending[steps[k].call].run.id == id
  }

  lemma {:induction false} EarningsComeFromDelivery(rates: Pricing.Rates, steps: seq<Step>, id: string)
    requires id in After(rates, START, steps).earned
    ensures exists k: nat :: DeliveredAt(rates, steps, k, id)
  {
    var before := steps[..|steps| - 1];
    if id in After(rates, START, before).earned {
      EarningsComeFromDelivery(rates, before, id);
      var k: nat :| DeliveredAt(rates, before, k, id);
      assert steps[..k] == before[..k];
      assert DeliveredAt(rates, steps, k, id);
    } else {
      assert DeliveredAt(rates, steps, |steps| - 1, id);
    }
  }

  /**
   A run is debited at most once, even when a stale write lets it be approved and generated
   again: its row is one, it is a debit, it follows a delivery that consumed something, and
   whatever non-zero charge the run is stored with is that row's.
   */
  lemma DebitedAtMostOnce(rates: Pricing.Rates, steps: seq<Step>, id: string)
    ensures
      var w := After(rates, START, steps);
      && (forall n, m :: 0 <= n < m < |w.ledger| && w.ledger[n].reference == Ledger.ForRun(id) ==>
                           w.ledger[m].reference != Ledger.ForRun(id))
      && (forall n :: 0 <= n < |w.ledger| && w.ledger[n].reference == Ledger.ForRun(id) ==>
                        && w.ledger[n].kind == Ledger.Usage && w.ledger[n].tokens < 0
                        && exists k: nat :: DeliveredAt(rates, steps, k, id))
      && (id in w.runs && w.runs[id].charged != 0 ==>
            exists n :: 0 <= n < |w.ledger| && w.ledger[n].reference == Ledger.ForRun(id)
                        && w.ledger[n].tokens + w.runs[id].charged == 0)
  {
    TheGateAlwaysHolds(rates, steps);
    var w := After(rates, START, steps);
    assert Gated(w);
    forall n | 0 <= n < |w.ledger| && w.ledger[n].reference == Ledger.ForRun(id)
      ensures exists k: nat :: DeliveredAt(rates, steps, k, id)
    {
      EarningsComeFromDelivery(rates, steps, id);
    }
    if id in w.runs {
      assert Proper(w, w.runs[id]);
    }
  }
}
