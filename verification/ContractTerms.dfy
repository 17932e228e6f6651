/**
 Who may do what to the subscriptions contract, and when each call succeeds, told in what it is
 given and what is stored. Nobody's tokens or period move without their signature.
 */
module ContractTerms {
  import opened Prelude
  import opened SubscriptionsContract
  import opened ContractHistory

  // ---------- each call ----------

  lemma InitialisedOnlyOnce(s: State, admin: Address, token: Address)
    ensures
      Initialised(s, admin, token) ==
      if s.admin == None then Ok(State(Some(admin), Some(token), [], s.plans, s.subs, s.balances))
      else Err(AlreadyInitialised)
  {
  }

  /** A plan is set exactly by the administrator's signature, with a positive price and period. */
  lemma PlansAreSetByTheAdmin(s: State, signers: set<Address>, id: Symbol, plan: Plan, other: Symbol)
    ensures
      var r := PlanSet(s, signers, id, plan);
      && (r.Ok? <==> s.admin != None && s.admin.value in signers && plan.price > 0 && plan.period > 0)
      && (r.Ok? ==>
            && id in r.value.plans && r.value.plans[id] == plan && id in r.value.ids
            && (other != id ==> (other in r.value.plans <==> other in s.plans))
            && (other != id ==> (other in r.value.ids <==> other in s.ids))
            && (other != id && other in s.plans ==> r.value.plans[other] == s.plans[other])
            && s.ids <= r.value.ids
            && r.value.admin == s.admin && r.value.token == s.token && r.value.subs == s.subs
            && r.value.balances == s.balances)
  {
  }

  /**
   A subscribe succeeds exactly when the subscriber signed, the plan is on sale, they hold its
   price and nothing overflows. It moves the price to the contract and one period to them: at the
   end of a stretch of the same plan that still runs, or else from now.
   */
  lemma SubscribersPayForThemselves(s: State, self: Address, signers: set<Address>, who: Address, id: Symbol, now: u64)
    ensures
      var r := Subscribed(s, self, signers, who, id, now);
      var was := if who in s.subs then s.subs[who].periods as int else 0;
      var running := who in s.subs && s.subs[who].plan == id && now < s.subs[who].expires;
      var begins := if running then s.subs[who].started else now;
      var runsFrom := if running then s.subs[who].expires else now;
      && (r.Ok? <==>
            && who in signers && id in s.plans && s.plans[id].active && s.token != None
            && 0 <= s.plans[id].price <= Held(s.balances, who)
            && runsFrom + s.plans[id].period <= 18_446_744_073_709_551_615 && was + 1 <= 4_294_967_295)
      && (r.Ok? ==>
            && r.value.subs == s.subs[who := Standing(id, begins, runsFrom + s.plans[id].period, was + 1)]
            && r.value.admin == s.admin && r.value.token == s.token && r.value.ids == s.ids && r.value.plans == s.plans
            && (who != self ==>
                  && Held(r.value.balances, who) == Held(s.balances, who) - s.plans[id].price
                  && Held(r.value.balances, self) == Held(s.balances, self) + s.plans[id].price)
            && (forall x :: x != who && x != self ==> Held(r.value.balances, x) == Held(s.balances, x)))
  {
  }

  /** A withdrawal succeeds exactly by the administrator's signature, for a positive amount the contract holds. */
  lemma TheAdminWithdraws(s: State, self: Address, signers: set<Address>, to: Address, amount: int)
    ensures
      var r := Withdrawn(s, self, signers, to, amount);
      && (r.Ok? <==>
            && s.admin != None && s.admin.value in signers && s.token != None
            && 0 < amount <= Held(s.balances, self))
      && (r.Ok? ==>
            && r.value.subs == s.subs && r.value.admin == s.admin && r.value.token == s.token
            && r.value.ids == s.ids && r.value.plans == s.plans
            && (to != self ==>
                  && Held(r.value.balances, self) == Held(s.balances, self) - amount
                  && Held(r.value.balances, to) == Held(s.balances, to) + amount)
            && (forall x :: x != to && x != self ==> Held(r.value.balances, x) == Held(s.balances, x)))
  {
  }

  /** The contract is handed on exactly when both administrators signed. */
  lemma BothAdminsSign(s: State, signers: set<Address>, next: Address)
    ensures
      var r := AdminSet(s, signers, next);
      && (r.Ok? <==> s.admin != None && s.admin.value in signers && next in signers)
      && (r.Ok? ==> r.value == State(Some(next), s.token, s.ids, s.plans, s.subs, s.balances))
  {
  }

  lemma ActiveUntilItExpires(s: State, who: Address, now: nat)
    ensures Active(s, who, now) <==> who in s.subs && now < s.subs[who].expires
  {
  }

  // ---------- over every history ----------

  function SignersOf(step: Step): set<Address> {
    match step
    case Invoke(signers, _) => signers
    case Tick(_) => {}
  }

  /** What stands to an account's name: its balance has not fallen, and its period is as it was. */
  ghost predicate Untouched(s: State, after: State, x: Address) {
    && Held(after.balances, x) >= Held(s.balances, x)
    && (x in after.subs <==> x in s.subs)
    && (x in s.subs ==> after.subs[x] == s.subs[x])
  }

  /** One step neither spends nor resubscribes an account that did not sign it. */
  lemma UnsignedStepTouchesNobody(self: Address, ch: Chain, step: Step, x: Address)
    requires x != self && x !in SignersOf(step)
    ensures Untouched(ch.state, Next(self, ch, step).state, x)
  {
    if step.Invoke? && Invoked(self, ch.state, step.signers, step.call, ch.now).Ok? {
      match step.call
      case Subscribe(who, id) => SubscribersPayForThemselves(ch.state, self, step.signers, who, id, ch.now);
      case Withdraw(to, amount) => TheAdminWithdraws(ch.state, self, step.signers, to, amount);
      case _ =>
    }
  }

  /** What only the administrator may change, once there is one: the plans, the takings, and who that is. */
  ghost predicate Governed(self: Address, s: State, after: State) {
    && after.admin == s.admin && after.token == s.token && after.plans == s.plans && after.ids == s.ids
    && Held(after.balances, self) >= Held(s.balances, self)
  }

  lemma UnsignedStepKeepsTheRules(self: Address, ch: Chain, step: Step)
    requires ch.state.admin.Some? && ch.state.admin.value !in SignersOf(step)
    ensures Governed(self, ch.state, Next(self, ch, step).state)
  {
    if step.Invoke? && Invoked(self, ch.state, step.signers, step.call, ch.now).Ok? {
      match step.call
      case Subscribe(who, id) =>
        SubscribersPayForThemselves(ch.state, self, step.signers, who, id, ch.now);
        MovingConserves(ch.state.balances, who, self, ch.state.plans[id].price);
      case _ =>
    }
  }

  /** Over any history: an account that signs none of it has spent nothing and stands as it stood. */
  lemma {:induction false} NobodyPaysUnsigned(self: Address, ch: Chain, steps: seq<Step>, x: Address)
    requires x != self && forall n :: 0 <= n < |steps| ==> x !in SignersOf(steps[n])
    ensures Untouched(ch.state, Run(self, ch, steps).state, x)
  {
    if steps != [] {
      NobodyPaysUnsigned(self, ch, steps[..|steps| - 1], x);
      UnsignedStepTouchesNobody(self, Run(self, ch, steps[..|steps| - 1]), steps[|steps| - 1], x);
    }
  }

  /** Over any history its administrator signs none of, the contract keeps its plans, takings and administrator. */
  lemma {:induction false} OnlyTheAdminGoverns(self: Address, ch: Chain, steps: seq<Step>)
    requires ch.state.admin.Some? && forall n :: 0 <= n < |steps| ==> ch.state.admin.value !in SignersOf(steps[n])
    ensures Governed(self, ch.state, Run(self, ch, steps).state)
  {
    if steps != [] {
      OnlyTheAdminGoverns(self, ch, steps[..|steps| - 1]);
      UnsignedStepKeepsTheRules(self, Run(self, ch, steps[..|steps| - 1]), steps[|steps| - 1]);
    }
  }
}
