/**
 Whole histories of the contract: calls by anyone, and the ledger's clock moving forward. What
 happened is added up beside the state, so that the two can be compared.
 */
module ContractHistory {
  import opened Prelude
  import opened SubscriptionsContract

  datatype Call =
    | Initialise(admin: Address, token: Address)
    | SetPlan(id: Symbol, plan: Plan)
    | Subscribe(who: Address, id: Symbol)
    | Withdraw(to: Address, amount: int)
    | SetAdmin(next: Address)

  datatype Step = Invoke(signers: set<Address>, call: Call) | Tick(seconds: nat)

  /**
   One subscriber's history: all the seconds bought, those bought since the current start, the
   seconds lived through while active, the seconds given up by switching plans, how many
   subscribes succeeded, and which (plan, start) pairs were opened and how often.
   */
  datatype Tally = Tally(
    bought: nat, sinceStart: nat, lived: nat, forfeited: nat,
    subscribes: nat, openings: nat, keys: set<(Symbol, int)>)

  const NOTHING := Tally(0, 0, 0, 0, 0, 0, {})

  datatype Chain = Chain(
    state: State, now: u64, tallies: map<Address, Tally>, charged: int, withdrawn: int)
  {
    function TallyOf(who: Address): Tally { if who in tallies then tallies[who] else NOTHING }
  }

  function Genesis(balances: map<Address, nat>, now: u64): Chain {
    Chain(State(None, None, [], map[], map[], balances), now, map[], 0, 0)
  }

  function Invoked(self: Address, s: State, signers: set<Address>, call: Call, now: u64): Result<State, Error> {
    match call
    case Initialise(admin, token) => Initialised(s, admin, token)
    case SetPlan(id, plan) => PlanSet(s, signers, id, plan)
    case Subscribe(who, id) => Subscribed(s, self, signers, who, id, now)
    case Withdraw(to, amount) => Withdrawn(s, self, signers, to, amount)
    case SetAdmin(next) => AdminSet(s, signers, next)
  }

  /** How many of the `seconds` seconds that follow `from` the standing is active at. */
  function LiveSeconds(expires: nat, from: nat, seconds: nat): nat {
    if seconds == 0 then 0
    else LiveSeconds(expires, from, seconds - 1) + (if expires > from + seconds - 1 then 1 else 0)
  }

  function Remaining(s: State, who: Address, now: nat): nat {
    if Active(s, who, now) then s.subs[who].expires - now else 0
  }

  function Bought(t: Tally, s: State, who: Address, id: Symbol, now: nat, period: nat): Tally {
    if Extends(s, who, id, now) then
      t.(bought := t.bought + period, sinceStart := t.sinceStart + period, subscribes := t.subscribes + 1)
    else
      t.(bought := t.bought + period, sinceStart := period, subscribes := t.subscribes + 1,
         forfeited := t.forfeited + Remaining(s, who, now), openings := t.openings + 1,
         keys := t.keys + {(id, now as int)})
  }

  function Lived(ch: Chain, seconds: nat): map<Address, Tally> {
    map who | who in ch.tallies ::
      ch.tallies[who].(lived := ch.tallies[who].lived +
        (if who in ch.state.subs then LiveSeconds(ch.state.subs[who].expires, ch.now, seconds) else 0))
  }

  function Next(self: Address, ch: Chain, step: Step): Chain {
    match step
    case Tick(seconds) =>
      if ch.now + seconds > MAX_U64 then ch
      else ch.(now := ch.now + seconds, tallies := Lived(ch, seconds))
    case Invoke(signers, call) =>
      match Invoked(self, ch.state, signers, call, ch.now)
      case Err(_) => ch
      case Ok(after) =>
        match call
        case Subscribe(who, id) =>
          var plan := ch.state.plans[id];
          ch.(state := after,
              tallies := ch.tallies[who := Bought(ch.TallyOf(who), ch.state, who, id, ch.now, plan.period)],
              charged := ch.charged + (if who == self then 0 else plan.price))
        case Withdraw(to, amount) =>
          ch.(state := after, withdrawn := ch.withdrawn + (if to == self then 0 else amount))
        case _ => ch.(state := after)
  }

  function Run(self: Address, ch: Chain, steps: seq<Step>): Chain {
    if steps == [] then ch else Next(self, Run(self, ch, steps[..|steps| - 1]), steps[|steps| - 1])
  }

  // ---------- paid time ----------

  lemma {:induction false} LiveSecondsInClosedForm(expires: nat, from: nat, seconds: nat)
    ensures LiveSeconds(expires, from, seconds) == Max(0, Min(expires, from + seconds) - from)
  {
    if seconds > 0 {
      LiveSecondsInClosedForm(expires, from, seconds - 1);
    }
  }

  /** A standing and its history agree: every second bought was lived, is left, or was given up. */
  ghost predicate Adds(s: State, now: nat, who: Address, t: Tally) {
    if who in s.subs then
      var standing := s.subs[who];
      && standing.started <= now
      && standing.expires - standing.started == t.sinceStart > 0
      && t.lived + Remaining(s, who, now) + t.forfeited == t.bought
      && standing.periods == t.subscribes
      && t.openings <= t.subscribes
      && |t.keys| <= t.openings
      && (standing.plan, standing.started as int) in t.keys
    else t == NOTHING
  }

  ghost predicate PaidTimeAdds(ch: Chain) {
    && (forall id :: id in ch.state.plans ==> ch.state.plans[id].period > 0 && ch.state.plans[id].price > 0)
    && (forall who :: who in ch.tallies ==> who in ch.state.subs)
    && forall who :: Adds(ch.state, ch.now, who, ch.TallyOf(who))
  }

  lemma SubscribingAdds(self: Address, ch: Chain, signers: set<Address>, who: Address, id: Symbol)
    requires PaidTimeAdds(ch) && Subscribed(ch.state, self, signers, who, id, ch.now).Ok?
    ensures PaidTimeAdds(Next(self, ch, Invoke(signers, Subscribe(who, id))))
  {
    var after := Next(self, ch, Invoke(signers, Subscribe(who, id)));
    forall other
      ensures Adds(after.state, after.now, other, after.TallyOf(other))
    {
      assert Adds(ch.state, ch.now, other, ch.TallyOf(other));
      if other == who && !Extends(ch.state, who, id, ch.now) {
        var keys := ch.TallyOf(who).keys;
        assert |keys + {(id, ch.now as int)}| <= |keys| + 1;
      }
    }
  }

  lemma TickingAdds(self: Address, ch: Chain, seconds: nat)
    requires PaidTimeAdds(ch)
    ensures PaidTimeAdds(Next(self, ch, Tick(seconds)))
  {
    var after := Next(self, ch, Tick(seconds));
    forall who
      ensures Adds(after.state, after.now, who, after.TallyOf(who))
    {
      assert Adds(ch.state, ch.now, who, ch.TallyOf(who));
      if who in ch.state.subs && ch.now + seconds <= MAX_U64 {
        LiveSecondsInClosedForm(ch.state.subs[who].expires, ch.now, seconds);
        assert who in ch.tallies;
      }
    }
  }

  lemma StepAdds(self: Address, ch: Chain, step: Step)
    requires PaidTimeAdds(ch)
    ensures PaidTimeAdds(Next(self, ch, step))
  {
    var after := Next(self, ch, step);
    if step.Tick? {
      TickingAdds(self, ch, step.seconds);
    } else if Invoked(self, ch.state, step.signers, step.call, ch.now).Ok? {
      if step.call.Subscribe? {
        SubscribingAdds(self, ch, step.signers, step.call.who, step.call.id);
      } else {
        forall who
          ensures Adds(after.state, after.now, who, after.TallyOf(who))
        {
          assert Adds(ch.state, ch.now, who, ch.TallyOf(who));
        }
      }
    }
  }

  lemma {:induction false} PaidTimeAlwaysAdds(self: Address, balances: map<Address, nat>, now: u64, steps: seq<Step>)
    ensures PaidTimeAdds(Run(self, Genesis(balances, now), steps))
  {
    if steps != [] {
      PaidTimeAlwaysAdds(self, balances, now, steps[..|steps| - 1]);
      StepAdds(self, Run(self, Genesis(balances, now), steps[..|steps| - 1]), steps[|steps| - 1]);
    }
  }

  /**
   Over any history: the current stretch is exactly as long as the periods bought since it
   started, whatever was done to the plan in between; the whole time a subscriber was active is
   what was bought, less what is left and what switching plans gave up; and `periods` is the
   receipt for every successful subscribe.
   */
  lemma PaidTimeIsKept(self: Address, balances: map<Address, nat>, now: u64, steps: seq<Step>, who: Address)
    ensures
      var ch := Run(self, Genesis(balances, now), steps);
      var t := ch.TallyOf(who);
      && (who in ch.state.subs ==>
            && ch.state.subs[who].expires == ch.state.subs[who].started + t.sinceStart
            && ch.state.subs[who].periods == t.subscribes)
      && t.lived == t.bought - Remaining(ch.state, who, ch.now) - t.forfeited
      && t.lived <= t.bought
  {
    PaidTimeAlwaysAdds(self, balances, now, steps);
    var ch := Run(self, Genesis(balances, now), steps);
    assert Adds(ch.state, ch.now, who, ch.TallyOf(who));
  }

  // ---------- money ----------

  ghost function Total(balances: map<Address, nat>): nat {
    if balances == map[] then 0
    else var who :| who in balances; balances[who] + Total(balances - {who})
  }

  lemma {:induction false} TotalWithout(balances: map<Address, nat>, who: Address)
    requires who in balances
    ensures Total(balances) == balances[who] + Total(balances - {who})
    decreases |balances|
  {
    var first :| first in balances && Total(balances) == balances[first] + Total(balances - {first});
    if first != who {
      TotalWithout(balances - {first}, who);
      TotalWithout(balances - {who}, first);
      assert balances - {first} - {who} == balances - {who} - {first};
    }
  }

  lemma TotalUpdate(balances: map<Address, nat>, who: Address, amount: nat)
    ensures Total(balances[who := amount]) == Total(balances) - Held(balances, who) + amount
  {
    var after := balances[who := amount];
    TotalWithout(after, who);
    if who in balances {
      TotalWithout(balances, who);
      assert after - {who} == balances - {who};
    } else {
      assert after - {who} == balances;
    }
  }

  lemma MovingConserves(balances: map<Address, nat>, from: Address, to: Address, amount: int)
    requires Moved(balances, from, to, amount).Some?
    ensures
      var after := Moved(balances, from, to, amount).value;
      && Total(after) == Total(balances)
      && (from != to ==>
            Held(after, from) == Held(balances, from) - amount && Held(after, to) == Held(balances, to) + amount)
      && (forall other :: other != from && other != to ==> Held(after, other) == Held(balances, other))
      && (from == to ==> after == balances)
  {
    if from != to {
      TotalUpdate(balances, from, Held(balances, from) - amount);
      TotalUpdate(balances[from := Held(balances, from) - amount], to, Held(balances, to) + amount);
    }
  }

  ghost predicate PlansListed(s: State) {
    && (forall i, j :: 0 <= i < j < |s.ids| ==> s.ids[i] != s.ids[j])
    && (forall id :: id in s.ids <==> id in s.plans)
    && (s.admin.None? ==> s.ids == [] && s.token.None?)
  }

  ghost predicate MoneyAdds(self: Address, balances: map<Address, nat>, ch: Chain) {
    && Held(ch.state.balances, self) == Held(balances, self) + ch.charged - ch.withdrawn
    && Total(ch.state.balances) == Total(balances)
    && PlansListed(ch.state)
  }

  lemma StepKeepsMoney(self: Address, balances: map<Address, nat>, ch: Chain, step: Step)
    requires MoneyAdds(self, balances, ch)
    ensures MoneyAdds(self, balances, Next(self, ch, step))
  {
    if step.Invoke? && Invoked(self, ch.state, step.signers, step.call, ch.now).Ok? {
      match step.call
      case Subscribe(who, id) => MovingConserves(ch.state.balances, who, self, ch.state.plans[id].price);
      case Withdraw(to, amount) => MovingConserves(ch.state.balances, self, to, amount);
      case _ =>
    }
  }

  /**
   Over any history, what the contract holds is what it started with, plus every price actually
   charged, less every withdrawal sent elsewhere; no token is made or destroyed; and the plan
   list names each stored plan exactly once.
   */
  lemma {:induction false} MoneyIsConserved(self: Address, balances: map<Address, nat>, now: u64, steps: seq<Step>)
    ensures MoneyAdds(self, balances, Run(self, Genesis(balances, now), steps))
  {
    if steps != [] {
      MoneyIsConserved(self, balances, now, steps[..|steps| - 1]);
      StepKeepsMoney(self, balances, Run(self, Genesis(balances, now), steps[..|steps| - 1]), steps[|steps| - 1]);
    }
  }
}
