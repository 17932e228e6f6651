/**
 The subscriptions contract: paying for a period and having it recorded, in one invocation. An
 invocation that panics leaves the state as it was; an addition that would overflow panics.
 */
module SubscriptionsContract {
  import opened Prelude

  type Address = string
  type Symbol = string
  type u64 = x: nat | x <= MAX_U64
  type u32 = x: nat | x <= MAX_U32

  const MAX_U64 := 0xFFFF_FFFF_FFFF_FFFF
  const MAX_U32 := 0xFFFF_FFFF

  datatype Plan = Plan(price: int, period: u64, tokens: u64, active: bool)

  datatype Standing = Standing(plan: Symbol, started: u64, expires: u64, periods: u32)

  datatype Error =
    | AlreadyInitialised | NotInitialised | NoSuchPlan | PlanNotForSale | BadPlan | BadAmount
    | Unauthorised | TransferFailed | Overflow

  /** Contract storage, and who holds how much of the payment token. */
  datatype State = State(
    admin: Option<Address>, token: Option<Address>,
    ids: seq<Symbol>, plans: map<Symbol, Plan>,
    subs: map<Address, Standing>, balances: map<Address, nat>)

  function Held(balances: map<Address, nat>, who: Address): nat {
    if who in balances then balances[who] else 0
  }

  /** The payment token's transfer; a payment to oneself moves nothing. */
  function Moved(balances: map<Address, nat>, from: Address, to: Address, amount: int): Option<map<Address, nat>> {
    if amount < 0 || Held(balances, from) < amount then None
    else if from == to then Some(balances)
    else Some(balances[from := Held(balances, from) - amount][to := Held(balances, to) + amount])
  }

  predicate Active(s: State, who: Address, now: nat) {
    who in s.subs && s.subs[who].expires > now
  }

  // ---------- entry points ----------

  function Initialised(s: State, admin: Address, token: Address): Result<State, Error> {
    if s.admin.Some? then Err(AlreadyInitialised)
    else Ok(s.(admin := Some(admin), token := Some(token), ids := []))
  }

  function PlanSet(s: State, signers: set<Address>, id: Symbol, plan: Plan): Result<State, Error> {
    if s.admin.None? then Err(NotInitialised)
    else if s.admin.value !in signers then Err(Unauthorised)
    else if plan.price <= 0 || plan.period == 0 then Err(BadPlan)
    else Ok(s.(plans := s.plans[id := plan], ids := if id in s.ids then s.ids else s.ids + [id]))
  }

  /** The same plan, still running: the period is added to the end of it. */
  predicate Extends(s: State, who: Address, id: Symbol, now: nat) {
    who in s.subs && s.subs[who].plan == id && s.subs[who].expires > now
  }

  function Renewed(s: State, who: Address, id: Symbol, period: u64, now: u64): Option<Standing> {
    var from: nat := if Extends(s, who, id, now) then s.subs[who].expires else now;
    var periods: nat := (if who in s.subs then s.subs[who].periods else 0) + 1;
    if from + period > MAX_U64 || periods > MAX_U32 then None
    else Some(Standing(id, if Extends(s, who, id, now) then s.subs[who].started else now, from + period, periods))
  }

  function Subscribed(s: State, self: Address, signers: set<Address>, who: Address, id: Symbol,
                      now: u64): Result<State, Error> {
    if who !in signers then Err(Unauthorised)
    else if id !in s.plans then Err(NoSuchPlan)
    else if !s.plans[id].active then Err(PlanNotForSale)
    else if s.token.None? then Err(NotInitialised)
    else
      match Moved(s.balances, who, self, s.plans[id].price)
      case None => Err(TransferFailed)
      case Some(paid) =>
        match Renewed(s, who, id, s.plans[id].period, now)
        case None => Err(Overflow)
        case Some(standing) => Ok(s.(balances := paid, subs := s.subs[who := standing]))
  }

  function Withdrawn(s: State, self: Address, signers: set<Address>, to: Address, amount: int): Result<State, Error> {
    if s.admin.None? then Err(NotInitialised)
    else if s.admin.value !in signers then Err(Unauthorised)
    else if s.token.None? then Err(NotInitialised)
    else if amount <= 0 || amount > Held(s.balances, self) then Err(BadAmount)
    else
      match Moved(s.balances, self, to, amount)
      case None => Err(TransferFailed)
      case Some(paid) => Ok(s.(balances := paid))
  }

  function AdminSet(s: State, signers: set<Address>, next: Address): Result<State, Error> {
    if s.admin.None? then Err(NotInitialised)
    else if s.admin.value !in signers || next !in signers then Err(Unauthorised)
    else Ok(s.(admin := Some(next)))
  }

  // ---------- the contract ----------

  class Contract {
    const self: Address
    var admin: Option<Address>
    var token: Option<Address>
    var ids: seq<Symbol>
    var plans: map<Symbol, Plan>
    var subs: map<Address, Standing>
    var balances: map<Address, nat>

    function Value(): State
      reads this
    {
      State(admin, token, ids, plans, subs, balances)
    }

    constructor (self: Address, balances: map<Address, nat>)
      ensures this.self == self && Value() == State(None, None, [], map[], map[], balances)
    {
      this.self, this.balances := self, balances;
      admin, token, ids, plans, subs := None, None, [], map[], map[];
    }

    method Initialise(admin: Address, token: Address) returns (r: Result<(), Error>)
      modifies this
      ensures
        match Initialised(old(Value()), admin, token)
        case Err(e) => r == Err(e) && Value() == old(Value())
        case Ok(after) => r.Ok? && Value() == after
    {
      if this.admin.Some? {
        return Err(AlreadyInitialised);
      }
      this.admin := Some(admin);
      this.token := Some(token);
      ids := [];
      r := Ok(());
    }

    method SetPlan(signers: set<Address>, id: Symbol, price: int, period: u64, tokens: u64,
                   active: bool) returns (r: Result<(), Error>)
      modifies this
      ensures
        match PlanSet(old(Value()), signers, id, Plan(price, period, tokens, active))
        case Err(e) => r == Err(e) && Value() == old(Value())
        case Ok(after) => r.Ok? && Value() == after
    {
      if admin.None? {
        return Err(NotInitialised);
      }
      if admin.value !in signers {
        return Err(Unauthorised);
      }
      if price <= 0 || period == 0 {
        return Err(BadPlan);
      }
      plans := plans[id := Plan(price, period, tokens, active)];
      if id !in ids {
        ids := ids + [id];
      }
      r := Ok(());
    }

    /** The payment is moved first, and moved back when anything after it panics. */
    method Subscribe(signers: set<Address>, who: Address, id: Symbol, now: u64) returns (r: Result<Standing, Error>)
      modifies this
      ensures
        match Subscribed(old(Value()), self, signers, who, id, now)
        case Err(e) => r == Err(e) && Value() == old(Value())
        case Ok(after) => r == Ok(after.subs[who]) && Value() == after
    {
      if who !in signers {
        return Err(Unauthorised);
      }
      if id !in plans {
        return Err(NoSuchPlan);
      }
      var plan := plans[id];
      if !plan.active {
        return Err(PlanNotForSale);
      }
      if token.None? {
        return Err(NotInitialised);
      }
      var paid := Moved(balances, who, self, plan.price);
      if paid.None? {
        return Err(TransferFailed);
      }
      var before := balances;
      balances := paid.value;

      var started: u64, from: nat, periods: nat := now, now, 1;
      if who in subs {
        var existing := subs[who];
        periods := existing.periods + 1;
        if existing.plan == id && existing.expires > now {
          started, from := existing.started, existing.expires;
        }
      }
      if from + plan.period > MAX_U64 || periods > MAX_U32 {
        balances := before;
        return Err(Overflow);
      }
      var updated := Standing(id, started, from + plan.period, periods);
      subs := subs[who := updated];
      r := Ok(updated);
    }

    method IsActive(who: Address, now: u64) returns (live: bool)
      ensures live <==> Active(Value(), who, now)
    {
      live := if who in subs then subs[who].expires > now else false;
    }

    method Withdraw(signers: set<Address>, to: Address, amount: int) returns (r: Result<(), Error>)
      modifies this
      ensures
        match Withdrawn(old(Value()), self, signers, to, amount)
        case Err(e) => r == Err(e) && Value() == old(Value())
        case Ok(after) => r.Ok? && Value() == after
    {
      if admin.None? {
        return Err(NotInitialised);
      }
      if admin.value !in signers {
        return Err(Unauthorised);
      }
      if token.None? {
        return Err(NotInitialised);
      }
      if amount <= 0 || amount > Held(balances, self) {
        return Err(BadAmount);
      }
      balances := Moved(balances, self, to, amount).value;
      r := Ok(());
    }

    method SetAdmin(signers: set<Address>, next: Address) returns (r: Result<(), Error>)
      modifies this
      ensures
        match AdminSet(old(Value()), signers, next)
        case Err(e) => r == Err(e) && Value() == old(Value())
        case Ok(after) => r.Ok? && Value() == after
    {
      if admin.None? {
        return Err(NotInitialised);
      }
      if admin.value !in signers || next !in signers {
        return Err(Unauthorised);
      }
      admin := Some(next);
      r := Ok(());
    }
  }
}
