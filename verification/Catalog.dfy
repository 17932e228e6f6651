/** What is on sale, and the frozen values an account, an invoice and a payment are made of. */
module Catalog {
  import opened Prelude

  const SECOND := 1_000_000
  const DAY := 86_400 * SECOND
  const WEEK := 7 * DAY
  const MONTH := 30 * DAY
  const INVOICE_TTL := 30 * 60 * SECOND

  datatype Cadence = Weekly | Monthly | OneOff

  datatype Plan = Plan(id: string, price: int, tokens: nat, cadence: Cadence) {
    function Period(): int { if cadence.Weekly? then WEEK else MONTH }

    predicate IsFree() { price == 0 }
  }

  datatype Pack = Pack(id: string, price: int, tokens: nat)

  datatype Product = PlanOf(plan: Plan) | PackOf(pack: Pack) {
    function Tokens(): nat { if PlanOf? then plan.tokens else pack.tokens }

    function Price(): int { if PlanOf? then plan.price else pack.price }

    predicate IsFreePlan() { PlanOf? && plan.IsFree() }
  }

  function FirstPlan(plans: seq<Plan>, id: string): Option<Plan> {
    if plans == [] then None
    else if plans[0].id == id then Some(plans[0])
    else FirstPlan(plans[1..], id)
  }

  function FirstPack(packs: seq<Pack>, id: string): Option<Pack> {
    if packs == [] then None
    else if packs[0].id == id then Some(packs[0])
    else FirstPack(packs[1..], id)
  }

  function FirstFree(plans: seq<Plan>): Option<Plan> {
    if plans == [] then None
    else if plans[0].IsFree() then Some(plans[0])
    else FirstFree(plans[1..])
  }

  datatype Catalog = Catalog(plans: seq<Plan>, packs: seq<Pack>) {
    /** Plans are looked through before packs, and the first of a name wins. */
    function Product(sku: string): Option<Product> {
      match FirstPlan(plans, sku)
      case Some(plan) => Some(PlanOf(plan))
      case None =>
        match FirstPack(packs, sku)
        case Some(pack) => Some(PackOf(pack))
        case None => None
    }

    function Plan(id: string): Option<Plan> {
      match Product(id)
      case Some(PlanOf(plan)) => Some(plan)
      case _ => None
    }

    function FreePlan(): Option<Plan> { FirstFree(plans) }

    /** Checkout refuses a free plan, so no invoice ever names one. */
    predicate Sellable(sku: string) { Product(sku).Some? ==> !Product(sku).value.IsFreePlan() }
  }

  lemma {:induction false} FirstPlanIsNamed(plans: seq<Plan>, id: string)
    ensures FirstPlan(plans, id).Some? ==> FirstPlan(plans, id).value.id == id
  {
    if plans != [] {
      FirstPlanIsNamed(plans[1..], id);
    }
  }

  lemma {:induction false} FirstFreeIsFree(plans: seq<Plan>)
    ensures FirstFree(plans).Some? ==> FirstFree(plans).value.price == 0
  {
    if plans != [] {
      FirstFreeIsFree(plans[1..]);
    }
  }

  /** The first of `plans` with this id is at `n`. */
  predicate IsFirstPlan(plans: seq<Plan>, id: string, n: nat) {
    n < |plans| && plans[n].id == id && forall i :: 0 <= i < n ==> plans[i].id != id
  }

  predicate IsFirstPack(packs: seq<Pack>, id: string, n: nat) {
    n < |packs| && packs[n].id == id && forall i :: 0 <= i < n ==> packs[i].id != id
  }

  lemma {:induction false} FirstPlanIsFirst(plans: seq<Plan>, id: string, n: nat)
    ensures IsFirstPlan(plans, id, n) ==> FirstPlan(plans, id) == Some(plans[n])
    ensures (forall i :: 0 <= i < |plans| ==> plans[i].id != id) ==> FirstPlan(plans, id) == None
  {
    if plans != [] && plans[0].id != id {
      assert n > 0 && IsFirstPlan(plans, id, n) ==> IsFirstPlan(plans[1..], id, n - 1) by {
        assert forall i :: 0 <= i < |plans| - 1 ==> plans[1..][i] == plans[i + 1];
      }
      FirstPlanIsFirst(plans[1..], id, if n > 0 then n - 1 else 0);
    }
  }

  lemma {:induction false} FirstPackIsFirst(packs: seq<Pack>, id: string, n: nat)
    ensures IsFirstPack(packs, id, n) ==> FirstPack(packs, id) == Some(packs[n])
    ensures (forall i :: 0 <= i < |packs| ==> packs[i].id != id) ==> FirstPack(packs, id) == None
  {
    if packs != [] && packs[0].id != id {
      assert n > 0 && IsFirstPack(packs, id, n) ==> IsFirstPack(packs[1..], id, n - 1) by {
        assert forall i :: 0 <= i < |packs| - 1 ==> packs[1..][i] == packs[i + 1];
      }
      FirstPackIsFirst(packs[1..], id, if n > 0 then n - 1 else 0);
    }
  }

  /** Where an id is listed first, if it is listed. */
  lemma {:induction false} ListedFirst(ids: seq<string>, id: string) returns (n: nat)
    ensures n < |ids| <==> id in ids
    ensures n < |ids| ==> ids[n] == id && forall i :: 0 <= i < n ==> ids[i] != id
  {
    n := 0;
    if ids != [] && ids[0] != id {
      var rest := ListedFirst(ids[1..], id);
      n := rest + 1;
      assert forall i :: 0 < i < |ids| ==> ids[i] == ids[1..][i - 1];
    }
  }

  lemma PlanFoundIffListed(plans: seq<Plan>, id: string, plan: Plan)
    ensures FirstPlan(plans, id) == Some(plan) <==> exists n: nat :: IsFirstPlan(plans, id, n) && plans[n] == plan
    ensures FirstPlan(plans, id).None? <==> forall i :: 0 <= i < |plans| ==> plans[i].id != id
  {
    var ids := seq(|plans|, i requires 0 <= i < |plans| => plans[i].id);
    var first := ListedFirst(ids, id);
    FirstPlanIsFirst(plans, id, first);
    assert forall i :: 0 <= i < |plans| ==> ids[i] == plans[i].id && ids[i] in ids;
    if first < |plans| {
      assert IsFirstPlan(plans, id, first);
    }
    forall n: nat | IsFirstPlan(plans, id, n)
      ensures FirstPlan(plans, id) == Some(plans[n])
    {
      FirstPlanIsFirst(plans, id, n);
    }
  }

  lemma PackFoundIffListed(packs: seq<Pack>, id: string, pack: Pack)
    ensures FirstPack(packs, id) == Some(pack) <==> exists n: nat :: IsFirstPack(packs, id, n) && packs[n] == pack
    ensures FirstPack(packs, id).None? <==> forall i :: 0 <= i < |packs| ==> packs[i].id != id
  {
    var ids := seq(|packs|, i requires 0 <= i < |packs| => packs[i].id);
    var first := ListedFirst(ids, id);
    FirstPackIsFirst(packs, id, first);
    assert forall i :: 0 <= i < |packs| ==> ids[i] == packs[i].id && ids[i] in ids;
    if first < |packs| {
      assert IsFirstPack(packs, id, first);
    }
    forall n: nat | IsFirstPack(packs, id, n)
      ensures FirstPack(packs, id) == Some(packs[n])
    {
      FirstPackIsFirst(packs, id, n);
    }
  }

  /**
   A product named is found exactly when it is listed: the first plan of that id, or with no
   such plan the first such pack.
   */
  lemma ProductIsTheFirstListed(c: Catalog, sku: string, plan: Plan, pack: Pack)
    ensures c.Product(sku) == Some(PlanOf(plan)) <==>
            exists n: nat :: IsFirstPlan(c.plans, sku, n) && c.plans[n] == plan
    ensures c.Product(sku) == Some(PackOf(pack)) <==>
              && (forall i :: 0 <= i < |c.plans| ==> c.plans[i].id != sku)
              && exists n: nat :: IsFirstPack(c.packs, sku, n) && c.packs[n] == pack
    ensures c.Product(sku).None? <==>
              && (forall i :: 0 <= i < |c.plans| ==> c.plans[i].id != sku)
              && (forall i :: 0 <= i < |c.packs| ==> c.packs[i].id != sku)
    ensures c.Plan(sku) == Some(plan) <==> c.Product(sku) == Some(PlanOf(plan))
  {
    PlanFoundIffListed(c.plans, sku, plan);
    PackFoundIffListed(c.packs, sku, pack);
  }

  /** Whether a product can be sold at all: only a plan whose price is zero cannot. */
  lemma SellableUnlessFree(c: Catalog, sku: string)
    ensures c.Sellable(sku) <==>
            !(c.Product(sku).Some? && c.Product(sku).value.PlanOf? && c.Product(sku).value.plan.price == 0)
  {
  }

  /** The free plan is the first plan whose price is zero, and there is none only when no plan's is. */
  lemma {:induction false} FreePlanIsTheFirstAtZero(plans: seq<Plan>)
    ensures FirstFree(plans).None? <==> forall i :: 0 <= i < |plans| ==> plans[i].price != 0
    ensures FirstFree(plans).Some? ==>
              exists n: nat :: n < |plans| && plans[n] == FirstFree(plans).value && plans[n].price == 0
                               && forall i :: 0 <= i < n ==> plans[i].price != 0
  {
    if plans != [] {
      FreePlanIsTheFirstAtZero(plans[1..]);
      assert forall i :: 0 <= i < |plans| - 1 ==> plans[1..][i] == plans[i + 1];
      if plans[0].price != 0 && FirstFree(plans).Some? {
        var n: nat :| n < |plans[1..]| && plans[1..][n] == FirstFree(plans[1..]).value && plans[1..][n].price == 0
                      && forall i :: 0 <= i < n ==> plans[1..][i].price != 0;
        assert plans[n + 1] == FirstFree(plans).value;
        assert forall i :: 0 < i < n + 1 ==> plans[i] == plans[1..][i - 1];
      }
    }
  }

  // ---------- subscriptions ----------

  datatype SubscriptionStatus = Active | Expired | Cancelled

  datatype Subscription = Subscription(
    account: string, planId: string, startedAt: int, renewsAt: int, status: SubscriptionStatus)
  {
    static function Begin(account: string, plan: Plan, now: int): Subscription {
      Subscription(account, plan.id, now, now + plan.Period(), Active)
    }

    predicate Due(now: int) { status.Active? && now >= renewsAt }

    function Renewed(plan: Plan, now: int): Subscription {
      this.(startedAt := now, renewsAt := now + plan.Period(), status := Active)
    }

    function Ended(): Subscription { this.(status := Expired) }
  }

  // ---------- invoices and payments ----------

  datatype InvoiceStatus = Pending | Paid | Lapsed

  /** Amounts of an asset are whole ten-millionths; `None` is an amount that does not parse. */
  datatype Invoice = Invoice(
    id: string, account: string, sku: string, tokens: nat, price: int,
    asset: string, amount: Option<int>, destination: string,
    createdAt: int, expiresAt: int,
    status: InvoiceStatus, txHash: string, payer: string)
  {
    predicate IsOpen(now: int) { status.Pending? && now < expiresAt }

    function MarkedPaid(txHash: string, payer: string): Invoice {
      this.(status := Paid, txHash := txHash, payer := payer)
    }

    function MarkedLapsed(): Invoice { this.(status := Lapsed) }

    /** Equal in everything but the three fields settling may change. */
    predicate SameTerms(other: Invoice) {
      other.(status := status, txHash := txHash, payer := payer) == this
    }
  }

  datatype Payment = Payment(
    txHash: string, payer: string, destination: string, asset: string, amount: Option<int>, memo: string)

  function Upper(s: string): string {
    seq(|s|, i requires 0 <= i < |s| => if 'a' <= s[i] <= 'z' then s[i] - 'a' + 'A' else s[i])
  }

  const TOLERANCE_BPS := 100

  predicate Settles(p: Payment, i: Invoice) {
    && p.memo == i.id
    && p.destination == i.destination
    && Upper(p.asset) == Upper(i.asset)
    && p.amount.Some?
    && i.amount.Some?
    && p.amount.value * 10_000 >= i.amount.value * (10_000 - TOLERANCE_BPS)
  }

  // ---------- what pays an invoice ----------

  /** The same letter, whatever the case of an unaccented one. */
  predicate SameLetter(x: char, y: char) {
    || x == y
    || ('a' <= x <= 'z' && y as int == x as int - 32)
    || ('a' <= y <= 'z' && x as int == y as int - 32)
  }

  predicate SameLetters(a: string, b: string) {
    |a| == |b| && forall i :: 0 <= i < |a| ==> SameLetter(a[i], b[i])
  }

  lemma UpperTellsLettersApart(a: string, b: string)
    ensures Upper(a) == Upper(b) <==> SameLetters(a, b)
  {
    if Upper(a) == Upper(b) {
      forall i | 0 <= i < |a|
        ensures SameLetter(a[i], b[i])
      {
        assert Upper(a)[i] == Upper(b)[i];
      }
    }
  }

  lemma UpperIsTheSameInCapitals(s: string)
    ensures SameLetters(s, Upper(s)) && forall i :: 0 <= i < |Upper(s)| ==> !('a' <= Upper(s)[i] <= 'z')
  {
    forall i | 0 <= i < |s| && 'a' <= s[i] <= 'z'
      ensures 'A' <= Upper(s)[i] <= 'Z' && SameLetter(s[i], Upper(s)[i])
    {
      assert Upper(s)[i] as int == s[i] as int - 32;
    }
  }

  /** All four of memo, destination, asset and amount: the amount at least 99 hundredths of what is owed. */
  ghost predicate PaysFor(p: Payment, i: Invoice) {
    && p.memo == i.id
    && p.destination == i.destination
    && SameLetters(p.asset, i.asset)
    && p.amount.Some? && i.amount.Some?
    && p.amount.value * 10_000 >= i.amount.value * 9_900
  }

  lemma SettlingIsPayingFor(p: Payment, i: Invoice)
    ensures Settles(p, i) <==> PaysFor(p, i)
  {
    UpperTellsLettersApart(p.asset, i.asset);
  }

  /** Paying what was asked, more, or a hundredth less pays; paying half of it, or nothing, never does. */
  lemma HowMuchPays(p: Payment, i: Invoice)
    requires p.memo == i.id && p.destination == i.destination && p.asset == i.asset
    requires p.amount.Some? && i.amount.Some? && i.amount.value > 0
    ensures p.amount.value >= i.amount.value ==> Settles(p, i)
    ensures i.amount.value >= 100 && p.amount.value == i.amount.value - 1 ==> Settles(p, i)
    ensures 2 * p.amount.value <= i.amount.value ==> !Settles(p, i)
    ensures 100 * p.amount.value >= 99 * i.amount.value <==> Settles(p, i)
  {
  }
}
