/**
 The three tables behind billing: an append-only ledger whose non-blank references are
 unique, invoices whose terms never change, and one subscription row per account.
 */
module Store {
  import opened Prelude
  import opened Ledger
  import opened Catalog

  // ---------- the ledger table ----------

  predicate Recorded(ledger: seq<Entry>, r: Reference) {
    exists i :: 0 <= i < |ledger| && ledger[i].reference == r
  }

  function Find(ledger: seq<Entry>, r: Reference): (e: Option<Entry>)
    ensures e.Some? <==> Recorded(ledger, r)
    ensures e.Some? ==> e.value in ledger && e.value.reference == r
  {
    if ledger == [] then None
    else if ledger[0].reference == r then Some(ledger[0])
    else
      assert Recorded(ledger, r) ==> Recorded(ledger[1..], r) by {
        if Recorded(ledger, r) {
          var i :| 0 <= i < |ledger| && ledger[i].reference == r;
          assert ledger[1..][i - 1].reference == r;
        }
      }
      Find(ledger[1..], r)
  }

  predicate Refused(ledger: seq<Entry>, e: Entry) {
    !e.reference.Unreferenced? && Recorded(ledger, e.reference)
  }

  function Append(ledger: seq<Entry>, e: Entry): seq<Entry> {
    if Refused(ledger, e) then ledger else ledger + [e]
  }

  /** The row that stands for `e` afterwards: itself, or the one that was already there. */
  function Persisted(ledger: seq<Entry>, e: Entry): Entry {
    if Refused(ledger, e) then Find(ledger, e.reference).value else e
  }

  ghost predicate Unique(ledger: seq<Entry>) {
    forall i, j :: 0 <= i < j < |ledger| && ledger[i].reference == ledger[j].reference ==>
                     ledger[i].reference.Unreferenced?
  }

  /** Appending the same fact again changes nothing and answers with the row that persisted. */
  lemma AppendIsIdempotent(ledger: seq<Entry>, e: Entry, again: Entry)
    requires Unique(ledger)
    requires again.reference == e.reference && !e.reference.Unreferenced?
    ensures Unique(Append(ledger, e))
    ensures ledger <= Append(ledger, e)
    ensures Recorded(Append(ledger, e), e.reference)
    ensures Append(Append(ledger, e), again) == Append(ledger, e)
    ensures Persisted(Append(ledger, e), again) == Persisted(ledger, e)
    ensures Persisted(ledger, e) in Append(ledger, e)
  {
    var after := Append(ledger, e);
    if !Refused(ledger, e) {
      assert after[|ledger|] == e;
    }
    var found := Find(after, e.reference).value;
    var i :| 0 <= i < |after| && after[i] == found;
    if Refused(ledger, e) {
      var j :| 0 <= j < |ledger| && ledger[j] == Find(ledger, e.reference).value;
    } else {
      assert found == e;
    }
  }

  lemma AppendKeepsUnique(ledger: seq<Entry>, e: Entry)
    requires Unique(ledger)
    ensures Unique(Append(ledger, e))
    ensures ledger <= Append(ledger, e)
  {
  }

  /** Every row of one account, oldest first. */
  function Of(ledger: seq<Entry>, account: string): seq<Entry> {
    if ledger == [] then []
    else
      var rest, e := Of(ledger[..|ledger| - 1], account), ledger[|ledger| - 1];
      if e.account == account then rest + [e] else rest
  }

  lemma OfAppend(ledger: seq<Entry>, e: Entry, account: string)
    ensures Of(ledger + [e], account) == if e.account == account then Of(ledger, account) + [e] else Of(ledger, account)
  {
    assert (ledger + [e])[..|ledger|] == ledger;
  }

  lemma {:induction false} OfIsTheAccount(ledger: seq<Entry>, account: string)
    ensures forall e :: e in Of(ledger, account) <==> e in ledger && e.account == account
  {
    if ledger != [] {
      var rest, e := ledger[..|ledger| - 1], ledger[|ledger| - 1];
      OfIsTheAccount(rest, account);
      assert ledger == rest + [e];
    }
  }

  /** The most recent `limit` rows (at least one is asked for), still oldest first. */
  function Recent(rows: seq<Entry>, limit: int): seq<Entry> {
    var wanted := Max(1, limit);
    if |rows| <= wanted then rows else rows[|rows| - wanted..]
  }

  // ---------- the whole store as a value ----------

  datatype Books = Books(
    ledger: seq<Entry>, invoices: map<string, Invoice>, subscriptions: map<string, Subscription>)
  {
    function Record(e: Entry): Books { this.(ledger := Append(ledger, e)) }

    /** The upsert: an invoice already there keeps its terms. */
    function PutInvoice(i: Invoice): Books {
      var row := if i.id in invoices
                 then invoices[i.id].(status := i.status, txHash := i.txHash, payer := i.payer)
                 else i;
      this.(invoices := invoices[i.id := row])
    }

    function PutSubscription(s: Subscription): Books {
      this.(subscriptions := subscriptions[s.account := s])
    }

    function SubscriptionOf(account: string): Option<Subscription> {
      if account in subscriptions then Some(subscriptions[account]) else None
    }

    function Rows(account: string): seq<Entry> { Of(ledger, account) }
  }

  const EMPTY := Books([], map[], map[])

  /** Putting an invoice again changes its status, hash and payer and nothing else, and touches no other. */
  lemma PuttingKeepsTheTerms(b: Books, i: Invoice, other: string)
    ensures
      var after := b.PutInvoice(i);
      && after.ledger == b.ledger && after.subscriptions == b.subscriptions
      && i.id in after.invoices
      && var row := after.invoices[i.id];
      && row.status == i.status && row.txHash == i.txHash && row.payer == i.payer
      && (i.id !in b.invoices ==> row == i)
      && (i.id in b.invoices ==>
            var was := b.invoices[i.id];
            && row.id == was.id && row.account == was.account && row.sku == was.sku && row.tokens == was.tokens
            && row.price == was.price && row.asset == was.asset && row.amount == was.amount
            && row.destination == was.destination && row.createdAt == was.createdAt && row.expiresAt == was.expiresAt)
      && (other != i.id ==> (other in after.invoices <==> other in b.invoices))
      && (other != i.id && other in b.invoices ==> after.invoices[other] == b.invoices[other])
  {
  }

  lemma PuttingReplacesOneRow(b: Books, s: Subscription, other: string)
    ensures
      var after := b.PutSubscription(s);
      && after.ledger == b.ledger && after.invoices == b.invoices
      && after.SubscriptionOf(s.account) == Some(s)
      && (other != s.account ==> after.SubscriptionOf(other) == b.SubscriptionOf(other))
  {
  }

  /** Every invoice is filed under its own id. */
  ghost predicate KeyedInvoices(b: Books) {
    forall id :: id in b.invoices ==> b.invoices[id].id == id
  }

  class BillingStore {
    var ledger: seq<Entry>
    var invoices: map<string, Invoice>
    var subscriptions: map<string, Subscription>

    function Value(): Books
      reads this
    {
      Books(ledger, invoices, subscriptions)
    }

    constructor ()
      ensures Value() == EMPTY
    {
      ledger, invoices, subscriptions := [], map[], map[];
    }

    method Append(entry: Entry) returns (row: Entry)
      modifies this`ledger
      ensures Value() == old(Value()).Record(entry)
      ensures row == Persisted(old(ledger), entry)
    {
      var existing := Find(ledger, entry.reference);
      if existing.Some? && !entry.reference.Unreferenced? {
        row := existing.value;
      } else {
        ledger := ledger + [entry];
        row := entry;
      }
    }

    method AllEntries(account: string) returns (rows: seq<Entry>)
      ensures rows == Value().Rows(account)
    {
      rows := [];
      for i := 0 to |ledger|
        invariant rows == Of(ledger[..i], account)
      {
        assert ledger[..i + 1][..i] == ledger[..i];
        if ledger[i].account == account {
          rows := rows + [ledger[i]];
        }
      }
      assert ledger[..|ledger|] == ledger;
    }

    method Entries(account: string, limit: int) returns (rows: seq<Entry>)
      ensures rows == Recent(Value().Rows(account), limit)
    {
      var all := AllEntries(account);
      var wanted := Max(1, limit);
      rows := if |all| <= wanted then all else all[|all| - wanted..];
    }

    method PutInvoice(invoice: Invoice) returns (given: Invoice)
      modifies this`invoices
      ensures Value() == old(Value()).PutInvoice(invoice)
      ensures given == invoice
    {
      if invoice.id in invoices {
        var row := invoices[invoice.id];
        invoices := invoices[invoice.id :=
                             row.(status := invoice.status, txHash := invoice.txHash, payer := invoice.payer)];
      } else {
        invoices := invoices[invoice.id := invoice];
      }
      given := invoice;
    }

    method PutSubscription(subscription: Subscription) returns (given: Subscription)
      modifies this`subscriptions
      ensures Value() == old(Value()).PutSubscription(subscription)
      ensures given == subscription
    {
      subscriptions := subscriptions[subscription.account := subscription];
      given := subscription;
    }
  }

  /** The short list is the tail of the full one, never its beginning. */
  lemma RecentIsTheTail(rows: seq<Entry>, limit: int)
    ensures exists skipped: nat ::
              && skipped <= |rows|
              && Recent(rows, limit) == rows[skipped..]
              && |rows| - skipped == Min(|rows|, Max(1, limit))
  {
    var wanted := Max(1, limit);
    var skipped: nat := if |rows| <= wanted then 0 else |rows| - wanted;
    assert Recent(rows, limit) == rows[skipped..];
  }
}
