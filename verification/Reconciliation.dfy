/** What the sweep over open invoices finds, and what it can no longer find. */
module Reconciliation {
  import opened Prelude
  import opened Ledger
  import opened Catalog
  import opened Store
  import opened Billing
  import opened Settlement

  /** What the store lists as open: distinct invoices, all pending. */
  ghost predicate IsOpenList(b: Books, open: seq<string>) {
    && (forall i, j :: 0 <= i < j < |open| ==> open[i] != open[j])
    && (forall i :: 0 <= i < |open| ==> open[i] in b.invoices && b.invoices[open[i]].status.Pending?)
  }

  predicate PaidFor(b: Books, id: string, asked: Asked)
    requires id in b.invoices
  {
    asked.Heard? && asked.payment.Some? && Settles(asked.payment.value, b.invoices[id])
  }

  /** The invoices a sweep settles, told from the books it began with alone. */
  function Settleable(c: Catalog, b: Books, open: seq<string>, asked: string -> Asked): seq<Invoice> {
    if open == [] then []
    else
      var id := open[|open| - 1];
      Settleable(c, b, open[..|open| - 1], asked) +
      (if id in b.invoices && PaidFor(b, id, asked(id)) && c.Product(b.invoices[id].sku).Some?
       then [b.invoices[id].MarkedPaid(asked(id).payment.value.txHash, asked(id).payment.value.payer)] else [])
  }

  lemma ConfirmTouchesItsOwn(c: Catalog, b: Books, id: string, asked: Asked, now: int, other: string)
    requires KeyedInvoices(b) && other != id
    ensures
      var after := Confirmed(c, b, id, asked, now).0;
      && KeyedInvoices(after) && after.invoices.Keys == b.invoices.Keys
      && (other in b.invoices ==> after.invoices[other] == b.invoices[other])
      && (Recorded(after.ledger, ForInvoice(other)) <==> Recorded(b.ledger, ForInvoice(other)))
      && b.ledger <= after.ledger
  {
    if id in b.invoices && !b.invoices[id].status.Paid? && PaidFor(b, id, asked)
       && c.Product(b.invoices[id].sku).Some? {
      var paid := b.invoices[id].MarkedPaid(asked.payment.value.txHash, asked.payment.value.payer);
      OtherKeysStay(b.ledger, DeliveryRow(c.Product(paid.sku).value, paid, now), ForInvoice(other));
    }
  }

  lemma ConfirmSettlesExactly(c: Catalog, b: Books, id: string, asked: Asked, now: int)
    requires KeyedInvoices(b) && id in b.invoices && !b.invoices[id].status.Paid?
    ensures
      var (after, r) := Confirmed(c, b, id, asked, now);
      && (after.invoices[id].status.Paid? <==> PaidFor(b, id, asked))
      && (r.Some? && r.value.status.Paid? <==> PaidFor(b, id, asked) && c.Product(b.invoices[id].sku).Some?)
      && (PaidFor(b, id, asked) && c.Product(b.invoices[id].sku).Some? ==>
            r == Some(b.invoices[id].MarkedPaid(asked.payment.value.txHash, asked.payment.value.payer))
            && Recorded(after.ledger, ForInvoice(id)))
      && (!(PaidFor(b, id, asked) && c.Product(b.invoices[id].sku).Some?) ==> after.ledger == b.ledger)
  {
    if PaidFor(b, id, asked) && c.Product(b.invoices[id].sku).Some? {
      var paid := b.invoices[id].MarkedPaid(asked.payment.value.txHash, asked.payment.value.payer);
      var row := DeliveryRow(c.Product(paid.sku).value, paid, now);
      if !Refused(b.ledger, row) {
        assert Append(b.ledger, row)[|b.ledger|] == row;
      }
    }
  }

  /** An invoice the sweep does not list keeps its row, and is not credited. */
  lemma {:induction false} UnlistedIsUntouched(c: Catalog, b: Books, open: seq<string>, asked: string -> Asked,
                                               now: int, other: string)
    requires KeyedInvoices(b) && other !in open
    ensures
      var after := Reconciled(c, b, open, asked, now).0;
      && KeyedInvoices(after) && after.invoices.Keys == b.invoices.Keys
      && (other in b.invoices ==> after.invoices[other] == b.invoices[other])
      && (Recorded(after.ledger, ForInvoice(other)) <==> Recorded(b.ledger, ForInvoice(other)))
      && b.ledger <= after.ledger
  {
    if open != [] {
      var before, id := open[..|open| - 1], open[|open| - 1];
      assert open == before + [id];
      UnlistedIsUntouched(c, b, before, asked, now, other);
      ConfirmTouchesItsOwn(c, Reconciled(c, b, before, asked, now).0, id, asked(id), now, other);
    }
  }

  /** The sweep lists the invoices that were paid, in order, whatever confirming the others did. */
  lemma {:induction false} SweepListsThePaid(c: Catalog, b: Books, open: seq<string>, asked: string -> Asked, now: int)
    requires KeyedInvoices(b) && IsOpenList(b, open)
    ensures Reconciled(c, b, open, asked, now).1 == Settleable(c, b, open, asked)
  {
    if open != [] {
      var before, id := open[..|open| - 1], open[|open| - 1];
      assert open == before + [id];
      SweepListsThePaid(c, b, before, asked, now);
      UnlistedIsUntouched(c, b, before, asked, now, id);
      ConfirmSettlesExactly(c, Reconciled(c, b, before, asked, now).0, id, asked(id), now);
    }
  }

  lemma OpenListBefore(b: Books, open: seq<string>)
    requires IsOpenList(b, open) && open != []
    ensures IsOpenList(b, open[..|open| - 1])
  {
  }

  /** A listed invoice is marked paid exactly when its payment was found, and credited if its product is still sold. */
  lemma {:induction false} SweepSettlesThePaid(c: Catalog, b: Books, open: seq<string>, asked: string -> Asked,
                                               now: int, id: string)
    requires KeyedInvoices(b) && IsOpenList(b, open) && id in open
    ensures
      var after := Reconciled(c, b, open, asked, now).0;
      && id in after.invoices
      && (after.invoices[id].status.Paid? <==> PaidFor(b, id, asked(id)))
      && (PaidFor(b, id, asked(id)) && c.Product(b.invoices[id].sku).Some? ==> Recorded(after.ledger, ForInvoice(id)))
  {
    var before, last := open[..|open| - 1], open[|open| - 1];
    assert open == before + [last];
    if id == last {
      LastIsSettled(c, b, before, asked, now, id);
    } else {
      OpenListBefore(b, open);
      SweepSettlesThePaid(c, b, before, asked, now, id);
      UnlistedIsUntouched(c, b, before, asked, now, last);
      ConfirmTouchesItsOwn(c, Reconciled(c, b, before, asked, now).0, last, asked(last), now, id);
    }
  }

  lemma LastIsSettled(c: Catalog, b: Books, before: seq<string>, asked: string -> Asked, now: int, id: string)
    requires KeyedInvoices(b) && IsOpenList(b, before + [id])
    ensures
      var after := Reconciled(c, b, before + [id], asked, now).0;
      && id in after.invoices
      && (after.invoices[id].status.Paid? <==> PaidFor(b, id, asked(id)))
      && (PaidFor(b, id, asked(id)) && c.Product(b.invoices[id].sku).Some? ==> Recorded(after.ledger, ForInvoice(id)))
  {
    assert (before + [id])[..|before|] == before;
    OpenListBefore(b, before + [id]);
    assert (before + [id])[|before|] == id;
    UnlistedIsUntouched(c, b, before, asked, now, id);
    ConfirmSettlesExactly(c, Reconciled(c, b, before, asked, now).0, id, asked(id), now);
  }

  /**
   So money that arrives for an invoice not yet credited is found by a sweep that lists every
   pending one exactly when the invoice is still pending; once it has lapsed, only confirming
   that invoice finds it.
   */
  lemma LatePaymentIsFoundIffPending(c: Catalog, b: Books, open: seq<string>, asked: string -> Asked, now: int,
                                     id: string)
    requires KeyedInvoices(b) && IsOpenList(b, open)
    requires forall other :: other in b.invoices && b.invoices[other].status.Pending? ==> other in open
    requires id in b.invoices && !b.invoices[id].status.Paid? && !Recorded(b.ledger, ForInvoice(id))
    requires PaidFor(b, id, asked(id)) && c.Product(b.invoices[id].sku).Some?
    ensures Recorded(Reconciled(c, b, open, asked, now).0.ledger, ForInvoice(id)) <==> b.invoices[id].status.Pending?
    ensures Recorded(Confirmed(c, b, id, asked(id), now).0.ledger, ForInvoice(id))
  {
    ConfirmSettlesExactly(c, b, id, asked(id), now);
    if id in open {
      SweepSettlesThePaid(c, b, open, asked, now, id);
    } else {
      UnlistedIsUntouched(c, b, open, asked, now, id);
    }
  }
}
