/**
 Runs kept in this process: an insertion-ordered dictionary, swept of what expired on every
 access and bounded by evicting from its front, against the whole history of its accesses.
 */
module RunStore {
  import opened Prelude
  import Runs

  /** A run and when it last moved. */
  datatype Stored = Stored(run: Runs.Run, updatedAt: int)

  predicate Distinct(items: seq<Stored>) {
    forall i, j :: 0 <= i < j < |items| ==> items[i].run.id != items[j].run.id
  }

  // ---------- the dictionary as a value ----------

  function Without(items: seq<Stored>, id: string): seq<Stored> {
    if items == [] then []
    else Without(items[..|items| - 1], id) + (if items[|items| - 1].run.id == id then [] else [items[|items| - 1]])
  }

  function Swept(items: seq<Stored>, cutoff: int): seq<Stored> {
    if items == [] then []
    else Swept(items[..|items| - 1], cutoff) +
         (if items[|items| - 1].updatedAt < cutoff then [] else [items[|items| - 1]])
  }

  function Trimmed(items: seq<Stored>, max: nat): seq<Stored> {
    if |items| > max then items[|items| - max..] else items
  }

  /** At the end of the order, whether or not it was already present, evicting from the front. */
  function Placed(items: seq<Stored>, item: Stored, max: nat): seq<Stored> {
    Trimmed(Without(items, item.run.id) + [item], max)
  }

  function Lookup(items: seq<Stored>, id: string): Option<Stored> {
    if items == [] then None
    else if items[|items| - 1].run.id == id then Some(items[|items| - 1])
    else Lookup(items[..|items| - 1], id)
  }

  lemma {:induction false} LookupFindsIt(items: seq<Stored>, x: Stored)
    requires Distinct(items)
    ensures x in items <==> Lookup(items, x.run.id) == Some(x)
  {
    if items != [] {
      LookupFindsIt(items[..|items| - 1], x);
      assert items == items[..|items| - 1] + [items[|items| - 1]];
    }
  }

  lemma {:induction false} WithoutHas(items: seq<Stored>, id: string)
    ensures forall x :: x in Without(items, id) <==> x in items && x.run.id != id
    ensures Distinct(items) ==> Distinct(Without(items, id))
  {
    if items != [] {
      WithoutHas(items[..|items| - 1], id);
      assert items == items[..|items| - 1] + [items[|items| - 1]];
    }
  }

  lemma {:induction false} SweptHas(items: seq<Stored>, cutoff: int)
    ensures forall x :: x in Swept(items, cutoff) <==> x in items && x.updatedAt >= cutoff
    ensures Distinct(items) ==> Distinct(Swept(items, cutoff))
  {
    if items != [] {
      SweptHas(items[..|items| - 1], cutoff);
      assert items == items[..|items| - 1] + [items[|items| - 1]];
    }
  }

  lemma PlacedHas(items: seq<Stored>, item: Stored, max: nat)
    requires Distinct(items)
    ensures Distinct(Placed(items, item, max)) && |Placed(items, item, max)| <= max
    ensures forall x :: x in Placed(items, item, max) ==> x == item || (x in items && x.run.id != item.run.id)
  {
    var kept := Without(items, item.run.id);
    WithoutHas(items, item.run.id);
    assert forall i :: 0 <= i < |kept| ==> kept[i] in kept;
  }

  lemma {:induction false} WithoutAppend(a: seq<Stored>, b: seq<Stored>, id: string)
    ensures Without(a + b, id) == Without(a, id) + Without(b, id)
    decreases |b|
  {
    if b == [] {
      assert a + b == a;
    } else {
      assert (a + b)[..|a + b| - 1] == a + b[..|b| - 1];
      WithoutAppend(a, b[..|b| - 1], id);
    }
  }

  lemma {:induction false} WithoutAbsent(items: seq<Stored>, id: string)
    requires forall x :: x in items ==> x.run.id != id
    ensures Without(items, id) == items
  {
    if items != [] {
      WithoutAbsent(items[..|items| - 1], id);
      assert items == items[..|items| - 1] + [items[|items| - 1]];
    }
  }

  // ---------- the store ----------

  class InMemoryRunStore {
    var runs: seq<Stored>
    const ttl: int
    const maxRuns: nat

    constructor (ttl: int, maxRuns: nat)
      ensures runs == [] && this.ttl == ttl && this.maxRuns == maxRuns
    {
      runs, this.ttl, this.maxRuns := [], ttl, maxRuns;
    }

    method Put(item: Stored, now: int)
      requires Distinct(runs)
      modifies this
      ensures runs == Accessed(old(runs), PutAt(item, now), ttl, maxRuns)
    {
      Sweep(now);
      runs := Without(runs, item.run.id) + [item];
      Evict();
    }

    method Evict()
      modifies this
      ensures runs == Trimmed(old(runs), maxRuns)
    {
      ghost var whole := runs;
      while |runs| > maxRuns
        invariant |runs| <= |whole| && runs == whole[|whole| - |runs|..]
        invariant |runs| == |whole| || |runs| >= maxRuns
      {
        runs := runs[1..];
      }
    }

    method Get(id: string, now: int) returns (r: Option<Stored>)
      requires Distinct(runs)
      modifies this
      ensures runs == Accessed(old(runs), GetAt(id, now), ttl, maxRuns)
      ensures r == Lookup(runs, id)
    {
      Sweep(now);
      r := Lookup(runs, id);
    }

    method Sweep(now: int)
      requires Distinct(runs)
      modifies this
      ensures runs == Swept(old(runs), now - ttl) && Distinct(runs)
    {
      var cutoff, was := now - ttl, runs;
      for i := 0 to |was|
        invariant runs == Swept(was[..i], cutoff) + was[i..]
      {
        OneMoreSwept(was, i, cutoff);
        if was[i].updatedAt < cutoff {
          runs := Without(runs, was[i].run.id);
        }
      }
      assert was[..|was|] == was;
      SweptHas(was, cutoff);
    }
  }

  lemma OneMoreSwept(was: seq<Stored>, i: nat, cutoff: int)
    requires i < |was| && Distinct(was)
    ensures
      Swept(was[..i + 1], cutoff) + was[i + 1..] ==
      var runs := Swept(was[..i], cutoff) + was[i..];
      if was[i].updatedAt < cutoff then Without(runs, was[i].run.id) else runs
  {
    assert was[..i + 1][..i] == was[..i] && was[i..] == [was[i]] + was[i + 1..];
    if was[i].updatedAt < cutoff {
      DeletesJustTheOne(was, i, cutoff);
      assert Swept(was[..i], cutoff) + [] == Swept(was[..i], cutoff);
    } else {
      assert Swept(was[..i], cutoff) + ([was[i]] + was[i + 1..])
          == Swept(was[..i], cutoff) + [was[i]] + was[i + 1..];
    }
  }

  lemma DeletesJustTheOne(was: seq<Stored>, i: nat, cutoff: int)
    requires i < |was| && Distinct(was)
    ensures
      Without(Swept(was[..i], cutoff) + was[i..], was[i].run.id) == Swept(was[..i], cutoff) + was[i + 1..]
  {
    var before, x, rest := Swept(was[..i], cutoff), was[i], was[i + 1..];
    SweptHas(was[..i], cutoff);
    assert was[i..] == [x] + rest;
    WithoutTheMiddle(before, x, rest);
  }

  lemma WithoutTheMiddle(before: seq<Stored>, x: Stored, rest: seq<Stored>)
    requires forall y :: y in before || y in rest ==> y.run.id != x.run.id
    ensures Without(before + ([x] + rest), x.run.id) == before + rest
  {
    WithoutAppend(before, [x] + rest, x.run.id);
    WithoutAppend([x], rest, x.run.id);
    WithoutAbsent(before, x.run.id);
    WithoutAbsent(rest, x.run.id);
    assert Without([x], x.run.id) == [];
    assert [] + rest == rest;
  }

  // ---------- a whole history ----------

  datatype Access = PutAt(item: Stored, now: int) | GetAt(id: string, now: int)

  function Accessed(items: seq<Stored>, a: Access, ttl: int, max: nat): seq<Stored> {
    match a
    case PutAt(item, now) => Placed(Swept(items, now - ttl), item, max)
    case GetAt(_, now) => Swept(items, now - ttl)
  }

  function After(h: seq<Access>, ttl: int, max: nat): seq<Stored> {
    if h == [] then [] else Accessed(After(h[..|h| - 1], ttl, max), h[|h| - 1], ttl, max)
  }

  function LastPut(h: seq<Access>, id: string): Option<Stored> {
    if h == [] then None
    else
      match h[|h| - 1]
      case PutAt(item, _) => if item.run.id == id then Some(item) else LastPut(h[..|h| - 1], id)
      case GetAt(_, _) => LastPut(h[..|h| - 1], id)
  }

  /** The other runs put since this one last was. */
  function OthersSince(h: seq<Access>, id: string): set<string> {
    if h == [] then {}
    else
      match h[|h| - 1]
      case PutAt(item, _) => if item.run.id == id then {} else OthersSince(h[..|h| - 1], id) + {item.run.id}
      case GetAt(_, _) => OthersSince(h[..|h| - 1], id)
  }

  /** The runs behind this one in the dictionary's order, which eviction reaches later. */
  function Behind(items: seq<Stored>, id: string): set<string> {
    if items == [] || items[|items| - 1].run.id == id then {}
    else Behind(items[..|items| - 1], id) + {items[|items| - 1].run.id}
  }

  ghost predicate ClockForward(h: seq<Access>) {
    forall i, j :: 0 <= i < j < |h| ==> h[i].now <= h[j].now
  }

  // ---------- only the last value put ----------

  lemma AccessedHas(items: seq<Stored>, a: Access, ttl: int, max: nat)
    requires Distinct(items) && |items| <= max
    ensures Distinct(Accessed(items, a, ttl, max)) && |Accessed(items, a, ttl, max)| <= max
    ensures forall x :: x in Accessed(items, a, ttl, max) ==>
      if a.PutAt? && x.run.id == a.item.run.id then x == a.item else x in items && x.updatedAt >= a.now - ttl
  {
    SweptHas(items, a.now - ttl);
    SweptIsShorter(items, a.now - ttl);
    match a
    case PutAt(item, now) => PlacedHas(Swept(items, now - ttl), item, max);
    case GetAt(_, _) =>
  }

  lemma SweptIsShorter(items: seq<Stored>, cutoff: int)
    ensures |Swept(items, cutoff)| <= |items|
  {
  }

  lemma {:induction false} HoldsLastPuts(h: seq<Access>, ttl: int, max: nat)
    ensures Distinct(After(h, ttl, max)) && |After(h, ttl, max)| <= max
    ensures forall x :: x in After(h, ttl, max) ==> LastPut(h, x.run.id) == Some(x)
  {
    if h != [] {
      HoldsLastPuts(h[..|h| - 1], ttl, max);
      AccessedHas(After(h[..|h| - 1], ttl, max), h[|h| - 1], ttl, max);
    }
  }

  // ---------- what lies behind a run ----------

  lemma {:induction false} BehindAppend(items: seq<Stored>, item: Stored, id: string)
    ensures Behind(items + [item], id) == if item.run.id == id then {} else Behind(items, id) + {item.run.id}
  {
    assert (items + [item])[..|items|] == items;
  }

  lemma {:induction false} BehindWithout(items: seq<Stored>, other: string, id: string)
    requires other != id
    ensures Behind(Without(items, other), id) == Behind(items, id) - {other}
  {
    if items != [] {
      var before, last := items[..|items| - 1], items[|items| - 1];
      BehindWithout(before, other, id);
      if last.run.id == other {
        assert Without(items, other) == Without(before, other);
      } else {
        BehindAppend(Without(before, other), last, id);
      }
    }
  }

  lemma {:induction false} BehindSwept(items: seq<Stored>, cutoff: int, x: Stored)
    requires Distinct(items) && x in items && x.updatedAt >= cutoff
    ensures Behind(Swept(items, cutoff), x.run.id) <= Behind(items, x.run.id)
  {
    var before, last := items[..|items| - 1], items[|items| - 1];
    assert items == before + [last];
    if last.updatedAt >= cutoff {
      BehindAppend(Swept(before, cutoff), last, x.run.id);
    } else {
      assert Swept(items, cutoff) == Swept(before, cutoff);
    }
    if last != x {
      BehindSwept(before, cutoff, x);
    }
  }

  /** Eviction reaches a run exactly when as many runs as the store holds lie behind it. */
  lemma EvictedByNumber(items: seq<Stored>, max: nat, x: Stored)
    requires Distinct(items) && x in items
    ensures x in Trimmed(items, max) <==> |Behind(items, x.run.id)| < max
    ensures x in Trimmed(items, max) ==> Behind(Trimmed(items, max), x.run.id) == Behind(items, x.run.id)
  {
    var k :| 0 <= k < |items| && items[k] == x;
    BehindCounts(items, k);
    TrimmedFrom(items, max, k);
    if |items| - 1 - k < max {
      BehindTrimmed(items, max, k);
    }
  }

  lemma BehindTrimmed(items: seq<Stored>, max: nat, k: nat)
    requires Distinct(items) && k < |items| && |items| - 1 - k < max
    ensures Behind(Trimmed(items, max), items[k].run.id) == Behind(items, items[k].run.id)
  {
    if |items| > max {
      var n: nat := |items| - max;
      BehindDrop(items, n, k);
      assert Trimmed(items, max) == items[n..];
    } else {
      assert Trimmed(items, max) == items;
    }
  }

  lemma TrimmedFrom(items: seq<Stored>, max: nat, k: nat)
    requires Distinct(items) && k < |items|
    ensures items[k] in Trimmed(items, max) <==> |items| - 1 - k < max
  {
    if |items| > max {
      var n := |items| - max;
      if k >= n {
        assert items[n..][k - n] == items[k];
      }
    }
  }

  lemma {:induction false} BehindHas(items: seq<Stored>, id: string, other: string)
    requires other in Behind(items, id)
    ensures exists k :: 0 <= k < |items| && items[k].run.id == other
  {
    var before, last := items[..|items| - 1], items[|items| - 1];
    if last.run.id != other {
      BehindHas(before, id, other);
      var k :| 0 <= k < |before| && before[k].run.id == other;
      assert items[k].run.id == other;
    }
  }

  lemma {:induction false} BehindCounts(items: seq<Stored>, k: nat)
    requires Distinct(items) && k < |items|
    ensures |Behind(items, items[k].run.id)| == |items| - 1 - k
  {
    if k < |items| - 1 {
      var before, last := items[..|items| - 1], items[|items| - 1];
      BehindCounts(before, k);
      if last.run.id in Behind(before, items[k].run.id) {
        BehindHas(before, items[k].run.id, last.run.id);
        assert false;
      }
    }
  }

  lemma {:induction false} BehindDrop(items: seq<Stored>, n: nat, k: nat)
    requires Distinct(items) && n <= k < |items|
    ensures Behind(items[n..], items[k].run.id) == Behind(items, items[k].run.id)
  {
    if k < |items| - 1 {
      var before := items[..|items| - 1];
      BehindDrop(before, n, k);
      assert items[n..][..|items| - n - 1] == before[n..];
    }
  }

  // ---------- a run put is kept ----------

  ghost predicate StillHeld(h: seq<Access>, id: string, ttl: int, max: nat) {
    match LastPut(h, id)
    case None => true
    case Some(x) =>
      x in After(h, ttl, max) && Behind(After(h, ttl, max), id) <= OthersSince(h, id)
  }

  lemma {:induction false} KeptWhileFewFollow(h: seq<Access>, id: string, ttl: int, max: nat)
    requires ClockForward(h) && h != []
    requires LastPut(h, id).Some? && LastPut(h, id).value.updatedAt >= h[|h| - 1].now - ttl
    requires |OthersSince(h, id)| < max
    ensures StillHeld(h, id, ttl, max)
  {
    var before, last := h[..|h| - 1], h[|h| - 1];
    assert h == before + [last];
    HeldOnce(before, ttl, max);
    if Puts(last, id) {
      HeldOncePut(before, last, ttl, max);
    } else {
      ClockBefore(h);
      PutBefore(before, last, id);
      KeptWhileFewFollow(before, id, ttl, max);
      AfterOneMore(before, last, ttl, max);
      var _ := HeldThroughAccess(After(before, ttl, max), last, LastPut(before, id).value, OthersSince(before, id),
                                 ttl, max);
    }
  }

  lemma PutBefore(before: seq<Access>, a: Access, id: string)
    requires !Puts(a, id)
    ensures LastPut(before + [a], id) == LastPut(before, id)
    ensures OthersSince(before + [a], id) == Since(OthersSince(before, id), a)
    ensures |OthersSince(before, id)| <= |OthersSince(before + [a], id)|
    ensures LastPut(before, id).Some? ==> before != [] && LastPut(before, id).value.run.id == id
  {
    assert (before + [a])[..|before|] == before;
    SubsetIsNoLarger(OthersSince(before, id), OthersSince(before + [a], id));
    LastPutHasItsId(before, id);
  }

  lemma HeldOncePut(before: seq<Access>, a: Access, ttl: int, max: nat)
    requires a.PutAt? && Distinct(After(before, ttl, max)) && max > 0
    ensures StillHeld(before + [a], a.item.run.id, ttl, max)
  {
    assert (before + [a])[..|before|] == before;
    JustPutSwept(After(before, ttl, max), a.now - ttl, a.item, max);
  }

  lemma ClockBefore(h: seq<Access>)
    requires ClockForward(h) && h != []
    ensures ClockForward(h[..|h| - 1])
    ensures |h| > 1 ==> h[..|h| - 1][|h| - 2].now <= h[|h| - 1].now
  {
  }

  lemma AfterOneMore(before: seq<Access>, a: Access, ttl: int, max: nat)
    ensures After(before + [a], ttl, max) == Accessed(After(before, ttl, max), a, ttl, max)
  {
    assert (before + [a])[..|before|] == before;
  }

  /** An access that does not put the run, and does not find it expired, leaves it held. */
  lemma HeldThroughAccess(items: seq<Stored>, a: Access, x: Stored, others: set<string>, ttl: int, max: nat)
    returns (after: seq<Stored>)
    requires Distinct(items) && x in items && Behind(items, x.run.id) <= others
    requires !Puts(a, x.run.id) && x.updatedAt >= a.now - ttl && |Since(others, a)| < max
    ensures after == Accessed(items, a, ttl, max)
    ensures x in after && Behind(after, x.run.id) <= Since(others, a)
  {
    match a
    case PutAt(item, now) => after := KeptByPut(items, item, now, x, others, ttl, max);
    case GetAt(id, now) => after := KeptByGet(items, id, now, x, others, ttl, max);
  }

  lemma KeptByPut(items: seq<Stored>, item: Stored, now: int, x: Stored, others: set<string>, ttl: int, max: nat)
    returns (after: seq<Stored>)
    requires Distinct(items) && x in items && x.updatedAt >= now - ttl && item.run.id != x.run.id
    requires Behind(items, x.run.id) <= others && |others + {item.run.id}| < max
    ensures after == Accessed(items, PutAt(item, now), ttl, max)
    ensures x in after && Behind(after, x.run.id) <= others + {item.run.id}
  {
    after := KeptByAPut(items, item, now - ttl, x, others, max);
    AccessedPut(items, item, now, ttl, max, after);
  }

  lemma AccessedPut(items: seq<Stored>, item: Stored, now: int, ttl: int, max: nat, after: seq<Stored>)
    requires after == Placed(Swept(items, now - ttl), item, max)
    ensures after == Accessed(items, PutAt(item, now), ttl, max)
  {
  }

  lemma KeptByGet(items: seq<Stored>, id: string, now: int, x: Stored, others: set<string>, ttl: int, max: nat)
    returns (after: seq<Stored>)
    requires Distinct(items) && x in items && x.updatedAt >= now - ttl && Behind(items, x.run.id) <= others
    ensures after == Accessed(items, GetAt(id, now), ttl, max)
    ensures x in after && Behind(after, x.run.id) <= others
  {
    after := Swept(items, now - ttl);
    KeptByASweep(items, now - ttl, x, others);
  }

  lemma HeldOnce(h: seq<Access>, ttl: int, max: nat)
    ensures Distinct(After(h, ttl, max)) && |After(h, ttl, max)| <= max
  {
    HoldsLastPuts(h, ttl, max);
  }

  function Since(others: set<string>, a: Access): set<string> {
    if a.PutAt? then others + {a.item.run.id} else others
  }

  lemma KeptByASweep(items: seq<Stored>, cutoff: int, x: Stored, others: set<string>)
    requires Distinct(items) && x in items && x.updatedAt >= cutoff && Behind(items, x.run.id) <= others
    ensures Distinct(Swept(items, cutoff)) && x in Swept(items, cutoff)
    ensures Behind(Swept(items, cutoff), x.run.id) <= others
  {
    SweptHas(items, cutoff);
    BehindSwept(items, cutoff, x);
  }

  lemma KeptByAPut(items: seq<Stored>, item: Stored, cutoff: int, x: Stored, others: set<string>, max: nat)
    returns (after: seq<Stored>)
    requires Distinct(items) && x in items && x.updatedAt >= cutoff && item.run.id != x.run.id
    requires Behind(items, x.run.id) <= others && |others + {item.run.id}| < max
    ensures after == Placed(Swept(items, cutoff), item, max)
    ensures x in after && Behind(after, x.run.id) <= others + {item.run.id}
  {
    after := Placed(Swept(items, cutoff), item, max);
    KeptByASweep(items, cutoff, x, others);
    OneMoreFollows(Swept(items, cutoff), x, item, max, others);
  }

  lemma JustPut(items: seq<Stored>, x: Stored, max: nat)
    requires Distinct(items) && max > 0
    ensures x in Placed(items, x, max) && Behind(Placed(items, x, max), x.run.id) == {}
  {
    var all := Without(items, x.run.id) + [x];
    WithoutHas(items, x.run.id);
    BehindAppend(Without(items, x.run.id), x, x.run.id);
    assert x in all && Distinct(all);
    EvictedByNumber(all, max, x);
  }

  lemma JustPutSwept(items: seq<Stored>, cutoff: int, x: Stored, max: nat)
    requires Distinct(items) && max > 0
    ensures x in Placed(Swept(items, cutoff), x, max)
    ensures Behind(Placed(Swept(items, cutoff), x, max), x.run.id) == {}
  {
    SweptHas(items, cutoff);
    JustPut(Swept(items, cutoff), x, max);
  }

  lemma OneMoreFollows(items: seq<Stored>, x: Stored, other: Stored, max: nat, since: set<string>)
    requires Distinct(items) && x in items && other.run.id != x.run.id
    requires Behind(items, x.run.id) <= since && |since + {other.run.id}| < max
    ensures x in Placed(items, other, max)
    ensures Behind(Placed(items, other, max), x.run.id) <= since + {other.run.id}
  {
    var all := Without(items, other.run.id) + [other];
    WithoutHas(items, other.run.id);
    assert x in all && Distinct(all);
    BehindWithout(items, other.run.id, x.run.id);
    BehindAppend(Without(items, other.run.id), other, x.run.id);
    SubsetIsNoLarger(Behind(all, x.run.id), since + {other.run.id});
    EvictedByNumber(all, max, x);
  }

  lemma {:induction false} LastPutHasItsId(h: seq<Access>, id: string)
    ensures LastPut(h, id).Some? ==> LastPut(h, id).value.run.id == id
  {
    if h != [] {
      LastPutHasItsId(h[..|h| - 1], id);
    }
  }

  /**
   With a clock that never goes back, `get` answers only with the last value put for the id,
   unexpired; and it does so whenever that value is unexpired and fewer than `max` other runs
   were put since.
   */
  lemma GetAgreesWithHistory(h: seq<Access>, id: string, now: int, ttl: int, max: nat)
    requires ClockForward(h + [GetAt(id, now)])
    ensures
      var got, put := Lookup(After(h + [GetAt(id, now)], ttl, max), id), LastPut(h, id);
      && (got.Some? ==> got == put && put.value.updatedAt >= now - ttl)
      && (put.Some? && put.value.updatedAt >= now - ttl && |OthersSince(h, id)| < max ==> got == put)
  {
    var all := h + [GetAt(id, now)];
    assert all[..|h|] == h;
    HoldsLastPuts(all, ttl, max);
    HoldsLastPuts(h, ttl, max);
    SweptHas(After(h, ttl, max), now - ttl);
    var got, put := Lookup(After(all, ttl, max), id), LastPut(h, id);
    LookupHasItsId(After(all, ttl, max), id);
    if got.Some? {
      LookupFindsIt(After(all, ttl, max), got.value);
    }
    if put.Some? && put.value.updatedAt >= now - ttl && |OthersSince(h, id)| < max {
      LastPutHasItsId(h, id);
      KeptWhileFewFollow(all, id, ttl, max);
      LookupFindsIt(After(all, ttl, max), put.value);
    }
  }

  lemma {:induction false} LookupHasItsId(items: seq<Stored>, id: string)
    ensures Lookup(items, id).Some? ==> Lookup(items, id).value.run.id == id
  {
    if items != [] {
      LookupHasItsId(items[..|items| - 1], id);
    }
  }

  // ---------- exactly, when runs are put in the order they moved ----------

  ghost predicate PutInOrder(h: seq<Access>) {
    forall i, j :: 0 <= i < j < |h| && h[i].PutAt? && h[j].PutAt? ==> h[i].item.updatedAt <= h[j].item.updatedAt
  }

  ghost predicate Ascending(items: seq<Stored>) {
    forall i, j :: 0 <= i < j < |items| ==> items[i].updatedAt <= items[j].updatedAt
  }

  lemma {:induction false} AscendingParts(items: seq<Stored>, cutoff: int, id: string)
    requires Ascending(items)
    ensures Ascending(Swept(items, cutoff)) && Ascending(Without(items, id))
  {
    if items != [] {
      var before, last := items[..|items| - 1], items[|items| - 1];
      AscendingParts(before, cutoff, id);
      SweptHasOnly(before, cutoff);
      WithoutHasOnly(before, id);
      AscendingAppend(Swept(before, cutoff), last);
      AscendingAppend(Without(before, id), last);
      assert Swept(before, cutoff) + [] == Swept(before, cutoff) && Without(before, id) + [] == Without(before, id);
    }
  }

  lemma AscendingAppend(items: seq<Stored>, item: Stored)
    requires Ascending(items) && forall x :: x in items ==> x.updatedAt <= item.updatedAt
    ensures Ascending(items + [item])
  {
    assert forall i :: 0 <= i < |items| ==> items[i] in items;
  }

  lemma AscendingPlaced(items: seq<Stored>, item: Stored, max: nat)
    requires Ascending(items) && forall x :: x in items ==> x.updatedAt <= item.updatedAt
    ensures Ascending(Placed(items, item, max))
  {
    AscendingParts(items, 0, item.run.id);
    WithoutHasOnly(items, item.run.id);
    AscendingAppend(Without(items, item.run.id), item);
  }

  lemma SweptHasOnly(items: seq<Stored>, cutoff: int)
    ensures forall x :: x in Swept(items, cutoff) ==> x in items
  {
    SweptHas(items, cutoff);
  }

  lemma WithoutHasOnly(items: seq<Stored>, id: string)
    ensures forall x :: x in Without(items, id) ==> x in items
  {
    WithoutHas(items, id);
  }

  ghost predicate WasPut(h: seq<Access>, x: Stored) {
    exists i :: 0 <= i < |h| && h[i].PutAt? && h[i].item == x
  }

  lemma {:induction false} HeldWasPut(h: seq<Access>, ttl: int, max: nat, x: Stored)
    requires x in After(h, ttl, max)
    ensures WasPut(h, x)
  {
    var before, last := h[..|h| - 1], h[|h| - 1];
    SweptHasOnly(After(before, ttl, max), last.now - ttl);
    if last.PutAt? && x == last.item {
      assert h[|h| - 1].item == x;
    } else {
      if last.PutAt? {
        WithoutHasOnly(Swept(After(before, ttl, max), last.now - ttl), last.item.run.id);
      }
      HeldWasPut(before, ttl, max, x);
      var i :| 0 <= i < |before| && before[i].PutAt? && before[i].item == x;
      assert h[i] == before[i];
    }
  }

  lemma {:induction false} HeldInOrder(h: seq<Access>, ttl: int, max: nat)
    requires PutInOrder(h)
    ensures Ascending(After(h, ttl, max))
  {
    if h != [] {
      var before, last := h[..|h| - 1], h[|h| - 1];
      HeldInOrder(before, ttl, max);
      var items := After(before, ttl, max);
      AscendingParts(items, last.now - ttl, "");
      if last.PutAt? {
        SweptHasOnly(items, last.now - ttl);
        forall x | x in Swept(items, last.now - ttl) ensures x.updatedAt <= last.item.updatedAt {
          HeldWasPut(before, ttl, max, x);
          var i :| 0 <= i < |before| && before[i].PutAt? && before[i].item == x;
          assert h[i] == before[i];
        }
        AscendingPlaced(Swept(items, last.now - ttl), last.item, max);
      }
    }
  }

  /** In ascending order, nothing behind a run expires before it does. */
  lemma {:induction false} SweptKeepsBehind(items: seq<Stored>, cutoff: int, x: Stored)
    requires Distinct(items) && Ascending(items) && x in items && x.updatedAt >= cutoff
    ensures Behind(Swept(items, cutoff), x.run.id) == Behind(items, x.run.id)
  {
    var before, last := items[..|items| - 1], items[|items| - 1];
    assert items == before + [last];
    BehindAppend(Swept(before, cutoff), last, x.run.id);
    if last != x {
      SweptKeepsBehind(before, cutoff, x);
    }
  }

  lemma {:induction false} BehindIsOthersSince(h: seq<Access>, x: Stored, ttl: int, max: nat)
    requires PutInOrder(h) && x in After(h, ttl, max)
    ensures Behind(After(h, ttl, max), x.run.id) == OthersSince(h, x.run.id)
  {
    var before, last := h[..|h| - 1], h[|h| - 1];
    HeldOnce(before, ttl, max);
    PutInOrderBefore(h);
    HeldInOrder(before, ttl, max);
    BehindAfterAccess(After(before, ttl, max), last, x, ttl, max);
    if !Puts(last, x.run.id) {
      BehindIsOthersSince(before, x, ttl, max);
    }
  }

  predicate Puts(a: Access, id: string) { a.PutAt? && a.item.run.id == id }

  lemma PutInOrderBefore(h: seq<Access>)
    requires PutInOrder(h) && h != []
    ensures PutInOrder(h[..|h| - 1])
  {
  }

  lemma BehindAfterAccess(items: seq<Stored>, a: Access, x: Stored, ttl: int, max: nat)
    requires Distinct(items) && Ascending(items) && x in Accessed(items, a, ttl, max)
    ensures !Puts(a, x.run.id) ==> x in items
    ensures Behind(Accessed(items, a, ttl, max), x.run.id) ==
            if Puts(a, x.run.id) then {} else Since(Behind(items, x.run.id), a)
  {
    match a
    case PutAt(item, now) => BehindAfterPut(items, item, now - ttl, x, max);
    case GetAt(_, now) => BehindAfterGet(items, now - ttl, x);
  }

  lemma BehindAfterGet(items: seq<Stored>, cutoff: int, x: Stored)
    requires Distinct(items) && Ascending(items) && x in Swept(items, cutoff)
    ensures x in items && Behind(Swept(items, cutoff), x.run.id) == Behind(items, x.run.id)
  {
    SweptHas(items, cutoff);
    SweptKeepsBehind(items, cutoff, x);
  }

  lemma BehindAfterPut(items: seq<Stored>, item: Stored, cutoff: int, x: Stored, max: nat)
    requires Distinct(items) && Ascending(items) && x in Placed(Swept(items, cutoff), item, max)
    ensures item.run.id != x.run.id ==> x in items
    ensures Behind(Placed(Swept(items, cutoff), item, max), x.run.id) ==
            if item.run.id == x.run.id then {} else Behind(items, x.run.id) + {item.run.id}
  {
    SweptHas(items, cutoff);
    PlacedHas(Swept(items, cutoff), item, max);
    BehindPlaced(Swept(items, cutoff), item, max, x);
    if item.run.id != x.run.id {
      SweptKeepsBehind(items, cutoff, x);
    }
  }

  lemma BehindPlaced(items: seq<Stored>, item: Stored, max: nat, x: Stored)
    requires Distinct(items) && x in Placed(items, item, max)
    ensures Behind(Placed(items, item, max), x.run.id) ==
            if item.run.id == x.run.id then {} else Behind(items, x.run.id) + {item.run.id}
  {
    var all := Without(items, item.run.id) + [item];
    WithoutHas(items, item.run.id);
    assert x in all && Distinct(all);
    EvictedByNumber(all, max, x);
    BehindAppend(Without(items, item.run.id), item, x.run.id);
    if item.run.id != x.run.id {
      BehindWithout(items, item.run.id, x.run.id);
    }
  }

  /** When runs are put in the order they moved, `get` finds a run exactly under those two conditions. */
  lemma GetFindsExactly(h: seq<Access>, id: string, now: int, ttl: int, max: nat)
    requires ClockForward(h + [GetAt(id, now)]) && PutInOrder(h)
    ensures
      Lookup(After(h + [GetAt(id, now)], ttl, max), id).Some? <==>
      LastPut(h, id).Some? && LastPut(h, id).value.updatedAt >= now - ttl && |OthersSince(h, id)| < max
  {
    GetAgreesWithHistory(h, id, now, ttl, max);
    var all := h + [GetAt(id, now)];
    assert all[..|h|] == h;
    var got := Lookup(After(all, ttl, max), id);
    if got.Some? {
      HoldsLastPuts(h, ttl, max);
      HoldsLastPuts(all, ttl, max);
      LookupHasItsId(After(all, ttl, max), id);
      LookupFindsIt(After(all, ttl, max), got.value);
      SweptHas(After(h, ttl, max), now - ttl);
      BehindIsOthersSince(h, got.value, ttl, max);
      FewBehind(After(h, ttl, max), got.value);
    }
  }

  lemma FewBehind(items: seq<Stored>, x: Stored)
    requires Distinct(items) && x in items
    ensures |Behind(items, x.run.id)| < |items|
  {
    var k :| 0 <= k < |items| && items[k] == x;
    BehindCounts(items, k);
  }
}
