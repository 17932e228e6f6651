/** Retrying one instance: idempotent requests only, on transient failures, with backoff. */
module Retry {
  import opened Prelude

  datatype Trouble = TimedOut | Unreachable | Unusable

  /** How one call of the transport ends. `Aborted` is a cancellation: no verdict at all. */
  datatype Outcome = Response(status: int) | Failed(trouble: Trouble, sent: bool) | Aborted

  datatype Policy = Policy(maxAttempts: nat, base: real, cap: real, retryOn: set<int>) {
    predicate Valid() { maxAttempts >= 1 && base >= 0.0 && cap >= 0.0 }

    function DelayFor(attempt: nat): real
      requires attempt >= 1
    {
      var grown := base * Doubled(attempt - 1);
      if grown < cap then grown else cap
    }

    predicate Retries(o: Outcome) {
      match o
      case Response(status) => status in retryOn
      case Failed(trouble, _) => trouble.TimedOut? || trouble.Unreachable?
      case Aborted => false
    }
  }

  function Doubled(n: nat): (r: real)
    ensures r >= 1.0
  {
    if n == 0 then 1.0 else 2.0 * Doubled(n - 1)
  }

  /** The wait doubles with every attempt until it reaches the cap, and then stays there. */
  lemma BackoffDoublesToTheCap(p: Policy, attempt: nat)
    requires p.Valid() && attempt >= 1
    ensures 0.0 <= p.DelayFor(attempt) <= p.DelayFor(attempt + 1) <= p.cap
    ensures p.DelayFor(attempt + 1) == if 2.0 * p.DelayFor(attempt) < p.cap then 2.0 * p.DelayFor(attempt) else p.cap
  {
    var d := Doubled(attempt - 1);
    assert Doubled(attempt) == 2.0 * d;
    assert p.base * (2.0 * d) == 2.0 * (p.base * d);
    assert p.base * d >= 0.0;
  }

  /** The transport, with everything asked of it. What it answers is not up to this model. */
  class Transport {
    var calls: seq<Outcome>
    var discarded: seq<nat>    // positions in `calls` of the responses closed unread
    var waits: seq<real>

    constructor ()
      ensures calls == [] && discarded == [] && waits == []
    {
      calls, discarded, waits := [], [], [];
    }

    method Call() returns (o: Outcome)
      modifies this`calls
      ensures calls == old(calls) + [o]
    {
      o := *;
      calls := calls + [o];
    }

    /** Close the response that the last call opened. */
    method Discard()
      requires calls != []
      modifies this`discarded
      ensures discarded == old(discarded) + [|calls| - 1]
    {
      discarded := discarded + [|calls| - 1];
    }

    /** A wait, during which the caller may be cancelled. */
    method Sleep(delay: real) returns (cancelled: bool)
      modifies this`waits
      ensures waits == old(waits) + [delay]
    {
      waits := waits + [delay];
      cancelled := *;
    }
  }

  /** Another attempt was due, so these calls can only be all when the wait before it was cancelled. */
  predicate CutShort(p: Policy, idempotent: bool, calls: seq<Outcome>)
    requires calls != []
  {
    idempotent && |calls| < p.maxAttempts && p.Retries(calls[|calls| - 1])
  }

  /** The calls one sequence of attempts may be made of, and how it ends: as its last call, or cancelled in a wait. */
  ghost predicate Attempted(p: Policy, idempotent: bool, calls: seq<Outcome>, o: Outcome) {
    && 1 <= |calls| <= (if idempotent then p.maxAttempts else 1)
    && (forall i :: 0 <= i < |calls| - 1 ==> p.Retries(calls[i]))
    && o == if CutShort(p, idempotent, calls) then Aborted else calls[|calls| - 1]
  }

  /** The first wait is the base, unless the cap is less. */
  lemma FirstWaitIsTheBase(p: Policy)
    requires p.Valid()
    ensures p.DelayFor(1) == if p.base < p.cap then p.base else p.cap
  {
  }

  /**
   A sequence of attempts goes on after a timeout, an instance out of reach or a listed status,
   and after nothing else; and it stops there only where it may not be repeated, at the last
   attempt allowed, or cancelled.
   */
  lemma GoesOnWhileItMayHelp(p: Policy, idempotent: bool, calls: seq<Outcome>, o: Outcome)
    requires Attempted(p, idempotent, calls, o)
    ensures forall i :: 0 <= i < |calls| - 1 ==>
              || (calls[i].Response? && calls[i].status in p.retryOn)
              || (calls[i].Failed? && calls[i].trouble in {TimedOut, Unreachable})
    ensures
      var last := calls[|calls| - 1];
      && (o != last ==> o == Aborted)
      && ((last.Response? && last.status in p.retryOn) || (last.Failed? && last.trouble in {TimedOut, Unreachable}) ==>
            o == Aborted || !idempotent || |calls| == p.maxAttempts)
    ensures |calls| > 1 ==> idempotent && |calls| <= p.maxAttempts
  {
  }

  /** The responses opened since `start` that the caller is not handed: all of them, or all but the last call's. */
  function ToClose(calls: seq<Outcome>, start: nat, handed: bool): seq<nat>
    requires start <= |calls|
  {
    Opened(calls, start, if handed && |calls| > start then |calls| - 1 else |calls|)
  }

  /** Where the responses of `calls[from..until]` are. */
  function Opened(calls: seq<Outcome>, from: nat, until: nat): seq<nat>
    requires until <= |calls|
    decreases until
  {
    if until <= from then []
    else Opened(calls, from, until - 1) + (if calls[until - 1].Response? then [until - 1] else [])
  }

  lemma {:induction false} OpenedOfPrefix(calls: seq<Outcome>, longer: seq<Outcome>, from: nat, until: nat)
    requires until <= |calls| && calls <= longer
    ensures Opened(calls, from, until) == Opened(longer, from, until)
    decreases until
  {
    if until > from {
      OpenedOfPrefix(calls, longer, from, until - 1);
    }
  }

  /** One more call changes nothing about what was opened before it, and is itself handed on or opened. */
  lemma OneMoreCall(calls: seq<Outcome>, o: Outcome, start: nat)
    requires start <= |calls|
    ensures ToClose(calls + [o], start, o.Response?) == Opened(calls, start, |calls|)
    ensures Opened(calls + [o], start, |calls| + 1) ==
            Opened(calls, start, |calls|) + (if o.Response? then [|calls|] else [])
  {
    OpenedOfPrefix(calls, calls + [o], start, |calls|);
  }

  lemma MadeSoFar(before: seq<Outcome>, made: seq<Outcome>, o: Outcome)
    ensures before + made + [o] == before + (made + [o])
    ensures (before + (made + [o]))[|before|..] == made + [o]
  {
  }

  lemma {:induction false} OpenedSplits(calls: seq<Outcome>, from: nat, middle: nat, until: nat)
    requires from <= middle <= until <= |calls|
    ensures Opened(calls, from, until) == Opened(calls, from, middle) + Opened(calls, middle, until)
    decreases until
  {
    if until > middle {
      OpenedSplits(calls, from, middle, until - 1);
    }
  }

  lemma {:induction false} OpenedHolds(calls: seq<Outcome>, from: nat, until: nat, i: nat)
    requires until <= |calls|
    ensures i in Opened(calls, from, until) <==> from <= i < until && calls[i].Response?
    decreases until
  {
    if until > from {
      OpenedHolds(calls, from, until - 1, i);
    }
  }

  lemma {:induction false} OpenedAscends(calls: seq<Outcome>, from: nat, until: nat)
    requires until <= |calls|
    ensures Ascending(Opened(calls, from, until))
    decreases until
  {
    if until > from {
      OpenedAscends(calls, from, until - 1);
      var rest := Opened(calls, from, until - 1);
      if calls[until - 1].Response? {
        forall i | i in rest
          ensures i < until - 1
        {
          OpenedHolds(calls, from, until - 1, i);
        }
        AscendingAppend(rest, until - 1);
      } else {
        assert rest + [] == rest;
      }
    }
  }

  /** `Opened` lists exactly the responses, each of them once. */
  lemma OpenedIsExact(calls: seq<Outcome>, from: nat, until: nat)
    requires until <= |calls|
    ensures forall i: nat :: i in Opened(calls, from, until) <==> from <= i < until && calls[i].Response?
    ensures Ascending(Opened(calls, from, until))
  {
    OpenedAscends(calls, from, until);
    forall i: nat
      ensures i in Opened(calls, from, until) <==> from <= i < until && calls[i].Response?
    {
      OpenedHolds(calls, from, until, i);
    }
  }

  ghost predicate Ascending(s: seq<nat>) {
    forall m, n :: 0 <= m < n < |s| ==> s[m] < s[n]
  }

  lemma AscendingAppend(s: seq<nat>, x: nat)
    requires Ascending(s) && forall y :: y in s ==> y < x
    ensures Ascending(s + [x])
  {
    assert forall m :: 0 <= m < |s| ==> s[m] in s;
  }

  /**
   For any behaviour of the transport there is one such sequence of calls, up to where it is
   cancelled: of two, the shorter begins the longer, and is all of it unless it was cut short.
   */
  lemma AttemptsAreDetermined(p: Policy, idempotent: bool, a: seq<Outcome>, b: seq<Outcome>, o: Outcome, other: Outcome)
    requires p.Valid() && Attempted(p, idempotent, a, o) && Attempted(p, idempotent, b, other) && |a| <= |b|
    requires forall i :: 0 <= i < |a| ==> a[i] == b[i]
    ensures a <= b && (a == b || CutShort(p, idempotent, a))
  {
    if |a| < |b| {
      assert p.Retries(b[|a| - 1]);
    }
  }

  /** The waits between `calls` calls of one sequence. */
  function Waits(p: Policy, calls: nat): seq<real> {
    if calls <= 1 then [] else Waits(p, calls - 1) + [p.DelayFor(calls - 1)]
  }

  /** The loop before its `attempt`th call: every call so far was retried, closed and waited after. */
  ghost predicate Repeating(p: Policy, before: seq<Outcome>, made: seq<Outcome>, attempt: nat,
                            closed: seq<nat>, discarded: seq<nat>, waited: seq<real>, waits: seq<real>) {
    && |made| == attempt - 1
    && (forall i :: 0 <= i < |made| ==> p.Retries(made[i]))
    && discarded == closed + Opened(before + made, |before|, |before + made|)
    && waits == waited + Waits(p, attempt)
  }

  /** One more call either ends the loop as it ended, or, once closed and waited after, goes round or is cut short. */
  lemma RepeatedOnce(p: Policy, before: seq<Outcome>, made: seq<Outcome>, o: Outcome, attempt: nat,
                     closed: seq<nat>, discarded: seq<nat>, waited: seq<real>, waits: seq<real>)
    requires p.Valid() && 1 <= attempt <= p.maxAttempts
    requires Repeating(p, before, made, attempt, closed, discarded, waited, waits)
    ensures before + made + [o] == before + (made + [o]) && (before + (made + [o]))[|before|..] == made + [o]
    ensures CutShort(p, true, made + [o]) <==> attempt < p.maxAttempts && p.Retries(o)
    ensures Attempted(p, true, made + [o], if CutShort(p, true, made + [o]) then Aborted else o)
    ensures discarded == closed + ToClose(before + (made + [o]), |before|, o.Response?)
    ensures p.Retries(o) ==>
      var dropped := discarded + (if o.Response? then [|before + made|] else []);
      && Repeating(p, before, made + [o], attempt + 1, closed, dropped, waited, waits + [p.DelayFor(attempt)])
      && dropped == closed + ToClose(before + (made + [o]), |before|, false)
  {
    MadeSoFar(before, made, o);
    OneMoreCall(before + made, o, |before|);
    Regroup(closed, Opened(before + made, |before|, |before + made|), if o.Response? then [|before + made|] else []);
    Regroup(waited, Waits(p, attempt), [p.DelayFor(attempt)]);
  }

  class RetryingClient {
    const transport: Transport
    const policy: Policy

    constructor (transport: Transport, policy: Policy)
      requires policy.Valid()
      ensures this.transport == transport && this.policy == policy
    {
      this.transport, this.policy := transport, policy;
    }

    method Attempts(idempotent: bool) returns (o: Outcome)
      requires policy.Valid()
      modifies transport
      ensures old(transport.calls) < transport.calls
      ensures Attempted(policy, idempotent, transport.calls[|old(transport.calls)|..], o)
      ensures transport.discarded ==
              old(transport.discarded) + ToClose(transport.calls, |old(transport.calls)|, o.Response?)
      ensures
        var made := transport.calls[|old(transport.calls)|..];
        transport.waits == old(transport.waits)
        + Waits(policy, if CutShort(policy, idempotent, made) then |made| + 1 else |made|)
    {
      if idempotent {
        o := Repeat();
        return;
      }
      ghost var before := transport.calls;
      o := transport.Call();
      OneMoreCall(before, o, |before|);
      assert transport.calls[|before|..] == [o];
    }

    /** The loop: until a call need not be retried, the attempts run out, or a wait is cancelled. */
    method Repeat() returns (o: Outcome)
      requires policy.Valid()
      modifies transport
      ensures old(transport.calls) < transport.calls
      ensures Attempted(policy, true, transport.calls[|old(transport.calls)|..], o)
      ensures transport.discarded ==
              old(transport.discarded) + ToClose(transport.calls, |old(transport.calls)|, o.Response?)
      ensures
        var made := transport.calls[|old(transport.calls)|..];
        transport.waits == old(transport.waits)
        + Waits(policy, if CutShort(policy, true, made) then |made| + 1 else |made|)
    {
      ghost var before, closed, waited := transport.calls, transport.discarded, transport.waits;
      ghost var made: seq<Outcome> := [];
      var attempt := 1;
      while true
        invariant 1 <= attempt <= policy.maxAttempts
        invariant transport.calls == before + made
        invariant Repeating(policy, before, made, attempt, closed, transport.discarded, waited, transport.waits)
        decreases policy.maxAttempts - attempt
      {
        o := transport.Call();
        RepeatedOnce(policy, before, made, o, attempt, closed, transport.discarded, waited, transport.waits);
        made := made + [o];
        if attempt >= policy.maxAttempts || !policy.Retries(o) {
          return;
        }
        var cancelled := Pause(o, attempt);
        if cancelled {
          return Aborted;
        }
        attempt := attempt + 1;
      }
    }

    /** Between two attempts: close what came back, and wait. */
    method Pause(o: Outcome, attempt: nat) returns (cancelled: bool)
      requires attempt >= 1 && transport.calls != []
      modifies transport
      ensures transport.calls == old(transport.calls)
      ensures transport.discarded == old(transport.discarded) + (if o.Response? then [|transport.calls| - 1] else [])
      ensures transport.waits == old(transport.waits) + [policy.DelayFor(attempt)]
    {
      if o.Response? {
        transport.Discard();
      }
      cancelled := transport.Sleep(policy.DelayFor(attempt));
    }
  }
}
