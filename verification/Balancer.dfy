/**
 The balancer over the breakers over the retries. Each unpinned request starts at the next
 instance in turn and moves on when the current one cannot take it and nothing can have been
 done twice.
 */
module Balancer {
  import opened Prelude
  import opened Retry
  import opened Breaker

  // ---------- one guarded call ----------

  function VerdictOf(failureCodes: set<int>, o: Outcome): Verdict {
    match o
    case Response(status) => if status in failureCodes then Failure else Success
    case Failed(_, _) => Failure
    case Aborted => Abort
  }

  /** A call that failed or was answered with a failing status counts against its instance; a cancelled one does not. */
  lemma WhatCountsAgainstAnInstance(failureCodes: set<int>, o: Outcome)
    ensures VerdictOf(failureCodes, o) == Failure <==> o.Failed? || (o.Response? && o.status in failureCodes)
    ensures VerdictOf(failureCodes, o) == Abort <==> o.Aborted?
  {
  }

  /** One instance's breaker after calls that ended so, one after the other, at these instants. */
  function Concluded(c: Config, failureCodes: set<int>, s: State, ended: seq<(Outcome, int)>): State {
    if ended == [] then s
    else
      var last := ended[|ended| - 1];
      Judged(c, Concluded(c, failureCodes, s, ended[..|ended| - 1]), VerdictOf(failureCodes, last.0), last.1)
  }

  /** A closed breaker opens on exactly as many failing calls in a row as it was short of its threshold. */
  lemma {:induction false} FailingCallsOpenIt(c: Config, failureCodes: set<int>, s: State, ended: seq<(Outcome, int)>)
    requires c.Valid() && s.mode == Closed && s.failures < c.threshold && |ended| <= c.threshold - s.failures
    requires forall n :: 0 <= n < |ended| ==>
               ended[n].0.Failed? || (ended[n].0.Response? && ended[n].0.status in failureCodes)
    ensures
      var after := Concluded(c, failureCodes, s, ended);
      if |ended| < c.threshold - s.failures then after.mode == Closed && after.failures == s.failures + |ended|
      else after.mode == Open && after.openedAt == ended[|ended| - 1].1
  {
    if ended != [] {
      FailingCallsOpenIt(c, failureCodes, s, ended[..|ended| - 1]);
    }
  }

  /** And any other answer before that starts the count again. */
  lemma AnAnswerStartsTheCountAgain(c: Config, failureCodes: set<int>, s: State, status: int, now: int)
    requires s.mode == Closed && status !in failureCodes
    ensures Judged(c, s, VerdictOf(failureCodes, Response(status)), now) == s.(failures := 0)
  {
  }

  /** What became of one instance: its circuit refused the request, or these calls were made. */
  datatype Visit = Refused(instance: string) | Tried(instance: string, calls: seq<Outcome>, outcome: Outcome)

  class GuardedClient {
    const inner: RetryingClient
    const config: Config
    const failureCodes: set<int>
    var breakers: map<string, State>

    constructor (inner: RetryingClient, config: Config, failureCodes: set<int>)
      ensures this.inner == inner && this.config == config && this.failureCodes == failureCodes && breakers == map[]
    {
      this.inner, this.config, this.failureCodes, breakers := inner, config, failureCodes, map[];
    }

    function BreakerFor(target: string): State
      reads this
    {
      if target in breakers then breakers[target] else FRESH
    }

    /** Before the await: may this request proceed? Only its own target's breaker moves. */
    method Admit(target: string, now: int) returns (admitted: bool)
      modifies this
      ensures (BreakerFor(target), admitted) == Acquired(config, old(BreakerFor(target)), now)
      ensures forall other :: other != target ==> BreakerFor(other) == old(BreakerFor(other))
    {
      var (after, ok) := Acquired(config, BreakerFor(target), now);
      breakers := breakers[target := after];
      admitted := ok;
    }

    /** After the await: exactly one verdict, read off how the call ended. */
    method Conclude(target: string, o: Outcome, now: int)
      modifies this
      ensures BreakerFor(target) == Judged(config, old(BreakerFor(target)), VerdictOf(failureCodes, o), now)
      ensures forall other :: other != target ==> BreakerFor(other) == old(BreakerFor(other))
    {
      breakers := breakers[target := Judged(config, BreakerFor(target), VerdictOf(failureCodes, o), now)];
    }

    /**
     The whole call. Clocks are arbitrary, and other calls may move any breaker during the await:
     it asks at `asked`, and comes back at `ended` to find its target's breaker as `found`.
     */
    method Send(target: string, idempotent: bool)
      returns (visit: Visit, ghost asked: int, ghost found: State, ghost ended: int)
      requires inner.policy.Valid()
      modifies this, inner.transport
      ensures visit.instance == target
      ensures visit.Refused? <==> !Acquired(config, old(BreakerFor(target)), asked).1
      ensures visit.Refused? ==>
                && BreakerFor(target) == Acquired(config, old(BreakerFor(target)), asked).0
                && forall other :: other != target ==> BreakerFor(other) == old(BreakerFor(other))
      ensures visit.Tried? ==>
                BreakerFor(target) == Judged(config, found, VerdictOf(failureCodes, visit.outcome), ended)
      ensures visit.Refused? ==>
                && inner.transport.calls == old(inner.transport.calls)
                && inner.transport.discarded == old(inner.transport.discarded)
      ensures visit.Tried? ==>
                && Attempted(inner.policy, idempotent, visit.calls, visit.outcome)
                && inner.transport.calls == old(inner.transport.calls) + visit.calls
                && inner.transport.discarded ==
                   old(inner.transport.discarded)
                   + ToClose(inner.transport.calls, |old(inner.transport.calls)|, visit.outcome.Response?)
    {
      var now: int := *;
      asked, found, ended := now, FRESH, now;
      var admitted := Admit(target, now);
      if !admitted {
        visit := Refused(target);
        return;
      }
      var start := |inner.transport.calls|;
      var o := inner.Attempts(idempotent);
      breakers := *;
      now := *;
      found, ended := BreakerFor(target), now;
      Conclude(target, o, now);
      visit := Tried(target, inner.transport.calls[start..], o);
    }
  }

  // ---------- one balanced request ----------

  function Last(calls: seq<Outcome>): Outcome
    requires calls != []
  {
    calls[|calls| - 1]
  }

  /** The request may go on to the next instance: nothing was sent, or repeating is harmless. */
  predicate MovesOn(idempotent: bool, v: Visit) {
    v.Refused? || (v.outcome.Failed? && (idempotent || !v.outcome.sent))
  }

  function Trace(visits: seq<Visit>): seq<Outcome> {
    if visits == [] then []
    else
      var v := visits[|visits| - 1];
      Trace(visits[..|visits| - 1]) + (if v.Refused? then [] else v.calls)
  }

  /** The visits one request may consist of, in the order of its rotation. */
  ghost predicate Visited(p: Policy, idempotent: bool, rotation: seq<string>, visits: seq<Visit>) {
    && |visits| <= |rotation|
    && (forall i :: 0 <= i < |visits| ==>
                      && visits[i].instance == rotation[i]
                      && (visits[i].Tried? ==> Attempted(p, idempotent, visits[i].calls, visits[i].outcome)))
    && (forall i :: 0 <= i < |visits| - 1 ==> MovesOn(idempotent, visits[i]))
  }

  ghost predicate Finished(idempotent: bool, rotation: seq<string>, visits: seq<Visit>) {
    visits != [] && (|visits| == |rotation| || !MovesOn(idempotent, visits[|visits| - 1]))
  }

  /** What the caller gets: a response, an upstream error, a cancellation, or an open circuit. */
  datatype Reply = Reply(instance: string, outcome: Outcome) | CircuitOpen

  predicate IsHanded(r: Reply) { r.Reply? && r.outcome.Response? }

  /** The last instance that was actually called explains the request; refusals only if none was. */
  function Explained(visits: seq<Visit>): Reply {
    if visits == [] then CircuitOpen
    else
      match visits[|visits| - 1]
      case Refused(_) => Explained(visits[..|visits| - 1])
      case Tried(instance, _, outcome) => Reply(instance, outcome)
  }

  lemma OneMoreVisit(p: Policy, idempotent: bool, rotation: seq<string>, visits: seq<Visit>, v: Visit)
    requires Visited(p, idempotent, rotation, visits) && |visits| < |rotation|
    requires forall n :: 0 <= n < |visits| ==> MovesOn(idempotent, visits[n])
    requires v.instance == rotation[|visits|] && (v.Tried? ==> Attempted(p, idempotent, v.calls, v.outcome))
    ensures Visited(p, idempotent, rotation, visits + [v])
    ensures Trace(visits + [v]) == Trace(visits) + (if v.Refused? then [] else v.calls)
    ensures Explained(visits + [v]) == if v.Refused? then Explained(visits) else Reply(v.instance, v.outcome)
  {
    VisitedOnce(p, idempotent, rotation, visits, v);
    TracedOnce(visits, v);
  }

  lemma TracedOnce(visits: seq<Visit>, v: Visit)
    ensures Trace(visits + [v]) == Trace(visits) + (if v.Refused? then [] else v.calls)
    ensures Explained(visits + [v]) == if v.Refused? then Explained(visits) else Reply(v.instance, v.outcome)
  {
    assert (visits + [v])[..|visits|] == visits;
  }

  lemma VisitedOnce(p: Policy, idempotent: bool, rotation: seq<string>, visits: seq<Visit>, v: Visit)
    requires Visited(p, idempotent, rotation, visits) && |visits| < |rotation|
    requires forall n :: 0 <= n < |visits| ==> MovesOn(idempotent, visits[n])
    requires v.instance == rotation[|visits|] && (v.Tried? ==> Attempted(p, idempotent, v.calls, v.outcome))
    ensures Visited(p, idempotent, rotation, visits + [v])
  {
  }

  lemma ToCloseGrows(calls: seq<Outcome>, longer: seq<Outcome>, start: nat, handed: bool)
    requires start <= |calls| < |longer| && calls <= longer
    ensures ToClose(longer, start, handed) == ToClose(calls, start, false) + ToClose(longer, |calls|, handed)
  {
    OpenedOfPrefix(calls, longer, start, |calls|);
    OpenedSplits(longer, start, |calls|, if handed then |longer| - 1 else |longer|);
  }

  predicate Hands(v: Visit) { v.Tried? && v.outcome.Response? }

  /** A request so far: its visits, and what they left of the transport it found. */
  ghost predicate Underway(p: Policy, idempotent: bool, rotation: seq<string>, visits: seq<Visit>, before: seq<Outcome>,
                           calls: seq<Outcome>, closed: seq<nat>, discarded: seq<nat>, handed: bool) {
    && Visited(p, idempotent, rotation, visits)
    && calls == before + Trace(visits)
    && discarded == closed + ToClose(calls, |before|, handed)
  }

  lemma CallsKeepAccounts(before: seq<Outcome>, traced: seq<Outcome>, made: seq<Outcome>, calls: seq<Outcome>,
                          after: seq<Outcome>,
                          closed: seq<nat>, discarded: seq<nat>, dropped: seq<nat>, handed: bool)
    requires calls == before + traced && made != [] && after == calls + made
    requires discarded == closed + ToClose(calls, |before|, false)
    requires dropped == discarded + ToClose(after, |calls|, handed)
    ensures after == before + (traced + made)
    ensures dropped == closed + ToClose(after, |before|, handed)
  {
    ToCloseGrows(calls, after, |before|, handed);
    Regroup(before, traced, made);
    Regroup(closed, ToClose(calls, |before|, false), ToClose(after, |calls|, handed));
  }

  lemma VisitKeepsUnderway(p: Policy, idempotent: bool, rotation: seq<string>, visits: seq<Visit>, v: Visit,
                           before: seq<Outcome>, calls: seq<Outcome>, after: seq<Outcome>,
                           closed: seq<nat>, discarded: seq<nat>, dropped: seq<nat>)
    requires Underway(p, idempotent, rotation, visits, before, calls, closed, discarded, false) && |visits| < |rotation|
    requires forall n :: 0 <= n < |visits| ==> MovesOn(idempotent, visits[n])
    requires v.instance == rotation[|visits|]
    requires v.Refused? ==> after == calls && dropped == discarded
    requires v.Tried? ==>
               && Attempted(p, idempotent, v.calls, v.outcome) && after == calls + v.calls
               && dropped == discarded + ToClose(after, |calls|, v.outcome.Response?)
    ensures Underway(p, idempotent, rotation, visits + [v], before, after, closed, dropped, Hands(v))
    ensures Explained(visits + [v]) == if v.Refused? then Explained(visits) else Reply(v.instance, v.outcome)
  {
    OneMoreVisit(p, idempotent, rotation, visits, v);
    if v.Tried? {
      CallsKeepAccounts(before, Trace(visits), v.calls, calls, after, closed, discarded, dropped, v.outcome.Response?);
    }
  }

  /** The instances from the turn on, then those before it; a turn past the end changes nothing. */
  function Rotation(instances: seq<string>, start: nat): seq<string> {
    if start < |instances| then instances[start..] + instances[..start] else instances
  }

  class LoadBalancer {
    const inner: GuardedClient
    var nextTurn: map<string, nat>

    constructor (inner: GuardedClient)
      ensures this.inner == inner && nextTurn == map[]
    {
      this.inner, nextTurn := inner, map[];
    }

    function Turn(service: string): nat
      reads this
    {
      TurnOf(nextTurn, service)
    }

    method NextRotation(service: string, instances: seq<string>) returns (rotation: seq<string>)
      requires instances != []
      modifies this
      ensures rotation == Rotation(instances, old(Turn(service)))
      ensures nextTurn == Advanced(old(nextTurn), service, |instances|)
    {
      var start := Turn(service);
      nextTurn := nextTurn[service := (start + 1) % |instances|];
      var split := Min(start, |instances|);
      rotation := instances[split..] + instances[..split];
    }

    /** A request that names its instance goes there and nowhere else. */
    method Pinned(instance: string, idempotent: bool) returns (reply: Reply, visits: seq<Visit>)
      requires inner.inner.policy.Valid()
      modifies inner, inner.inner.transport
      ensures Visited(inner.inner.policy, idempotent, [instance], visits) && |visits| == 1
      ensures inner.inner.transport.calls == old(inner.inner.transport.calls) + Trace(visits)
      ensures reply == Explained(visits)
    {
      var visit, _, _, _ := inner.Send(instance, idempotent);
      visits := [visit];
      assert Trace(visits[..0]) == [];
      reply := if visit.Refused? then CircuitOpen else Reply(instance, visit.outcome);
    }

    method Balanced(service: string, instances: seq<string>, idempotent: bool)
      returns (reply: Reply, visits: seq<Visit>)
      requires instances != [] && inner.inner.policy.Valid()
      modifies this, inner, inner.inner.transport
      ensures nextTurn == Advanced(old(nextTurn), service, |instances|)
      ensures
        var rotation := Rotation(instances, old(Turn(service)));
        && Visited(inner.inner.policy, idempotent, rotation, visits)
        && Finished(idempotent, rotation, visits)
      ensures reply == Explained(visits)
      ensures inner.inner.transport.calls == old(inner.inner.transport.calls) + Trace(visits)
      ensures inner.inner.transport.discarded ==
              old(inner.inner.transport.discarded)
              + ToClose(inner.inner.transport.calls, |old(inner.inner.transport.calls)|, IsHanded(reply))
    {
      var rotation := NextRotation(service, instances);
      reply, visits := Failover(rotation, idempotent);
    }

    /** The loop over the rotation, until an instance answers or must not be passed over. */
    method Failover(rotation: seq<string>, idempotent: bool) returns (reply: Reply, visits: seq<Visit>)
      requires rotation != [] && inner.inner.policy.Valid()
      modifies inner, inner.inner.transport
      ensures Visited(inner.inner.policy, idempotent, rotation, visits) && Finished(idempotent, rotation, visits)
      ensures reply == Explained(visits)
      ensures inner.inner.transport.calls == old(inner.inner.transport.calls) + Trace(visits)
      ensures inner.inner.transport.discarded ==
              old(inner.inner.transport.discarded)
              + ToClose(inner.inner.transport.calls, |old(inner.inner.transport.calls)|, IsHanded(reply))
    {
      var transport, policy := inner.inner.transport, inner.inner.policy;
      ghost var before, closed := transport.calls, transport.discarded;
      visits := [];
      reply := CircuitOpen;
      for i := 0 to |rotation|
        invariant |visits| == i
        invariant Underway(policy, idempotent, rotation, visits, before, transport.calls, closed,
                             transport.discarded, false)
        invariant forall n :: 0 <= n < i ==> MovesOn(idempotent, visits[n])
        invariant reply == Explained(visits) && !IsHanded(reply)
      {
        ghost var calls, discarded := transport.calls, transport.discarded;
        var visit, _, _, _ := inner.Send(rotation[i], idempotent);
        VisitKeepsUnderway(policy, idempotent, rotation, visits, visit, before, calls, transport.calls,
                           closed, discarded, transport.discarded);
        if visit.Tried? {
          reply := Reply(visit.instance, visit.outcome);
        }
        visits := visits + [visit];
        if !MovesOn(idempotent, visit) {
          return;
        }
      }
    }
  }

  // ---------- when it goes on, and when it gives up ----------

  /**
   A balanced request goes on from an instance only where its circuit refused, or where the call
   failed and either was never sent or may be repeated. It ends without a response only when every
   instance was visited, when the call was cancelled, or when one that may not be repeated failed
   after it was sent.
   */
  lemma GivesUpOnlyWhenItMust(p: Policy, idempotent: bool, rotation: seq<string>, visits: seq<Visit>)
    requires Visited(p, idempotent, rotation, visits) && Finished(idempotent, rotation, visits)
    ensures forall i :: 0 <= i < |visits| - 1 ==>
              visits[i].Refused? || (visits[i].outcome.Failed? && (idempotent || !visits[i].outcome.sent))
    ensures
      var last := visits[|visits| - 1];
      || |visits| == |rotation|
      || (last.Tried? && (|| last.outcome.Response? || last.outcome.Aborted?
                          || (last.outcome.Failed? && last.outcome.sent && !idempotent)))
  {
  }

  /** What the caller gets is what the last instance that was called gave; an open circuit only if none was. */
  lemma {:induction false} ReplyIsTheLastCalled(visits: seq<Visit>)
    ensures Explained(visits) == CircuitOpen <==> forall i :: 0 <= i < |visits| ==> visits[i].Refused?
    ensures Explained(visits) != CircuitOpen ==>
              exists i :: 0 <= i < |visits| && visits[i].Tried?
                          && Explained(visits) == Reply(visits[i].instance, visits[i].outcome)
                          && forall k :: i < k < |visits| ==> visits[k].Refused?
  {
    if visits != [] {
      var before, last := visits[..|visits| - 1], visits[|visits| - 1];
      ReplyIsTheLastCalled(before);
      if last.Refused? && Explained(before) != CircuitOpen {
        var i :| 0 <= i < |before| && before[i].Tried?
                 && Explained(before) == Reply(before[i].instance, before[i].outcome)
                 && forall k :: i < k < |before| ==> before[k].Refused?;
        assert visits[i] == before[i];
      }
    }
  }

  // ---------- at most once ----------

  /** In one sequence of attempts that is not idempotent, there is one call. */
  lemma {:induction false} OnlyTheLastCanHaveBeenSent(p: Policy, rotation: seq<string>, visits: seq<Visit>)
    requires Visited(p, false, rotation, visits)
    ensures forall i :: 0 <= i < |Trace(visits)| - 1 ==> Trace(visits)[i].Failed? && !Trace(visits)[i].sent
    ensures visits != [] && MovesOn(false, visits[|visits| - 1]) && Trace(visits) != [] ==>
              Last(Trace(visits)).Failed? && !Last(Trace(visits)).sent
    ensures |Trace(visits)| <= |visits|
    decreases |visits|
  {
    if visits != [] {
      var before, v := visits[..|visits| - 1], visits[|visits| - 1];
      assert forall i :: 0 <= i < |before| ==> before[i] == visits[i];
      OnlyTheLastCanHaveBeenSent(p, rotation, before);
      if before != [] {
        assert MovesOn(false, before[|before| - 1]);
      }
    }
  }

  lemma {:induction false} CallsAreBounded(p: Policy, idempotent: bool, rotation: seq<string>, visits: seq<Visit>)
    requires p.Valid() && Visited(p, idempotent, rotation, visits)
    ensures |Trace(visits)| <= |visits| * MostPerVisit(p, idempotent)
    decreases |visits|
  {
    if visits != [] {
      var before := visits[..|visits| - 1];
      VisitedBefore(p, idempotent, rotation, visits);
      CallsAreBounded(p, idempotent, rotation, before);
      VisitIsBounded(p, idempotent, visits[|visits| - 1]);
      OneMoreTime(|before|, MostPerVisit(p, idempotent));
    }
  }

  function MostPerVisit(p: Policy, idempotent: bool): nat { if idempotent then p.maxAttempts else 1 }

  lemma VisitedBefore(p: Policy, idempotent: bool, rotation: seq<string>, visits: seq<Visit>)
    requires Visited(p, idempotent, rotation, visits) && visits != []
    ensures Visited(p, idempotent, rotation, visits[..|visits| - 1])
    ensures visits[|visits| - 1].Tried? ==>
              Attempted(p, idempotent, visits[|visits| - 1].calls, visits[|visits| - 1].outcome)
  {
    var before := visits[..|visits| - 1];
    assert forall i :: 0 <= i < |before| ==> before[i] == visits[i];
  }

  lemma VisitIsBounded(p: Policy, idempotent: bool, v: Visit)
    requires p.Valid() && (v.Tried? ==> Attempted(p, idempotent, v.calls, v.outcome))
    ensures v.Tried? ==> |v.calls| <= MostPerVisit(p, idempotent)
  {
  }

  lemma OneMoreTime(n: nat, most: nat)
    ensures (n + 1) * most == n * most + most
  {
  }

  /** A rotation visits every instance once, whatever the turn. */
  lemma RotationIsAPermutation(instances: seq<string>, start: nat)
    requires instances != []
    requires forall i, j :: 0 <= i < j < |instances| ==> instances[i] != instances[j]
    ensures multiset(Rotation(instances, start)) == multiset(instances)
    ensures Rotation(instances, start)[0] == instances[if start < |instances| then start else 0]
    ensures forall i, j :: 0 <= i < j < |instances| ==> Rotation(instances, start)[i] != Rotation(instances, start)[j]
  {
    if start < |instances| {
      assert instances == instances[..start] + instances[start..];
    }
  }

  /**
   Through balancer, breakers and retries, whatever the transport does and whatever state the
   breakers are in: of the calls one POST or PATCH causes, every one but the last ended without
   the request being sent (section 9.2.2 of RFC 9110).
   */
  lemma DeliveredAtMostOnce(p: Policy, instances: seq<string>, start: nat, visits: seq<Visit>)
    requires Visited(p, false, Rotation(instances, start), visits)
    ensures forall i :: 0 <= i < |Trace(visits)| - 1 ==> Trace(visits)[i].Failed? && !Trace(visits)[i].sent
  {
    OnlyTheLastCanHaveBeenSent(p, Rotation(instances, start), visits);
  }

  /** No instance is visited twice, and none is called more often than one sequence of attempts allows. */
  lemma EachInstanceAtMostOnce(p: Policy, idempotent: bool, instances: seq<string>, start: nat, visits: seq<Visit>)
    requires p.Valid() && instances != []
    requires forall i, j :: 0 <= i < j < |instances| ==> instances[i] != instances[j]
    requires Visited(p, idempotent, Rotation(instances, start), visits)
    ensures forall i, j :: 0 <= i < j < |visits| ==> visits[i].instance != visits[j].instance
    ensures |Trace(visits)| <= |instances| * (if idempotent then p.maxAttempts else 1)
  {
    RotationIsAPermutation(instances, start);
    CallsAreBounded(p, idempotent, Rotation(instances, start), visits);
    ProductsGrow(|visits|, |instances|, if idempotent then p.maxAttempts else 1);
  }

  lemma ProductsGrow(a: nat, b: nat, k: nat)
    requires a <= b
    ensures a * k <= b * k
  {
  }

  // ---------- fairness ----------

  /** What one unpinned request to a service of `n` instances leaves of the turns. */
  function Advanced(turns: map<string, nat>, service: string, n: nat): map<string, nat>
    requires n >= 1
  {
    turns[service := (TurnOf(turns, service) + 1) % n]
  }

  function TurnOf(turns: map<string, nat>, service: string): nat {
    if service in turns then turns[service] else 0
  }

  /** The turns after unpinned requests to these services, each with as many instances as `sizes` says. */
  function TurnsAfter(sizes: string -> nat, requests: seq<string>): map<string, nat>
    requires forall s :: sizes(s) >= 1
  {
    if requests == [] then map[]
    else
      var service := requests[|requests| - 1];
      Advanced(TurnsAfter(sizes, requests[..|requests| - 1]), service, sizes(service))
  }

  /** How many of the requests to a service had a rotation that starts with its `i`th instance. */
  function Starts(sizes: string -> nat, requests: seq<string>, service: string, i: nat): nat
    requires forall s :: sizes(s) >= 1
  {
    if requests == [] then 0
    else
      var before := requests[..|requests| - 1];
      Starts(sizes, before, service, i)
      + (if requests[|requests| - 1] == service && TurnOf(TurnsAfter(sizes, before), service) == i then 1 else 0)
  }

  lemma NextIsCyclic(n: nat, turn: nat)
    requires turn < n
    ensures (turn + 1) % n == if turn + 1 < n then turn + 1 else 0
  {
  }

  /** Every instance has had all the full rounds, and those before the turn one start more. */
  lemma {:induction false} StartsAreDealtRound(sizes: string -> nat, requests: seq<string>,
                                               service: string) returns (rounds: nat)
    requires forall s :: sizes(s) >= 1
    ensures
      var turn := TurnOf(TurnsAfter(sizes, requests), service);
      && turn < sizes(service)
      && forall i: nat :: i < sizes(service) ==>
                              Starts(sizes, requests, service, i) == rounds + (if i < turn then 1 else 0)
  {
    if requests == [] {
      rounds := 0;
    } else {
      var before, last := requests[..|requests| - 1], requests[|requests| - 1];
      rounds := StartsAreDealtRound(sizes, before, service);
      if last == service {
        var turn := TurnOf(TurnsAfter(sizes, before), service);
        NextIsCyclic(sizes(service), turn);
        if turn + 1 == sizes(service) {
          rounds := rounds + 1;
        }
      }
    }
  }

  /** After any requests to any services, no instance of one has been started at more than once more than another. */
  lemma RoundRobinIsFair(sizes: string -> nat, requests: seq<string>, service: string, i: nat, j: nat)
    requires (forall s :: sizes(s) >= 1) && i < sizes(service) && j < sizes(service)
    ensures Starts(sizes, requests, service, i) <= Starts(sizes, requests, service, j) + 1
  {
    var _ := StartsAreDealtRound(sizes, requests, service);
  }

  /** And where a rotation starts is where its turn points: that is the instance tried first. */
  lemma StartIsTheTurn(sizes: string -> nat, requests: seq<string>, service: string, instances: seq<string>)
    requires (forall s :: sizes(s) >= 1) && |instances| == sizes(service)
    ensures
      var turn := TurnOf(TurnsAfter(sizes, requests), service);
      turn < |instances| && Rotation(instances, turn)[0] == instances[turn]
  {
    var _ := StartsAreDealtRound(sizes, requests, service);
  }
}
