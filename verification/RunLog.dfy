/**
 What a run has already said: per-run logs bounded in bytes and in number, against everything
 ever appended to them.
 */
module RunLog {
  import opened Prelude
  import StreamScan

  type Chunk = seq<StreamScan.byte>

  function Total(chunks: seq<Chunk>): nat {
    if chunks == [] then 0 else |chunks[0]| + Total(chunks[1..])
  }

  /** The chunks left once the oldest were dropped until they fit, never the last of them. */
  function Trimmed(chunks: seq<Chunk>, maxBytes: nat): seq<Chunk>
    decreases |chunks|
  {
    if Total(chunks) > maxBytes && |chunks| > 1 then Trimmed(chunks[1..], maxBytes) else chunks
  }

  /** `kept` is the longest non-empty suffix of `said` that fits, or its last chunk when none does. */
  ghost predicate LongestThatFits(kept: seq<Chunk>, said: seq<Chunk>, maxBytes: nat) {
    exists k: nat :: k <= |said| && kept == said[k..]
      && (Total(kept) <= maxBytes || |kept| == 1)
      && (said != [] ==> kept != [])
      && forall j: nat :: j < k ==> Total(said[j..]) > maxBytes
  }

  lemma {:induction false} TrimmedIsTheLongest(said: seq<Chunk>, maxBytes: nat)
    ensures LongestThatFits(Trimmed(said, maxBytes), said, maxBytes)
    decreases |said|
  {
    if Total(said) > maxBytes && |said| > 1 {
      TrimmedIsTheLongest(said[1..], maxBytes);
      OneEarlier(Trimmed(said[1..], maxBytes), said, maxBytes);
    } else {
      assert said[0..] == said;
    }
  }

  lemma OneEarlier(kept: seq<Chunk>, said: seq<Chunk>, maxBytes: nat)
    requires |said| > 1 && Total(said) > maxBytes && LongestThatFits(kept, said[1..], maxBytes)
    ensures LongestThatFits(kept, said, maxBytes)
  {
    var rest := said[1..];
    var k: nat :| k <= |rest| && kept == rest[k..] && forall j: nat :: j < k ==> Total(rest[j..]) > maxBytes;
    assert kept == said[k + 1..];
    forall j: nat | j < k + 1 ensures Total(said[j..]) > maxBytes {
      if j > 0 {
        assert said[j..] == rest[j - 1..];
      } else {
        assert said[0..] == said;
      }
    }
  }

  lemma {:induction false} TotalAppend(chunks: seq<Chunk>, chunk: Chunk)
    ensures Total(chunks + [chunk]) == Total(chunks) + |chunk|
  {
    if chunks == [] {
      assert chunks + [chunk] == [chunk];
    } else {
      assert (chunks + [chunk])[1..] == chunks[1..] + [chunk];
      TotalAppend(chunks[1..], chunk);
    }
  }

  /** Trimming as the chunks come keeps what trimming the whole history at once would. */
  lemma {:induction false} TrimAsItComes(said: seq<Chunk>, chunk: Chunk, maxBytes: nat)
    ensures Trimmed(Trimmed(said, maxBytes) + [chunk], maxBytes) == Trimmed(said + [chunk], maxBytes)
    decreases |said|
  {
    if Total(said) > maxBytes && |said| > 1 {
      TotalAppend(said, chunk);
      assert (said + [chunk])[1..] == said[1..] + [chunk];
      TrimAsItComes(said[1..], chunk, maxBytes);
    }
  }

  // ---------- the logs as a value ----------

  datatype Log = Log(chunks: seq<Chunk>, size: int, ended: bool)

  const EMPTY := Log([], 0, false)

  /** `order` is the order in which the logs were created, which is that of the dictionaries. */
  datatype Logs = Logs(order: seq<string>, kept: map<string, Log>) {
    ghost predicate Valid() {
      && (forall i, j :: 0 <= i < j < |order| ==> order[i] != order[j])
      && (forall id :: id in order <==> id in kept)
      && (forall id :: id in kept ==> kept[id].size == Total(kept[id].chunks))
    }

    function Forgotten(): Logs
      requires order != []
    {
      Logs(order[1..], kept - {order[0]})
    }

    function Evicted(maxRuns: nat): Logs
      requires maxRuns > 0
      decreases |order|
    {
      if |order| < maxRuns then this else Forgotten().Evicted(maxRuns)
    }

    function Opened(id: string): Logs {
      Logs(if id in kept then order else order + [id], kept[id := EMPTY])
    }

    function Started(id: string, maxRuns: nat): Logs
      requires maxRuns > 0
    {
      Evicted(maxRuns).Opened(id)
    }

    function Grown(id: string, chunk: Chunk, maxBytes: nat): Logs
      requires id in kept
    {
      var chunks := Trimmed(kept[id].chunks + [chunk], maxBytes);
      Logs(order, kept[id := Log(chunks, Total(chunks), kept[id].ended)])
    }

    function Appended(id: string, chunk: Chunk, maxBytes: nat, maxRuns: nat): Logs
      requires maxRuns > 0
    {
      if id in kept then Grown(id, chunk, maxBytes) else Started(id, maxRuns).Grown(id, chunk, maxBytes)
    }

    function Finished(id: string): Logs {
      if id in kept then Logs(order, kept[id := kept[id].(ended := true)]) else this
    }
  }

  const NO_LOGS := Logs([], map[])

  lemma ForgottenIsValid(l: Logs)
    requires l.Valid() && l.order != []
    ensures l.Forgotten().Valid()
  {
    var f := l.Forgotten();
    forall id ensures id in f.order <==> id in f.kept {
      if id in f.order {
        var i :| 0 <= i < |f.order| && f.order[i] == id;
        assert l.order[i + 1] == id;
      }
      if id in f.kept {
        var i :| 0 <= i < |l.order| && l.order[i] == id;
        assert f.order[i - 1] == id;
      }
    }
  }

  lemma OpenedIsValid(l: Logs, id: string)
    requires l.Valid()
    ensures l.Opened(id).Valid()
  {
  }

  /** Eviction leaves the logs created last. */
  lemma {:induction false} EvictedKeepsTheNewest(l: Logs, maxRuns: nat)
    requires maxRuns > 0
    ensures l.Evicted(maxRuns).order == l.order[Max(0, |l.order| - maxRuns + 1)..]
    decreases |l.order|
  {
    if |l.order| >= maxRuns {
      EvictedKeepsTheNewest(l.Forgotten(), maxRuns);
      DropAfterFirst(l.order, |l.order| - maxRuns);
    }
  }

  lemma DropAfterFirst(s: seq<string>, n: nat)
    requires n < |s|
    ensures s[1..][n..] == s[n + 1..]
  {
  }

  /** Each log that eviction leaves is as it was. */
  lemma {:induction false} EvictedIsValid(l: Logs, maxRuns: nat)
    requires l.Valid() && maxRuns > 0
    ensures
      var e := l.Evicted(maxRuns);
      && e.Valid() && |e.order| < maxRuns
      && forall id :: id in e.kept ==> id in l.kept && e.kept[id] == l.kept[id]
    decreases |l.order|
  {
    if |l.order| >= maxRuns {
      ForgottenIsValid(l);
      EvictedIsValid(l.Forgotten(), maxRuns);
    }
  }

  lemma StartedIsValid(l: Logs, id: string, maxRuns: nat)
    requires l.Valid() && maxRuns > 0
    ensures
      var s := l.Started(id, maxRuns);
      && s.Valid() && |s.order| <= maxRuns && id in s.kept && s.kept[id] == EMPTY
      && forall other :: other in s.kept && other != id ==> other in l.kept && s.kept[other] == l.kept[other]
  {
    EvictedIsValid(l, maxRuns);
    OpenedIsValid(l.Evicted(maxRuns), id);
  }

  // ---------- the log ----------

  class InMemoryRunLog {
    var order: seq<string>
    var logs: map<string, Log>
    const maxBytes: nat
    const maxRuns: nat

    function Value(): Logs
      reads this
    {
      Logs(order, logs)
    }

    ghost predicate Valid()
      reads this
    {
      Value().Valid() && maxRuns > 0
    }

    constructor (maxBytes: nat, maxRuns: nat)
      requires maxRuns > 0
      ensures Valid() && Value() == NO_LOGS && this.maxBytes == maxBytes && this.maxRuns == maxRuns
    {
      order, logs := [], map[];
      this.maxBytes, this.maxRuns := maxBytes, maxRuns;
    }

    method Start(id: string)
      requires Valid()
      modifies this
      ensures Valid() && Value() == old(Value()).Started(id, maxRuns)
    {
      Evict();
      OpenedIsValid(Value(), id);
      if id !in logs {
        order := order + [id];
      }
      logs := logs[id := EMPTY];
    }

    method Append(id: string, chunk: Chunk)
      requires Valid()
      modifies this
      ensures Valid() && Value() == old(Value()).Appended(id, chunk, maxBytes, maxRuns)
    {
      if id !in logs {
        StartedIsValid(Value(), id, maxRuns);
        Start(id);
      }
      Grow(id, chunk);
    }

    method Grow(id: string, chunk: Chunk)
      requires Valid() && id in logs
      modifies this
      ensures Valid() && Value() == old(Value()).Grown(id, chunk, maxBytes)
    {
      ghost var all := logs[id].chunks + [chunk];
      TotalAppend(logs[id].chunks, chunk);
      logs := logs[id := Log(logs[id].chunks + [chunk], logs[id].size + |chunk|, logs[id].ended)];
      while logs[id].size > maxBytes && |logs[id].chunks| > 1
        invariant order == old(order) && id in logs && id in old(logs)
        invariant logs == old(logs)[id := Log(logs[id].chunks, Total(logs[id].chunks), old(logs)[id].ended)]
        invariant Trimmed(logs[id].chunks, maxBytes) == Trimmed(all, maxBytes)
        decreases |logs[id].chunks|
      {
        var oldest := logs[id].chunks[0];
        logs := logs[id := Log(logs[id].chunks[1..], logs[id].size - |oldest|, logs[id].ended)];
      }
    }

    method End(id: string)
      requires Valid()
      modifies this
      ensures Valid() && Value() == old(Value()).Finished(id)
    {
      if id in logs {
        logs := logs[id := logs[id].(ended := true)];
      }
    }

    method Evict()
      requires Valid()
      modifies this
      ensures Valid() && Value() == old(Value()).Evicted(maxRuns)
    {
      while |order| >= maxRuns
        invariant Valid() && Value().Evicted(maxRuns) == old(Value()).Evicted(maxRuns)
        decreases |order|
      {
        ForgottenIsValid(Value());
        order, logs := order[1..], logs - {order[0]};
      }
    }

    /** Everything a reader is given before it stops, or waits for a log that has not ended to say more. */
    method Follow(id: string) returns (heard: seq<Chunk>, waits: bool)
      requires Valid()
      ensures heard == if id in logs then logs[id].chunks else []
      ensures waits <==> id in logs && !logs[id].ended
    {
      heard := [];
      if id !in logs {
        return [], false;
      }
      var cursor := 0;
      while cursor < |logs[id].chunks|
        invariant 0 <= cursor <= |logs[id].chunks| && heard == logs[id].chunks[..cursor]
      {
        var slice := logs[id].chunks[cursor..];
        for i := 0 to |slice|
          invariant heard == logs[id].chunks[..cursor + i]
        {
          heard := heard + [slice[i]];
        }
        cursor := |logs[id].chunks|;
      }
      waits := !logs[id].ended;
    }
  }

  // ---------- a whole history ----------

  datatype Call = Start(id: string) | Append(id: string, chunk: Chunk) | End(id: string)

  function Called(l: Logs, c: Call, maxBytes: nat, maxRuns: nat): Logs
    requires maxRuns > 0
  {
    match c
    case Start(id) => l.Started(id, maxRuns)
    case Append(id, chunk) => l.Appended(id, chunk, maxBytes, maxRuns)
    case End(id) => l.Finished(id)
  }

  function After(h: seq<Call>, maxBytes: nat, maxRuns: nat): Logs
    requires maxRuns > 0
  {
    if h == [] then NO_LOGS else Called(After(h[..|h| - 1], maxBytes, maxRuns), h[|h| - 1], maxBytes, maxRuns)
  }

  /** Everything appended to the run's log since it was last started, by `start` or by an append that found none. */
  function Said(h: seq<Call>, id: string, maxBytes: nat, maxRuns: nat): seq<Chunk>
    requires maxRuns > 0
  {
    if h == [] || h[|h| - 1] == Start(id) then []
    else
      var before := h[..|h| - 1];
      var said := Said(before, id, maxBytes, maxRuns);
      if h[|h| - 1].Append? && h[|h| - 1].id == id then
        (if id in After(before, maxBytes, maxRuns).kept then said else []) + [h[|h| - 1].chunk]
      else said
  }

  lemma {:induction false} LogsStayValid(h: seq<Call>, maxBytes: nat, maxRuns: nat)
    requires maxRuns > 0
    ensures After(h, maxBytes, maxRuns).Valid() && |After(h, maxBytes, maxRuns).order| <= maxRuns
  {
    if h != [] {
      var l := After(h[..|h| - 1], maxBytes, maxRuns);
      LogsStayValid(h[..|h| - 1], maxBytes, maxRuns);
      StartedIsValid(l, h[|h| - 1].id, maxRuns);
    }
  }

  lemma {:induction false} KeepsTheEnd(h: seq<Call>, id: string, maxBytes: nat, maxRuns: nat)
    requires maxRuns > 0 && id in After(h, maxBytes, maxRuns).kept
    ensures After(h, maxBytes, maxRuns).kept[id].chunks == Trimmed(Said(h, id, maxBytes, maxRuns), maxBytes)
  {
    var before, last := h[..|h| - 1], h[|h| - 1];
    var l := After(before, maxBytes, maxRuns);
    LogsStayValid(before, maxBytes, maxRuns);
    StartedIsValid(l, last.id, maxRuns);
    if id in l.kept {
      KeepsTheEnd(before, id, maxBytes, maxRuns);
      if last.Append? && last.id == id {
        TrimAsItComes(Said(before, id, maxBytes, maxRuns), last.chunk, maxBytes);
      }
    }
  }

  /**
   Over any history of calls, a log holds exactly the longest non-empty suffix of what was
   appended to it that fits, else its last chunk; there are never too many logs, and each
   size is that of its chunks.
   */
  lemma LogsAgreeWithHistory(h: seq<Call>, id: string, maxBytes: nat, maxRuns: nat)
    requires maxRuns > 0
    ensures
      var l := After(h, maxBytes, maxRuns);
      && |l.kept| <= maxRuns
      && (id in l.kept ==>
            LongestThatFits(l.kept[id].chunks, Said(h, id, maxBytes, maxRuns), maxBytes)
            && l.kept[id].size == Total(l.kept[id].chunks))
  {
    var l := After(h, maxBytes, maxRuns);
    LogsStayValid(h, maxBytes, maxRuns);
    AsManyAsInOrder(l.order, l.kept.Keys);
    if id in l.kept {
      KeepsTheEnd(h, id, maxBytes, maxRuns);
      TrimmedIsTheLongest(Said(h, id, maxBytes, maxRuns), maxBytes);
    }
  }

  /** The log was ended after these calls, and since then has been neither forgotten nor started anew. */
  ghost predicate EndedSince(h: seq<Call>, n: nat, id: string, maxBytes: nat, maxRuns: nat)
    requires maxRuns > 0
  {
    && n < |h| && h[n] == End(id)
    && forall m :: n <= m < |h| ==> id in After(h[..m], maxBytes, maxRuns).kept && h[m] != Start(id)
  }

  lemma EndedOneCallOn(h: seq<Call>, last: Call, n: nat, id: string, maxBytes: nat, maxRuns: nat)
    requires maxRuns > 0
    ensures EndedSince(h + [last], n, id, maxBytes, maxRuns) <==>
            && id in After(h, maxBytes, maxRuns).kept && last != Start(id)
            && ((n == |h| && last == End(id)) || EndedSince(h, n, id, maxBytes, maxRuns))
  {
    var all := h + [last];
    assert all[..|h|] == h;
    forall m: nat | m <= |h|
      ensures all[..m] == h[..m]
    {
    }
  }

  lemma OneCallEnds(l: Logs, c: Call, id: string, maxBytes: nat, maxRuns: nat)
    requires maxRuns > 0 && l.Valid() && id in Called(l, c, maxBytes, maxRuns).kept
    ensures Called(l, c, maxBytes, maxRuns).kept[id].ended <==>
            id in l.kept && c != Start(id) && (l.kept[id].ended || c == End(id))
  {
    StartedIsValid(l, c.id, maxRuns);
  }

  /** Over any history of calls, a log reads ended exactly when it was ended since it was last made. */
  lemma {:induction false} EndedIffItWasEnded(h: seq<Call>, id: string, maxBytes: nat, maxRuns: nat)
    requires maxRuns > 0 && id in After(h, maxBytes, maxRuns).kept
    ensures After(h, maxBytes, maxRuns).kept[id].ended <==> exists n :: EndedSince(h, n, id, maxBytes, maxRuns)
  {
    var before, last := h[..|h| - 1], h[|h| - 1];
    var l := After(before, maxBytes, maxRuns);
    assert h == before + [last];
    LogsStayValid(before, maxBytes, maxRuns);
    OneCallEnds(l, last, id, maxBytes, maxRuns);
    forall n: nat
      ensures EndedSince(h, n, id, maxBytes, maxRuns) <==>
              && id in l.kept && last != Start(id)
              && ((n == |before| && last == End(id)) || EndedSince(before, n, id, maxBytes, maxRuns))
    {
      EndedOneCallOn(before, last, n, id, maxBytes, maxRuns);
    }
    if id in l.kept {
      EndedIffItWasEnded(before, id, maxBytes, maxRuns);
      assert last == End(id) ==> EndedSince(h, |before|, id, maxBytes, maxRuns);
    }
  }

  lemma {:induction false} AsManyAsInOrder(order: seq<string>, ids: set<string>)
    requires forall id :: id in ids ==> id in order
    ensures |ids| <= |order|
  {
    if order != [] {
      var last := order[|order| - 1];
      assert order == order[..|order| - 1] + [last];
      AsManyAsInOrder(order[..|order| - 1], ids - {last});
      assert ids <= (ids - {last}) + {last};
      if last in ids {
        assert |ids - {last}| == |ids| - 1;
      } else {
        assert ids - {last} == ids;
      }
    }
  }

  // ---------- which log is forgotten ----------

  /**
   Starting a log when there are as many as allowed forgets the one created first, however
   recently it was appended to, and even when the run already had a log to replace; restarting
   that very one empties it and puts it last.
   */
  lemma StartForgetsTheFirstCreated(l: Logs, id: string, maxRuns: nat)
    requires l.Valid() && |l.order| == maxRuns > 0
    ensures
      var s := l.Started(id, maxRuns);
      && s.order == (if id in l.order[1..] then l.order[1..] else l.order[1..] + [id])
      && (l.order[0] in s.kept <==> id == l.order[0])
      && s.kept[id] == EMPTY
      && forall other :: other in l.order[1..] && other != id ==> other in s.kept && s.kept[other] == l.kept[other]
  {
    ForgottenIsValid(l);
    assert l.Evicted(maxRuns) == l.Forgotten();
  }

  /** When a log last entered the order: its creation, for as long as it is there. Counted from one. */
  function CreatedAt(h: seq<Call>, id: string, maxBytes: nat, maxRuns: nat): nat
    requires maxRuns > 0
  {
    if h == [] then 0
    else if Creates(After(h[..|h| - 1], maxBytes, maxRuns), h[|h| - 1], id, maxRuns) then |h|
    else CreatedAt(h[..|h| - 1], id, maxBytes, maxRuns)
  }

  predicate Creates(l: Logs, c: Call, id: string, maxRuns: nat)
    requires maxRuns > 0
  {
    c.id == id && ((c.Start? && id !in l.Evicted(maxRuns).kept) || (c.Append? && id !in l.kept))
  }

  /** When a run was last appended to, or zero when it never was. Counted from one. */
  function LastAppend(h: seq<Call>, id: string): nat {
    if h == [] then 0
    else if h[|h| - 1].Append? && h[|h| - 1].id == id then |h|
    else LastAppend(h[..|h| - 1], id)
  }

  lemma {:induction false} CreatedInThePast(h: seq<Call>, id: string, maxBytes: nat, maxRuns: nat)
    requires maxRuns > 0
    ensures CreatedAt(h, id, maxBytes, maxRuns) <= |h|
  {
    if h != [] {
      CreatedInThePast(h[..|h| - 1], id, maxBytes, maxRuns);
    }
  }

  ghost predicate InOrderOfCreation(h: seq<Call>, maxBytes: nat, maxRuns: nat)
    requires maxRuns > 0
  {
    var order := After(h, maxBytes, maxRuns).order;
    forall i, j :: 0 <= i < j < |order| ==>
      CreatedAt(h, order[i], maxBytes, maxRuns) < CreatedAt(h, order[j], maxBytes, maxRuns)
  }

  /** What a call leaves of the order: its end, and behind it the log it created. */
  lemma OrderAfterCall(l: Logs, c: Call, maxBytes: nat, maxRuns: nat) returns (n: nat)
    requires l.Valid() && maxRuns > 0
    ensures n <= |l.order|
    ensures Called(l, c, maxBytes, maxRuns).order ==
            l.order[n..] + (if Creates(l, c, c.id, maxRuns) then [c.id] else [])
    ensures Creates(l, c, c.id, maxRuns) ==> c.id !in l.order[n..]
  {
    EvictedIsValid(l, maxRuns);
    EvictedKeepsTheNewest(l, maxRuns);
    n := if c.Start? || (c.Append? && c.id !in l.kept) then Max(0, |l.order| - maxRuns + 1) else 0;
    assert l.order[0..] == l.order && l.order[n..] + [] == l.order[n..];
    assert c.id in l.Evicted(maxRuns).order ==> c.id in l.order;
  }

  /** The dictionary's order is that of creation, over any history. */
  lemma {:induction false} OrderIsOfCreation(h: seq<Call>, maxBytes: nat, maxRuns: nat)
    requires maxRuns > 0
    ensures InOrderOfCreation(h, maxBytes, maxRuns)
  {
    if h != [] {
      OrderIsOfCreation(h[..|h| - 1], maxBytes, maxRuns);
      OneMoreInOrder(h[..|h| - 1], h[|h| - 1], maxBytes, maxRuns);
      assert h == h[..|h| - 1] + [h[|h| - 1]];
    }
  }

  lemma OneMoreInOrder(before: seq<Call>, c: Call, maxBytes: nat, maxRuns: nat)
    requires maxRuns > 0 && InOrderOfCreation(before, maxBytes, maxRuns)
    ensures InOrderOfCreation(before + [c], maxBytes, maxRuns)
  {
    var l := After(before, maxBytes, maxRuns);
    var order := After(before + [c], maxBytes, maxRuns).order;
    assert (before + [c])[..|before|] == before;
    LogsStayValid(before, maxBytes, maxRuns);
    var n := OrderAfterCall(l, c, maxBytes, maxRuns);
    forall i, j | 0 <= i < j < |order|
      ensures CreatedAt(before + [c], order[i], maxBytes, maxRuns)
              < CreatedAt(before + [c], order[j], maxBytes, maxRuns)
    {
      PairInOrder(l, c, order, n, i, j, maxRuns);
      CreatedOneCallLater(before, c, order[i], order[j], maxBytes, maxRuns);
    }
  }

  /** Of two logs in the new order, the first was there before, and the second was behind it or is new. */
  lemma PairInOrder(l: Logs, c: Call, order: seq<string>, n: nat, i: nat, j: nat, maxRuns: nat)
    requires maxRuns > 0 && n <= |l.order| && i < j < |order|
    requires order == l.order[n..] + (if Creates(l, c, c.id, maxRuns) then [c.id] else [])
    requires Creates(l, c, c.id, maxRuns) ==> c.id !in l.order[n..]
    ensures n + i < |l.order| && order[i] == l.order[n + i] && !Creates(l, c, order[i], maxRuns)
    ensures Creates(l, c, order[j], maxRuns) || (n + j < |l.order| && order[j] == l.order[n + j])
  {
    assert order[i] == l.order[n..][i];
    if j < |l.order[n..]| {
      assert order[j] == l.order[n..][j];
    }
  }

  /** Neither log is created by this call, or only the later one is. */
  lemma CreatedOneCallLater(before: seq<Call>, c: Call, one: string, other: string, maxBytes: nat, maxRuns: nat)
    requires maxRuns > 0 && !Creates(After(before, maxBytes, maxRuns), c, one, maxRuns)
    requires
      || Creates(After(before, maxBytes, maxRuns), c, other, maxRuns)
      || CreatedAt(before, one, maxBytes, maxRuns) < CreatedAt(before, other, maxBytes, maxRuns)
    ensures CreatedAt(before + [c], one, maxBytes, maxRuns) < CreatedAt(before + [c], other, maxBytes, maxRuns)
  {
    assert (before + [c])[..|before|] == before;
    CreatedInThePast(before, one, maxBytes, maxRuns);
  }

  /** Of all the logs there are, none was appended to longer ago than this one. */
  ghost predicate LeastRecentlyAppended(h: seq<Call>, id: string, maxBytes: nat, maxRuns: nat)
    requires maxRuns > 0
  {
    var l := After(h, maxBytes, maxRuns);
    id in l.kept && forall other :: other in l.kept ==> LastAppend(h, id) <= LastAppend(h, other)
  }

  /**
   Over any history that filled the logs, starting another forgets exactly the one created
   first. It is the one least recently appended to just when every log created after it was
   appended to no earlier than it was.
   */
  lemma ForgottenIsLeastRecentIff(h: seq<Call>, id: string, maxBytes: nat, maxRuns: nat)
    requires maxRuns > 0 && |After(h, maxBytes, maxRuns).order| == maxRuns && id !in After(h, maxBytes, maxRuns).kept
    ensures
      var l, after := After(h, maxBytes, maxRuns), After(h + [Start(id)], maxBytes, maxRuns);
      var first := l.order[0];
      && (forall other :: other in l.kept ==> (other !in after.kept <==> other == first))
      && (forall other :: other in l.kept && other != first ==>
            CreatedAt(h, first, maxBytes, maxRuns) < CreatedAt(h, other, maxBytes, maxRuns))
      && ((forall gone :: gone in l.kept && gone !in after.kept ==> LeastRecentlyAppended(h, gone, maxBytes, maxRuns))
          <==> forall other :: other in l.kept ==> LastAppend(h, first) <= LastAppend(h, other))
  {
    var l := After(h, maxBytes, maxRuns);
    assert (h + [Start(id)])[..|h|] == h;
    LogsStayValid(h, maxBytes, maxRuns);
    OrderIsOfCreation(h, maxBytes, maxRuns);
    StartForgetsTheFirstCreated(l, id, maxRuns);
    FirstIsNotRepeated(l);
  }

  lemma FirstIsNotRepeated(l: Logs)
    requires l.Valid() && l.order != []
    ensures l.order[0] in l.kept
    ensures forall other :: other in l.kept && other != l.order[0] ==> other in l.order[1..]
  {
    forall other | other in l.kept && other != l.order[0]
      ensures other in l.order[1..]
    {
      var i :| 0 <= i < |l.order| && l.order[i] == other;
      assert l.order[1..][i - 1] == other;
    }
  }

  /** A log appended to after every other one is forgotten all the same, when it was created first. */
  lemma AppendingDoesNotSaveALog(h: seq<Call>, chunk: Chunk, id: string, maxBytes: nat, maxRuns: nat)
    requires maxRuns > 1 && |After(h, maxBytes, maxRuns).order| == maxRuns && id !in After(h, maxBytes, maxRuns).kept
    ensures
      var first := After(h, maxBytes, maxRuns).order[0];
      var appended := h + [Append(first, chunk)];
      && first !in After(appended + [Start(id)], maxBytes, maxRuns).kept
      && first in After(appended, maxBytes, maxRuns).kept
      && forall other :: other != first ==> LastAppend(appended, other) < LastAppend(appended, first)
  {
    var l := After(h, maxBytes, maxRuns);
    var first := l.order[0];
    var appended := h + [Append(first, chunk)];
    assert appended[..|h|] == h && (appended + [Start(id)])[..|appended|] == appended;
    LogsStayValid(h, maxBytes, maxRuns);
    LogsStayValid(appended, maxBytes, maxRuns);
    FirstIsNotRepeated(l);
    StartForgetsTheFirstCreated(After(appended, maxBytes, maxRuns), id, maxRuns);
    forall other | other != first
      ensures LastAppend(appended, other) < LastAppend(appended, first)
    {
      AppendedInThePast(h, other);
    }
  }

  lemma {:induction false} AppendedInThePast(h: seq<Call>, id: string)
    ensures LastAppend(h, id) <= |h|
  {
    if h != [] {
      AppendedInThePast(h[..|h| - 1], id);
    }
  }
}
