/** A run: one idea carried to a generated project, as a value and its table of legal moves. */
module Runs {
  import opened Prelude

  const MAX_ROUNDS := 2
  const MAX_IDEA_CHARS := 4_000

  datatype RunState =
    | Idea | PmAnalysis | Questionnaire | PlanReview | PlanRejected | PmRevision
    | PlanApproved | BackendGeneration | ZipReady | FailedRun

  datatype RunEvent = Describe | Ask | Propose | Reject | Revise | Approve | Generate | Deliver | Fail | Reset

  function Target(state: RunState, event: RunEvent): Option<RunState> {
    if event.Fail? then (if state.ZipReady? || state.FailedRun? then None else Some(FailedRun))
    else
      match (state, event)
      case (Idea, Describe) => Some(PmAnalysis)
      case (PmAnalysis, Ask) => Some(Questionnaire)
      case (PmAnalysis, Propose) => Some(PlanReview)
      case (Questionnaire, Describe) => Some(PmAnalysis)
      case (Questionnaire, Ask) => Some(Questionnaire)
      case (Questionnaire, Propose) => Some(PlanReview)
      case (PlanReview, Reject) => Some(PlanRejected)
      case (PlanReview, Approve) => Some(PlanApproved)
      case (PlanRejected, Revise) => Some(PmRevision)
      case (PmRevision, Propose) => Some(PlanReview)
      case (PlanApproved, Generate) => Some(BackendGeneration)
      case (BackendGeneration, Deliver) => Some(ZipReady)
      case (ZipReady, Reset) => Some(Idea)
      case (FailedRun, Reset) => Some(Idea)
      case _ => None
  }

  datatype Answer = Answer(questionId: string, value: string)

  /**
   One JSON answer of the planning agent, as far as the gateway reads it: the texts of its
   questions, its purpose, and how many mappings its four sections hold.
   */
  datatype Document = Document(summary: string, purpose: string, items: nat, questions: seq<string>)

  /** What a text is stripped of: every character that counts as white space. */
  predicate IsSpace(c: char) {
    var n := c as int;
    || 9 <= n <= 13 || 28 <= n <= 32 || n == 133 || n == 160 || n == 5760 || 8192 <= n <= 8202
    || n == 8232 || n == 8233 || n == 8239 || n == 8287 || n == 12288
  }

  function Strip(s: string): string {
    if s == "" then ""
    else if IsSpace(s[0]) then Strip(s[1..])
    else if IsSpace(s[|s| - 1]) then Strip(s[..|s| - 1])
    else s
  }

  predicate Blank(s: string) { Strip(s) == "" }

  function Questions(texts: seq<string>): seq<string> {
    if texts == [] then []
    else (if Blank(texts[0]) then [] else [texts[0]]) + Questions(texts[1..])
  }

  /** A plan says what it is for, and names something concrete. */
  predicate IsPlan(d: Document) { !Blank(d.purpose) && d.items > 0 }

  datatype Run = Run(
    id: string, idea: string, state: RunState, rounds: nat, answers: seq<Answer>,
    plan: Option<Document>, summary: string, questions: seq<string>,
    artifactId: string, account: string, charged: nat)
  {
    function Moved(event: RunEvent): Option<Run> {
      match Target(state, event)
      case None => None
      case Some(next) => Some(this.(state := next))
    }

    /** A questionnaire was served: the only place the rounds grow. */
    function Asked(text: string, served: seq<string>): Option<Run> {
      match Moved(Ask)
      case None => None
      case Some(r) =>
        Some(r.(summary := if text == "" then summary else text, questions := served, rounds := rounds + 1))
    }

    function Proposed(document: Document): Option<Run> {
      match Moved(Propose)
      case None => None
      case Some(r) => Some(r.(plan := Some(document), questions := []))
    }

    function Answering(given: seq<Answer>): Run { this.(answers := Merged(Merged([], answers), given)) }

    function Delivered(artifact: string): Option<Run> {
      match Moved(Deliver)
      case None => None
      case Some(r) => Some(r.(artifactId := artifact))
    }

    function RoundsLeft(): nat { Max(0, MAX_ROUNDS - rounds) }
  }

  function Started(id: string, idea: string, account: string): Option<Run> {
    var text := Strip(idea);
    if text == "" || |text| > MAX_IDEA_CHARS then None
    else Some(Run(id, text, Idea, 0, [], None, "", [], "", account, 0))
  }

  // ---------- texts ----------

  const WHITE_SPACE: set<char> := {
    '\t', '\n', '\U{b}', '\U{c}', '\r', '\U{1c}', '\U{1d}', '\U{1e}', '\U{1f}', ' ', '\U{85}', '\U{a0}', '\U{1680}',
    '\U{2000}', '\U{2001}', '\U{2002}', '\U{2003}', '\U{2004}', '\U{2005}', '\U{2006}', '\U{2007}', '\U{2008}',
    '\U{2009}', '\U{200a}', '\U{2028}', '\U{2029}', '\U{202f}', '\U{205f}', '\U{3000}'}

  lemma SpacesAreWhiteSpace(c: char)
    ensures IsSpace(c) <==> c in WHITE_SPACE
  {
  }

  predicate IsWhite(s: string) { forall i :: 0 <= i < |s| ==> s[i] in WHITE_SPACE }

  predicate AllSpaces(s: string) { forall i :: 0 <= i < |s| ==> IsSpace(s[i]) }

  /** Where what is left of a stripped text begins and ends: only spaces before and after, and none at either end. */
  predicate IsCore(s: string, from: nat, until: nat) {
    && from <= until <= |s| && AllSpaces(s[..from]) && AllSpaces(s[until..])
    && (from < until ==> !IsSpace(s[from]) && !IsSpace(s[until - 1]))
  }

  lemma SpaceMore(s: string, c: char)
    requires IsSpace(c) && AllSpaces(s)
    ensures AllSpaces([c] + s) && AllSpaces(s + [c])
  {
  }

  lemma SliceOfTheRest(s: string, from: nat, until: nat)
    requires s != "" && from <= until <= |s| - 1
    ensures s[1..][from..until] == s[from + 1..until + 1]
    ensures from < until ==> s[from + 1] == s[1..][from] && s[until] == s[1..][until - 1]
  {
    var rest := s[1..];
    forall i | 0 <= i < until - from
      ensures rest[from..until][i] == s[from + 1..until + 1][i]
    {
      assert rest[from + i] == s[from + 1 + i];
    }
  }

  lemma CoreAfterASpace(s: string, from: nat, until: nat)
    requires s != "" && IsSpace(s[0]) && IsCore(s[1..], from, until)
    ensures IsCore(s, from + 1, until + 1) && s[from + 1..until + 1] == s[1..][from..until]
  {
    SpaceMore(s[1..][..from], s[0]);
    assert s[..from + 1] == [s[0]] + s[1..][..from];
    assert s[until + 1..] == s[1..][until..];
    SliceOfTheRest(s, from, until);
  }

  lemma CoreBeforeASpace(s: string, from: nat, until: nat)
    requires s != "" && IsSpace(s[|s| - 1]) && IsCore(s[..|s| - 1], from, until)
    ensures IsCore(s, from, until) && s[from..until] == s[..|s| - 1][from..until]
  {
    SpaceMore(s[..|s| - 1][until..], s[|s| - 1]);
    assert s[until..] == s[..|s| - 1][until..] + [s[|s| - 1]];
    assert s[..from] == s[..|s| - 1][..from];
    assert from < until ==> s[from] == s[..|s| - 1][from] && s[until - 1] == s[..|s| - 1][until - 1];
    assert forall i :: 0 <= i < until - from ==> s[from..until][i] == s[..|s| - 1][from..until][i];
  }

  lemma {:induction false} StripLeavesTheCore(s: string) returns (from: nat, until: nat)
    ensures IsCore(s, from, until) && Strip(s) == s[from..until]
    decreases |s|
  {
    if s == "" {
      from, until := 0, 0;
    } else if IsSpace(s[0]) {
      var f, u := StripLeavesTheCore(s[1..]);
      CoreAfterASpace(s, f, u);
      from, until := f + 1, u + 1;
    } else if IsSpace(s[|s| - 1]) {
      var f, u := StripLeavesTheCore(s[..|s| - 1]);
      CoreBeforeASpace(s, f, u);
      from, until := f, u;
    } else {
      from, until := 0, |s|;
    }
  }

  lemma SpacesAreWhite(s: string)
    ensures AllSpaces(s) <==> IsWhite(s)
  {
    forall i | 0 <= i < |s|
      ensures IsSpace(s[i]) <==> s[i] in WHITE_SPACE
    {
      SpacesAreWhiteSpace(s[i]);
    }
  }

  /** Stripping drops the white space at either end, all of it and nothing else. */
  lemma StripDropsWhiteEnds(s: string) returns (from: nat, until: nat)
    ensures from <= until <= |s| && Strip(s) == s[from..until] && IsWhite(s[..from]) && IsWhite(s[until..])
    ensures from < until ==> s[from] !in WHITE_SPACE && s[until - 1] !in WHITE_SPACE
  {
    from, until := StripLeavesTheCore(s);
    SpacesAreWhite(s[..from]);
    SpacesAreWhite(s[until..]);
    if from < until {
      SpacesAreWhiteSpace(s[from]);
      SpacesAreWhiteSpace(s[until - 1]);
    }
  }

  lemma BlankIsAllWhite(s: string)
    ensures Blank(s) <==> IsWhite(s)
  {
    var from, until := StripDropsWhiteEnds(s);
    if from < until {
      assert s[from] !in WHITE_SPACE;
    } else {
      assert s == s[..from] + s[until..];
    }
  }

  /** The questions asked are those that say something, in order. */
  lemma {:induction false} QuestionsSaySomething(texts: seq<string>)
    ensures forall q :: q in Questions(texts) <==> q in texts && !IsWhite(q)
    ensures |Questions(texts)| <= |texts|
    ensures (forall i :: 0 <= i < |texts| ==> !IsWhite(texts[i])) ==> Questions(texts) == texts
  {
    if texts != [] {
      BlankIsAllWhite(texts[0]);
      QuestionsSaySomething(texts[1..]);
      assert texts == [texts[0]] + texts[1..];
    }
  }

  lemma {:induction false} QuestionsKeepTheirOrder(first: seq<string>, rest: seq<string>)
    ensures Questions(first + rest) == Questions(first) + Questions(rest)
  {
    if first == [] {
      assert first + rest == rest;
    } else {
      assert (first + rest)[1..] == first[1..] + rest;
      QuestionsKeepTheirOrder(first[1..], rest);
    }
  }

  lemma PlansSayWhatForAndSomething(d: Document)
    ensures IsPlan(d) <==> d.items >= 1 && exists i :: 0 <= i < |d.purpose| && d.purpose[i] !in WHITE_SPACE
  {
    BlankIsAllWhite(d.purpose);
  }

  /** A run starts from an idea that says something in at most 4000 characters, with nothing else in it. */
  lemma RunsStartFromAnIdea(id: string, idea: string, account: string)
    ensures Started(id, idea, account).Some? <==> !IsWhite(idea) && |Strip(idea)| <= 4000
    ensures Started(id, idea, account).Some? ==>
              Started(id, idea, account).value == Run(id, Strip(idea), Idea, 0, [], None, "", [], "", account, 0)
  {
    BlankIsAllWhite(idea);
  }

  // ---------- the table of moves ----------

  /** Where an event leads, whenever it is allowed. */
  function Destination(event: RunEvent): RunState {
    match event
    case Describe => PmAnalysis
    case Ask => Questionnaire
    case Propose => PlanReview
    case Reject => PlanRejected
    case Revise => PmRevision
    case Approve => PlanApproved
    case Generate => BackendGeneration
    case Deliver => ZipReady
    case Fail => FailedRun
    case Reset => Idea
  }

  /** From where an event is allowed. */
  function Sources(event: RunEvent): set<RunState> {
    match event
    case Describe => {Idea, Questionnaire}
    case Ask => {PmAnalysis, Questionnaire}
    case Propose => {PmAnalysis, Questionnaire, PmRevision}
    case Reject => {PlanReview}
    case Revise => {PlanRejected}
    case Approve => {PlanReview}
    case Generate => {PlanApproved}
    case Deliver => {BackendGeneration}
    case Fail =>
      {Idea, PmAnalysis, Questionnaire, PlanReview, PlanRejected, PmRevision, PlanApproved, BackendGeneration}
    case Reset => {ZipReady, FailedRun}
  }

  /** The table, by columns: an event leads to one state, from these and no others. */
  lemma AnEventLeadsToOneState(state: RunState, event: RunEvent)
    ensures Target(state, event) == if state in Sources(event) then Some(Destination(event)) else None
  {
  }

  /** Moving changes the state alone; asking, proposing and delivering also what they bring. */
  lemma MovesBringOnlyTheirOwn(r: Run, event: RunEvent, text: string, served: seq<string>, d: Document,
                               artifact: string)
    ensures r.Moved(event) == if r.state in Sources(event) then Some(r.(state := Destination(event))) else None
    ensures r.Asked(text, served) ==
            if r.state !in {PmAnalysis, Questionnaire} then None
            else Some(r.(state := Questionnaire, rounds := r.rounds + 1, questions := served,
                         summary := if text != "" then text else r.summary))
    ensures r.Proposed(d) ==
            if r.state !in {PmAnalysis, Questionnaire, PmRevision} then None
            else Some(r.(state := PlanReview, plan := Some(d), questions := []))
    ensures r.Delivered(artifact) ==
            if r.state != BackendGeneration then None
            else Some(r.(state := ZipReady, artifactId := artifact))
  {
  }

  // ---------- merging answers ----------

  function Ids(answers: seq<Answer>): seq<string> {
    seq(|answers|, i requires 0 <= i < |answers| => answers[i].questionId)
  }

  /** Where a question was first answered, or the end. */
  function Position(answers: seq<Answer>, id: string): (n: nat)
    ensures n <= |answers|
    ensures n < |answers| <==> id in Ids(answers)
    ensures n < |answers| ==> answers[n].questionId == id
  {
    if answers == [] then 0
    else if answers[0].questionId == id then
      assert Ids(answers)[0] == id;
      0
    else
      assert Ids(answers) == [answers[0].questionId] + Ids(answers[1..]);
      1 + Position(answers[1..], id)
  }

  function Merge(answers: seq<Answer>, a: Answer): seq<Answer> {
    var n := Position(answers, a.questionId);
    if n < |answers| then answers[n := a] else answers + [a]
  }

  /** A dictionary filled in order: a repeated question keeps its place and takes the later value. */
  function Merged(answers: seq<Answer>, given: seq<Answer>): seq<Answer> {
    if given == [] then answers else Merge(Merged(answers, given[..|given| - 1]), given[|given| - 1])
  }

  ghost predicate Distinct(answers: seq<Answer>) {
    forall i, j :: 0 <= i < j < |answers| ==> answers[i].questionId != answers[j].questionId
  }

  function Latest(given: seq<Answer>, id: string): Option<string> {
    if given == [] then None
    else if given[|given| - 1].questionId == id then Some(given[|given| - 1].value)
    else Latest(given[..|given| - 1], id)
  }

  lemma DistinctPosition(answers: seq<Answer>, n: nat)
    requires Distinct(answers) && n < |answers|
    ensures Position(answers, answers[n].questionId) == n
  {
    assert Ids(answers)[n] == answers[n].questionId;
  }

  /** Merging one answer keeps every question's place, and gives it the later value. */
  lemma MergeOne(answers: seq<Answer>, a: Answer)
    requires Distinct(answers)
    ensures Distinct(Merge(answers, a)) && Ids(answers) <= Ids(Merge(answers, a))
    ensures a.questionId in Ids(Merge(answers, a))
    ensures forall n :: 0 <= n < |Merge(answers, a)| ==>
              if Merge(answers, a)[n].questionId == a.questionId then Merge(answers, a)[n] == a
              else n < |answers| && Merge(answers, a)[n] == answers[n]
  {
    var after, n := Merge(answers, a), Position(answers, a.questionId);
    assert Ids(after)[n] == a.questionId;
    assert forall i :: 0 <= i < |answers| ==> Ids(after)[i] == Ids(answers)[i];
    forall i | 0 <= i < |answers| && answers[i].questionId == a.questionId
      ensures i == n
    {
      DistinctPosition(answers, i);
    }
  }

  ghost predicate MergedFrom(answers: seq<Answer>, given: seq<Answer>, merged: seq<Answer>) {
    forall n :: 0 <= n < |merged| ==>
      match Latest(given, merged[n].questionId)
      case Some(value) => merged[n].value == value
      case None => n < |answers| && merged[n] == answers[n]
  }

  /**
   No answer is ever lost to a later round: every question keeps its place and its latest
   value, and each appears once.
   */
  lemma {:induction false} AnswersAreMerged(answers: seq<Answer>, given: seq<Answer>)
    requires Distinct(answers)
    ensures Distinct(Merged(answers, given)) && Ids(answers) <= Ids(Merged(answers, given))
    ensures MergedFrom(answers, given, Merged(answers, given))
    ensures forall n :: 0 <= n < |given| ==> given[n].questionId in Ids(Merged(answers, given))
  {
    if given != [] {
      var before, last := given[..|given| - 1], given[|given| - 1];
      AnswersAreMerged(answers, before);
      MergeOne(Merged(answers, before), last);
      MergedFromOneMore(answers, given);
      forall n | 0 <= n < |given|
        ensures given[n].questionId in Ids(Merged(answers, given))
      {
        if n < |before| {
          assert before[n].questionId in Ids(Merged(answers, before));
        }
      }
    }
  }

  lemma MergedFromOneMore(answers: seq<Answer>, given: seq<Answer>)
    requires given != [] && Distinct(Merged(answers, given[..|given| - 1]))
    requires MergedFrom(answers, given[..|given| - 1], Merged(answers, given[..|given| - 1]))
    ensures MergedFrom(answers, given, Merged(answers, given))
  {
    MergeOne(Merged(answers, given[..|given| - 1]), given[|given| - 1]);
  }

  // ---------- what answering keeps ----------

  ghost predicate KeepTheirPlaces(was: seq<Answer>, now: seq<Answer>) {
    |was| <= |now| && forall i :: 0 <= i < |was| ==> now[i].questionId == was[i].questionId
  }

  predicate AnswersTo(given: seq<Answer>, id: string) {
    exists k :: 0 <= k < |given| && given[k].questionId == id
  }

  /** The last answer given to its question. */
  ghost predicate IsLastTo(given: seq<Answer>, a: Answer) {
    exists k :: 0 <= k < |given| && given[k] == a && forall m :: k < m < |given| ==> given[m].questionId != a.questionId
  }

  /**
   Answers after another round: every earlier question is where it was, every question given is
   there, each once, and with the last answer given to it, or with the one it had.
   */
  ghost predicate NothingIsLost(was: seq<Answer>, given: seq<Answer>, now: seq<Answer>) {
    && KeepTheirPlaces(was, now)
    && (forall i, j :: 0 <= i < j < |now| ==> now[i].questionId != now[j].questionId)
    && (forall k :: 0 <= k < |given| ==> AnswersTo(now, given[k].questionId))
    && (forall i :: 0 <= i < |now| ==>
          if AnswersTo(given, now[i].questionId) then IsLastTo(given, now[i]) else i < |was| && now[i] == was[i])
  }

  lemma AnotherAnswer(before: seq<Answer>, last: Answer, id: string)
    ensures AnswersTo(before + [last], id) <==> AnswersTo(before, id) || last.questionId == id
    ensures IsLastTo(before + [last], last)
    ensures forall a: Answer :: a.questionId != last.questionId && IsLastTo(before, a) ==> IsLastTo(before + [last], a)
  {
    var given := before + [last];
    assert given[|before|] == last;
    if AnswersTo(before, id) {
      var k :| 0 <= k < |before| && before[k].questionId == id;
      assert given[k].questionId == id;
    }
    forall a: Answer | a.questionId != last.questionId && IsLastTo(before, a)
      ensures IsLastTo(given, a)
    {
      var k :| 0 <= k < |before| && before[k] == a
              && forall m :: k < m < |before| ==> before[m].questionId != a.questionId;
      assert given[k] == a && forall m :: k < m < |given| ==> given[m].questionId != a.questionId;
    }
  }

  lemma {:induction false} LatestIsTheLast(given: seq<Answer>, id: string)
    ensures Latest(given, id).None? <==> !AnswersTo(given, id)
    ensures Latest(given, id).Some? ==> IsLastTo(given, Answer(id, Latest(given, id).value))
  {
    if given != [] {
      var before, last := given[..|given| - 1], given[|given| - 1];
      assert before + [last] == given;
      LatestIsTheLast(before, id);
      AnotherAnswer(before, last, id);
      assert last.questionId == id ==> last == Answer(id, last.value);
    }
  }

  lemma {:induction false} MergingAfreshChangesNothing(answers: seq<Answer>)
    requires Distinct(answers)
    ensures Merged([], answers) == answers
  {
    if answers != [] {
      var before, last := answers[..|answers| - 1], answers[|answers| - 1];
      MergingAfreshChangesNothing(before);
      assert forall i :: 0 <= i < |before| ==> before[i].questionId != last.questionId;
      assert before + [last] == answers;
    }
  }

  lemma MergingLosesNothing(was: seq<Answer>, given: seq<Answer>)
    requires Distinct(was)
    ensures NothingIsLost(was, given, Merged(was, given))
  {
    var now := Merged(was, given);
    AnswersAreMerged(was, given);
    assert |Ids(was)| <= |Ids(now)|;
    forall i | 0 <= i < |was|
      ensures now[i].questionId == was[i].questionId
    {
      assert Ids(now)[i] == Ids(was)[i];
    }
    forall k | 0 <= k < |given|
      ensures AnswersTo(now, given[k].questionId)
    {
      var i :| 0 <= i < |Ids(now)| && Ids(now)[i] == given[k].questionId;
      assert now[i].questionId == given[k].questionId;
    }
    forall i | 0 <= i < |now|
      ensures if AnswersTo(given, now[i].questionId) then IsLastTo(given, now[i]) else i < |was| && now[i] == was[i]
    {
      LatestIsTheLast(given, now[i].questionId);
    }
  }

  /** A run keeps every answer it has through another round of them, and is otherwise as it was. */
  lemma AnsweringLosesNothing(r: Run, given: seq<Answer>)
    requires Distinct(r.answers)
    ensures NothingIsLost(r.answers, given, r.Answering(given).answers)
    ensures r.Answering(given) == r.(answers := r.Answering(given).answers)
  {
    MergingAfreshChangesNothing(r.answers);
    MergingLosesNothing(r.answers, given);
  }

  /** However it was stored before, a run that has been answered has one answer a question. */
  lemma AnsweredOnceEach(r: Run, given: seq<Answer>)
    ensures Distinct(r.Answering(given).answers)
  {
    AnswersAreMerged([], r.answers);
    AnswersAreMerged(Merged([], r.answers), given);
  }
}
