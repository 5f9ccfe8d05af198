/** The quiz (components/Quiz.tsx): a step index, one tally per archetype
    and a guard flag that ignores clicks while the transition to the next
    question is under way. On the last question the winner is picked by
    folding over the archetype keys. */
module Quiz {
  import opened Wrappers
  import opened Types
  import Constants

  /** `QUIZ_QUESTIONS.length`. */
  const QuestionCount: nat := |Constants.QuizQuestions|

  /** The order in which `Object.keys` lists the score record: the order of
      its initialiser (Quiz.tsx:12-16). */
  const KeyOrder: seq<ArchetypeId> := [Healer, Adventurer, Scavenger]

  /** The position of an archetype in KeyOrder. */
  function Rank(k: ArchetypeId): (r: nat)
    ensures r < |KeyOrder| && KeyOrder[r] == k
  {
    match k
    case Healer => 0
    case Adventurer => 1
    case Scavenger => 2
  }

  type Scores = map<ArchetypeId, nat>

  predicate HasAllKeys(s: Scores) {
    forall k: ArchetypeId :: k in s
  }

  lemma ThreeKeysAreAll(s: Scores)
    requires Healer in s && Adventurer in s && Scavenger in s
    ensures HasAllKeys(s)
  {
    forall k: ArchetypeId ensures k in s {
      match k
      case Healer => {}
      case Adventurer => {}
      case Scavenger => {}
    }
  }

  /** How many of the answers chose archetype `k`. */
  function Count(answers: seq<ArchetypeId>, k: ArchetypeId): nat
  {
    if answers == [] then 0
    else Count(answers[..|answers| - 1], k) + (if answers[|answers| - 1] == k then 1 else 0)
  }

  /** The score record after the given answers have been accepted. */
  function Tally(answers: seq<ArchetypeId>): (s: Scores)
    ensures HasAllKeys(s)
  {
    var s := map[Healer := Count(answers, Healer), Adventurer := Count(answers, Adventurer),
                 Scavenger := Count(answers, Scavenger)];
    ThreeKeysAreAll(s);
    s
  }

  /** The initial score record: every archetype at 0. */
  lemma InitialTally()
    ensures Tally([]) == map[Healer := 0, Adventurer := 0, Scavenger := 0]
  {
  }

  /** Accepting one more answer adds 1 to its archetype's tally and leaves
      the other two tallies alone. */
  lemma TallyAppend(answers: seq<ArchetypeId>, a: ArchetypeId)
    ensures Tally(answers + [a]) == Tally(answers)[a := Tally(answers)[a] + 1]
  {
    assert (answers + [a])[..|answers|] == answers;
  }

  /** The three tallies add up to the number of accepted answers. */
  lemma {:induction false} TallySum(answers: seq<ArchetypeId>)
    ensures Tally(answers)[Healer] + Tally(answers)[Adventurer] + Tally(answers)[Scavenger] == |answers|
  {
    if answers != [] {
      var init := answers[..|answers| - 1];
      TallySum(init);
      assert answers == init + [answers[|answers| - 1]];
      TallyAppend(init, answers[|answers| - 1]);
    }
  }

  /** One step of the `reduce`: strict `>` keeps `a` only when it is
      strictly ahead, so on a tie the later key `b` is kept. */
  function Pick(s: Scores, a: ArchetypeId, b: ArchetypeId): ArchetypeId
    requires HasAllKeys(s)
  {
    if s[a] > s[b] then a else b
  }

  /** `keys.reduce(Pick)` without an initial value: a left fold that starts
      from `keys[0]`. */
  function Reduce(s: Scores, keys: seq<ArchetypeId>): ArchetypeId
    requires HasAllKeys(s) && |keys| > 0
    decreases |keys|
  {
    if |keys| == 1 then keys[0]
    else Pick(s, Reduce(s, keys[..|keys| - 1]), keys[|keys| - 1])
  }

  /** The archetype the quiz reports on completion (Quiz.tsx:36-38). */
  function Winner(s: Scores): ArchetypeId
    requires HasAllKeys(s)
  {
    Reduce(s, KeyOrder)
  }

  /** Position `m` holds a largest tally, and every later position holds a
      strictly smaller one: `m` is the last position of the maximum. */
  ghost predicate IsLastMaxAt(s: Scores, keys: seq<ArchetypeId>, m: int)
    requires HasAllKeys(s)
  {
    0 <= m < |keys| &&
    (forall j :: 0 <= j < |keys| ==> s[keys[j]] <= s[keys[m]]) &&
    (forall j :: m < j < |keys| ==> s[keys[j]] < s[keys[m]])
  }

  /** The fold returns the element at the last position of the maximum. */
  lemma {:induction false} ReduceIsLastMax(s: Scores, keys: seq<ArchetypeId>) returns (m: nat)
    requires HasAllKeys(s) && |keys| > 0
    ensures IsLastMaxAt(s, keys, m) && Reduce(s, keys) == keys[m]
    decreases |keys|
  {
    if |keys| == 1 {
      m := 0;
    } else {
      var n := |keys| - 1;
      var init := keys[..n];
      var m' := ReduceIsLastMax(s, init);
      assert forall j :: 0 <= j < n ==> init[j] == keys[j];
      if s[keys[m']] > s[keys[n]] {
        m := m';
      } else {
        m := n;
      }
    }
  }

  /** `w` has a largest tally and every archetype after it in KeyOrder has a
      strictly smaller one. */
  ghost predicate IsLastMaximum(s: Scores, w: ArchetypeId)
    requires HasAllKeys(s)
  {
    (forall k: ArchetypeId :: s[k] <= s[w]) &&
    (forall k: ArchetypeId :: Rank(w) < Rank(k) ==> s[k] < s[w])
  }

  /** The winner is exactly the archetype that holds the maximum and is the
      last to hold it in the order HEALER, ADVENTURER, SCAVENGER. */
  lemma WinnerIsLastMaximum(s: Scores, w: ArchetypeId)
    requires HasAllKeys(s)
    ensures Winner(s) == w <==> IsLastMaximum(s, w)
  {
    var m := ReduceIsLastMax(s, KeyOrder);
    var v := KeyOrder[m];
    assert Rank(v) == m;
    assert IsLastMaximum(s, v) by {
      forall k: ArchetypeId ensures s[k] <= s[v] && (Rank(v) < Rank(k) ==> s[k] < s[v]) {
        assert KeyOrder[Rank(k)] == k;
      }
    }
    if IsLastMaximum(s, w) {
      assert s[w] == s[v];
      assert Rank(w) == Rank(v);
      assert KeyOrder[Rank(w)] == w;
    }
  }

  /** The winner's tally is at least every other tally. */
  lemma WinnerIsMaximal(s: Scores)
    requires HasAllKeys(s)
    ensures forall k: ArchetypeId :: s[k] <= s[Winner(s)]
  {
    WinnerIsLastMaximum(s, Winner(s));
  }

  /** A tie is broken in favour of the later key: HEALER 2, ADVENTURER 2,
      SCAVENGER 1 makes ADVENTURER the winner. */
  lemma TieGoesToLaterKey()
    ensures var s := map[Healer := 2, Adventurer := 2, Scavenger := 1];
      HasAllKeys(s) && Winner(s) == Adventurer
  {
    var s: Scores := map[Healer := 2, Adventurer := 2, Scavenger := 1];
    ThreeKeysAreAll(s);
    WinnerIsLastMaximum(s, Adventurer);
  }

  /** With five answers over three archetypes, a tie for the maximum can only
      be 2/2/1. */
  lemma FiveAnswerTieShape(answers: seq<ArchetypeId>, a: ArchetypeId, b: ArchetypeId, c: ArchetypeId)
    requires |answers| == 5
    requires a != b && b != c && a != c
    requires Tally(answers)[a] == Tally(answers)[b]
    requires Tally(answers)[c] <= Tally(answers)[a]
    ensures Tally(answers)[a] == 2 && Tally(answers)[c] == 1
  {
    TallySum(answers);
    var s := Tally(answers);
    assert s[a] + s[b] + s[c] == 5 by {
      match a
      case Healer => {}
      case Adventurer => {}
      case Scavenger => {}
    }
  }

  /** One mounted quiz. `isExiting` is the guard; `timerPending` says that an
      accepted click has scheduled the delayed transition and it has not run
      yet. */
  class QuizSession {
    var currentStep: nat
    var scores: Scores
    var isExiting: bool
    var timerPending: bool
    /** The accepted answers, in order. */
    ghost var answers: seq<ArchetypeId>

    /** The completion callback has run: the guard is set and no transition
        is left to clear it. */
    predicate Completed()
      reads this
    {
      isExiting && !timerPending
    }

    ghost predicate Valid()
      reads this
    {
      scores == Tally(answers) &&
      currentStep < QuestionCount &&
      (timerPending ==> isExiting) &&
      (!isExiting ==> |answers| == currentStep) &&
      (timerPending ==> |answers| == currentStep + 1) &&
      (Completed() ==> |answers| == QuestionCount && currentStep == QuestionCount - 1)
    }

    /** The quiz mounts on question 0 with every tally at 0 and the guard
        cleared. */
    constructor ()
      ensures Valid()
      ensures currentStep == 0 && !isExiting && !timerPending
      ensures scores == map[Healer := 0, Adventurer := 0, Scavenger := 0]
      ensures answers == []
    {
      currentStep := 0;
      scores := map[Healer := 0, Adventurer := 0, Scavenger := 0];
      isExiting := false;
      timerPending := false;
      answers := [];
      InitialTally();
    }

    /** `handleSelect`: ignored while the guard is set; otherwise sets the
        guard, adds 1 to the chosen archetype's tally and schedules the
        transition. */
    method HandleSelect(archetype: ArchetypeId)
      requires Valid()
      modifies this
      ensures Valid()
      ensures old(isExiting) ==>
        currentStep == old(currentStep) && scores == old(scores) && isExiting &&
        timerPending == old(timerPending) && answers == old(answers)
      ensures !old(isExiting) ==>
        currentStep == old(currentStep) && isExiting && timerPending &&
        scores == old(scores)[archetype := old(scores)[archetype] + 1] &&
        answers == old(answers) + [archetype]
    {
      if isExiting {
        return;
      }
      TallyAppend(answers, archetype);
      ghost var next := answers + [archetype];
      assert |next| == currentStep + 1 <= QuestionCount;
      isExiting := true;
      scores := scores[archetype := scores[archetype] + 1];
      answers := next;
      timerPending := true;
    }

    /** The delayed transition: before the last question it advances the
        step and clears the guard; on the last question it reports the
        winner and leaves the guard set, so later clicks are ignored. */
    method TimerFires() returns (completion: Option<ArchetypeId>)
      requires Valid() && timerPending
      modifies this
      ensures Valid() && !timerPending
      ensures scores == old(scores) && answers == old(answers)
      ensures old(currentStep) < QuestionCount - 1 ==>
        currentStep == old(currentStep) + 1 && !isExiting && completion == None
      ensures old(currentStep) >= QuestionCount - 1 ==>
        currentStep == old(currentStep) && isExiting && |answers| == QuestionCount &&
        completion == Some(Winner(scores))
    {
      timerPending := false;
      if currentStep < QuestionCount - 1 {
        currentStep := currentStep + 1;
        isExiting := false;
        completion := None;
      } else {
        completion := Some(Winner(scores));
      }
    }
  }

  /** What can happen to a mounted quiz: a click on an option, or the
      pending 500 ms timer running out. */
  datatype Event = Click(choice: ArchetypeId) | Tick

  /** No click among `events[lo..hi]`. */
  predicate NoClickIn(events: seq<Event>, lo: nat, hi: nat)
    requires lo <= hi <= |events|
  {
    forall t :: lo <= t < hi ==> !events[t].Click?
  }

  /** No timer expiry among `events[lo..hi]`. */
  predicate NoTickIn(events: seq<Event>, lo: nat, hi: nat)
    requires lo <= hi <= |events|
  {
    forall t :: lo <= t < hi ==> !events[t].Tick?
  }

  /** The accepted clicks and their transitions among `events[..n]`:
      `at[k]` is the position of the k-th accepted click, `fired[k]` that of
      the expiry that ends its transition. The first click is accepted; after
      an accepted click, clicks are ignored and the first expiry ends the
      transition; after it the first click is accepted again, until
      QuestionCount transitions have run. */
  ghost predicate Positions(events: seq<Event>, n: nat, accepted: seq<ArchetypeId>, at: seq<nat>, fired: seq<nat>)
    requires n <= |events|
  {
    |at| == |accepted| <= QuestionCount && (|fired| == |at| || |fired| + 1 == |at|) &&
    (forall k :: 0 <= k < |at| ==> at[k] < n && events[at[k]] == Click(accepted[k])) &&
    (forall k {:trigger fired[k]} :: 0 <= k < |fired| ==>
      at[k] < fired[k] < n && events[fired[k]] == Tick && NoTickIn(events, at[k] + 1, fired[k])) &&
    (|at| == 0 ==> NoClickIn(events, 0, n)) &&
    (|at| > 0 ==> NoClickIn(events, 0, at[0])) &&
    (forall k {:trigger fired[k]} :: 0 <= k < |at| - 1 ==>
      fired[k] < at[k + 1] && NoClickIn(events, fired[k] + 1, at[k + 1])) &&
    (|fired| < |at| ==> NoTickIn(events, at[|at| - 1] + 1, n)) &&
    (0 < |fired| == |at| < QuestionCount ==> NoClickIn(events, fired[|fired| - 1] + 1, n))
  }

  /** A click with no transition pending and fewer than QuestionCount
      transitions run is accepted. */
  lemma AcceptClick(events: seq<Event>, i: nat, accepted: seq<ArchetypeId>, at: seq<nat>, fired: seq<nat>)
    requires i < |events| && events[i].Click?
    requires Positions(events, i, accepted, at, fired) && |fired| == |at| < QuestionCount
    ensures Positions(events, i + 1, accepted + [events[i].choice], at + [i], fired)
  {
  }

  /** A click during a transition, or after the last one, is ignored. */
  lemma IgnoreClick(events: seq<Event>, i: nat, accepted: seq<ArchetypeId>, at: seq<nat>, fired: seq<nat>)
    requires i < |events| && events[i].Click?
    requires Positions(events, i, accepted, at, fired) && (|fired| < |at| || |fired| == QuestionCount)
    ensures Positions(events, i + 1, accepted, at, fired)
  {
  }

  /** An expiry during a transition ends it. */
  lemma FireTick(events: seq<Event>, i: nat, accepted: seq<ArchetypeId>, at: seq<nat>, fired: seq<nat>)
    requires i < |events| && events[i] == Tick
    requires Positions(events, i, accepted, at, fired) && |fired| + 1 == |at|
    ensures Positions(events, i + 1, accepted, at, fired + [i])
  {
    var f := fired + [i];
    forall k | 0 <= k < |f|
      ensures at[k] < f[k] < i + 1 && events[f[k]] == Tick && NoTickIn(events, at[k] + 1, f[k])
    {
      if k == |fired| {
        assert at[|at| - 1] == at[k];
      }
    }
  }

  /** An expiry with no transition pending changes nothing. */
  lemma IgnoreTick(events: seq<Event>, i: nat, accepted: seq<ArchetypeId>, at: seq<nat>, fired: seq<nat>)
    requires i < |events| && events[i] == Tick
    requires Positions(events, i, accepted, at, fired) && |fired| == |at|
    ensures Positions(events, i + 1, accepted, at, fired)
  {
  }

  /** Two readings of the same events that both satisfy `Positions` agree
      on the k-th accepted click and on the k-th transition. */
  lemma {:induction false} PositionsAgree(
    events: seq<Event>, n: nat,
    acc1: seq<ArchetypeId>, at1: seq<nat>, fired1: seq<nat>,
    acc2: seq<ArchetypeId>, at2: seq<nat>, fired2: seq<nat>, k: nat)
    requires n <= |events|
    requires Positions(events, n, acc1, at1, fired1) && Positions(events, n, acc2, at2, fired2)
    ensures k < |at1| && k < |at2| ==> at1[k] == at2[k]
    ensures k < |fired1| && k < |fired2| ==> fired1[k] == fired2[k]
    decreases k
  {
    if k > 0 {
      PositionsAgree(events, n, acc1, at1, fired1, acc2, at2, fired2, k - 1);
    }
    if k < |at1| && k < |at2| {
      if k == 0 {
        FirstClickFrom(events, 0, at1[0], at2[0]);
      } else {
        var f := fired1[k - 1];
        assert k - 1 < |fired2| && fired2[k - 1] == f;
        assert f < at1[k] && NoClickIn(events, f + 1, at1[k]);
        assert f < at2[k] && NoClickIn(events, f + 1, at2[k]);
        FirstClickFrom(events, f + 1, at1[k], at2[k]);
      }
    }
    if k < |fired1| && k < |fired2| {
      FirstTickFrom(events, at1[k] + 1, fired1[k], fired2[k]);
    }
  }

  /** Two positions that are both the first click from `lo` on are equal. */
  lemma FirstClickFrom(events: seq<Event>, lo: nat, a: nat, b: nat)
    requires lo <= a < |events| && lo <= b < |events|
    requires events[a].Click? && events[b].Click?
    requires NoClickIn(events, lo, a) && NoClickIn(events, lo, b)
    ensures a == b
  {
  }

  /** Two positions that are both the first expiry from `lo` on are equal. */
  lemma FirstTickFrom(events: seq<Event>, lo: nat, a: nat, b: nat)
    requires lo <= a < |events| && lo <= b < |events|
    requires events[a] == Tick && events[b] == Tick
    requires NoTickIn(events, lo, a) && NoTickIn(events, lo, b)
    ensures a == b
  {
  }

  /** The events determine the accepted clicks and the transitions: there is
      only one reading that satisfies `Positions`. */
  lemma PositionsUnique(
    events: seq<Event>, n: nat,
    acc1: seq<ArchetypeId>, at1: seq<nat>, fired1: seq<nat>,
    acc2: seq<ArchetypeId>, at2: seq<nat>, fired2: seq<nat>)
    requires n <= |events|
    requires Positions(events, n, acc1, at1, fired1) && Positions(events, n, acc2, at2, fired2)
    ensures acc1 == acc2 && at1 == at2 && fired1 == fired2
  {
    forall k | 0 <= k < |at1| + |at2|
      ensures (k < |at1| && k < |at2| ==> at1[k] == at2[k]) &&
              (k < |fired1| && k < |fired2| ==> fired1[k] == fired2[k])
    {
      PositionsAgree(events, n, acc1, at1, fired1, acc2, at2, fired2, k);
    }
    ShorterIsImpossible(events, n, acc1, at1, fired1, acc2, at2, fired2);
    ShorterIsImpossible(events, n, acc2, at2, fired2, acc1, at1, fired1);
    forall k | 0 <= k < |acc1| ensures acc1[k] == acc2[k] {
      assert events[at1[k]] == Click(acc1[k]);
    }
  }

  /** A reading with fewer accepted clicks or fewer transitions than another
      one of the same events leaves out a click or an expiry it should have
      taken. */
  lemma ShorterIsImpossible(
    events: seq<Event>, n: nat,
    acc1: seq<ArchetypeId>, at1: seq<nat>, fired1: seq<nat>,
    acc2: seq<ArchetypeId>, at2: seq<nat>, fired2: seq<nat>)
    requires n <= |events|
    requires Positions(events, n, acc1, at1, fired1) && Positions(events, n, acc2, at2, fired2)
    requires forall k :: 0 <= k < |at1| && k < |at2| ==> at1[k] == at2[k]
    requires forall k :: 0 <= k < |fired1| && k < |fired2| ==> fired1[k] == fired2[k]
    ensures |at1| >= |at2| && (|at1| == |at2| ==> |fired1| >= |fired2|)
  {
    var m := |at1|;
    if 0 < m <= |fired2| {
      assert at2[m - 1] < fired2[m - 1] < n && events[fired2[m - 1]] == Tick;
    }
  }

  /** Each answer clicked once and its transition run before the next
      click. */
  function InTurn(answers: seq<ArchetypeId>): seq<Event>
  {
    seq(2 * |answers|, i requires 0 <= i < 2 * |answers| =>
      if i % 2 == 0 then Click(answers[i / 2]) else Tick)
  }

  /** In turn, answer k is clicked at position 2k and its transition
      expires at 2k + 1. */
  lemma InTurnAt(answers: seq<ArchetypeId>, k: nat)
    requires k < |answers|
    ensures 2 * k + 1 < |InTurn(answers)|
    ensures InTurn(answers)[2 * k] == Click(answers[k]) && InTurn(answers)[2 * k + 1] == Tick
  {
  }

  /** In turn, the first QuestionCount clicks are accepted, each at its own
      position, and each is followed by its transition. */
  lemma InTurnPositions(answers: seq<ArchetypeId>)
    ensures var m := if |answers| < QuestionCount then |answers| else QuestionCount;
      Positions(InTurn(answers), 2 * |answers|, answers[..m],
                seq(m, k => 2 * k), seq(m, k => 2 * k + 1))
  {
    Constants.QuestionCountIsFive();
    var events := InTurn(answers);
    var n := 2 * |answers|;
    var m := if |answers| < QuestionCount then |answers| else QuestionCount;
    var acc, at, fired := answers[..m], seq(m, k => 2 * k), seq(m, k => 2 * k + 1);
    forall k | 0 <= k < m
      ensures at[k] < fired[k] < n && events[at[k]] == Click(acc[k]) && events[fired[k]] == Tick
    {
      InTurnAt(answers, k);
    }
    assert Positions(events, n, acc, at, fired);
  }

  /** `quiz` is the state after `events[..n]`, whose accepted clicks and
      transitions are `accepted`, `at` and `fired`. */
  ghost predicate Tracks(quiz: QuizSession, events: seq<Event>, n: nat,
                         accepted: seq<ArchetypeId>, at: seq<nat>, fired: seq<nat>)
    requires n <= |events|
    reads quiz
  {
    quiz.Valid() && quiz.answers == accepted &&
    Positions(events, n, accepted, at, fired) &&
    (!quiz.isExiting ==> |fired| == |at|) &&
    (quiz.timerPending <==> |fired| + 1 == |at|) &&
    (quiz.Completed() <==> |fired| == QuestionCount)
  }

  /** Delivers `events[i]` to the quiz: a click goes to `HandleSelect`, an
      expiry runs `TimerFires` when a transition is pending. */
  method Deliver(quiz: QuizSession, events: seq<Event>, i: nat,
                 ghost accepted: seq<ArchetypeId>, ghost at: seq<nat>, ghost fired: seq<nat>)
    returns (completion: Option<ArchetypeId>,
             ghost accepted': seq<ArchetypeId>, ghost at': seq<nat>, ghost fired': seq<nat>)
    requires i < |events| && Tracks(quiz, events, i, accepted, at, fired)
    modifies quiz
    ensures Tracks(quiz, events, i + 1, accepted', at', fired')
    ensures fired' == fired || (|fired| < QuestionCount && fired' == fired + [i])
    ensures |fired| == QuestionCount ==> accepted' == accepted
    ensures completion.Some? <==> |fired| < QuestionCount && |fired'| == QuestionCount
    ensures completion.Some? ==> completion.value == Winner(Tally(accepted'))
  {
    accepted', at', fired' := accepted, at, fired;
    completion := None;
    match events[i]
    case Click(a) =>
      if !quiz.isExiting {
        AcceptClick(events, i, accepted, at, fired);
        accepted', at' := accepted + [a], at + [i];
      } else {
        IgnoreClick(events, i, accepted, at, fired);
      }
      quiz.HandleSelect(a);
    case Tick =>
      if quiz.timerPending {
        FireTick(events, i, accepted, at, fired);
        fired' := fired + [i];
        completion := quiz.TimerFires();
      } else {
        IgnoreTick(events, i, accepted, at, fired);
      }
  }

  /** A session driven by any sequence of clicks and timer expiries, clicks
      during the transition included; an expiry with no transition pending
      does nothing. The clicks accepted and the transitions run are the
      ones `Positions` singles out. Completion is reported exactly when
      QuestionCount transitions have run, and then with the winner of the
      accepted clicks. */
  method Run(events: seq<Event>)
    returns (result: Option<ArchetypeId>, completions: nat,
             ghost accepted: seq<ArchetypeId>, ghost at: seq<nat>, ghost fired: seq<nat>)
    ensures Positions(events, |events|, accepted, at, fired) && |accepted| <= QuestionCount
    ensures completions == (if |fired| == QuestionCount then 1 else 0)
    ensures result.Some? <==> completions == 1
    ensures completions == 1 ==> result == Some(Winner(Tally(accepted)))
  {
    var quiz := new QuizSession();
    result, completions := None, 0;
    accepted, at, fired := [], [], [];
    for i := 0 to |events|
      invariant Tracks(quiz, events, i, accepted, at, fired)
      invariant completions == (if |fired| == QuestionCount then 1 else 0)
      invariant result.Some? <==> completions == 1
      invariant completions == 1 ==> result == Some(Winner(Tally(accepted)))
    {
      var c;
      c, accepted, at, fired := Deliver(quiz, events, i, accepted, at, fired);
      if c.Some? {
        result := c;
        completions := completions + 1;
      }
    }
  }

  /** A whole session in which each answer is clicked once and its
      transition runs before the next click: completion is reported exactly
      once, after exactly QuestionCount answers, with the winner of those
      answers; answers beyond them change nothing. */
  method Play(answers: seq<ArchetypeId>) returns (result: Option<ArchetypeId>, completions: nat)
    ensures completions == (if |answers| >= QuestionCount then 1 else 0)
    ensures result.Some? <==> |answers| >= QuestionCount
    ensures result.Some? ==> result.value == Winner(Tally(answers[..QuestionCount]))
  {
    var events := InTurn(answers);
    ghost var accepted, at, fired;
    result, completions, accepted, at, fired := Run(events);
    InTurnPositions(answers);
    ghost var m := if |answers| < QuestionCount then |answers| else QuestionCount;
    PositionsUnique(events, |events|, accepted, at, fired,
                    answers[..m], seq(m, k => 2 * k), seq(m, k => 2 * k + 1));
  }
}
