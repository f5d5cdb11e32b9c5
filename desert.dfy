/**
 * Stage 1 (Level1Desert.tsx): twenty yes/no questions, each worth a base
 * number of points. A positive answer earns the base scaled by the combo
 * streak and by a bonus for answering with more than five seconds left; a
 * negative answer earns nothing and breaks the streak.
 */
module Desert {
  import opened GameTypes

  const QuestionCount: nat := 20
  const LastQuestion: nat := 19

  /** Base points of the twenty questions, in order. */
  const Bases: seq<nat> := [10, 10, 5, 15, 10, 15, 5, 10, 5, 5, 15, 10, 10, 5, 10, 10, 15, 5, 5, 20]

  /** The one question whose text asks about fear of failure (the seventh). */
  const FearQuestion: nat := 6

  const WeakInfrastructure: string := "ضعف در زیرساخت"
  const ScalingChallenge: string := "چالش مقیاس‌پذیری"

  /** Seconds on the clock for each question. */
  const TimePerQuestion: nat := 10

  /** Whether an answer counts in the player's favour: "yes", except on the fear question. */
  predicate Positive(q: nat, yes: bool)
  {
    if q == FearQuestion then !yes else yes
  }

  /**
   * The points for a positive answer: the floor of base * (1 + combo / 10),
   * times 3/2 when the answer was fast.
   */
  function Award(base: nat, combo: nat, fast: bool): (r: nat)
    ensures !fast ==> 10 * r <= base * (10 + combo) < 10 * (r + 1)
    ensures fast ==> 20 * r <= 3 * base * (10 + combo) < 20 * (r + 1)
    ensures r >= base
  {
    if fast then base * (10 + combo) * 3 / 20 else base * (10 + combo) / 10
  }

  /** The question asked for the k-th answer (the last one stays on screen once reached). */
  function QuestionAt(k: nat): (q: nat)
    ensures q <= LastQuestion
  {
    if k < LastQuestion then k else LastQuestion
  }

  /** The running score, the combo streak and its high-water mark. */
  datatype Tally = Tally(score: nat, combo: nat, maxCombo: nat)

  /** The effect of one answer on the tally. */
  function Step(t: Tally, q: nat, yes: bool, fast: bool): (r: Tally)
    requires q < QuestionCount
    ensures Positive(q, yes) ==> r.combo == t.combo + 1 && r.score >= t.score + Bases[q]
    ensures !Positive(q, yes) ==> r.combo == 0 && r.score == t.score
    ensures r.maxCombo == if r.combo > t.maxCombo then r.combo else t.maxCombo
  {
    if Positive(q, yes) then
      var c := t.combo + 1;
      Tally(t.score + Award(Bases[q], t.combo, fast), c, if c > t.maxCombo then c else t.maxCombo)
    else
      Tally(t.score, 0, t.maxCombo)
  }

  /** The tally after a sequence of answers, each with its "more than five seconds left" flag. */
  function Replay(answers: seq<bool>, fast: seq<bool>): Tally
    requires |answers| == |fast|
  {
    if |answers| == 0 then Tally(0, 0, 0)
    else
      var n := |answers| - 1;
      Step(Replay(answers[..n], fast[..n]), QuestionAt(n), answers[n], fast[n])
  }

  /** The number of positive answers at the end of the sequence, without a break. */
  function Streak(answers: seq<bool>): nat
  {
    if |answers| == 0 then 0
    else
      var n := |answers| - 1;
      if Positive(QuestionAt(n), answers[n]) then Streak(answers[..n]) + 1 else 0
  }

  /** The points the i-th answer earned, computed from the streak before it. */
  function Earned(answers: seq<bool>, fast: seq<bool>, i: nat): nat
    requires |answers| == |fast| && i < |answers|
  {
    var q := QuestionAt(i);
    if Positive(q, answers[i]) then Award(Bases[q], Streak(answers[..i]), fast[i]) else 0
  }

  /** The sum of the points earned by the first k answers. */
  function Total(answers: seq<bool>, fast: seq<bool>, k: nat): nat
    requires |answers| == |fast| && k <= |answers|
  {
    if k == 0 then 0 else Total(answers, fast, k - 1) + Earned(answers, fast, k - 1)
  }

  /** Replaying one more answer is one more step. */
  lemma ReplayAppend(answers: seq<bool>, fast: seq<bool>, yes: bool, f: bool)
    requires |answers| == |fast|
    ensures Replay(answers + [yes], fast + [f]) == Step(Replay(answers, fast), QuestionAt(|answers|), yes, f)
  {
  }

  /** The combo is exactly the current streak of positive answers. */
  lemma {:induction false} ComboIsStreak(answers: seq<bool>, fast: seq<bool>)
    requires |answers| == |fast|
    ensures Replay(answers, fast).combo == Streak(answers)
  {
    if |answers| > 0 {
      var n := |answers| - 1;
      ComboIsStreak(answers[..n], fast[..n]);
    }
  }

  /** The score is the sum of the points earned answer by answer. */
  lemma {:induction false} ScoreIsTotal(answers: seq<bool>, fast: seq<bool>)
    requires |answers| == |fast|
    ensures Replay(answers, fast).score == Total(answers, fast, |answers|)
  {
    if |answers| > 0 {
      var n := |answers| - 1;
      var a, f := answers[..n], fast[..n];
      ScoreIsTotal(a, f);
      ComboIsStreak(a, f);
      TotalOfPrefix(answers, fast, n, n);
    }
  }

  /** Earlier totals only look at earlier answers. */
  lemma {:induction false} TotalOfPrefix(answers: seq<bool>, fast: seq<bool>, k: nat, j: nat)
    requires |answers| == |fast| && j <= k <= |answers|
    ensures Total(answers[..k], fast[..k], j) == Total(answers, fast, j)
  {
    if j > 0 {
      TotalOfPrefix(answers, fast, k, j - 1);
      assert answers[..k][..j - 1] == answers[..j - 1];
    }
  }

  /** The score never decreases: every prefix of the answers scored at most as much. */
  lemma {:induction false} ScoreMonotone(answers: seq<bool>, fast: seq<bool>, k: nat)
    requires |answers| == |fast| && k <= |answers|
    ensures Replay(answers[..k], fast[..k]).score <= Replay(answers, fast).score
  {
    if k < |answers| {
      var n := |answers| - 1;
      ScoreMonotone(answers[..n], fast[..n], k);
      assert answers[..n][..k] == answers[..k];
      assert fast[..n][..k] == fast[..k];
    } else {
      assert answers[..k] == answers && fast[..k] == fast;
    }
  }

  /** The recorded maximum is at least every streak reached along the way. */
  lemma {:induction false} MaxComboBounds(answers: seq<bool>, fast: seq<bool>, k: nat)
    requires |answers| == |fast| && k <= |answers|
    ensures Replay(answers, fast).maxCombo >= Streak(answers[..k])
  {
    if k == |answers| {
      assert answers[..k] == answers;
      ComboIsStreak(answers, fast);
    } else {
      var n := |answers| - 1;
      MaxComboBounds(answers[..n], fast[..n], k);
      assert answers[..n][..k] == answers[..k];
    }
  }

  /** ... and it is one of them: the maximum is the longest streak. */
  lemma {:induction false} MaxComboAttained(answers: seq<bool>, fast: seq<bool>) returns (k: nat)
    requires |answers| == |fast|
    ensures k <= |answers| && Replay(answers, fast).maxCombo == Streak(answers[..k])
  {
    if |answers| == 0 {
      k := 0;
    } else {
      var n := |answers| - 1;
      var prev := MaxComboAttained(answers[..n], fast[..n]);
      assert answers[..n][..prev] == answers[..prev];
      ComboIsStreak(answers, fast);
      if Replay(answers, fast).maxCombo == Replay(answers, fast).combo {
        k := |answers|;
        assert answers[..k] == answers;
      } else {
        k := prev;
      }
    }
  }

  /** The record the stage hands on after the last answer. */
  function DesertRecord(s: PlayerStats, total: int, maxCombo: int, firstAnswer: bool): (r: PlayerStats)
    ensures r.quizScore == total && r.gold == 10 * total && r.comboMultiplier == 1 && r.maxCombo == maxCombo
    ensures r.analysis.Some? && r.analysis.value.hasBusiness == firstAnswer && r.analysis.value.score == total
    ensures r.analysis.value.mainProblem == (if total < 200 then WeakInfrastructure else ScalingChallenge)
    ensures r.analysis.value.goal == "Improvement"
    ensures r.(quizScore := s.quizScore, gold := s.gold, comboMultiplier := s.comboMultiplier,
               maxCombo := s.maxCombo, analysis := s.analysis) == s
  {
    s.(quizScore := total,
       gold := total * 10,
       comboMultiplier := 1,
       maxCombo := maxCombo,
       analysis := Some(Analysis(firstAnswer, if total < 200 then WeakInfrastructure else ScalingChallenge, "Improvement", total)))
  }

  /** The stage's state cells. */
  class DesertQuiz {
    const currentStats: PlayerStats
    var index: nat
    var score: nat
    var combo: nat
    var maxCombo: nat
    var timeLeft: nat
    var answers: seq<bool>
    /** For each answer, whether more than five seconds were left when it was given. */
    ghost var fast: seq<bool>

    /** The cells agree with a replay of the answers given so far. */
    ghost predicate Valid()
      reads this
    {
      && |fast| == |answers|
      && index == QuestionAt(|answers|)
      && timeLeft <= TimePerQuestion
      && Tally(score, combo, maxCombo) == Replay(answers, fast)
    }

    constructor (currentStats: PlayerStats)
      ensures Valid()
      ensures this.currentStats == currentStats
      ensures index == 0 && score == 0 && combo == 0 && maxCombo == 0
      ensures timeLeft == TimePerQuestion && answers == []
    {
      this.currentStats := currentStats;
      index, score, combo, maxCombo := 0, 0, 0, 0;
      timeLeft := TimePerQuestion;
      answers := [];
      fast := [];
    }

    /** One tick of the per-question clock, stopping at zero. */
    method Tick()
      requires Valid()
      modifies this
      ensures Valid()
      ensures timeLeft == if old(timeLeft) > 0 then old(timeLeft) - 1 else 0
      ensures index == old(index) && score == old(score) && combo == old(combo)
      ensures maxCombo == old(maxCombo) && answers == old(answers) && fast == old(fast)
    {
      timeLeft := if timeLeft > 0 then timeLeft - 1 else 0;
    }

    /**
     * The scoring half of the answer handler: polarity, points and the combo
     * cells. The points use the combo from before this answer.
     */
    method ScoreAnswer(yes: bool, wasFast: bool)
      requires index < QuestionCount
      modifies this`score, this`combo, this`maxCombo
      ensures Tally(score, combo, maxCombo)
              == Step(Tally(old(score), old(combo), old(maxCombo)), index, yes, wasFast)
    {
      var q := index;
      var points := 0;
      var isPositive := yes;
      if q == FearQuestion {
        isPositive := !yes;
      }
      if isPositive {
        points := Award(Bases[q], combo, wasFast);
        var newCombo := combo + 1;
        if newCombo > maxCombo {
          maxCombo := newCombo;
        }
        combo := newCombo;
      } else {
        points := 0;
        combo := 0;
      }
      score := score + points;
    }

    /**
     * The answer handler. Before the last question it advances and resets the
     * clock; on the last question it hands on the record, whose max combo is
     * the value read before this answer.
     */
    method Answer(yes: bool) returns (done: Option<Completion>)
      requires Valid()
      modifies this
      ensures Valid()
      ensures answers == old(answers) + [yes]
      ensures fast == old(fast) + [old(timeLeft) > 5]
      ensures Tally(score, combo, maxCombo)
              == Step(Tally(old(score), old(combo), old(maxCombo)), old(index), yes, old(timeLeft) > 5)
      ensures old(index) < LastQuestion ==>
                index == old(index) + 1 && timeLeft == TimePerQuestion && done == None
      ensures old(index) == LastQuestion ==>
                index == old(index) && timeLeft == old(timeLeft)
                && done == Some(Completion(DesertRecord(currentStats, score, old(maxCombo), answers[0]),
                                           DesertLog(score, old(maxCombo))))
    {
      var wasFast := timeLeft > 5;
      var seenMax := maxCombo;
      ReplayAppend(answers, fast, yes, wasFast);
      ScoreAnswer(yes, wasFast);
      var newAnswers := answers + [yes];
      answers := newAnswers;
      fast := fast + [wasFast];

      if index < LastQuestion {
        index := index + 1;
        timeLeft := TimePerQuestion;
        done := None;
      } else {
        var record := DesertRecord(currentStats, score, seenMax, newAnswers[0]);
        done := Some(Completion(record, DesertLog(score, seenMax)));
      }
    }
  }
}
