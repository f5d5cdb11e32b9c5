/**
 * Stage 3 (Level3Boss.tsx): three puzzles drawn once, on mount, from a pool
 * of seven. Each answer adds its option's score (which may be negative) to a
 * round score; after the last sampled puzzle the round score is added to the
 * running quiz score, a title is chosen from that total and the gold moves
 * by ten times the round score.
 */
module Boss {
  import opened GameTypes

  /** A puzzle of the pool: its id and the scores of its three options. */
  datatype Puzzle = Puzzle(id: nat, scores: seq<int>)

  const Pool: seq<Puzzle> := [
    Puzzle(1, [20, 0, 0]),
    Puzzle(2, [0, 20, 0]),
    Puzzle(3, [5, 0, 20]),
    Puzzle(4, [5, 20, -10]),
    Puzzle(5, [20, 0, 5]),
    Puzzle(6, [-10, 20, 0]),
    Puzzle(7, [0, 20, 5])
  ]

  const PoolSize: nat := 7
  const SampleSize: nat := 3
  const LowestOption: int := -10
  const HighestOption: int := 20

  const Apprentice: string := "کارآموز"
  const GalacticTrader: string := "تاجر کهکشانی"
  const MarketLegend: string := "اسطوره بازار"

  /** Three options, each scoring between -10 and 20. */
  ghost predicate WellFormed(p: Puzzle)
  {
    |p.scores| == 3 && forall c :: 0 <= c < 3 ==> LowestOption <= p.scores[c] <= HighestOption
  }

  /** Every puzzle of the pool is well formed and has its position plus one as id. */
  lemma PoolShape()
    ensures |Pool| == PoolSize
    ensures forall k :: 0 <= k < PoolSize ==> Pool[k].id == k + 1 && WellFormed(Pool[k])
  {
  }

  /** A shuffle of the pool: every position of the pool exactly once. */
  ghost predicate IsShuffle(order: seq<nat>)
  {
    && |order| == PoolSize
    && (forall i :: 0 <= i < |order| ==> order[i] < PoolSize)
    && (forall i, j :: 0 <= i < j < |order| ==> order[i] != order[j])
  }

  /** The first three puzzles of a shuffled copy of the pool. */
  function Sample(order: seq<nat>): (s: seq<Puzzle>)
    requires IsShuffle(order)
    ensures |s| == SampleSize
    ensures forall i :: 0 <= i < SampleSize ==> s[i] in Pool && WellFormed(s[i])
    ensures forall i, j :: 0 <= i < j < SampleSize ==> s[i].id != s[j].id
  {
    PoolShape();
    [Pool[order[0]], Pool[order[1]], Pool[order[2]]]
  }

  /** The title for a total: strictly over 300, strictly over 150, or neither. */
  function TitleFor(total: int): (t: string)
    ensures t == MarketLegend <==> total > 300
    ensures t == GalacticTrader <==> 150 < total <= 300
    ensures t == Apprentice <==> total <= 150
  {
    if total > 300 then MarketLegend else if total > 150 then GalacticTrader else Apprentice
  }

  /** The tier of a title, lowest first. */
  function TitleRank(t: string): nat
  {
    if t == MarketLegend then 2 else if t == GalacticTrader then 1 else 0
  }

  /** A higher total never gives a lower title. */
  lemma TitleMonotone(a: int, b: int)
    requires a <= b
    ensures TitleRank(TitleFor(a)) <= TitleRank(TitleFor(b))
  {
  }

  /** The cut-offs are strict: 150 and 300 stay in the lower tier. */
  lemma TitleBoundaries()
    ensures TitleFor(150) == Apprentice && TitleFor(151) == GalacticTrader
    ensures TitleFor(300) == GalacticTrader && TitleFor(301) == MarketLegend
  {
  }

  /** The handler's `let title` with its two overriding thresholds. */
  method AssignTitle(total: int) returns (title: string)
    ensures title == TitleFor(total)
  {
    title := Apprentice;
    if total > 150 {
      title := GalacticTrader;
    }
    if total > 300 {
      title := MarketLegend;
    }
  }

  function Sum(s: seq<int>): int
  {
    if |s| == 0 then 0 else Sum(s[..|s| - 1]) + s[|s| - 1]
  }

  /** A round of n answers, each in [-10, 20], scores between -10n and 20n. */
  lemma {:induction false} SumBounds(s: seq<int>)
    requires forall i :: 0 <= i < |s| ==> LowestOption <= s[i] <= HighestOption
    ensures LowestOption * |s| <= Sum(s) <= HighestOption * |s|
  {
    if |s| > 0 {
      SumBounds(s[..|s| - 1]);
    }
  }

  /**
   * The record handed on after the last puzzle: the quiz score gains the round
   * score, the title follows the new total and the gold moves by ten times
   * the round score (down, for a negative round); all else is as received.
   */
  function BossRecord(s: PlayerStats, roundScore: int, title: string): (r: PlayerStats)
    ensures r.quizScore == s.quizScore + roundScore
    ensures r.gold == s.gold + 10 * roundScore
    ensures r.title == title
    ensures r.(quizScore := s.quizScore, title := s.title, gold := s.gold) == s
  {
    s.(quizScore := s.quizScore + roundScore, title := title, gold := s.gold + roundScore * 10)
  }

  /** The stage's state cells; the sample is fixed when the stage mounts. */
  class BossQuiz {
    const currentStats: PlayerStats
    const questions: seq<Puzzle>
    var index: nat
    var roundScore: int
    /** The option scores chosen so far. */
    ghost var picked: seq<int>

    ghost predicate Valid()
      reads this
    {
      && |questions| == SampleSize
      && (forall i :: 0 <= i < SampleSize ==> WellFormed(questions[i]))
      && index == (if |picked| < SampleSize - 1 then |picked| else SampleSize - 1)
      && roundScore == Sum(picked)
      && (forall i :: 0 <= i < |picked| ==> LowestOption <= picked[i] <= HighestOption)
    }

    /** Mounting: the shuffle order stands for the random comparator's outcome. */
    constructor (currentStats: PlayerStats, order: seq<nat>)
      requires IsShuffle(order)
      ensures Valid()
      ensures this.currentStats == currentStats && questions == Sample(order)
      ensures index == 0 && roundScore == 0 && picked == []
    {
      this.currentStats := currentStats;
      questions := Sample(order);
      index := 0;
      roundScore := 0;
      picked := [];
    }

    /** The scoring half of the choice handler: the option's score joins the round. */
    method AddScore(choice: nat)
      requires Valid() && choice < 3
      modifies this`roundScore, this`picked
      ensures picked == old(picked) + [questions[index].scores[choice]]
      ensures roundScore == Sum(picked)
      ensures forall i :: 0 <= i < |picked| ==> LowestOption <= picked[i] <= HighestOption
      ensures |picked| == SampleSize ==> -30 <= roundScore <= 60
    {
      var score := questions[index].scores[choice];
      assert WellFormed(questions[index]);
      ghost var before := picked;
      assert (before + [score])[..|before|] == before;
      picked := before + [score];
      roundScore := roundScore + score;
      assert |picked| == SampleSize ==> -30 <= roundScore <= 60 by {
        SumBounds(picked);
      }
    }

    /** The choice handler for option `choice` of the current puzzle. */
    method Choose(choice: nat) returns (done: Option<Completion>)
      requires Valid() && choice < 3
      modifies this
      ensures Valid()
      ensures picked == old(picked) + [questions[old(index)].scores[choice]]
      ensures roundScore == old(roundScore) + questions[old(index)].scores[choice]
      ensures old(index) < SampleSize - 1 ==> index == old(index) + 1 && done == None
      ensures old(index) == SampleSize - 1 ==>
                index == old(index)
                && done == Some(Completion(BossRecord(currentStats, roundScore, TitleFor(currentStats.quizScore + roundScore)),
                                           BossLog(roundScore, currentStats.quizScore + roundScore)))
      ensures |picked| == SampleSize ==> -30 <= roundScore <= 60
    {
      AddScore(choice);
      if index < |questions| - 1 {
        index := index + 1;
        done := None;
      } else {
        var totalScore := currentStats.quizScore + roundScore;
        var title := AssignTitle(totalScore);
        done := Some(Completion(BossRecord(currentStats, roundScore, title), BossLog(roundScore, totalScore)));
      }
    }
  }
}
