/**
 * The result screen (ResultScreen.tsx): the player's entry is merged into a
 * fixed leaderboard, stably sorted by descending score and re-ranked; the
 * prize wheel draws at most one prize; the invite chest only ever unlocks;
 * the report is offered under a file name built from the player's name.
 */
module Results {
  import opened GameTypes

  const DefaultPlayerName: string := "بازیکن"

  /** The five fixed entries, best first. */
  const FixedBoard: seq<LeaderboardEntry> := [
    LeaderboardEntry(1, "آرش کریپتو", 3200, "اسطوره بازار", false),
    LeaderboardEntry(2, "سارا سئو", 2950, "تاجر کهکشانی", false),
    LeaderboardEntry(3, "علی آمازون", 2700, "تاجر کهکشانی", false),
    LeaderboardEntry(4, "مریم گرافیک", 2100, "استاد اعظم", false),
    LeaderboardEntry(5, "رضا بازار", 1850, "بازرگان", false)
  ]

  /** The six prizes of the wheel. */
  const Prizes: seq<string> := [
    "مشاوره خصوصی (VIP)",
    "دوره استراتژی فروش",
    "۲۰٪ تخفیف خدمات",
    "آنالیز ۳۶۰ درجه پیج",
    "کوچینگ ۱ ساعته",
    "چک‌لیست طلایی سیستم‌سازی"
  ]

  const ReportPrefix: string := "Yalda_Report_"
  const ReportSuffix: string := ".txt"

  /** The player's row: rank 0 until re-ranked, the default name when none was given. */
  function PlayerEntry(stats: PlayerStats): (e: LeaderboardEntry)
    ensures e.score == stats.quizScore && e.title == stats.title && e.isPlayer
    ensures e.name == if stats.name == "" then DefaultPlayerName else stats.name
  {
    LeaderboardEntry(0, if stats.name == "" then DefaultPlayerName else stats.name, stats.quizScore, stats.title, true)
  }

  ghost predicate SortedDesc(s: seq<LeaderboardEntry>)
  {
    forall i, j :: 0 <= i < j < |s| ==> s[i].score >= s[j].score
  }

  /** Puts `x` after every entry that scores at least as much, before the first that scores less. */
  function InsertStable(s: seq<LeaderboardEntry>, x: LeaderboardEntry): (r: seq<LeaderboardEntry>)
    ensures |r| == |s| + 1
  {
    if |s| == 0 then [x]
    else if s[0].score >= x.score then [s[0]] + InsertStable(s[1..], x)
    else [x] + s
  }

  /** A stable sort by descending score: each entry is inserted after the equal ones before it. */
  function SortDesc(s: seq<LeaderboardEntry>): (r: seq<LeaderboardEntry>)
    ensures |r| == |s|
  {
    if |s| == 0 then [] else InsertStable(SortDesc(s[..|s| - 1]), s[|s| - 1])
  }

  /** How many entries of a board score at least `score`. */
  function CountAtLeast(s: seq<LeaderboardEntry>, score: int): (n: nat)
    ensures n <= |s|
  {
    if |s| == 0 then 0 else (if s[0].score >= score then 1 else 0) + CountAtLeast(s[1..], score)
  }

  lemma {:induction false} InsertStablePerm(s: seq<LeaderboardEntry>, x: LeaderboardEntry)
    ensures multiset(InsertStable(s, x)) == multiset(s) + multiset{x}
  {
    if |s| > 0 && s[0].score >= x.score {
      InsertStablePerm(s[1..], x);
      assert s == [s[0]] + s[1..];
    }
  }

  /** Inserting an entry scoring at most `v` into a board scoring at most `v` keeps that bound. */
  lemma {:induction false} InsertStableBound(s: seq<LeaderboardEntry>, x: LeaderboardEntry, v: int)
    requires forall i :: 0 <= i < |s| ==> s[i].score <= v
    requires x.score <= v
    ensures forall i :: 0 <= i < |s| + 1 ==> InsertStable(s, x)[i].score <= v
  {
    if |s| > 0 && s[0].score >= x.score {
      InsertStableBound(s[1..], x, v);
    }
  }

  lemma {:induction false} InsertStableSorted(s: seq<LeaderboardEntry>, x: LeaderboardEntry)
    requires SortedDesc(s)
    ensures SortedDesc(InsertStable(s, x))
  {
    if |s| > 0 && s[0].score >= x.score {
      InsertStableSorted(s[1..], x);
      InsertStableBound(s[1..], x, s[0].score);
    }
  }

  /** The sort gives a board with non-increasing scores. */
  lemma {:induction false} SortDescSorted(s: seq<LeaderboardEntry>)
    ensures SortedDesc(SortDesc(s))
  {
    if |s| > 0 {
      var n := |s| - 1;
      SortDescSorted(s[..n]);
      InsertStableSorted(SortDesc(s[..n]), s[n]);
    }
  }

  /** The sort neither loses nor adds an entry. */
  lemma {:induction false} SortDescPerm(s: seq<LeaderboardEntry>)
    ensures multiset(SortDesc(s)) == multiset(s)
  {
    if |s| > 0 {
      var n := |s| - 1;
      SortDescPerm(s[..n]);
      InsertStablePerm(SortDesc(s[..n]), s[n]);
      assert s == s[..n] + [s[n]];
    }
  }

  /** On a descending board the new entry lands right after those scoring at least as much. */
  lemma {:induction false} InsertStablePosition(s: seq<LeaderboardEntry>, x: LeaderboardEntry)
    requires SortedDesc(s)
    ensures var k := CountAtLeast(s, x.score);
            k <= |s| && InsertStable(s, x) == s[..k] + [x] + s[k..]
  {
    if |s| > 0 {
      if s[0].score >= x.score {
        InsertStablePosition(s[1..], x);
        var k := CountAtLeast(s[1..], x.score);
        assert s[..k + 1] == [s[0]] + s[1..][..k];
        assert s[k + 1..] == s[1..][k..];
      } else {
        CountAtLeastNone(s, x.score);
      }
    }
  }

  /** On a descending board whose first entry is below `score`, nothing reaches `score`. */
  lemma {:induction false} CountAtLeastNone(s: seq<LeaderboardEntry>, score: int)
    requires SortedDesc(s) && |s| > 0 && s[0].score < score
    ensures CountAtLeast(s, score) == 0
  {
    if |s| > 1 {
      CountAtLeastNone(s[1..], score);
    }
  }

  /** Sorting an already descending board changes nothing. */
  lemma {:induction false} SortDescIdentity(s: seq<LeaderboardEntry>)
    requires SortedDesc(s)
    ensures SortDesc(s) == s
  {
    if |s| > 0 {
      var n := |s| - 1;
      SortDescIdentity(s[..n]);
      InsertStablePosition(s[..n], s[n]);
      var k := CountAtLeast(s[..n], s[n].score);
      CountAtLeastAll(s[..n], s[n].score);
      assert s[..n][..n] == s[..n];
      assert s == s[..n] + [s[n]];
    }
  }

  /** When every entry reaches `score`, all of them count. */
  lemma {:induction false} CountAtLeastAll(s: seq<LeaderboardEntry>, score: int)
    requires forall i :: 0 <= i < |s| ==> s[i].score >= score
    ensures CountAtLeast(s, score) == |s|
  {
    if |s| > 0 {
      CountAtLeastAll(s[1..], score);
    }
  }

  lemma FixedBoardSorted()
    ensures SortedDesc(FixedBoard)
  {
  }

  /**
   * The merged board before re-ranking: a descending board in order with the
   * new entry inserted after every entry that scores at least as much.
   */
  lemma {:induction false} MergedShape(fixed: seq<LeaderboardEntry>, x: LeaderboardEntry)
    requires SortedDesc(fixed)
    ensures var k := CountAtLeast(fixed, x.score);
            SortDesc(fixed + [x]) == fixed[..k] + [x] + fixed[k..]
  {
    var s := fixed + [x];
    assert s[..|s| - 1] == fixed;
    SortDescIdentity(fixed);
    InsertStablePosition(fixed, x);
  }

  /** The same, entry by entry: entries above the new one's place, the new one, then the rest. */
  lemma {:induction false} MergedEntries(fixed: seq<LeaderboardEntry>, x: LeaderboardEntry)
    requires SortedDesc(fixed)
    ensures var m := SortDesc(fixed + [x]);
            var k := CountAtLeast(fixed, x.score);
            && m[k] == x
            && (forall i :: 0 <= i < k ==> m[i] == fixed[i])
            && (forall i :: k < i <= |fixed| ==> m[i] == fixed[i - 1])
  {
    MergedShape(fixed, x);
  }

  /** Worked placements: a score strictly between two entries, a tie, the top and the bottom. */
  lemma PlayerPlacements()
    ensures CountAtLeast(FixedBoard, 2800) == 2
    ensures CountAtLeast(FixedBoard, 2950) == 2
    ensures CountAtLeast(FixedBoard, 3201) == 0
    ensures CountAtLeast(FixedBoard, 0) == 5
  {
  }

  /** The re-ranking pass: every entry's rank becomes its position plus one. */
  method AssignRanks(a: array<LeaderboardEntry>)
    modifies a
    ensures forall i :: 0 <= i < a.Length ==> a[i] == old(a[i]).(rank := i + 1)
  {
    var i := 0;
    while i < a.Length
      invariant 0 <= i <= a.Length
      invariant forall j :: 0 <= j < i ==> a[j] == old(a[j]).(rank := j + 1)
      invariant forall j :: i <= j < a.Length ==> a[j] == old(a[j])
    {
      a[i] := a[i].(rank := i + 1);
      i := i + 1;
    }
  }

  /**
   * Merging an entry into a descending board: sort, then re-rank. The result
   * is descending, ranked from 1, and holds the board's entries in order with
   * the new entry after every one that scores at least as much.
   */
  method MergeAndRank(fixed: seq<LeaderboardEntry>, x: LeaderboardEntry) returns (board: seq<LeaderboardEntry>)
    requires SortedDesc(fixed)
    ensures |board| == |fixed| + 1
    ensures forall i :: 0 <= i < |board| ==> board[i].rank == i + 1
    ensures forall i, j :: 0 <= i < j < |board| ==> board[i].score >= board[j].score
    ensures forall i :: 0 <= i < |board| ==> board[i] == SortDesc(fixed + [x])[i].(rank := i + 1)
    ensures var k := CountAtLeast(fixed, x.score);
            && board[k] == x.(rank := k + 1)
            && (forall i :: 0 <= i < k ==> board[i] == fixed[i].(rank := i + 1))
            && (forall i :: k < i < |board| ==> board[i] == fixed[i - 1].(rank := i + 1))
  {
    var merged := SortDesc(fixed + [x]);
    SortDescSorted(fixed + [x]);
    MergedEntries(fixed, x);
    board := RankEntries(merged);
  }

  /**
   * The mount effect's leaderboard: the fixed entries plus the player,
   * sorted by descending score and ranked 1 to 6.
   */
  method BuildLeaderboard(stats: PlayerStats) returns (board: seq<LeaderboardEntry>)
    ensures |board| == 6
    ensures forall i :: 0 <= i < 6 ==> board[i].rank == i + 1
    ensures forall i, j :: 0 <= i < j < 6 ==> board[i].score >= board[j].score
    ensures forall i :: 0 <= i < 6 ==> board[i] == SortDesc(FixedBoard + [PlayerEntry(stats)])[i].(rank := i + 1)
    ensures var k := CountAtLeast(FixedBoard, PlayerEntry(stats).score);
            && board[k] == PlayerEntry(stats).(rank := k + 1)
            && (forall i :: 0 <= i < k ==> board[i] == FixedBoard[i].(rank := i + 1))
            && (forall i :: k < i < 6 ==> board[i] == FixedBoard[i - 1].(rank := i + 1))
  {
    FixedBoardSorted();
    board := MergeAndRank(FixedBoard, PlayerEntry(stats));
  }

  /** Copies a board into an array, ranks it in place and reads it back. */
  method RankEntries(m: seq<LeaderboardEntry>) returns (board: seq<LeaderboardEntry>)
    ensures |board| == |m|
    ensures forall i :: 0 <= i < |m| ==> board[i] == m[i].(rank := i + 1)
  {
    var a := new LeaderboardEntry[|m|](i requires 0 <= i < |m| => m[i]);
    AssignRanks(a);
    board := a[..];
  }

  /** The export's file name: prefix, the player's name, extension. */
  function ReportFileName(name: string): (f: string)
    ensures |f| == |ReportPrefix| + |name| + |ReportSuffix|
    ensures f[..|ReportPrefix|] == ReportPrefix
    ensures f[|ReportPrefix|..|f| - |ReportSuffix|] == name
    ensures f[|f| - |ReportSuffix|..] == ReportSuffix
  {
    ReportPrefix + name + ReportSuffix
  }

  /** Different names give different file names. */
  lemma ReportFileNameInjective(a: string, b: string)
    requires ReportFileName(a) == ReportFileName(b)
    ensures a == b
  {
  }

  /** The screen's state cells besides the report text. */
  class ResultScreen {
    var leaderboard: seq<LeaderboardEntry>
    var spinning: bool
    var prize: Option<string>
    var isChestLocked: bool
    /** Prizes drawn so far. */
    ghost var draws: nat

    /** At most one prize, always one of the six, and none while the wheel turns. */
    ghost predicate Valid()
      reads this
    {
      && draws <= 1
      && (prize.Some? <==> draws == 1)
      && (prize.Some? ==> prize.value in Prizes)
      && (spinning ==> prize.None?)
    }

    /** Mounting: the leaderboard is rebuilt with the player's entry. */
    constructor (stats: PlayerStats)
      ensures Valid()
      ensures |leaderboard| == 6
      ensures forall i :: 0 <= i < 6 ==> leaderboard[i] == SortDesc(FixedBoard + [PlayerEntry(stats)])[i].(rank := i + 1)
      ensures !spinning && prize == None && isChestLocked && draws == 0
    {
      var board := BuildLeaderboard(stats);
      leaderboard := board;
      spinning := false;
      prize := None;
      isChestLocked := true;
      draws := 0;
    }

    /** The spin button: ignored while spinning or once a prize exists. */
    method SpinWheel() returns (started: bool)
      requires Valid()
      modifies this
      ensures Valid()
      ensures started <==> !old(spinning) && old(prize).None?
      ensures spinning == (old(spinning) || started)
      ensures prize == old(prize) && draws == old(draws)
      ensures isChestLocked == old(isChestLocked) && leaderboard == old(leaderboard)
    {
      if spinning || prize.Some? {
        started := false;
        return;
      }
      spinning := true;
      started := true;
    }

    /** The wheel stops: `draw` stands for the uniform draw over the six prizes. */
    method WheelStops(draw: nat)
      requires Valid() && spinning && draw < |Prizes|
      modifies this
      ensures Valid()
      ensures !spinning && prize == Some(Prizes[draw]) && draws == 1
      ensures isChestLocked == old(isChestLocked) && leaderboard == old(leaderboard)
    {
      spinning := false;
      prize := Some(Prizes[draw]);
      draws := draws + 1;
    }

    /** The invite's delayed unlock: the chest opens and never closes again. */
    method UnlockChest()
      requires Valid()
      modifies this
      ensures Valid()
      ensures !isChestLocked
      ensures spinning == old(spinning) && prize == old(prize) && draws == old(draws)
      ensures leaderboard == old(leaderboard)
    {
      isChestLocked := false;
    }
  }
}
