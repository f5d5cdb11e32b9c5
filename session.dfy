/**
 * The session controller of App.tsx: one `Game` object whose fields are the
 * cells of the source's `gameState` record. Every event replaces some of
 * them; the loading delays before a transition are folded into the event.
 */
module Session {
  import opened GameTypes

  const ArcherTitle: string := "کماندار محتوا"
  const GuardianTitle: string := "محافظ فروش"
  const MageTitle: string := "حکیم استراتژی"

  /** The title each class preset gives the player. */
  function ClassTitle(cls: CharacterClass): string
  {
    match cls
    case Archer => ArcherTitle
    case Guardian => GuardianTitle
    case Mage => MageTitle
  }

  /** Position of a phase in the fixed order intro, level1 .. level4, result. */
  function Order(p: Phase): nat
  {
    match p
    case Intro => 0
    case Level1 => 1
    case Level2 => 2
    case Level3 => 3
    case Level4 => 4
    case Result => 5
  }

  /**
   * The phase a stage's completion callback moves to, as wired by the phase
   * dispatcher. Only the four stages have a completion callback.
   */
  function NextPhase(p: Phase): (r: Option<Phase>)
    ensures r.Some? <==> 1 <= Order(p) <= 4
    ensures r.Some? ==> Order(r.value) == Order(p) + 1
  {
    match p
    case Level1 => Some(Level2)
    case Level2 => Some(Level3)
    case Level3 => Some(Level4)
    case Level4 => Some(Result)
    case _ => None
  }

  /**
   * What a started session's stats are: the initial record with name, phone
   * and class filled in and exactly one class preset applied.
   */
  ghost predicate IsStartRecord(s: PlayerStats, name: string, phone: string, cls: CharacterClass)
  {
    && s.energy == (if cls == Archer then 80 else 50)
    && s.hp == (if cls == Guardian then 120 else 100)
    && s.maxHp == s.hp
    && s.gold == (if cls == Mage then 500 else 0)
    && s.title == ClassTitle(cls)
    // every field no preset touches keeps its initial value
    && s.(hp := 100, maxHp := 100, energy := 50, gold := 0, title := StarterTitle)
       == InitialStats.(name := name, phoneNumber := phone, playerClass := Some(cls))
  }

  /** The start handler's local record: a fresh copy, then the class preset field by field. */
  method StartStats(name: string, phone: string, cls: CharacterClass) returns (s: PlayerStats)
    ensures IsStartRecord(s, name, phone, cls)
  {
    s := InitialStats.(name := name, phoneNumber := phone, playerClass := Some(cls));
    if cls == Archer {
      s := s.(energy := 80);
      s := s.(title := ArcherTitle);
    } else if cls == Guardian {
      s := s.(hp := 120);
      s := s.(maxHp := 120);
      s := s.(title := GuardianTitle);
    } else if cls == Mage {
      s := s.(gold := 500);
      s := s.(title := MageTitle);
    }
  }

  class Game {
    var phase: Phase
    var stats: PlayerStats
    var history: seq<LogEntry>
    var levelProgress: nat
    var isMusicPlaying: bool

    /** The progress counter counts the history lines. */
    ghost predicate Valid()
      reads this
    {
      levelProgress == |history|
    }

    /** The initial game state. */
    constructor ()
      ensures Valid()
      ensures phase == Intro && stats == InitialStats
      ensures history == [] && levelProgress == 0 && !isMusicPlaying
    {
      phase := Intro;
      stats := InitialStats;
      history := [];
      levelProgress := 0;
      isMusicPlaying := false;
    }

    /** The music button: flips the flag and nothing else. */
    method ToggleMusic()
      requires Valid()
      modifies this
      ensures Valid()
      ensures isMusicPlaying == !old(isMusicPlaying)
      ensures phase == old(phase) && stats == old(stats)
      ensures history == old(history) && levelProgress == old(levelProgress)
    {
      isMusicPlaying := !isMusicPlaying;
    }

    /** The start handler's playback promise resolving. */
    method MusicStarted()
      requires Valid()
      modifies this
      ensures Valid()
      ensures isMusicPlaying
      ensures phase == old(phase) && stats == old(stats)
      ensures history == old(history) && levelProgress == old(levelProgress)
    {
      isMusicPlaying := true;
    }

    /** Leaving the intro: class preset applied, phase level1, log untouched. */
    method Start(name: string, phone: string, cls: CharacterClass)
      requires Valid()
      modifies this
      ensures Valid()
      ensures phase == Level1
      ensures IsStartRecord(stats, name, phone, cls)
      ensures history == old(history) && levelProgress == old(levelProgress)
      ensures isMusicPlaying == old(isMusicPlaying)
    {
      var s := StartStats(name, phone, cls);
      phase := Level1;
      stats := s;
    }

    /**
     * The shared transition: the stage's record replaces the stats, its log
     * line is appended and the counter is bumped. There is no guard against a
     * second call.
     */
    method UpdateGameState(newStats: PlayerStats, log: LogEntry, nextPhase: Phase)
      requires Valid()
      modifies this
      ensures Valid()
      ensures phase == nextPhase && stats == newStats
      ensures history == old(history) + [log]
      ensures levelProgress == old(levelProgress) + 1
      ensures isMusicPlaying == old(isMusicPlaying)
    {
      phase := nextPhase;
      stats := newStats;
      history := history + [log];
      levelProgress := levelProgress + 1;
    }

    /** The completion callback of the stage being shown. */
    method CompleteStage(newStats: PlayerStats, log: LogEntry)
      requires Valid() && NextPhase(phase).Some?
      modifies this
      ensures Valid()
      ensures Order(phase) == Order(old(phase)) + 1
      ensures stats == newStats
      ensures history == old(history) + [log]
      ensures levelProgress == old(levelProgress) + 1
      ensures isMusicPlaying == old(isMusicPlaying)
    {
      UpdateGameState(newStats, log, NextPhase(phase).value);
    }

    /**
     * A stage's completion callback fired a second time before the next stage
     * replaces it: the callback carries its own fixed next phase, so the phase
     * is set to the same value again, while the history gets a second line and
     * the counter a second step.
     */
    method CompletionFiredTwice(nextPhase: Phase, first: PlayerStats, firstLog: LogEntry,
                                second: PlayerStats, secondLog: LogEntry)
      requires Valid()
      modifies this
      ensures Valid()
      ensures phase == nextPhase && stats == second
      ensures history == old(history) + [firstLog, secondLog]
      ensures levelProgress == old(levelProgress) + 2
      ensures isMusicPlaying == old(isMusicPlaying)
    {
      UpdateGameState(first, firstLog, nextPhase);
      UpdateGameState(second, secondLog, nextPhase);
    }

    /** Restart from the result screen: everything but the music flag is reset. */
    method Restart()
      requires Valid()
      modifies this
      ensures Valid()
      ensures phase == Intro && stats == InitialStats
      ensures history == [] && levelProgress == 0
      ensures isMusicPlaying == old(isMusicPlaying)
    {
      phase := Intro;
      stats := InitialStats;
      history := [];
      levelProgress := 0;
    }
  }

  /**
   * A whole session: start, then the four stage completions in order. It ends
   * on the result phase holding the last stage's record and exactly the four
   * log lines, in order.
   */
  method PlaySession(name: string, phone: string, cls: CharacterClass,
                     records: seq<PlayerStats>, logs: seq<LogEntry>) returns (phase: Phase, history: seq<LogEntry>, progress: nat, stats: PlayerStats)
    requires |records| == 4 && |logs| == 4
    ensures phase == Result
    ensures history == logs && progress == 4
    ensures stats == records[3]
  {
    var g := new Game();
    g.Start(name, phone, cls);
    g.CompleteStage(records[0], logs[0]);
    g.CompleteStage(records[1], logs[1]);
    g.CompleteStage(records[2], logs[2]);
    g.CompleteStage(records[3], logs[3]);
    assert g.history == [logs[0], logs[1], logs[2], logs[3]];
    phase, history, progress, stats := g.phase, g.history, g.levelProgress, g.stats;
  }
}
