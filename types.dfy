/**
 * The records shared by every screen of the quiz: the player's stats, the
 * session phase, the character classes, the leaderboard entry and the log
 * lines that stages hand back to the session controller.
 */
module GameTypes {

  datatype Option<+T> = None | Some(value: T)

  /** The fixed, ordered set of session phases. */
  datatype Phase = Intro | Level1 | Level2 | Level3 | Level4 | Result

  datatype CharacterClass = Archer | Guardian | Mage

  datatype ItemKind = Weapon | Consumable | Relic

  datatype InventoryItem = InventoryItem(id: string, name: string, kind: ItemKind, icon: string)

  /** The diagnostic summary produced by the first stage. */
  datatype Analysis = Analysis(hasBusiness: bool, mainProblem: string, goal: string, score: int)

  /**
   * The player's record. It is never updated in place: every stage returns a
   * whole new record built from the previous one. Optional fields of the
   * source record are `Option`s.
   */
  datatype PlayerStats = PlayerStats(
    hp: int,
    maxHp: int,
    energy: int,
    gold: int,
    seals: int,
    pomegranates: int,
    name: string,
    phoneNumber: string,
    title: string,
    playerClass: Option<CharacterClass>,
    inventory: seq<InventoryItem>,
    analysis: Option<Analysis>,
    quizScore: int,
    enemyHp: Option<int>,
    maxEnemyHp: Option<int>,
    comboMultiplier: int,
    maxCombo: int,
    activePowerups: seq<string>,
    voiceScore: Option<int>
  )

  /**
   * One line of the session history. Each stage reports the numbers its
   * message interpolates; the wording of the message is fixed per stage.
   */
  datatype LogEntry =
    | DesertLog(score: int, maxCombo: int)
    | ArenaLog(hpLeft: int)
    | BossLog(roundScore: int, total: int)
    | PitchLog(voiceScore: int)

  /** What a stage hands to the session controller when it finishes. */
  datatype Completion = Completion(stats: PlayerStats, log: LogEntry)

  datatype LeaderboardEntry = LeaderboardEntry(rank: int, name: string, score: int, title: string, isPlayer: bool)

  const StarterTitle: string := "تاجر نوپا"

  /** The stats every session starts from (and returns to on restart). */
  const InitialStats: PlayerStats := PlayerStats(
    hp := 100,
    maxHp := 100,
    energy := 50,
    gold := 0,
    seals := 0,
    pomegranates := 0,
    name := "",
    phoneNumber := "",
    title := StarterTitle,
    playerClass := None,
    inventory := [],
    analysis := None,
    quizScore := 0,
    enemyHp := Some(100),
    maxEnemyHp := Some(100),
    comboMultiplier := 1,
    maxCombo := 0,
    activePowerups := [],
    voiceScore := None
  )
}
