/**
 * Stage 2 (Level2Arena.tsx): a battle over five fixed scenarios. Each of the
 * three responses to a scenario deals damage to the enemy and to the player;
 * both hit points are clamped at zero. An armed shield absorbs one hit of
 * self-damage. A defeated player recovers to 50 HP and stays on the same
 * scenario; the stage ends when the last scenario is answered or the enemy
 * falls.
 */
module Arena {
  import opened GameTypes

  /** One response: damage to the enemy and damage to the player. */
  datatype Move = Move(damage: nat, selfDamage: nat)

  /** The five scenarios, three responses each. */
  const Scenarios: seq<seq<Move>> := [
    [Move(0, 20), Move(25, 0), Move(5, 10)],
    [Move(0, 25), Move(30, 0), Move(0, 40)],
    [Move(10, 5), Move(30, 0), Move(0, 30)],
    [Move(15, 15), Move(35, 0), Move(0, 20)],
    [Move(5, 10), Move(30, 0), Move(10, 5)]
  ]

  const LastScenario: nat := 4
  const EnemyStartHp: nat := 100
  /** The player's hit points when the incoming record has none (zero). */
  const DefaultPlayerHp: int := 100
  /** The hit points a defeated player gets back. */
  const RecoveryHp: int := 50
  const VictoryGold: int := 500

  /** Hit points after a hit: never below zero. */
  function Clamped(hp: int, damage: nat): (r: nat)
    ensures r == 0 <==> hp <= damage
    ensures r > 0 ==> r == hp - damage
  {
    if hp - damage > 0 then hp - damage else 0
  }

  /** Every response of every scenario, in the game's table. */
  lemma ScenarioShape()
    ensures |Scenarios| == LastScenario + 1
    ensures forall i :: 0 <= i < |Scenarios| ==> |Scenarios[i]| == 3
  {
  }

  /** One response to each of the first three scenarios leaves the enemy at least 15 of its 100 HP. */
  lemma EnemyOutlastsThreeScenarios(c0: nat, c1: nat, c2: nat)
    requires c0 < 3 && c1 < 3 && c2 < 3
    ensures Clamped(Clamped(Clamped(EnemyStartHp, Scenarios[0][c0].damage), Scenarios[1][c1].damage),
                    Scenarios[2][c2].damage) >= 15
  {
  }

  /**
   * Where a battle can stand on entering a move: the player has hit points
   * and, on each of the first three scenarios, the enemy has at least what a
   * path through the earlier scenarios, with at most one defeat on each,
   * leaves it. A defeat is only possible on a scenario's first try (the
   * recovered 50 HP outlast every self-damage), so an enemy already hit on
   * this scenario's defeat goes with a player at recovery strength or more.
   */
  ghost predicate Standing(index: nat, enemyHp: int, playerHp: int) {
    && playerHp > 0
    && (index == 0 ==> enemyHp >= 95 && (enemyHp == EnemyStartHp || playerHp >= RecoveryHp))
    && (index == 1 ==> enemyHp >= 70 && (enemyHp >= 75 || playerHp >= RecoveryHp))
    && (index == 2 ==> enemyHp > 30 && (enemyHp >= 45 || playerHp >= RecoveryHp))
  }

  /**
   * One action, whatever its outcome, keeps the battle standing, and none
   * taken on the first three scenarios is a victory: however many defeats
   * and recoveries come first, the battle cannot end before the fourth
   * scenario.
   */
  lemma StandingPreserved(index: nat, choice: nat, enemyHp: int, playerHp: int, shield: bool)
    requires index <= LastScenario && choice < 3 && Standing(index, enemyHp, playerHp)
    ensures var m := Scenarios[index][choice];
            var newHp := Clamped(playerHp, if shield && m.selfDamage > 0 then 0 else m.selfDamage);
            var newEnemyHp := Clamped(enemyHp, m.damage);
            && (newHp == 0 ==> Standing(index, newEnemyHp, RecoveryHp))
            && (newHp > 0 && index < LastScenario && newEnemyHp > 0 ==> Standing(index + 1, newEnemyHp, newHp))
            && (newHp > 0 && (index == LastScenario || newEnemyHp == 0) ==> index >= 3)
  {
  }

  /**
   * The record handed on at victory: the score gains twice the player's HP
   * from before the final action, the HP is the HP after it, the gold gains
   * the fixed reward and the enemy is at zero; all else is as received.
   */
  function ArenaRecord(s: PlayerStats, hpBefore: int, hpAfter: int): (r: PlayerStats)
    ensures r.quizScore - s.quizScore == 2 * hpBefore
    ensures r.gold - s.gold == VictoryGold
    ensures r.hp == hpAfter && r.enemyHp == Some(0)
    ensures r.(quizScore := s.quizScore, hp := s.hp, gold := s.gold, enemyHp := s.enemyHp) == s
  {
    s.(quizScore := s.quizScore + hpBefore * 2, hp := hpAfter, gold := s.gold + VictoryGold, enemyHp := Some(0))
  }

  /** What one action leads to, once its one-second delay has passed. */
  datatype Outcome = Defeated | Advanced | Victory(done: Completion)

  /** The stage's state cells. */
  class Battle {
    const currentStats: PlayerStats
    var index: nat
    var enemyHp: int
    var playerHp: int
    /** The shield power-up is armed (the source's `usedShield`). */
    var shieldArmed: bool

    ghost predicate Valid()
      reads this
    {
      index <= LastScenario && 0 <= enemyHp <= EnemyStartHp
    }

    constructor (currentStats: PlayerStats)
      ensures Valid()
      ensures this.currentStats == currentStats
      ensures index == 0 && enemyHp == EnemyStartHp && !shieldArmed
      ensures playerHp == if currentStats.hp == 0 then DefaultPlayerHp else currentStats.hp
      ensures currentStats.hp >= 0 ==> Standing(index, enemyHp, playerHp)
    {
      this.currentStats := currentStats;
      index := 0;
      enemyHp := EnemyStartHp;
      playerHp := if currentStats.hp == 0 then DefaultPlayerHp else currentStats.hp;
      shieldArmed := false;
    }

    /** The shield button: arms the shield (it is disabled while armed, where this changes nothing). */
    method ArmShield()
      requires Valid()
      modifies this
      ensures Valid()
      ensures shieldArmed
      ensures index == old(index) && enemyHp == old(enemyHp) && playerHp == old(playerHp)
      ensures old(Standing(index, enemyHp, playerHp)) ==> Standing(index, enemyHp, playerHp)
    {
      shieldArmed := true;
    }

    /** The action handler for response `choice` of the current scenario. */
    method Act(choice: nat) returns (outcome: Outcome)
      requires Valid() && choice < 3
      modifies this
      ensures Valid()
      ensures var m := Scenarios[old(index)][choice];
              var absorbed := old(shieldArmed) && m.selfDamage > 0;
              var newHp := Clamped(old(playerHp), if absorbed then 0 else m.selfDamage);
              && shieldArmed == (old(shieldArmed) && !absorbed)
              && enemyHp == Clamped(old(enemyHp), m.damage)
              && (newHp == 0 ==>
                    outcome == Defeated && playerHp == RecoveryHp && index == old(index))
              && (newHp > 0 && old(index) < LastScenario && enemyHp > 0 ==>
                    outcome == Advanced && playerHp == newHp && index == old(index) + 1)
              && (newHp > 0 && (old(index) == LastScenario || enemyHp == 0) ==>
                    outcome == Victory(Completion(ArenaRecord(currentStats, old(playerHp), newHp), ArenaLog(newHp)))
                    && playerHp == newHp && index == old(index))
      ensures playerHp > 0
      ensures old(Standing(index, enemyHp, playerHp)) ==> Standing(index, enemyHp, playerHp)
      ensures old(Standing(index, enemyHp, playerHp)) && outcome.Victory? ==> old(index) >= 3
    {
      ScenarioShape();
      if Standing(index, enemyHp, playerHp) {
        StandingPreserved(index, choice, enemyHp, playerHp, shieldArmed);
      }
      var m := Scenarios[index][choice];
      var finalDamage := m.damage;
      var finalSelfDamage := m.selfDamage;
      if shieldArmed && finalSelfDamage > 0 {
        finalSelfDamage := 0;
        shieldArmed := false;
      }
      var newEnemyHp := Clamped(enemyHp, finalDamage);
      var newPlayerHp := Clamped(playerHp, finalSelfDamage);
      var hpBefore := playerHp;
      enemyHp := newEnemyHp;
      playerHp := newPlayerHp;

      if newPlayerHp <= 0 {
        playerHp := RecoveryHp;
        outcome := Defeated;
      } else if index < LastScenario && newEnemyHp > 0 {
        index := index + 1;
        outcome := Advanced;
      } else {
        outcome := Victory(Completion(ArenaRecord(currentStats, hpBefore, newPlayerHp), ArenaLog(newPlayerHp)));
      }
    }
  }
}
