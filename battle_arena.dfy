/**
 * The arena's replay of a finished battle: the two displayed fighters start at
 * full health and, round by round, the defender's HP is set to what the round
 * recorded. The timers, the shake effect and the rendering are not modelled.
 */
module BattleReplay {
  import opened Types
  import opened BattleSystem
  import BattleProperties
  import Roster

  /** Both displayed fighters, `monster1`'s first. */
  type Display = (Monster, Monster)

  /** One replayed round: the side whose id is the defender's takes the recorded HP. */
  function Show(monster1Id: Id, display: Display, round: BattleRound): Display {
    if round.defender.id == monster1Id then
      (display.0.(hp := round.defenderHpAfter), display.1)
    else
      (display.0, display.1.(hp := round.defenderHpAfter))
  }

  /** The display after replaying `rounds` in order. */
  function Replay(monster1Id: Id, display: Display, rounds: seq<BattleRound>): Display
    decreases |rounds|
  {
    if rounds == [] then display
    else Replay(monster1Id, Show(monster1Id, display, rounds[0]), rounds[1..])
  }

  /** The replay loop, without its pauses: applies each round to the display in turn. */
  method AnimateRounds(monster1Id: Id, fighter1: Monster, fighter2: Monster, rounds: seq<BattleRound>)
    returns (shown1: Monster, shown2: Monster)
    ensures (shown1, shown2) == Replay(monster1Id, (fighter1, fighter2), rounds)
  {
    shown1, shown2 := fighter1, fighter2;
    for i := 0 to |rounds|
      invariant Replay(monster1Id, (fighter1, fighter2), rounds)
                == Replay(monster1Id, (shown1, shown2), rounds[i..])
    {
      var round := rounds[i];
      assert rounds[i..][1..] == rounds[i + 1..];
      if round.defender.id == monster1Id {
        shown1 := shown1.(hp := round.defenderHpAfter);
      } else {
        shown2 := shown2.(hp := round.defenderHpAfter);
      }
    }
  }

  /** Replaying a fight's log onto its starting fighters reproduces the fighters it ends with. */
  lemma {:induction false} ReplayFight(f1: Monster, f2: Monster, f1Attacks: bool, roundNumber: int)
    requires 1 <= roundNumber <= MaxRounds
    requires f1.id != f2.id
    ensures var a := Fight(f1, f2, f1Attacks, roundNumber);
            Replay(f1.id, (f1, f2), a.rounds) == (a.fighter1, a.fighter2)
    decreases MaxRounds - roundNumber
  {
    if f1.hp > 0 && f2.hp > 0 {
      var (g1, g2, round) := Turn(f1, f2, f1Attacks, roundNumber);
      var rs := Fight(f1, f2, f1Attacks, roundNumber).rounds;
      assert rs[0] == round;
      assert Show(f1.id, (f1, f2), round) == (g1, g2);
      if roundNumber + 1 <= MaxRounds {
        ReplayFight(g1, g2, !f1Attacks, roundNumber + 1);
        assert rs[1..] == Fight(g1, g2, !f1Attacks, roundNumber + 1).rounds;
      } else {
        assert rs[1..] == [];
      }
    }
  }

  /**
   * `startBattle`: simulate, reset the display to full health and replay the log.
   * For two monsters with different ids the display ends on the verdict: one side
   * shows the winner and the other the loser, each under its own id.
   */
  method StartBattle(monster1: Monster, monster2: Monster)
    returns (result: BattleResult, shown1: Monster, shown2: Monster)
    ensures result == Simulate(monster1, monster2)
    ensures monster1.id != monster2.id ==>
              && shown1.id == monster1.id && shown2.id == monster2.id
              && ((shown1 == result.winner && shown2 == result.loser)
               || (shown1 == result.loser && shown2 == result.winner))
  {
    result := SimulateBattle(monster1, monster2);
    var fighter1 := monster1.(hp := monster1.maxHp);
    var fighter2 := monster2.(hp := monster2.maxHp);
    shown1, shown2 := AnimateRounds(monster1.id, fighter1, fighter2, result.rounds);
    if monster1.id != monster2.id {
      var first := DetermineFirstAttacker(fighter1, fighter2).0 == fighter1;
      ReplayFight(fighter1, fighter2, first, 1);
      BattleProperties.IdsKept(fighter1, fighter2, first, 1);
    }
  }

  /**
   * The first two default monsters: Charmander is faster and opens for 30 damage;
   * Bulbasaur trades 35 per hit and wins after six rounds with 30 HP left.
   */
  lemma DefaultDuel()
    ensures var d := Roster.DefaultMonsters();
            var r := Simulate(d[0], d[1]);
            && r.totalRounds == 6
            && r.rounds[0].attacker.id == "2" && r.rounds[0].damage == 30
            && r.rounds[0].defenderHpAfter == 90
            && r.rounds[1].damage == 35
            && r.winner.id == "1" && r.winner.hp == 30
            && r.loser.id == "2" && r.loser.hp == 0
  {
  }
}
