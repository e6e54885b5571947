/**
 * The deterministic battle simulator: damage rule, turn order and the bounded
 * fight loop, with the per-round trace it records.
 */
module BattleSystem {
  import opened Types

  /** The safety cutoff: no battle records more than this many rounds. */
  const MaxRounds := 100

  /** Attack minus defense, but never less than one point. */
  function CalculateDamage(attacker: Monster, defender: Monster): (damage: int)
    ensures damage >= 1
    ensures damage == Max(1, attacker.attack - defender.defense)
    ensures attacker.attack - defender.defense > 0 ==> damage == attacker.attack - defender.defense
  {
    var baseDamage := attacker.attack - defender.defense;
    if baseDamage <= 0 then 1 else baseDamage
  }

  /** The turn-order rule: faster acts first; on equal speed, at least as strong acts first. */
  predicate ActsFirst(a: Monster, b: Monster) {
    a.speed > b.speed || (a.speed == b.speed && a.attack >= b.attack)
  }

  /** Orders the two monsters as (first attacker, first defender). */
  function DetermineFirstAttacker(monster1: Monster, monster2: Monster): (order: (Monster, Monster))
    ensures order == (monster1, monster2) || order == (monster2, monster1)
    ensures ActsFirst(order.0, order.1)
    ensures monster1.speed > monster2.speed ==> order == (monster1, monster2)
    ensures monster2.speed > monster1.speed ==> order == (monster2, monster1)
    ensures monster1.speed == monster2.speed && monster2.attack > monster1.attack ==> order == (monster2, monster1)
    ensures monster1.speed == monster2.speed && monster1.attack >= monster2.attack ==> order == (monster1, monster2)
  {
    if monster1.speed > monster2.speed then
      (monster1, monster2)
    else if monster2.speed > monster1.speed then
      (monster2, monster1)
    else
      if monster1.attack >= monster2.attack then (monster1, monster2) else (monster2, monster1)
  }

  /** Both fighters as the loop leaves them, with the rounds recorded so far. */
  datatype Arena = Arena(fighter1: Monster, fighter2: Monster, rounds: seq<BattleRound>)

  /**
   * One pass of the loop body: the defender, found by id, loses the damage floored
   * at 0, and the round records both roles as they are after the hit.
   */
  function Turn(f1: Monster, f2: Monster, f1Attacks: bool, roundNumber: int): (t: (Monster, Monster, BattleRound))
    ensures t.0 == f1 || t.1 == f2
    ensures t.2.round == roundNumber && t.2.damage >= 1
  {
    var attacker := if f1Attacks then f1 else f2;
    var defender := if f1Attacks then f2 else f1;
    var damage := CalculateDamage(attacker, defender);
    var g1 := if defender.id == f1.id then f1.(hp := Max(0, f1.hp - damage)) else f1;
    var g2 := if defender.id == f1.id then f2 else f2.(hp := Max(0, f2.hp - damage));
    var attackerNow := if f1Attacks then g1 else g2;
    var defenderNow := if f1Attacks then g2 else g1;
    (g1, g2, BattleRound(roundNumber, attackerNow, defenderNow, damage,
                         if attackerNow.id == g1.id then g1.hp else g2.hp,
                         if defenderNow.id == g1.id then g1.hp else g2.hp))
  }

  /** The fight from round `roundNumber` on, while both stand and until the cutoff. */
  function Fight(f1: Monster, f2: Monster, f1Attacks: bool, roundNumber: int): (a: Arena)
    requires 1 <= roundNumber <= MaxRounds
    ensures |a.rounds| <= MaxRounds - roundNumber + 1
    decreases MaxRounds - roundNumber
  {
    if f1.hp > 0 && f2.hp > 0 then
      var (g1, g2, round) := Turn(f1, f2, f1Attacks, roundNumber);
      if roundNumber + 1 > MaxRounds then
        Arena(g1, g2, [round])
      else
        var rest := Fight(g1, g2, !f1Attacks, roundNumber + 1);
        Arena(rest.fighter1, rest.fighter2, [round] + rest.rounds)
    else
      Arena(f1, f2, [])
  }

  /** Winner is fighter 1 if it still stands, loser is fighter 1 if it does not. */
  function Verdict(arena: Arena): (r: BattleResult)
    ensures r.rounds == arena.rounds && r.totalRounds == |arena.rounds|
    ensures arena.fighter1.hp > 0 ==> r.winner == arena.fighter1 && r.loser == arena.fighter2
    ensures arena.fighter1.hp <= 0 ==> r.winner == arena.fighter2 && r.loser == arena.fighter1
    ensures r.winner.hp > 0 || (arena.fighter1.hp <= 0 && arena.fighter2.hp <= 0)
  {
    var winner := if arena.fighter1.hp > 0 then arena.fighter1 else arena.fighter2;
    var loser := if arena.fighter1.hp <= 0 then arena.fighter1 else arena.fighter2;
    BattleResult(winner, loser, arena.rounds, |arena.rounds|)
  }

  /** The reference outcome of a battle between fresh copies of the two monsters. */
  function Simulate(monster1: Monster, monster2: Monster): (r: BattleResult)
    ensures r.totalRounds == |r.rounds| <= MaxRounds
  {
    var fighter1 := monster1.(hp := monster1.maxHp);
    var fighter2 := monster2.(hp := monster2.maxHp);
    var (firstAttacker, _) := DetermineFirstAttacker(fighter1, fighter2);
    Verdict(Fight(fighter1, fighter2, firstAttacker == fighter1, 1))
  }

  /** `prefix` followed by the rest of a fight. */
  function After(prefix: seq<BattleRound>, rest: Arena): Arena {
    Arena(rest.fighter1, rest.fighter2, prefix + rest.rounds)
  }

  /** One more turn of a fight that both fighters still stand in, after `done`. */
  lemma FightAdvance(done: seq<BattleRound>, f1: Monster, f2: Monster, f1Attacks: bool, roundNumber: int,
                     g1: Monster, g2: Monster, round: BattleRound)
    requires 1 <= roundNumber <= MaxRounds
    requires f1.hp > 0 && f2.hp > 0
    requires (g1, g2, round) == Turn(f1, f2, f1Attacks, roundNumber)
    ensures roundNumber + 1 > MaxRounds ==>
              After(done, Fight(f1, f2, f1Attacks, roundNumber)) == Arena(g1, g2, done + [round])
    ensures roundNumber + 1 <= MaxRounds ==>
              After(done, Fight(f1, f2, f1Attacks, roundNumber))
              == After(done + [round], Fight(g1, g2, !f1Attacks, roundNumber + 1))
  {
  }

  /** A fight in which a fighter is already down records nothing more. */
  lemma FightOver(done: seq<BattleRound>, f1: Monster, f2: Monster, f1Attacks: bool, roundNumber: int)
    requires 1 <= roundNumber <= MaxRounds
    requires !(f1.hp > 0 && f2.hp > 0)
    ensures After(done, Fight(f1, f2, f1Attacks, roundNumber)) == Arena(f1, f2, done)
  {
  }

  method Strike(fighter1: Monster, fighter2: Monster, f1Attacks: bool, roundNumber: int)
    returns (hit1: Monster, hit2: Monster, round: BattleRound)
    ensures (hit1, hit2, round) == Turn(fighter1, fighter2, f1Attacks, roundNumber)
  {
    hit1, hit2 := fighter1, fighter2;
    var damage := CalculateDamage(if f1Attacks then hit1 else hit2,
                                  if f1Attacks then hit2 else hit1);
    var defenderId := if f1Attacks then hit2.id else hit1.id;
    if defenderId == hit1.id {
      hit1 := hit1.(hp := Max(0, hit1.hp - damage));
    } else {
      hit2 := hit2.(hp := Max(0, hit2.hp - damage));
    }
    var currentAttacker := if f1Attacks then hit1 else hit2;
    var currentDefender := if f1Attacks then hit2 else hit1;
    round := BattleRound(roundNumber, currentAttacker, currentDefender, damage,
                         if currentAttacker.id == hit1.id then hit1.hp else hit2.hp,
                         if currentDefender.id == hit1.id then hit1.hp else hit2.hp);
  }

  /**
   * The simulator: private full-health copies, the turn order, the fight loop and
   * the verdict. The copies are values, so the caller's records cannot change.
   */
  method SimulateBattle(monster1: Monster, monster2: Monster) returns (result: BattleResult)
    ensures result == Simulate(monster1, monster2)
    ensures result.totalRounds == |result.rounds| <= MaxRounds
  {
    var fighter1 := monster1.(hp := monster1.maxHp);
    var fighter2 := monster2.(hp := monster2.maxHp);

    var (firstAttacker, _) := DetermineFirstAttacker(fighter1, fighter2);
    var rounds;
    fighter1, fighter2, rounds := PlayRounds(fighter1, fighter2, firstAttacker == fighter1);

    var winner := if fighter1.hp > 0 then fighter1 else fighter2;
    var loser := if fighter1.hp <= 0 then fighter1 else fighter2;
    result := BattleResult(winner, loser, rounds, |rounds|);
  }

  /**
   * The fight loop. The source's attacker and defender variables alias the two
   * fighter records, so here `f1Attacks` says which record holds the attacker role;
   * `Strike` reads each role after the hit, so the snapshots show post-hit HP.
   */
  method PlayRounds(start1: Monster, start2: Monster, firstIsFighter1: bool)
    returns (fighter1: Monster, fighter2: Monster, rounds: seq<BattleRound>)
    ensures Arena(fighter1, fighter2, rounds) == Fight(start1, start2, firstIsFighter1, 1)
    ensures |rounds| <= MaxRounds
  {
    fighter1, fighter2 := start1, start2;
    var f1Attacks := firstIsFighter1;
    rounds := [];
    var roundNumber := 1;
    while fighter1.hp > 0 && fighter2.hp > 0
      invariant 1 <= roundNumber <= MaxRounds
      invariant Fight(start1, start2, firstIsFighter1, 1)
                == After(rounds, Fight(fighter1, fighter2, f1Attacks, roundNumber))
    {
      ghost var (done, s1, s2) := (rounds, fighter1, fighter2);
      var round;
      fighter1, fighter2, round := Strike(fighter1, fighter2, f1Attacks, roundNumber);
      FightAdvance(done, s1, s2, f1Attacks, roundNumber, fighter1, fighter2, round);
      rounds := rounds + [round];

      f1Attacks := !f1Attacks;
      roundNumber := roundNumber + 1;

      if roundNumber > MaxRounds {
        break;
      }
    }
    if roundNumber <= MaxRounds {
      FightOver(rounds, fighter1, fighter2, f1Attacks, roundNumber);
    }
  }
}
