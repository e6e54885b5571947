/**
 * What the battle simulator promises: the shape of its round log, the HP trace,
 * the alternation of roles and the verdict, proved of `BattleSystem.Simulate`
 * (which `BattleSystem.SimulateBattle` computes).
 */
module BattleProperties {
  import opened Types
  import opened BattleSystem

  /** The full-health private copy the simulator fights with. */
  function FullHealth(m: Monster): (f: Monster)
    ensures f.hp == f.maxHp == m.maxHp && f.id == m.id
  {
    m.(hp := m.maxHp)
  }

  /** `r` is `attacker` hitting `defender`: the damage rule, and the defender's HP floored at 0. */
  ghost predicate Opens(attacker: Monster, defender: Monster, r: BattleRound) {
    && r.attacker == attacker
    && r.damage == CalculateDamage(attacker, defender)
    && r.defender == defender.(hp := Max(0, defender.hp - r.damage))
  }

  /** `r` is the round after `prev`: roles swap, and the new defender takes the hit. */
  ghost predicate Follows(prev: BattleRound, r: BattleRound) {
    r.round == prev.round + 1 && Opens(prev.defender, prev.attacker, r)
  }

  /** The HP columns of a round are the HP of its two snapshots. */
  ghost predicate Recorded(r: BattleRound) {
    r.attackerHpAfter == r.attacker.hp && r.defenderHpAfter == r.defender.hp
  }

  /**
   * `rs` is the log of a fight between `s1` and `s2` from round `n`, `s1` opening
   * when `f1First`: every round follows from the one before, and the fight goes on
   * only while both stand.
   */
  ghost predicate Trace(s1: Monster, s2: Monster, f1First: bool, n: int, rs: seq<BattleRound>) {
    && (|rs| > 0 ==> && s1.hp > 0 && s2.hp > 0 && rs[0].round == n
                     && Opens(if f1First then s1 else s2, if f1First then s2 else s1, rs[0]))
    && (forall i :: 0 < i < |rs| ==> Follows(rs[i - 1], rs[i]))
    && (forall i :: 0 <= i < |rs| ==> Recorded(rs[i]))
    && (forall i :: 0 <= i < |rs| - 1 ==> rs[i].attacker.hp > 0 && rs[i].defender.hp > 0)
  }

  /**
   * How a fight between `s1` and `s2` from round `n` left them: as they started if
   * nobody struck, otherwise as the last round's snapshots show them; it stops
   * early only when someone is down.
   */
  ghost predicate Ended(s1: Monster, s2: Monster, n: int, a: Arena) {
    && |a.rounds| <= MaxRounds - n + 1
    && (|a.rounds| == 0 ==> a.fighter1 == s1 && a.fighter2 == s2 && !(s1.hp > 0 && s2.hp > 0))
    && (|a.rounds| > 0 ==>
          var last := a.rounds[|a.rounds| - 1];
          if last.attacker.id == s1.id then a.fighter1 == last.attacker && a.fighter2 == last.defender
          else last.attacker.id == s2.id && a.fighter1 == last.defender && a.fighter2 == last.attacker)
    && (a.fighter1.hp > 0 && a.fighter2.hp > 0 ==> |a.rounds| == MaxRounds - n + 1)
  }

  /** A first round put in front of the log of the rest of the fight is the log of the whole fight. */
  lemma TracePrepend(s1: Monster, s2: Monster, f1First: bool, n: int, round: BattleRound,
                     g1: Monster, g2: Monster, rest: seq<BattleRound>)
    requires s1.hp > 0 && s2.hp > 0 && round.round == n && Recorded(round)
    requires Opens(if f1First then s1 else s2, if f1First then s2 else s1, round)
    requires (if f1First then (g1, g2) else (g2, g1)) == (round.attacker, round.defender)
    requires Trace(g1, g2, !f1First, n + 1, rest)
    ensures Trace(s1, s2, f1First, n, [round] + rest)
  {
  }

  lemma {:induction false} FightTrace(f1: Monster, f2: Monster, f1Attacks: bool, roundNumber: int)
    requires f1.id != f2.id
    requires 1 <= roundNumber <= MaxRounds
    ensures Trace(f1, f2, f1Attacks, roundNumber, Fight(f1, f2, f1Attacks, roundNumber).rounds)
    decreases MaxRounds - roundNumber
  {
    if f1.hp > 0 && f2.hp > 0 && roundNumber + 1 <= MaxRounds {
      var (g1, g2, round) := Turn(f1, f2, f1Attacks, roundNumber);
      FightTrace(g1, g2, !f1Attacks, roundNumber + 1);
      TracePrepend(f1, f2, f1Attacks, roundNumber, round, g1, g2, Fight(g1, g2, !f1Attacks, roundNumber + 1).rounds);
    }
  }

  lemma {:induction false} FightEnded(f1: Monster, f2: Monster, f1Attacks: bool, roundNumber: int)
    requires f1.id != f2.id
    requires 1 <= roundNumber <= MaxRounds
    ensures Ended(f1, f2, roundNumber, Fight(f1, f2, f1Attacks, roundNumber))
    decreases MaxRounds - roundNumber
  {
    if f1.hp > 0 && f2.hp > 0 && roundNumber + 1 <= MaxRounds {
      var (g1, g2, round) := Turn(f1, f2, f1Attacks, roundNumber);
      FightEnded(g1, g2, !f1Attacks, roundNumber + 1);
      var rest := Fight(g1, g2, !f1Attacks, roundNumber + 1);
      var rs := Fight(f1, f2, f1Attacks, roundNumber).rounds;
      assert rs == [round] + rest.rounds;
      if |rest.rounds| > 0 {
        assert rs[|rs| - 1] == rest.rounds[|rest.rounds| - 1];
      }
    }
  }

  /** Attacker and defender of every round are the two sides, alternating from the opener. */
  lemma {:induction false} TraceSides(s1: Monster, s2: Monster, f1First: bool, n: int, rs: seq<BattleRound>, i: nat)
    requires s1.id != s2.id
    requires Trace(s1, s2, f1First, n, rs)
    requires i < |rs|
    ensures var (a, d) := if (i % 2 == 0) == f1First then (s1, s2) else (s2, s1);
            rs[i].attacker == a.(hp := rs[i].attacker.hp) && rs[i].defender == d.(hp := rs[i].defender.hp)
    ensures rs[i].round == n + i
    ensures 0 <= rs[i].defender.hp
    ensures 0 < rs[i].attacker.hp
  {
    if i > 0 {
      TraceSides(s1, s2, f1First, n, rs, i - 1);
      assert Follows(rs[i - 1], rs[i]);
    }
  }

  /** The full-health copy that the turn order lets attack first. */
  function Opener(monster1: Monster, monster2: Monster): (m: Monster)
    ensures m == FullHealth(monster1) || m == FullHealth(monster2)
  {
    DetermineFirstAttacker(FullHealth(monster1), FullHealth(monster2)).0
  }

  /** The simulator's log is a `Trace` of the full-health copies, and its fighters `Ended` as stated. */
  lemma SimulateTrace(monster1: Monster, monster2: Monster)
    requires monster1.id != monster2.id
    ensures var (first, second) := DetermineFirstAttacker(FullHealth(monster1), FullHealth(monster2));
            var f1First := first == FullHealth(monster1);
            && Trace(FullHealth(monster1), FullHealth(monster2), f1First, 1, Simulate(monster1, monster2).rounds)
            && Ended(FullHealth(monster1), FullHealth(monster2), 1,
                     Fight(FullHealth(monster1), FullHealth(monster2), f1First, 1))
            && Simulate(monster1, monster2) == Verdict(Fight(FullHealth(monster1), FullHealth(monster2), f1First, 1))
            && (f1First <==> first.id == monster1.id)
  {
    var s1, s2 := FullHealth(monster1), FullHealth(monster2);
    var (first, _) := DetermineFirstAttacker(s1, s2);
    FightTrace(s1, s2, first == s1, 1);
    FightEnded(s1, s2, first == s1, 1);
  }

  /** Rounds are numbered 1, 2, ... with no gaps; at most 100 of them; totalRounds counts them. */
  lemma RoundsNumbered(monster1: Monster, monster2: Monster)
    requires monster1.id != monster2.id
    ensures var r := Simulate(monster1, monster2);
            && r.totalRounds == |r.rounds| <= MaxRounds
            && (forall i :: 0 <= i < |r.rounds| ==> r.rounds[i].round == i + 1)
  {
    SimulateTrace(monster1, monster2);
    var s1, s2 := FullHealth(monster1), FullHealth(monster2);
    var f1First := DetermineFirstAttacker(s1, s2).0 == s1;
    var rs := Simulate(monster1, monster2).rounds;
    forall i | 0 <= i < |rs| ensures rs[i].round == i + 1 {
      TraceSides(s1, s2, f1First, 1, rs, i);
    }
  }

  /**
   * Roles alternate strictly: the opener of the turn order attacks first, each
   * round's attacker is the previous round's defender, and the two roles are
   * always held by different fighters.
   */
  lemma RolesAlternate(monster1: Monster, monster2: Monster)
    requires monster1.id != monster2.id
    ensures var rs := Simulate(monster1, monster2).rounds;
            && (|rs| > 0 ==> rs[0].attacker == Opener(monster1, monster2))
            && (forall i :: 0 < i < |rs| ==> rs[i].attacker == rs[i - 1].defender)
            && (forall i :: 0 < i < |rs| ==> rs[i].attacker.id != rs[i - 1].attacker.id)
            && (forall i :: 0 <= i < |rs| ==> rs[i].attacker.id != rs[i].defender.id)
            && (forall i :: 0 <= i < |rs| ==>
                  rs[i].attacker.id == (if i % 2 == 0 then Opener(monster1, monster2).id
                                        else DetermineFirstAttacker(FullHealth(monster1), FullHealth(monster2)).1.id))
  {
    SimulateTrace(monster1, monster2);
    var s1, s2 := FullHealth(monster1), FullHealth(monster2);
    var f1First := DetermineFirstAttacker(s1, s2).0 == s1;
    var rs := Simulate(monster1, monster2).rounds;
    forall i | 0 <= i < |rs|
      ensures rs[i].attacker.id != rs[i].defender.id
      ensures rs[i].attacker.id == (if i % 2 == 0 then Opener(monster1, monster2).id
                                    else DetermineFirstAttacker(s1, s2).1.id)
    {
      TraceSides(s1, s2, f1First, 1, rs, i);
    }
    forall i | 0 < i < |rs| ensures rs[i].attacker == rs[i - 1].defender && rs[i].attacker.id != rs[i - 1].attacker.id {
      TraceSides(s1, s2, f1First, 1, rs, i);
      TraceSides(s1, s2, f1First, 1, rs, i - 1);
      assert Follows(rs[i - 1], rs[i]);
    }
  }

  /** The HP a round's defender had before the round: full, or what it had after the previous round. */
  function HpBefore(rs: seq<BattleRound>, i: nat): int
    requires i < |rs|
  {
    if i == 0 then rs[0].defender.maxHp else rs[i - 1].attackerHpAfter
  }

  /**
   * Each round: damage by the damage rule; the defender's HP becomes
   * max(0, before - damage), strictly less than before; the attacker's HP is what it
   * was; the HP columns equal the snapshots; no HP is negative or above its maximum.
   */
  lemma HpTrace(monster1: Monster, monster2: Monster)
    requires monster1.id != monster2.id
    ensures var rs := Simulate(monster1, monster2).rounds;
            forall i :: 0 <= i < |rs| ==>
              && rs[i].damage == CalculateDamage(rs[i].attacker, rs[i].defender) >= 1
              && rs[i].defenderHpAfter == Max(0, HpBefore(rs, i) - rs[i].damage) < HpBefore(rs, i)
              && rs[i].attackerHpAfter == (if i == 0 then rs[0].attacker.maxHp else rs[i - 1].defenderHpAfter)
              && rs[i].attackerHpAfter == rs[i].attacker.hp && rs[i].defenderHpAfter == rs[i].defender.hp
              && 0 <= rs[i].defenderHpAfter <= rs[i].defender.maxHp
              && 0 < rs[i].attackerHpAfter <= rs[i].attacker.maxHp
  {
    SimulateTrace(monster1, monster2);
    var s1, s2 := FullHealth(monster1), FullHealth(monster2);
    var f1First := DetermineFirstAttacker(s1, s2).0 == s1;
    var rs := Simulate(monster1, monster2).rounds;
    forall i | 0 <= i < |rs| {
      HpAt(s1, s2, f1First, rs, i);
    }
  }

  lemma {:induction false} HpAt(s1: Monster, s2: Monster, f1First: bool, rs: seq<BattleRound>, i: nat)
    requires s1.id != s2.id && s1.hp == s1.maxHp && s2.hp == s2.maxHp
    requires Trace(s1, s2, f1First, 1, rs)
    requires i < |rs|
    ensures && rs[i].damage == CalculateDamage(rs[i].attacker, rs[i].defender) >= 1
            && rs[i].defenderHpAfter == Max(0, HpBefore(rs, i) - rs[i].damage) < HpBefore(rs, i)
            && rs[i].attackerHpAfter == (if i == 0 then rs[0].attacker.maxHp else rs[i - 1].defenderHpAfter)
            && rs[i].attackerHpAfter == rs[i].attacker.hp && rs[i].defenderHpAfter == rs[i].defender.hp
            && 0 <= rs[i].defenderHpAfter <= rs[i].defender.maxHp
            && 0 < rs[i].attackerHpAfter <= rs[i].attacker.maxHp
  {
    assert Recorded(rs[i]);
    if i > 0 {
      HpAt(s1, s2, f1First, rs, i - 1);
      assert Follows(rs[i - 1], rs[i]);
      assert Recorded(rs[i - 1]);
    }
  }

  /**
   * The verdict: winner and loser are the two fighters (full-health copies of the
   * inputs, only HP changed). A fight stops only at a knock-out or after 100 rounds.
   * After a knock-out the last defender, at 0 HP, is the loser and the last attacker
   * the winner; if the cutoff leaves both standing, monster1's copy wins.
   */
  lemma Verdicts(monster1: Monster, monster2: Monster)
    requires monster1.id != monster2.id
    ensures var r := Simulate(monster1, monster2);
            && r.winner.id != r.loser.id
            && ((r.winner == FullHealth(monster1).(hp := r.winner.hp) && r.loser == FullHealth(monster2).(hp := r.loser.hp))
             || (r.winner == FullHealth(monster2).(hp := r.winner.hp) && r.loser == FullHealth(monster1).(hp := r.loser.hp)))
            && (|r.rounds| == MaxRounds || r.loser.hp <= 0)
            && (r.loser.hp <= 0 && |r.rounds| > 0 ==>
                  && r.loser == r.rounds[|r.rounds| - 1].defender && r.loser.hp == 0
                  && r.winner == r.rounds[|r.rounds| - 1].attacker && r.winner.hp > 0)
            && (r.winner.hp > 0 && r.loser.hp > 0 ==>
                  |r.rounds| == MaxRounds && r.winner.id == monster1.id && r.loser.id == monster2.id)
            && (monster1.maxHp > 0 || monster2.maxHp > 0 ==> r.winner.hp > 0)
            && (monster1.maxHp > 0 && monster2.maxHp > 0 ==> |r.rounds| > 0)
  {
    SimulateTrace(monster1, monster2);
    var s1, s2 := FullHealth(monster1), FullHealth(monster2);
    var f1First := DetermineFirstAttacker(s1, s2).0 == s1;
    var rs := Simulate(monster1, monster2).rounds;
    if |rs| > 0 {
      TraceSides(s1, s2, f1First, 1, rs, |rs| - 1);
    }
  }

  /** The HP passed in does not matter: both fighters start at full health. */
  lemma StartsAtFullHealth(monster1: Monster, monster2: Monster, hp1: int, hp2: int)
    ensures Simulate(monster1.(hp := hp1), monster2.(hp := hp2)) == Simulate(monster1, monster2)
  {
  }

  /** Two fighters with one HP each: one round, and the first defender is knocked out. */
  lemma OneHitFight(monster1: Monster, monster2: Monster)
    requires monster1.id != monster2.id
    requires monster1.maxHp == 1 && monster2.maxHp == 1
    ensures var r := Simulate(monster1, monster2);
            && |r.rounds| == 1
            && r.loser.id == DetermineFirstAttacker(FullHealth(monster1), FullHealth(monster2)).1.id
            && r.rounds[0].defenderHpAfter == 0
  {
  }

  /** Fighting changes HP only, so each side keeps its id. */
  lemma {:induction false} IdsKept(f1: Monster, f2: Monster, f1Attacks: bool, roundNumber: int)
    requires 1 <= roundNumber <= MaxRounds
    ensures var a := Fight(f1, f2, f1Attacks, roundNumber);
            a.fighter1 == f1.(hp := a.fighter1.hp) && a.fighter2 == f2.(hp := a.fighter2.hp)
    decreases MaxRounds - roundNumber
  {
    if f1.hp > 0 && f2.hp > 0 && roundNumber + 1 <= MaxRounds {
      var (g1, g2, round) := Turn(f1, f2, f1Attacks, roundNumber);
      IdsKept(g1, g2, !f1Attacks, roundNumber + 1);
    }
  }

  /**
   * Between fighters with equal attack and defense, fighter 1 still stands after
   * every stretch of the fight it enters alive: it is level when it is about to
   * strike, and one hit ahead when it is about to be struck.
   */
  lemma {:induction false} MirrorFight(f1: Monster, f2: Monster, f1Attacks: bool, roundNumber: int)
    requires 1 <= roundNumber <= MaxRounds
    requires f1.id != f2.id && f1.attack == f2.attack && f1.defense == f2.defense
    requires f1.hp > 0
    requires f1Attacks ==> f1.hp == f2.hp
    requires !f1Attacks ==> f2.hp <= 0 || f1.hp == f2.hp + CalculateDamage(f2, f1)
    ensures Fight(f1, f2, f1Attacks, roundNumber).fighter1.hp > 0
    decreases MaxRounds - roundNumber
  {
    if f2.hp > 0 && roundNumber + 1 <= MaxRounds {
      var (g1, g2, round) := Turn(f1, f2, f1Attacks, roundNumber);
      MirrorFight(g1, g2, !f1Attacks, roundNumber + 1);
    }
  }

  /**
   * A mirror match (equal attack, defense, speed and max HP) is always won by the
   * first argument: it strikes first and its opponent falls first.
   */
  lemma MirrorMatch(monster1: Monster, monster2: Monster)
    requires monster1.id != monster2.id && monster1.maxHp > 0
    requires monster1.attack == monster2.attack && monster1.defense == monster2.defense
    requires monster1.speed == monster2.speed && monster1.maxHp == monster2.maxHp
    ensures Simulate(monster1, monster2).winner.id == monster1.id
    ensures Simulate(monster1, monster2).loser.id == monster2.id
  {
    var s1, s2 := FullHealth(monster1), FullHealth(monster2);
    assert DetermineFirstAttacker(s1, s2).0 == s1;
    MirrorFight(s1, s2, true, 1);
    IdsKept(s1, s2, true, 1);
  }

  /**
   * Both fighters start at 0 HP or less: no round is played, and the verdict's
   * rule makes monster1's copy the loser and monster2's the winner.
   */
  lemma BothDown(monster1: Monster, monster2: Monster)
    requires monster1.maxHp <= 0 && monster2.maxHp <= 0
    ensures var r := Simulate(monster1, monster2);
            && r.rounds == [] && r.totalRounds == 0
            && r.loser == FullHealth(monster1) && r.winner == FullHealth(monster2)
  {
    var s1, s2 := FullHealth(monster1), FullHealth(monster2);
    var f1First := DetermineFirstAttacker(s1, s2).0 == s1;
    assert Fight(s1, s2, f1First, 1) == Arena(s1, s2, []);
  }
}
