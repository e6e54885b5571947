/** Records shared by the battle simulator, the monster list and the pages. */
module Types {

  /** `undefined`/`NaN`-style absence of a value. */
  datatype Option<+T> = None | Some(value: T)

  /** Monster identities are opaque strings that are only compared for equality. */
  type Id = string

  /** A monster stat sheet. Stats are unbounded integers. */
  datatype Monster = Monster(
    id: Id,
    name: string,
    attack: int,
    defense: int,
    speed: int,
    hp: int,
    maxHp: int,
    imageUrl: string)

  /** What the creation form hands over: a monster without `id` and `maxHp`. */
  datatype MonsterInput = MonsterInput(
    name: string,
    attack: int,
    defense: int,
    speed: int,
    hp: int,
    imageUrl: string)

  /** One turn of a battle. The snapshots are taken after the turn's damage. */
  datatype BattleRound = BattleRound(
    round: int,
    attacker: Monster,
    defender: Monster,
    damage: int,
    attackerHpAfter: int,
    defenderHpAfter: int)

  /** The complete, already resolved outcome of one battle. */
  datatype BattleResult = BattleResult(
    winner: Monster,
    loser: Monster,
    rounds: seq<BattleRound>,
    totalRounds: int)

  function Max(a: int, b: int): (m: int)
    ensures m >= a && m >= b && (m == a || m == b)
  {
    if a >= b then a else b
  }
}
