# Monster battle: a Dafny model

This project models the logic of a small monster-battle web app. Users keep a list of
monsters, create new ones through a form, pick two, and watch a battle. The battle's outcome is
computed in one go by a deterministic simulator:

- Damage is attack minus defense, and never less than 1.
- The faster monster strikes first.
- Equal speeds go to the higher attack, and a full tie goes to the first argument.
- Turns alternate until one side is down or 100 rounds have been played.
- Each round records the attacker, the defender, the damage and both HP values.

The model has these modules:

- `Types` (`types.dfy`) holds the records: `Monster`, the form's `MonsterInput`,
  `BattleRound` and `BattleResult`.
- `BattleSystem` (`battle_system.dfy`) is the simulator.
  - The `simulateBattle` loop is the method `SimulateBattle`, split into `PlayRounds` (the loop)
    and `Strike` (its body).
  - It is proved equal to the recursive reference function `Simulate`/`Fight`.
- `BattleProperties` (`battle_properties.dfy`) proves the simulator's promises about `Simulate`:
  - the round numbering and the 100-round bound;
  - strict alternation of roles;
  - the HP trace;
  - the winner/loser rule;
  - the mirror-match outcome.
- `BattleReplay` (`battle_arena.dfy`) is the arena's playback of a round log. The method
  `AnimateRounds` is proved against the function `Replay`. A lemma states that playback ends
  showing the verdict. It also holds the worked duel between the first two default monsters.
- `Roster` (`roster.dfy`) is the monster list:
  - the default roster;
  - add, update and remove as list functions, with lemmas on order, membership and uniqueness
    of ids;
  - the `MonsterStore` class, whose methods replace its list with those functions' results.
- `MonsterForm` (`monster_form.dfy`) is the creation form:
  - the initial values;
  - the per-field edit rule, where stats are parsed and clamped to at least 1;
  - the submit guard;
  - the `FormState` class.
- `IndexPage` (`index_page.dfy`) is the main page: the screen being shown, the
  two-monster selection rule and the handlers, as the `Page` class and the pure
  `SelectToggle`/`Rendered`.

The simulator's copies of the fighters are values. The caller's records therefore cannot
change.

The source's loop keeps `currentAttacker`/`currentDefender` pointing at the two fighter
objects. The model records that aliasing as a flag saying which side holds the attacker role.

A round's attacker and defender snapshots are copied from those objects after the hit. The
recorded defender therefore already carries its post-damage HP.

The properties about the round log assume the two monsters have different ids. The selection
rule guarantees this (`IndexPage.BattleHasTwoSides`). The simulator method itself has no
precondition. For equal ids it follows the code's id-based HP update.

Two details of the code shape the round log and the verdict:

- The round snapshots are copied after the HP update (battleSystem.ts:39-46), so they carry
  post-hit HP, not the HP at the moment the attack was declared.
- `maxHp` is never checked. A fighter starting at 0 HP or less plays no rounds and loses. If both
  start down, the first one (monster1's copy) loses and monster2's copy wins
  (`BattleProperties.BothDown`).

## Model

| member | source | states |
|---|---|---|
| BattleSystem.CalculateDamage | src/utils/battleSystem.ts:4-7 | damage is attack − defense when that is positive, otherwise 1; always ≥ 1 |
| BattleSystem.DetermineFirstAttacker | src/utils/battleSystem.ts:9-17 | the result is one of the two orders; the faster monster goes first; on equal speed the higher attack goes first; a full tie keeps monster1 first |
| BattleSystem.Turn | src/utils/battleSystem.ts:31-46 | at most one side is hit in a turn; the round carries the turn's number and a damage of at least 1 |
| BattleSystem.Fight | src/utils/battleSystem.ts:25-54 | the recursive reference loop: a fight entered at round n records at most 101 − n rounds |
| BattleSystem.Verdict | src/utils/battleSystem.ts:56-64 | the log is passed through and counted; fighter 1 wins exactly when it still stands, and otherwise fighter 2 wins; the winner stands unless both are down |
| BattleSystem.Simulate | src/utils/battleSystem.ts:19-65 | `totalRounds` counts the log, which holds at most 100 rounds |
| BattleSystem.SimulateBattle | src/utils/battleSystem.ts:19-65 | the imperative simulator returns exactly `Simulate(monster1, monster2)`, and `totalRounds` is the log length, at most 100 |
| BattleSystem.PlayRounds | src/utils/battleSystem.ts:25-54 | the while loop with its 100-round break leaves the fighters and the log exactly as the recursive `Fight` from round 1 does, with at most 100 rounds |
| BattleSystem.Strike | src/utils/battleSystem.ts:31-46 | one loop body (damage, the defender found by id and floored at 0, the round record) equals one `Turn` |
| BattleSystem.FightAdvance | src/utils/battleSystem.ts:30-53 | one more turn extends the log of a running fight by that turn's round, and a round past 100 ends it |
| BattleSystem.FightOver | src/utils/battleSystem.ts:30 | a fight in which someone is already down adds no rounds and changes no fighter |
| BattleProperties.FullHealth | src/utils/battleSystem.ts:20-21 | the private copy has hp = maxHp and keeps the id |
| BattleProperties.Opener | src/utils/battleSystem.ts:23 | the first attacker is one of the two full-health copies |
| BattleProperties.TracePrepend | src/utils/battleSystem.ts:30-49 | an opening round in front of the log of the rest of the fight is a valid log of the whole fight |
| BattleProperties.IdsKept | src/utils/battleSystem.ts:30-46 | a fight changes its fighters only in HP, so each side keeps its id and its other stats |
| BattleProperties.FightTrace | src/utils/battleSystem.ts:30-54 | every fight's log opens with the right attacker, each round follows from the one before by the damage rule, and all rounds but the last leave both standing |
| BattleProperties.FightEnded | src/utils/battleSystem.ts:30-57 | the fighters end as the last round's snapshots show them, and both still stand only if all 101 − n rounds were played |
| BattleProperties.TraceSides | src/utils/battleSystem.ts:39-49 | round i's attacker and defender are the two fighters, chosen by the parity of i from the opener; round i is numbered n + i; the attacker stands and the defender's HP is not negative |
| BattleProperties.SimulateTrace | src/utils/battleSystem.ts:19-65 | the simulator's log is a valid trace of the full-health copies; it ends as stated and its verdict comes from that fight |
| BattleProperties.RoundsNumbered | src/utils/battleSystem.ts:39-63 | the rounds are numbered 1, 2, … without gaps; there are at most 100; `totalRounds` counts them |
| BattleProperties.RolesAlternate | src/utils/battleSystem.ts:23-48 | the opener of the turn order attacks first; each attacker is the previous defender; attacker and defender are always different sides, alternating by parity |
| BattleProperties.HpTrace | src/utils/battleSystem.ts:31-46 | in every round: damage follows the damage rule; the defender's HP becomes max(0, before − damage), strictly lower; the attacker's HP is unchanged; the HP columns equal the snapshots; 0 ≤ HP ≤ maxHp |
| BattleProperties.HpAt | src/utils/battleSystem.ts:31-46 | the per-round HP facts of `HpTrace`, for round i of any trace that starts at full health |
| BattleProperties.Verdicts | src/utils/battleSystem.ts:51-57 | winner and loser are different sides and copies of the inputs; the fight ends at 100 rounds or with the loser at ≤ 0; after a knock-out the last attacker wins and the last defender loses at 0; if both stand at the cutoff, monster1 wins; someone with positive maxHp means the winner stands |
| BattleProperties.StartsAtFullHealth | src/utils/battleSystem.ts:20-21 | the HP the caller passes does not change the outcome |
| BattleProperties.OneHitFight | src/utils/battleSystem.ts:30-57 | two 1-HP fighters fight one round, and the first defender loses at 0 HP |
| BattleProperties.MirrorFight | src/utils/battleSystem.ts:30-54 | with equal attack and defense, fighter 1 still stands at the end of any stretch it enters level (on its turn) or one hit ahead (on the opponent's turn) |
| BattleProperties.BothDown | src/utils/battleSystem.ts:30-57 | two fighters that both start at 0 HP or less play no round; monster1's copy loses and monster2's wins |
| BattleProperties.MirrorMatch | src/utils/battleSystem.ts:9-57 | a mirror match (equal stats, different ids) is always won by the first argument |
| BattleReplay.AnimateRounds | src/components/BattleArena.tsx:90-115 | the replay loop leaves the display exactly as `Replay` of the round list does |
| BattleReplay.ReplayFight | src/components/BattleArena.tsx:84-103 | replaying a fight's log onto its starting fighters reproduces the fighters the fight ends with |
| BattleReplay.StartBattle | src/components/BattleArena.tsx:79-88 | the result is the simulator's; for different ids the display ends with one side showing the winner and the other the loser, each under its own id |
| BattleReplay.DefaultDuel | src/hooks/useMonsters.ts:7-27 | Bulbasaur vs Charmander: Charmander opens for 30 damage (Bulbasaur to 90), Bulbasaur hits for 35, and Bulbasaur wins in 6 rounds with 30 HP left |
| Roster.DefaultMonsters | src/hooks/useMonsters.ts:7-38 | the default list has three monsters with ids "1", "2", "3", each at full, positive HP |
| Roster.DefaultIdsUnique | src/hooks/useMonsters.ts:7-38 | the default ids are unique |
| Roster.Patched | src/hooks/useMonsters.ts:74 | a patch without an id keeps the entry's id, one with an id sets it; an empty patch changes nothing |
| Roster.NewMonster | src/hooks/useMonsters.ts:64-68 | the new record carries the form's fields, the given id, and maxHp = hp |
| Roster.WithMonster | src/hooks/useMonsters.ts:63-70 | the new list is the old list followed by the new record |
| Roster.UpdateById | src/hooks/useMonsters.ts:72-77 | same length and order; entries with another id are unchanged; entries with the id are patched |
| Roster.UpdateAbsent | src/hooks/useMonsters.ts:72-77 | updating an id no entry has changes nothing |
| Roster.RemoveById | src/hooks/useMonsters.ts:78-81 | the filter never lengthens the list |
| Roster.RemoveByIdMembers | src/hooks/useMonsters.ts:79 | a monster survives removal exactly when it was present and its id differs |
| Roster.RemoveByIdShrinks | src/hooks/useMonsters.ts:79 | an absent id leaves the list unchanged; a present id makes it strictly shorter |
| Roster.RemoveByIdConcat | src/hooks/useMonsters.ts:79 | the filter distributes over concatenation, so survivors keep their order |
| Roster.RemoveEntry | src/hooks/useMonsters.ts:78-81 | with unique ids, removing entry k's id cuts out exactly entry k |
| Roster.CutOut | src/hooks/useMonsters.ts:79 | the only entry carrying an id, between two runs without it, is exactly what removal drops |
| Roster.NotInSlice | src/hooks/useMonsters.ts:79 | with unique ids, a slice that excludes entry k holds no entry with k's id |
| Roster.RemoveKeepsUnique | src/hooks/useMonsters.ts:78-81 | removal keeps ids unique |
| Roster.AddFresh | src/hooks/useMonsters.ts:63-81 | adding under a fresh id keeps ids unique, and removing that id restores the old list |
| Roster.MonsterStore.constructor | src/hooks/useMonsters.ts:41-55 | with nothing saved, the store starts with the default list |
| Roster.MonsterStore.AddMonster | src/hooks/useMonsters.ts:63-70 | the stored list becomes `WithMonster` of the old one |
| Roster.MonsterStore.UpdateMonster | src/hooks/useMonsters.ts:72-77 | the stored list becomes `UpdateById` of the old one |
| Roster.MonsterStore.RemoveMonster | src/hooks/useMonsters.ts:78-81 | the stored list becomes `RemoveById` of the old one |
| MonsterForm.InitialForm | src/components/MonsterForm.tsx:81-88 | the opening form has positive stats (all ≥ 30) and cannot be submitted yet |
| MonsterForm.ClampStat | src/components/MonsterForm.tsx:100-101 | a parsed value of at least 1 is kept; NaN, 0 and negatives become 1; the result is always ≥ 1 |
| MonsterForm.WithField | src/components/MonsterForm.tsx:97-104 | only the edited field changes; a stat field stores the clamped parse, a text field the raw string; positive stats stay positive |
| MonsterForm.Submission | src/components/MonsterForm.tsx:90-95 | the form is handed over, unchanged, exactly when name and image URL are both non-empty |
| MonsterForm.FormState.constructor | src/components/MonsterForm.tsx:81-88 | the form opens with the initial values |
| MonsterForm.FormState.UpdateField | src/components/MonsterForm.tsx:97-104 | the form state becomes `WithField` of the old one |
| MonsterForm.FormState.HandleSubmit | src/components/MonsterForm.tsx:90-95 | what reaches `onSubmit` is `Submission` of the current form |
| IndexPage.SelectToggle | src/pages/Index.tsx:71-82 | a click adds at most one entry to the selection |
| IndexPage.SelectToggleFlips | src/pages/Index.tsx:71-82 | a valid selection (≤ 2 picks, different ids) stays valid, and the clicked monster is picked afterwards exactly when it was not picked before |
| IndexPage.SelectToggleUndo | src/pages/Index.tsx:71-82 | picking an unpicked monster while there is room, then clicking it again, restores the selection |
| IndexPage.SelectToggleFull | src/pages/Index.tsx:77-80 | with two picked, a new pick gives [second pick, new monster], and the older pick is dropped |
| IndexPage.Rendered | src/pages/Index.tsx:105-130 | the form is shown exactly in the form view; the arena exactly in the battle view with two picks; the list otherwise |
| IndexPage.BattleHasTwoSides | src/pages/Index.tsx:118-125 | with a valid selection the arena always gets two monsters with different ids |
| IndexPage.CreatedMonsterReady | src/pages/Index.tsx:84-87 | a monster built from a form with positive stats starts at full, positive HP |
| IndexPage.RemovalUnpicks | src/pages/Index.tsx:100-103 | after a deletion the deleted monster is not picked, and the selection stays valid |
| IndexPage.Page.constructor | src/pages/Index.tsx:67-69 | the page starts on the list with nothing picked |
| IndexPage.Page.Screen | src/pages/Index.tsx:105-130 | the page draws the arena only with two picks, and then two different monsters when the selection is valid; it draws the form exactly in the form view |
| IndexPage.Page.SelectMonster | src/pages/Index.tsx:71-82 | the selection becomes `SelectToggle` of the old one and stays valid; the view is unchanged |
| IndexPage.Page.CreateMonster | src/pages/Index.tsx:84-87 | the store gains the new monster at the end and the view returns to the list |
| IndexPage.Page.StartBattle | src/pages/Index.tsx:89-93 | the view becomes the battle exactly when two monsters are picked, and the page then draws the arena; otherwise it is unchanged |
| IndexPage.Page.BattleEnd | src/pages/Index.tsx:95-98 | the selection is cleared and the view returns to the list |
| IndexPage.Page.RemoveMonster | src/pages/Index.tsx:100-103 | the monster is removed from the store and from the selection, which stays valid |
| IndexPage.Page.OpenForm | src/pages/Index.tsx:143-144 | the view becomes the form |
| IndexPage.Page.CancelForm | src/pages/Index.tsx:109-111 | the view returns to the list |

## Left out

- Persistence (useMonsters.ts:43-61) is not modelled: the `localStorage` load and save and the
  `JSON.parse` error path. The store starts from the default list, as a first visit with nothing
  saved does.
- The new monster's id comes from `Date.now()`, which is not modelled. `AddMonster` and
  `CreateMonster` take the id as a parameter. `Roster.AddFresh` states what a fresh id gives.
- `parseInt` is not defined here. `MonsterForm.WithField` and `FormState.UpdateField` take it as a
  function parameter, where `None` stands for `NaN`.
- An update patch (`Partial<Monster>`) is modelled as a record of optional fields. A key that is
  present but holds `undefined` is not modelled.
- JavaScript numbers are modelled as unbounded integers. The form produces integers or
  `Infinity`: `parseInt` of an over-long digit string gives `Infinity`, and `Math.max(1, …)` keeps
  it. That value, and fractional or NaN stats coming from storage, are out of scope.
- React rendering, hooks plumbing, CSS and icons are not modelled. `BattleArena`'s timers, the shake
  effect, `currentRound`, `isAnimating` and the round descriptions are not modelled either.
  `AnimateRounds` keeps only the HP updates.
- `MonsterCard`'s HP-bar percentage is display arithmetic on doubles and is not modelled.
- The `BattleState` type (monster.ts:29-36) is not used by the core and is not modelled.
- The battle monsters in `Page` are the selection's own copies, as in the source. Nothing
  re-reads them from the store.
- The round-log properties in `BattleProperties` need different ids. For two monsters sharing
  one id they describe nothing, while `SimulateBattle` still follows the code.
- BattleProperties.StartsAtFullHealth, BattleReplay.DefaultDuel, Roster.DefaultIdsUnique and
  IndexPage.CreatedMonsterReady state concrete facts that follow directly from the definitions.
- The single source function `simulateBattle` is split across `SimulateBattle`, `PlayRounds` and
  `Strike`. The statements are the source's, in the same order.
