/**
 * The main page: which screen is up, which monsters are picked for the next
 * battle, and the handlers that move between them.
 */
module IndexPage {
  import opened Types
  import Roster
  import MonsterForm

  datatype View = List | Form | Battle

  /** At most two picks, no monster picked twice. */
  ghost predicate ValidSelection(selected: seq<Monster>) {
    && |selected| <= 2
    && (|selected| == 2 ==> selected[0].id != selected[1].id)
  }

  /**
   * Clicking a card: a picked monster is unpicked; otherwise it is added, and
   * with two already picked the older pick makes room for it.
   */
  function SelectToggle(prev: seq<Monster>, monster: Monster): (next: seq<Monster>)
    ensures |next| <= |prev| + 1
  {
    if Roster.HasId(prev, monster.id) then Roster.RemoveById(prev, monster.id)
    else if |prev| < 2 then prev + [monster]
    else [prev[1], monster]
  }

  /** A valid selection stays valid, and a click flips whether the clicked monster is picked. */
  lemma SelectToggleFlips(prev: seq<Monster>, monster: Monster)
    requires ValidSelection(prev)
    ensures ValidSelection(SelectToggle(prev, monster))
    ensures Roster.HasId(SelectToggle(prev, monster), monster.id) <==> !Roster.HasId(prev, monster.id)
  {
    var next := SelectToggle(prev, monster);
    if Roster.HasId(prev, monster.id) {
      Roster.RemoveByIdMembers(prev, monster.id);
      Roster.RemoveByIdShrinks(prev, monster.id);
    } else {
      assert monster in next;
      if |prev| == 1 {
        assert prev[0] in prev;
      } else if |prev| == 2 {
        assert prev[1] in prev;
      }
    }
  }

  /** Picking a monster and clicking it again restores the selection, when there was room. */
  lemma SelectToggleUndo(prev: seq<Monster>, monster: Monster)
    requires ValidSelection(prev)
    requires !Roster.HasId(prev, monster.id) && |prev| < 2
    ensures SelectToggle(SelectToggle(prev, monster), monster) == prev
  {
    var next := prev + [monster];
    assert monster in next;
    Roster.RemoveByIdConcat(prev, [monster], monster.id);
    Roster.RemoveByIdShrinks(prev, monster.id);
    assert Roster.RemoveById([monster], monster.id) == [];
    assert prev + [] == prev;
  }

  /** With two picked, a new pick drops the older one and keeps the newer first. */
  lemma SelectToggleFull(prev: seq<Monster>, monster: Monster)
    requires ValidSelection(prev) && |prev| == 2
    requires !Roster.HasId(prev, monster.id)
    ensures SelectToggle(prev, monster) == [prev[1], monster]
    ensures !Roster.HasId(SelectToggle(prev, monster), prev[0].id)
  {
  }

  /** The screen the page draws: the battle only with exactly two picks, the list otherwise. */
  function Rendered(view: View, selected: seq<Monster>): (shown: View)
    ensures shown == Form <==> view == Form
    ensures shown == Battle <==> view == Battle && |selected| == 2
  {
    if view == Form then Form
    else if view == Battle && |selected| == 2 then Battle
    else List
  }

  /** The arena is only reached with two different monsters. */
  lemma BattleHasTwoSides(view: View, selected: seq<Monster>)
    requires ValidSelection(selected)
    requires Rendered(view, selected) == Battle
    ensures |selected| == 2 && selected[0].id != selected[1].id
  {
  }

  /** A monster made from the form's state has positive stats and starts at full health. */
  lemma CreatedMonsterReady(form: MonsterInput, id: Id)
    requires MonsterForm.StatsPositive(form)
    ensures var m := Roster.NewMonster(form, id);
            m.hp == m.maxHp >= 1 && m.attack >= 1 && m.defense >= 1 && m.speed >= 1
  {
  }

  /** The page component: the monster store it uses, the current screen and the picks. */
  class Page {
    const store: Roster.MonsterStore
    var currentView: View
    var selectedMonsters: seq<Monster>

    constructor (store: Roster.MonsterStore)
      ensures this.store == store
      ensures currentView == List && selectedMonsters == []
    {
      this.store := store;
      currentView := List;
      selectedMonsters := [];
    }

    /** What the page currently draws: the arena only for two picks, and then two different monsters. */
    function Screen(): (shown: View)
      reads this
      ensures shown == Battle ==> |selectedMonsters| == 2
      ensures shown == Battle && ValidSelection(selectedMonsters) ==>
                selectedMonsters[0].id != selectedMonsters[1].id
      ensures shown == Form <==> currentView == Form
    {
      Rendered(currentView, selectedMonsters)
    }

    method SelectMonster(monster: Monster)
      modifies this
      ensures selectedMonsters == SelectToggle(old(selectedMonsters), monster)
      ensures currentView == old(currentView)
      ensures ValidSelection(old(selectedMonsters)) ==> ValidSelection(selectedMonsters)
    {
      var prev := selectedMonsters;
      if Roster.HasId(prev, monster.id) {
        selectedMonsters := Roster.RemoveById(prev, monster.id);
      } else if |prev| < 2 {
        selectedMonsters := prev + [monster];
      } else {
        selectedMonsters := [prev[1], monster];
      }
      if ValidSelection(prev) {
        SelectToggleFlips(prev, monster);
      }
    }

    /** The form's submission: the new monster, under the id the clock would give, then the list. */
    method CreateMonster(input: MonsterInput, id: Id)
      modifies this, store
      ensures store.monsters == Roster.WithMonster(old(store.monsters), input, id)
      ensures currentView == List
      ensures selectedMonsters == old(selectedMonsters)
    {
      store.AddMonster(input, id);
      currentView := List;
    }

    method StartBattle()
      modifies this
      ensures currentView == if |old(selectedMonsters)| == 2 then Battle else old(currentView)
      ensures selectedMonsters == old(selectedMonsters)
      ensures |selectedMonsters| == 2 ==> Screen() == Battle
    {
      if |selectedMonsters| == 2 {
        currentView := Battle;
      }
    }

    method BattleEnd()
      modifies this
      ensures selectedMonsters == [] && currentView == List
    {
      selectedMonsters := [];
      currentView := List;
    }

    /** Deleting a monster removes it from the store and from the picks. */
    method RemoveMonster(monsterId: Id)
      modifies this, store
      ensures store.monsters == Roster.RemoveById(old(store.monsters), monsterId)
      ensures selectedMonsters == Roster.RemoveById(old(selectedMonsters), monsterId)
      ensures currentView == old(currentView)
      ensures ValidSelection(old(selectedMonsters)) ==> ValidSelection(selectedMonsters)
    {
      store.RemoveMonster(monsterId);
      var prev := selectedMonsters;
      selectedMonsters := Roster.RemoveById(prev, monsterId);
      if ValidSelection(prev) {
        RemovalUnpicks(prev, monsterId);
      }
    }

    /** The list's "create" button. */
    method OpenForm()
      modifies this
      ensures currentView == Form && selectedMonsters == old(selectedMonsters)
    {
      currentView := Form;
    }

    /** The form's cancel button. */
    method CancelForm()
      modifies this
      ensures currentView == List && selectedMonsters == old(selectedMonsters)
    {
      currentView := List;
    }
  }

  /** Deleting a monster never leaves it picked, and keeps a valid selection valid. */
  lemma RemovalUnpicks(selected: seq<Monster>, monsterId: Id)
    requires ValidSelection(selected)
    ensures !Roster.HasId(Roster.RemoveById(selected, monsterId), monsterId)
    ensures ValidSelection(Roster.RemoveById(selected, monsterId))
  {
  }
}
