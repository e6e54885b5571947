/**
 * The monster list: the default roster and the list transforms behind adding,
 * updating and removing monsters, with the store object whose list they replace.
 */
module Roster {
  import opened Types

  /** Every monster in `monsters` has its own id. */
  ghost predicate UniqueIds(monsters: seq<Monster>) {
    forall i, j :: 0 <= i < j < |monsters| ==> monsters[i].id != monsters[j].id
  }

  /** Some monster in the list has this id (the source's `some(m => m.id === id)`). */
  predicate HasId(monsters: seq<Monster>, id: Id) {
    exists m :: m in monsters && m.id == id
  }

  /** The list a first visit starts from: three monsters at full health. */
  function DefaultMonsters(): (d: seq<Monster>)
    ensures |d| == 3 && d[0].id == "1" && d[1].id == "2" && d[2].id == "3"
    ensures d[0].hp == d[0].maxHp > 0 && d[1].hp == d[1].maxHp > 0 && d[2].hp == d[2].maxHp > 0
  {
    [ Monster("1", "Bulbasaur", 85, 60, 70, 120, 120,
              "https://www.pokemon.com/static-assets/content-assets/cms2/img/pokedex/full/001.png"),
      Monster("2", "Charmander", 90, 50, 95, 100, 100,
              "https://www.pokemon.com/static-assets/content-assets/cms2/img/pokedex/full/004.png"),
      Monster("3", "Squirtle ", 60, 90, 40, 150, 150,
              "https://www.pokemon.com/static-assets/content-assets/cms2/img/pokedex/full/007.png") ]
  }

  /** The default ids are unique, so the store starts in the state `AddFresh` and `RemoveEntry` assume. */
  lemma DefaultIdsUnique()
    ensures UniqueIds(DefaultMonsters())
  {
    var d := DefaultMonsters();
    assert d[0].id != d[1].id && d[0].id != d[2].id && d[1].id != d[2].id;
  }

  /** The record `addMonster` builds: the entered fields, the given id, and `maxHp` set to the entered HP. */
  function NewMonster(input: MonsterInput, id: Id): (m: Monster)
    ensures m.id == id && m.hp == m.maxHp == input.hp
    ensures m.name == input.name && m.imageUrl == input.imageUrl
    ensures m.attack == input.attack && m.defense == input.defense && m.speed == input.speed
  {
    Monster(id, input.name, input.attack, input.defense, input.speed, input.hp, input.hp, input.imageUrl)
  }

  /** The list after `addMonster`: the new record appended at the end. */
  function WithMonster(monsters: seq<Monster>, input: MonsterInput, id: Id): (r: seq<Monster>)
    ensures |r| == |monsters| + 1
    ensures r[..|monsters|] == monsters
    ensures r[|monsters|] == NewMonster(input, id)
  {
    monsters + [NewMonster(input, id)]
  }

  /** `Partial<Monster>`: `None` is a key the update does not carry. */
  datatype MonsterPatch = MonsterPatch(
    id: Option<Id>,
    name: Option<string>,
    attack: Option<int>,
    defense: Option<int>,
    speed: Option<int>,
    hp: Option<int>,
    maxHp: Option<int>,
    imageUrl: Option<string>)

  function Pick<T>(update: Option<T>, current: T): T {
    if update.Some? then update.value else current
  }

  const NoChange := MonsterPatch(None, None, None, None, None, None, None, None)

  /**
   * `{ ...monster, ...patch }`: the patch's keys win, the rest is kept. A patch
   * without an id keeps the entry's identity; an empty patch changes nothing.
   */
  function Patched(m: Monster, patch: MonsterPatch): (r: Monster)
    ensures patch.id.None? ==> r.id == m.id
    ensures patch.id.Some? ==> r.id == patch.id.value
    ensures patch == NoChange ==> r == m
  {
    Monster(Pick(patch.id, m.id), Pick(patch.name, m.name), Pick(patch.attack, m.attack),
            Pick(patch.defense, m.defense), Pick(patch.speed, m.speed), Pick(patch.hp, m.hp),
            Pick(patch.maxHp, m.maxHp), Pick(patch.imageUrl, m.imageUrl))
  }

  /** The list after `updateMonster`: same length and order, matching entries patched. */
  function UpdateById(monsters: seq<Monster>, id: Id, patch: MonsterPatch): (r: seq<Monster>)
    ensures |r| == |monsters|
    ensures forall i :: 0 <= i < |monsters| && monsters[i].id != id ==> r[i] == monsters[i]
    ensures forall i :: 0 <= i < |monsters| && monsters[i].id == id ==> r[i] == Patched(monsters[i], patch)
  {
    if monsters == [] then []
    else
      var head := if monsters[0].id == id then Patched(monsters[0], patch) else monsters[0];
      [head] + UpdateById(monsters[1..], id, patch)
  }

  /** The list after `removeMonster` (and the selection filter): the entries whose id differs, in order. */
  function RemoveById(monsters: seq<Monster>, id: Id): (r: seq<Monster>)
    ensures |r| <= |monsters|
  {
    if monsters == [] then []
    else if monsters[0].id != id then [monsters[0]] + RemoveById(monsters[1..], id)
    else RemoveById(monsters[1..], id)
  }

  /** Exactly the entries with another id survive the filter. */
  lemma {:induction false} RemoveByIdMembers(monsters: seq<Monster>, id: Id)
    ensures forall m :: m in RemoveById(monsters, id) <==> m in monsters && m.id != id
  {
    if monsters != [] {
      RemoveByIdMembers(monsters[1..], id);
      assert monsters == [monsters[0]] + monsters[1..];
    }
  }

  /** The filter drops something exactly when some entry carries the id. */
  lemma {:induction false} RemoveByIdShrinks(monsters: seq<Monster>, id: Id)
    ensures !HasId(monsters, id) ==> RemoveById(monsters, id) == monsters
    ensures HasId(monsters, id) ==> |RemoveById(monsters, id)| < |monsters|
  {
    if monsters != [] {
      RemoveByIdShrinks(monsters[1..], id);
      assert monsters == [monsters[0]] + monsters[1..];
      if HasId(monsters, id) && monsters[0].id != id {
        var m :| m in monsters && m.id == id;
        assert m in monsters[1..];
      }
      if !HasId(monsters, id) {
        forall m | m in monsters[1..] ensures m.id != id {
          assert m in monsters;
        }
      }
    }
  }

  /** Filtering distributes over concatenation: the kept entries keep their order. */
  lemma {:induction false} RemoveByIdConcat(a: seq<Monster>, b: seq<Monster>, id: Id)
    ensures RemoveById(a + b, id) == RemoveById(a, id) + RemoveById(b, id)
  {
    if a == [] {
      assert a + b == b;
    } else {
      assert (a + b)[0] == a[0] && (a + b)[1..] == a[1..] + b;
      RemoveByIdConcat(a[1..], b, id);
      if a[0].id != id {
        assert [a[0]] + (RemoveById(a[1..], id) + RemoveById(b, id))
            == ([a[0]] + RemoveById(a[1..], id)) + RemoveById(b, id);
      }
    }
  }

  /** With unique ids, removing the id of entry `k` cuts out exactly that entry. */
  lemma RemoveEntry(monsters: seq<Monster>, k: nat)
    requires UniqueIds(monsters)
    requires k < |monsters|
    ensures RemoveById(monsters, monsters[k].id) == monsters[..k] + monsters[k + 1..]
  {
    assert !HasId(monsters[..k], monsters[k].id) by { NotInSlice(monsters, 0, k); }
    assert !HasId(monsters[k + 1..], monsters[k].id) by { NotInSlice(monsters, k + 1, |monsters|); }
    CutAt(monsters, k);
  }

  /** Entry `k` is cut out when neither side of it carries its id. */
  lemma CutAt(monsters: seq<Monster>, k: nat)
    requires k < |monsters|
    requires !HasId(monsters[..k], monsters[k].id) && !HasId(monsters[k + 1..], monsters[k].id)
    ensures RemoveById(monsters, monsters[k].id) == monsters[..k] + monsters[k + 1..]
  {
    SplitAt(monsters, k);
    CutOut(monsters[..k], monsters[k], monsters[k + 1..]);
  }

  lemma SplitAt(monsters: seq<Monster>, k: nat)
    requires k < |monsters|
    ensures monsters == monsters[..k] + [monsters[k]] + monsters[k + 1..]
  {
  }

  /** The one entry carrying an id, between two runs without it, is what the filter drops. */
  lemma CutOut(before: seq<Monster>, x: Monster, after: seq<Monster>)
    requires !HasId(before, x.id) && !HasId(after, x.id)
    ensures RemoveById(before + [x] + after, x.id) == before + after
  {
    RemoveByIdConcat(before + [x], after, x.id);
    RemoveByIdConcat(before, [x], x.id);
    RemoveByIdShrinks(before, x.id);
    RemoveByIdShrinks(after, x.id);
    assert RemoveById([x], x.id) == [];
    assert before + [] == before;
  }

  /** No entry of a slice that excludes `k` has the id of entry `k`, when ids are unique. */
  lemma NotInSlice(monsters: seq<Monster>, lo: nat, hi: nat)
    requires UniqueIds(monsters)
    requires lo <= hi <= |monsters|
    ensures forall k :: 0 <= k < |monsters| && !(lo <= k < hi) ==> !HasId(monsters[lo..hi], monsters[k].id)
  {
  }

  /** Removing keeps ids unique. */
  lemma {:induction false} RemoveKeepsUnique(monsters: seq<Monster>, id: Id)
    requires UniqueIds(monsters)
    ensures UniqueIds(RemoveById(monsters, id))
  {
    if monsters != [] {
      var tail := monsters[1..];
      RemoveKeepsUnique(tail, id);
      var rest := RemoveById(tail, id);
      if monsters[0].id != id {
        RemoveByIdMembers(tail, id);
        forall m | m in rest ensures m.id != monsters[0].id {
          var i :| 0 <= i < |tail| && tail[i] == m;
          assert m == monsters[i + 1];
        }
        var r := [monsters[0]] + rest;
        forall i, j | 0 <= i < j < |r| ensures r[i].id != r[j].id {
          if i == 0 {
            assert r[j] in rest;
          } else {
            assert r[i] == rest[i - 1] && r[j] == rest[j - 1];
          }
        }
      }
    }
  }

  /** Adding a monster under a fresh id keeps ids unique, and removing that id undoes the addition. */
  lemma AddFresh(monsters: seq<Monster>, input: MonsterInput, id: Id)
    requires UniqueIds(monsters)
    requires !HasId(monsters, id)
    ensures UniqueIds(WithMonster(monsters, input, id))
    ensures RemoveById(WithMonster(monsters, input, id), id) == monsters
  {
    var r := WithMonster(monsters, input, id);
    forall i, j | 0 <= i < j < |r| ensures r[i].id != r[j].id {
      if j == |monsters| {
        assert r[i] == monsters[i];
        assert monsters[i] in monsters;
      }
    }
    RemoveByIdConcat(monsters, [NewMonster(input, id)], id);
    RemoveByIdShrinks(monsters, id);
    assert RemoveById([NewMonster(input, id)], id) == [];
    assert monsters + [NewMonster(input, id)] == r;
    assert monsters + [] == monsters;
  }

  /** Updating an id no entry has changes nothing. */
  lemma UpdateAbsent(monsters: seq<Monster>, id: Id, patch: MonsterPatch)
    requires !HasId(monsters, id)
    ensures UpdateById(monsters, id, patch) == monsters
  {
  }

  /**
   * The monster collection of the page. Each operation computes the new list and
   * then replaces the stored one; persisting it is not part of this model.
   */
  class MonsterStore {
    var monsters: seq<Monster>

    /** A first visit with nothing saved: the default list. */
    constructor ()
      ensures monsters == DefaultMonsters()
    {
      monsters := DefaultMonsters();
    }

    /** `addMonster`, with the id the clock would give passed in. */
    method AddMonster(input: MonsterInput, id: Id)
      modifies this
      ensures monsters == WithMonster(old(monsters), input, id)
    {
      monsters := monsters + [NewMonster(input, id)];
    }

    method UpdateMonster(id: Id, patch: MonsterPatch)
      modifies this
      ensures monsters == UpdateById(old(monsters), id, patch)
    {
      monsters := UpdateById(monsters, id, patch);
    }

    method RemoveMonster(id: Id)
      modifies this
      ensures monsters == RemoveById(old(monsters), id)
    {
      monsters := RemoveById(monsters, id);
    }
  }
}
