/** The recipe store (src/storage/recipeStore.ts): one persisted slot holding the whole
    collection; every operation reads the collection, transforms it and writes it back. */
module RecipeStore {
  import opened Types
  import opened Seqs

  /** The storage key of the one slot. */
  const Key: string := "recipes.v1"

  /** What the slot holds: nothing (a missing key or the empty string), text that does
      not parse, or a parsed array of recipes. */
  datatype Slot = Absent | Unparsable | Parsed(recipes: seq<Recipe>)

  /** One field of a `Partial<Recipe>` patch: left out, or present with a value. */
  datatype Field<T> = Keep | Set(value: T)

  /** `Partial<Recipe>`. `imageUrl` may be present with the value `undefined`, which
      the spread copies over the record: `Set(None)` clears the image. */
  datatype Patch = Patch(
    id: Field<string>,
    name: Field<string>,
    recipeType: Field<string>,
    imageUrl: Field<Option<string>>,
    ingredients: Field<seq<Row>>,
    steps: Field<seq<Row>>,
    createdAt: Field<int>,
    updatedAt: Field<int>)

  /** The collection `getAll` reads from a slot. */
  function ListOf(slot: Slot): seq<Recipe>
  {
    match slot
    case Parsed(recipes) => recipes
    case _ => []
  }

  /** The record `add` builds: the draft's fields, the new id and two clock readings. */
  function Stamp(d: Draft, id: string, createdAt: int, updatedAt: int): Recipe
  {
    Recipe(id, d.name, d.recipeType, d.imageUrl, d.ingredients, d.steps, createdAt, updatedAt)
  }

  function Apply<T>(f: Field<T>, current: T): T
  {
    match f
    case Keep => current
    case Set(v) => v
  }

  /** `{ ...r, ...patch, updatedAt: now }`. */
  function Overlay(r: Recipe, p: Patch, now: int): Recipe
  {
    Recipe(Apply(p.id, r.id), Apply(p.name, r.name), Apply(p.recipeType, r.recipeType),
           Apply(p.imageUrl, r.imageUrl), Apply(p.ingredients, r.ingredients),
           Apply(p.steps, r.steps), Apply(p.createdAt, r.createdAt), now)
  }

  /** The `map` of `update`: overlay the patch on every record with the id. */
  function UpdateById(list: seq<Recipe>, id: string, p: Patch, now: int): seq<Recipe>
  {
    if list == [] then []
    else [if list[0].id == id then Overlay(list[0], p, now) else list[0]]
         + UpdateById(list[1..], id, p, now)
  }

  /** The `filter` of `remove`. */
  function RemoveById(list: seq<Recipe>, id: string): seq<Recipe>
  {
    Filter(list, (r: Recipe) => r.id != id)
  }

  /** How many records carry the id. */
  function Matches(list: seq<Recipe>, id: string): nat
  {
    Count(list, (r: Recipe) => r.id == id)
  }

  /** The `find` of `get`: the first record with the id. */
  function FindById(list: seq<Recipe>, id: string): Option<Recipe>
  {
    if list == [] then None
    else if list[0].id == id then Some(list[0])
    else FindById(list[1..], id)
  }

  /** The seed list with both timestamps set to `now`. */
  function Seeded(seed: seq<Recipe>, now: int): seq<Recipe>
  {
    seq(|seed|, i requires 0 <= i < |seed| => seed[i].(createdAt := now, updatedAt := now))
  }

  /** The slot after `bootstrapIfEmpty`. */
  function Bootstrapped(slot: Slot, seed: seq<Recipe>, now: int): Slot
  {
    if ListOf(slot) == [] then Parsed(Seeded(seed, now)) else slot
  }

  /** The collection invariant: ids are unique and no record was updated before it
      was created. */
  ghost predicate WellFormed(list: seq<Recipe>)
  {
    list == [] ||
    (&& list[0].createdAt <= list[0].updatedAt
     && (forall r :: r in list[1..] ==> r.id != list[0].id)
     && WellFormed(list[1..]))
  }

  // ---------------------------------------------------------------------------
  // Properties of the list transformations

  /** `update` maps the collection record by record: same length, same order, the
      records with the id overlaid and every other record unchanged. */
  lemma {:induction false} UpdateByIdPointwise(list: seq<Recipe>, id: string, p: Patch, now: int)
    ensures |UpdateById(list, id, p, now)| == |list|
    ensures forall i :: 0 <= i < |list| ==>
      UpdateById(list, id, p, now)[i] == (if list[i].id == id then Overlay(list[i], p, now) else list[i])
  {
    if list != [] {
      UpdateByIdPointwise(list[1..], id, p, now);
      var r := UpdateById(list, id, p, now);
      forall i | 0 < i < |list|
        ensures r[i] == (if list[i].id == id then Overlay(list[i], p, now) else list[i])
      {
        assert r[i] == UpdateById(list[1..], id, p, now)[i - 1];
      }
    }
  }

  /** When no record has the id, `update` leaves the collection as it was. */
  lemma UpdateWithoutMatch(list: seq<Recipe>, id: string, p: Patch, now: int)
    requires forall r :: r in list ==> r.id != id
    ensures UpdateById(list, id, p, now) == list
  {
    UpdateByIdPointwise(list, id, p, now);
  }

  /** A patch without `id` and `createdAt` keeps both on the matched record, sets
      `updatedAt` to `now`, and takes every other field from the patch when present. */
  lemma OverlayKeepsIdentity(r: Recipe, p: Patch, now: int)
    requires p.id == Keep && p.createdAt == Keep
    ensures var o := Overlay(r, p, now);
      && o.id == r.id && o.createdAt == r.createdAt && o.updatedAt == now
      && o.name == (if p.name.Set? then p.name.value else r.name)
      && o.recipeType == (if p.recipeType.Set? then p.recipeType.value else r.recipeType)
      && o.imageUrl == (if p.imageUrl.Set? then p.imageUrl.value else r.imageUrl)
      && o.ingredients == (if p.ingredients.Set? then p.ingredients.value else r.ingredients)
      && o.steps == (if p.steps.Set? then p.steps.value else r.steps)
  {
  }

  /** `remove` keeps exactly the records with another id, in their order, and the
      collection shrinks by the number of records that had the id. */
  lemma RemoveByIdSpec(list: seq<Recipe>, id: string)
    ensures forall r :: r in RemoveById(list, id) <==> r in list && r.id != id
    ensures SubseqOf(RemoveById(list, id), list)
    ensures |RemoveById(list, id)| == |list| - Matches(list, id)
  {
    FilterIsSubseq(list, (r: Recipe) => r.id != id);
    FilterCount(list, (r: Recipe) => r.id != id, (r: Recipe) => r.id == id);
  }

  /** `find` returns the first record with the id, and nothing when there is none. */
  lemma {:induction false} FindByIdSpec(list: seq<Recipe>, id: string)
    ensures FindById(list, id).None? <==> (forall r :: r in list ==> r.id != id)
    ensures FindById(list, id).Some? ==>
      exists i :: 0 <= i < |list| && list[i] == FindById(list, id).value && list[i].id == id
        && forall j :: 0 <= j < i ==> list[j].id != id
  {
    if list != [] && list[0].id != id {
      FindByIdSpec(list[1..], id);
      assert forall r :: r in list ==> r == list[0] || r in list[1..];
      if FindById(list, id).Some? {
        var i :| 0 <= i < |list[1..]| && list[1..][i] == FindById(list, id).value && list[1..][i].id == id
          && forall j :: 0 <= j < i ==> list[1..][j].id != id;
        assert list[i + 1] == FindById(list, id).value;
        assert forall j :: 0 < j < i + 1 ==> list[j].id == list[1..][j - 1].id;
      }
    }
  }

  /** After `remove(id)`, `get(id)` finds nothing. */
  lemma FindAfterRemove(list: seq<Recipe>, id: string)
    ensures FindById(RemoveById(list, id), id) == None
  {
    RemoveByIdSpec(list, id);
    FindByIdSpec(RemoveById(list, id), id);
  }

  /** `bootstrapIfEmpty` twice, at any two times, leaves the slot as once does. */
  lemma BootstrapIdempotent(slot: Slot, seed: seq<Recipe>, now1: int, now2: int)
    ensures Bootstrapped(Bootstrapped(slot, seed, now1), seed, now2) == Bootstrapped(slot, seed, now1)
  {
    if ListOf(slot) == [] && seed == [] {
      assert Seeded(seed, now1) == [] == Seeded(seed, now2);
    }
  }

  /** Seeding leaves the collection non-empty whenever the seed list is non-empty. */
  lemma BootstrapNonEmpty(slot: Slot, seed: seq<Recipe>, now: int)
    requires seed != []
    ensures ListOf(Bootstrapped(slot, seed, now)) != []
  {
    if ListOf(slot) == [] {
      assert Seeded(seed, now)[0].id == seed[0].id;
    }
  }

  // ---------------------------------------------------------------------------
  // The collection invariant under each operation

  /** `add` keeps the invariant when the new id is fresh and the clock does not run backwards. */
  lemma AddKeepsWellFormed(list: seq<Recipe>, d: Draft, id: string, t1: int, t2: int)
    requires WellFormed(list)
    requires forall r :: r in list ==> r.id != id
    requires t1 <= t2
    ensures WellFormed([Stamp(d, id, t1, t2)] + list)
  {
    assert ([Stamp(d, id, t1, t2)] + list)[1..] == list;
  }

  lemma {:induction false} UpdateKeepsIds(list: seq<Recipe>, id: string, p: Patch, now: int)
    requires p.id == Keep
    ensures forall r :: r in UpdateById(list, id, p, now) ==> exists q :: q in list && q.id == r.id
  {
    UpdateByIdPointwise(list, id, p, now);
    var u := UpdateById(list, id, p, now);
    forall r | r in u ensures exists q :: q in list && q.id == r.id {
      var i :| 0 <= i < |u| && u[i] == r;
      assert list[i] in list && list[i].id == r.id;
    }
  }

  /** `update` keeps the invariant when the patch leaves `id` and `createdAt` alone and
      `now` is no earlier than the creation of the records it stamps. */
  lemma {:induction false} UpdateKeepsWellFormed(list: seq<Recipe>, id: string, p: Patch, now: int)
    requires WellFormed(list)
    requires p.id == Keep && p.createdAt == Keep
    requires forall r :: r in list && r.id == id ==> r.createdAt <= now
    ensures WellFormed(UpdateById(list, id, p, now))
  {
    if list != [] {
      assert forall r :: r in list[1..] ==> r in list;
      UpdateKeepsWellFormed(list[1..], id, p, now);
      UpdateKeepsIds(list[1..], id, p, now);
      var u := UpdateById(list, id, p, now);
      assert u[1..] == UpdateById(list[1..], id, p, now);
    }
  }

  /** `remove` keeps the invariant. */
  lemma {:induction false} RemoveKeepsWellFormed(list: seq<Recipe>, id: string)
    requires WellFormed(list)
    ensures WellFormed(RemoveById(list, id))
  {
    if list != [] {
      RemoveKeepsWellFormed(list[1..], id);
      var keep := (r: Recipe) => r.id != id;
      var rest := Filter(list[1..], keep);
      assert RemoveById(list[1..], id) == rest;
      if keep(list[0]) {
        var u := RemoveById(list, id);
        assert u == [list[0]] + rest;
        assert u[1..] == rest;
      } else {
        assert RemoveById(list, id) == rest;
      }
    }
  }

  /** No two records of the list share an id. */
  predicate DistinctIds(list: seq<Recipe>)
  {
    forall i, j :: 0 <= i < j < |list| ==> list[i].id != list[j].id
  }

  /** The invariant, stated without recursion: distinct ids, and every record created
      no later than its last update. */
  lemma {:induction false} WellFormedIff(list: seq<Recipe>)
    ensures WellFormed(list) <==>
      DistinctIds(list) && forall r :: r in list ==> r.createdAt <= r.updatedAt
  {
    if list != [] {
      WellFormedIff(list[1..]);
      assert forall r :: r in list <==> r == list[0] || r in list[1..];
      if DistinctIds(list) {
        forall r | r in list[1..] ensures r.id != list[0].id {
          var j :| 0 <= j < |list[1..]| && list[1..][j] == r;
          assert list[j + 1] == r;
        }
      }
      if WellFormed(list) {
        forall i, j | 0 <= i < j < |list| ensures list[i].id != list[j].id {
          if i > 0 {
            assert list[1..][i - 1] == list[i] && list[1..][j - 1] == list[j];
          } else {
            assert list[j] in list[1..] by { assert list[1..][j - 1] == list[j]; }
          }
        }
      }
    }
  }

  /** Seeding keeps the invariant when the seed records have distinct ids. */
  lemma BootstrapKeepsWellFormed(slot: Slot, seed: seq<Recipe>, now: int)
    requires WellFormed(ListOf(slot))
    requires DistinctIds(seed)
    ensures WellFormed(ListOf(Bootstrapped(slot, seed, now)))
  {
    if ListOf(slot) == [] {
      SeededWellFormed(seed, now);
    }
  }

  lemma {:induction false} SeededWellFormed(seed: seq<Recipe>, now: int)
    requires DistinctIds(seed)
    ensures WellFormed(Seeded(seed, now))
  {
    if seed != [] {
      var s := Seeded(seed, now);
      assert s[1..] == Seeded(seed[1..], now);
      assert DistinctIds(seed[1..]) by {
        forall i, j | 0 <= i < j < |seed[1..]| ensures seed[1..][i].id != seed[1..][j].id {
          assert seed[1..][i] == seed[i + 1] && seed[1..][j] == seed[j + 1];
        }
      }
      SeededWellFormed(seed[1..], now);
      forall r | r in s[1..] ensures r.id != s[0].id {
        var k :| 0 <= k < |s[1..]| && s[1..][k] == r;
        assert r.id == seed[k + 1].id;
      }
    }
  }

  /** Under the invariant at most one record carries a given id. */
  lemma {:induction false} MatchesAtMostOne(list: seq<Recipe>, id: string)
    requires WellFormed(list)
    ensures Matches(list, id) <= 1
  {
    if list != [] {
      MatchesAtMostOne(list[1..], id);
      if list[0].id == id {
        NoMatches(list[1..], id);
      }
    }
  }

  /** No record with the id, no match. */
  lemma {:induction false} NoMatches(list: seq<Recipe>, id: string)
    requires forall r :: r in list ==> r.id != id
    ensures Matches(list, id) == 0
  {
    if list != [] {
      assert forall r :: r in list[1..] ==> r in list;
      NoMatches(list[1..], id);
    }
  }

  /** Some record with the id, at least one match. */
  lemma {:induction false} SomeMatch(list: seq<Recipe>, id: string, r: Recipe)
    requires r in list && r.id == id
    ensures Matches(list, id) >= 1
  {
    if list[0] != r {
      assert r in list[1..];
      SomeMatch(list[1..], id, r);
    }
  }

  /** Under the invariant `remove` shortens the collection by exactly one when a record
      has the id, and leaves it as it was when none has. */
  lemma RemoveDropsAtMostOne(list: seq<Recipe>, id: string)
    requires WellFormed(list)
    ensures (exists r :: r in list && r.id == id) ==> |RemoveById(list, id)| == |list| - 1
    ensures (forall r :: r in list ==> r.id != id) ==> RemoveById(list, id) == list
  {
    RemoveByIdSpec(list, id);
    MatchesAtMostOne(list, id);
    if r :| r in list && r.id == id {
      SomeMatch(list, id, r);
    } else {
      FilterKeepsAll(list, (r: Recipe) => r.id != id);
    }
  }

  // ---------------------------------------------------------------------------
  // The store object

  /** The persisted slot, read and written as a whole by every operation. */
  class Store {
    /** The storage key the slot is kept under. */
    const key: string
    var slot: Slot

    constructor (initial: Slot)
      ensures key == Key && slot == initial
    {
      key := Key;
      slot := initial;
    }

    /** The collection `getAll` would return now. */
    function Contents(): seq<Recipe>
      reads this
    {
      ListOf(slot)
    }

    /** `getAll`: the stored array, or the empty sequence when the slot is missing,
        empty or does not parse. */
    method GetAll() returns (list: seq<Recipe>)
      ensures list == Contents()
      ensures slot.Parsed? ==> list == slot.recipes
      ensures !slot.Parsed? ==> list == []
    {
      list := Contents();
    }

    /** `saveAll`: overwrite the slot with the whole collection. */
    method SaveAll(list: seq<Recipe>)
      modifies this
      ensures slot == Parsed(list)
    {
      slot := Parsed(list);
    }

    /** `bootstrapIfEmpty`: seed an empty collection, stamped with `now`. */
    method BootstrapIfEmpty(seed: seq<Recipe>, now: int)
      modifies this
      ensures slot == Bootstrapped(old(slot), seed, now)
      ensures old(Contents()) != [] ==> slot == old(slot)
      ensures old(Contents()) == [] ==>
        && |Contents()| == |seed|
        && forall i :: 0 <= i < |seed| ==>
             Contents()[i] == seed[i].(createdAt := now, updatedAt := now)
    {
      var existing := GetAll();
      if |existing| == 0 {
        SaveAll(Seeded(seed, now));
      }
    }

    /** `add`: prepend a new record built from the draft, the fresh id `id` and the two
        clock readings `t1` (createdAt) and `t2` (updatedAt), and return it. */
    method Add(d: Draft, id: string, t1: int, t2: int) returns (rec: Recipe)
      modifies this
      ensures rec == Stamp(d, id, t1, t2)
      ensures slot == Parsed([rec] + old(Contents()))
      ensures Contents()[0] == rec && Contents()[1..] == old(Contents())
    {
      var list := GetAll();
      rec := Stamp(d, id, t1, t2);
      var next := [rec] + list;
      SaveAll(next);
      assert next[1..] == list;
    }

    /** `update`: overlay the patch on every record with the id, stamping it with `now`. */
    method Update(id: string, p: Patch, now: int)
      modifies this
      ensures slot == Parsed(UpdateById(old(Contents()), id, p, now))
      ensures |Contents()| == |old(Contents())|
      ensures forall i :: 0 <= i < |Contents()| && old(Contents())[i].id != id ==>
        Contents()[i] == old(Contents())[i]
      ensures forall i :: 0 <= i < |Contents()| && old(Contents())[i].id == id ==>
        Contents()[i] == Overlay(old(Contents())[i], p, now)
    {
      var list := GetAll();
      UpdateByIdPointwise(list, id, p, now);
      SaveAll(UpdateById(list, id, p, now));
    }

    /** `remove`: keep only the records with another id. */
    method Remove(id: string)
      modifies this
      ensures slot == Parsed(RemoveById(old(Contents()), id))
      ensures SubseqOf(Contents(), old(Contents()))
      ensures |Contents()| == |old(Contents())| - Matches(old(Contents()), id)
      ensures forall r :: r in Contents() <==> r in old(Contents()) && r.id != id
    {
      var list := GetAll();
      RemoveByIdSpec(list, id);
      SaveAll(RemoveById(list, id));
    }

    /** `get`: the first record with the id, or nothing. */
    method Get(id: string) returns (found: Option<Recipe>)
      ensures found == FindById(Contents(), id)
      ensures found.None? <==> forall r :: r in Contents() ==> r.id != id
      ensures found.Some? ==> found.value in Contents() && found.value.id == id
    {
      var list := GetAll();
      FindByIdSpec(list, id);
      found := FindById(list, id);
    }
  }
}
