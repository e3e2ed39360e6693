/** The list screen (src/screens/RecipeListScreen.tsx): the type filter with its "ALL"
    sentinel, the filter options, and the load order "bootstrap, then read". */
module RecipeList {
  import opened Types
  import opened Seqs
  import RecipeStore

  /** The selection that shows every recipe. */
  const AllTypes: string := "ALL"

  /** `filtered`: the whole list under "ALL", otherwise the recipes of the selected type. */
  function Filtered(list: seq<Recipe>, selected: string): seq<Recipe>
  {
    if selected == AllTypes then list else Filter(list, (r: Recipe) => r.recipeType == selected)
  }

  /** The chips of the type filter: "ALL" and then the category list in its order. */
  function FilterOptions(types: seq<string>): (options: seq<string>)
    ensures |options| == |types| + 1 && options[0] == AllTypes
    ensures forall i :: 0 <= i < |types| ==> options[i + 1] == types[i]
  {
    [AllTypes] + types
  }

  /** Under "ALL" the list is shown unchanged. */
  lemma FilteredAll(list: seq<Recipe>)
    ensures Filtered(list, AllTypes) == list
  {
  }

  /** Any other selection shows exactly the recipes of that type, in list order. */
  lemma FilteredByType(list: seq<Recipe>, selected: string)
    requires selected != AllTypes
    ensures forall r :: r in Filtered(list, selected) ==> r in list && r.recipeType == selected
    ensures forall r :: r in list && r.recipeType == selected ==> r in Filtered(list, selected)
    ensures SubseqOf(Filtered(list, selected), list)
    ensures |Filtered(list, selected)| == Count(list, (r: Recipe) => r.recipeType == selected)
  {
    var keep := (r: Recipe) => r.recipeType == selected;
    FilterIsSubseq(list, keep);
    FilterCount(list, keep, (r: Recipe) => r.recipeType != selected);
    FilterCount(list, (r: Recipe) => r.recipeType != selected, keep);
    CountComplement(list, keep, (r: Recipe) => r.recipeType != selected);
  }

  /** After `add` prepends a record, the filtered list shows it first exactly when it
      matches the selection, followed by what was shown before. */
  lemma FilteredAfterAdd(rec: Recipe, list: seq<Recipe>, selected: string)
    ensures Filtered([rec] + list, selected) ==
      (if selected == AllTypes || rec.recipeType == selected then [rec] else []) + Filtered(list, selected)
  {
    if selected != AllTypes {
      FilterAppend([rec], list, (r: Recipe) => r.recipeType == selected);
      assert [rec][1..] == [];
    }
  }

  /** What a predicate counts and what its negation counts add up to the length. */
  lemma {:induction false} CountComplement<T>(s: seq<T>, p: T -> bool, q: T -> bool)
    requires forall x :: q(x) == !p(x)
    ensures Count(s, p) + Count(s, q) == |s|
  {
    if s != [] {
      CountComplement(s[1..], p, q);
    }
  }

  /** The load effect: `bootstrapIfEmpty`, then `getAll`. The list shown is the stored
      collection after seeding, and it is never empty when the seed list is not. */
  method Refresh(store: RecipeStore.Store, seed: seq<Recipe>, now: int) returns (list: seq<Recipe>)
    modifies store
    ensures store.slot == RecipeStore.Bootstrapped(old(store.slot), seed, now)
    ensures list == store.Contents()
    ensures seed != [] ==> list != []
  {
    store.BootstrapIfEmpty(seed, now);
    list := store.GetAll();
    if seed != [] {
      RecipeStore.BootstrapNonEmpty(old(store.slot), seed, now);
    }
  }
}
