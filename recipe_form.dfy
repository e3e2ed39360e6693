/** The form reconciler of the create/edit screen (src/screens/RecipeFormScreen.tsx):
    normalisation, the dirty check against a baseline, submission, the row editors and
    the leave guard. Rendering, the image picker and permissions are not modelled. */
module RecipeForm {
  import opened Types
  import opened Seqs
  import opened Text
  import RecipeStore

  /** The five form fields the screen keeps in state. */
  datatype FormState = FormState(
    name: string,
    recipeType: string,
    imageUrl: string,
    ingredients: seq<Row>,
    steps: seq<Row>)

  /** The `normalized` value: trimmed name and image, the type as is, and the trimmed
      non-empty row texts (each `{text}`, so just the text here). */
  datatype Snapshot = Snapshot(
    name: string,
    recipeType: string,
    imageUrl: string,
    ingredients: seq<string>,
    steps: seq<string>)

  /** `initialSnapshotRef`: the empty string until a baseline is taken, then the JSON text
      of a snapshot. Both stringifications list the same five keys in the same order, so
      comparing the texts is comparing the snapshots; no JSON text of an object is empty. */
  datatype Baseline = Unset | Taken(snapshot: Snapshot)

  datatype RowKind = IngredientRows | StepRows

  /** A navigation action held back by the leave guard (opaque to the screen). */
  datatype NavAction = NavAction(target: string)

  /** A rejected submission, with the message the screen alerts. */
  datatype SubmitError = NameRequired | IngredientRequired | StepRequired
  {
    function Message(): string
    {
      match this
      case NameRequired => "Recipe name is required."
      case IngredientRequired => "At least 1 ingredient is required."
      case StepRequired => "At least 1 step is required."
    }
  }

  /** The outcome of validating a form: the payload handed to the store, or the first failure. */
  datatype Checked = Accepted(payload: Draft) | Rejected(error: SubmitError)

  // ---------------------------------------------------------------------------
  // Normalisation and the dirty check

  /** Trim every row's text, drop the empty ones, keep the order, forget the ids. */
  function NormRows(rows: seq<Row>): seq<string>
  {
    if rows == [] then [] else KeptText(rows[0]) + NormRows(rows[1..])
  }

  /** One row's contribution to the normalised list: its trimmed text, unless empty. */
  function KeptText(row: Row): seq<string>
  {
    if Trim(row.text) == "" then [] else [Trim(row.text)]
  }

  /** A text that is non-empty and already trimmed. */
  predicate NormalText(t: string)
  {
    t != "" && Trim(t) == t
  }

  /** Texts that are all non-empty and already trimmed. */
  predicate NormalTexts(texts: seq<string>)
  {
    texts == [] || (NormalText(texts[0]) && NormalTexts(texts[1..]))
  }

  /** Each member of a list of normal texts is normal. */
  lemma {:induction false} NormalTextsMembers(texts: seq<string>)
    requires NormalTexts(texts)
    ensures forall t :: t in texts ==> NormalText(t)
  {
    if texts != [] {
      NormalTextsMembers(texts[1..]);
      assert forall t :: t in texts ==> t == texts[0] || t in texts[1..];
    }
  }

  /** Every normalised text is non-empty and trimmed, and none is invented. */
  lemma {:induction false} NormRowsNormal(rows: seq<Row>)
    ensures |NormRows(rows)| <= |rows|
    ensures NormalTexts(NormRows(rows))
  {
    if rows != [] {
      NormRowsNormal(rows[1..]);
      var t := Trim(rows[0].text);
      if t != "" {
        TrimIdempotent(rows[0].text);
        var n := NormRows(rows);
        assert n == [t] + NormRows(rows[1..]);
        assert n[0] == t && n[1..] == NormRows(rows[1..]);
      } else {
        assert NormRows(rows) == NormRows(rows[1..]);
      }
    }
  }

  function Normalize(st: FormState): Snapshot
  {
    Snapshot(Trim(st.name), st.recipeType, Trim(st.imageUrl), NormRows(st.ingredients), NormRows(st.steps))
  }

  /** `isDirty`: the normalised state differs from the baseline. */
  predicate Dirty(baseline: Baseline, st: FormState)
  {
    baseline != Taken(Normalize(st))
  }

  /** Rows that carry only a text, as a submission writes them. */
  function TextRows(texts: seq<string>): (rows: seq<Row>)
    ensures |rows| == |texts|
    ensures forall i :: 0 <= i < |texts| ==> rows[i] == Row(None, texts[i])
  {
    seq(|texts|, i requires 0 <= i < |texts| => Row(None, texts[i]))
  }

  /** The texts of some rows. */
  function Texts(rows: seq<Row>): (texts: seq<string>)
    ensures |texts| == |rows|
    ensures forall i :: 0 <= i < |rows| ==> texts[i] == rows[i].text
  {
    seq(|rows|, i requires 0 <= i < |rows| => rows[i].text)
  }

  /** Texts written as id-less rows read back unchanged. */
  lemma TextsOfTextRows(texts: seq<string>)
    ensures Texts(TextRows(texts)) == texts
  {
  }

  /** A form state holding exactly a snapshot's values. */
  function StateOf(n: Snapshot): FormState
  {
    FormState(n.name, n.recipeType, n.imageUrl, TextRows(n.ingredients), TextRows(n.steps))
  }

  /** The normalised row texts, in order, are the non-blank row texts, trimmed. */
  lemma {:induction false} NormRowsAppend(a: seq<Row>, b: seq<Row>)
    ensures NormRows(a + b) == NormRows(a) + NormRows(b)
  {
    if a == [] {
      assert a + b == b;
    } else {
      assert (a + b)[1..] == a[1..] + b;
      NormRowsAppend(a[1..], b);
    }
  }

  /** Normalisation drops a row exactly when its text is all white space. */
  lemma {:induction false} NormRowsEmpty(rows: seq<Row>)
    ensures NormRows(rows) == [] <==> forall i :: 0 <= i < |rows| ==> AllSpace(rows[i].text)
  {
    if rows != [] {
      NormRowsEmpty(rows[1..]);
      TrimSpec(rows[0].text);
      assert forall i :: 1 <= i < |rows| ==> rows[i] == rows[1..][i - 1];
    }
  }

  /** Normalising rows that are already trimmed and non-empty gives back their texts. */
  lemma {:induction false} NormRowsOfNormal(texts: seq<string>)
    requires NormalTexts(texts)
    ensures NormRows(TextRows(texts)) == texts
  {
    if texts != [] {
      NormRowsOfNormal(texts[1..]);
      assert TextRows(texts)[1..] == TextRows(texts[1..]);
    }
  }

  /** Normalising a normalised state is the identity. */
  lemma NormalizeIdempotent(st: FormState)
    ensures Normalize(StateOf(Normalize(st))) == Normalize(st)
  {
    TrimIdempotent(st.name);
    TrimIdempotent(st.imageUrl);
    NormRowsNormal(st.ingredients);
    NormRowsNormal(st.steps);
    NormRowsOfNormal(NormRows(st.ingredients));
    NormRowsOfNormal(NormRows(st.steps));
  }

  /** Row ids do not take part in the comparison: rows with the same texts in the same
      order normalise alike. */
  lemma {:induction false} NormRowsIgnoresIds(a: seq<Row>, b: seq<Row>)
    requires Texts(a) == Texts(b)
    ensures NormRows(a) == NormRows(b)
  {
    if a != [] {
      assert a[0].text == Texts(a)[0] == Texts(b)[0] == b[0].text;
      assert Texts(a[1..]) == Texts(a)[1..];
      assert Texts(b[1..]) == Texts(b)[1..];
      NormRowsIgnoresIds(a[1..], b[1..]);
    }
  }

  /** The row list of the given kind. */
  function RowsOf(st: FormState, kind: RowKind): seq<Row>
  {
    match kind
    case IngredientRows => st.ingredients
    case StepRows => st.steps
  }

  /** The state with the row list of the given kind replaced. */
  function WithRows(st: FormState, kind: RowKind, rows: seq<Row>): FormState
  {
    match kind
    case IngredientRows => st.(ingredients := rows)
    case StepRows => st.(steps := rows)
  }

  /** A row that is not blank normalises to its trimmed text alone. */
  lemma NormRowsSingle(x: Row)
    requires !AllSpace(x.text)
    ensures NormRows([x]) == [Trim(x.text)]
  {
    TrimSpec(x.text);
    assert [x][1..] == [];
  }

  /** The normalised texts of `a + [x] + m + [y] + b`, piece by piece. */
  lemma NormRowsAround(a: seq<Row>, x: Row, m: seq<Row>, y: Row, b: seq<Row>)
    requires !AllSpace(x.text) && !AllSpace(y.text)
    ensures NormRows(a + [x] + m + [y] + b)
      == NormRows(a) + [Trim(x.text)] + NormRows(m) + [Trim(y.text)] + NormRows(b)
  {
    NormRowsSingle(x);
    NormRowsSingle(y);
    NormRowsAppend(a + [x] + m + [y], b);
    NormRowsAppend(a + [x] + m, [y]);
    NormRowsAppend(a + [x], m);
    NormRowsAppend(a, [x]);
  }

  /** Exchanging two non-blank rows with different trimmed texts, at any two positions,
      changes the normalised list. */
  lemma SwapChangesRows(a: seq<Row>, x: Row, m: seq<Row>, y: Row, b: seq<Row>)
    requires Trim(x.text) != Trim(y.text) && !AllSpace(x.text) && !AllSpace(y.text)
    ensures NormRows(a + [x] + m + [y] + b) != NormRows(a + [y] + m + [x] + b)
  {
    NormRowsAround(a, x, m, y, b);
    NormRowsAround(a, y, m, x, b);
    var k := |NormRows(a)|;
    assert NormRows(a + [x] + m + [y] + b)[k] == Trim(x.text);
    assert NormRows(a + [y] + m + [x] + b)[k] == Trim(y.text);
  }

  /** Order matters: exchanging two different non-blank rows of either list makes the
      form dirty against the baseline it had before. */
  lemma SwappedRowsDirty(st: FormState, kind: RowKind, a: seq<Row>, x: Row, m: seq<Row>, y: Row, b: seq<Row>)
    requires Trim(x.text) != Trim(y.text) && !AllSpace(x.text) && !AllSpace(y.text)
    requires RowsOf(st, kind) == a + [x] + m + [y] + b
    ensures Dirty(Taken(Normalize(st)), WithRows(st, kind, a + [y] + m + [x] + b))
  {
    SwapChangesRows(a, x, m, y, b);
    match kind {
      case IngredientRows =>
        assert Normalize(WithRows(st, kind, a + [y] + m + [x] + b)).ingredients != Normalize(st).ingredients;
      case StepRows =>
        assert Normalize(WithRows(st, kind, a + [y] + m + [x] + b)).steps != Normalize(st).steps;
    }
  }

  /** The baseline of a new recipe. */
  function NewBaseline(defaultType: string): Baseline
  {
    Taken(Snapshot("", defaultType, "", [], []))
  }

  /** A new recipe's form is clean exactly when the name and image are blank, the type is
      the default one and every row is blank. */
  lemma NewFormClean(defaultType: string, st: FormState)
    ensures !Dirty(NewBaseline(defaultType), st) <==>
      && AllSpace(st.name) && st.recipeType == defaultType && AllSpace(st.imageUrl)
      && (forall i :: 0 <= i < |st.ingredients| ==> AllSpace(st.ingredients[i].text))
      && (forall i :: 0 <= i < |st.steps| ==> AllSpace(st.steps[i].text))
  {
    TrimSpec(st.name);
    TrimSpec(st.imageUrl);
    NormRowsEmpty(st.ingredients);
    NormRowsEmpty(st.steps);
  }

  /** Only white space in the name of a new recipe is not a change; a name is. */
  lemma NewFormExamples(defaultType: string, ingredients: seq<Row>, steps: seq<Row>)
    requires forall i :: 0 <= i < |ingredients| ==> ingredients[i].text == ""
    requires forall i :: 0 <= i < |steps| ==> steps[i].text == ""
    ensures !Dirty(NewBaseline(defaultType), FormState("", defaultType, "", ingredients, steps))
    ensures !Dirty(NewBaseline(defaultType), FormState("  ", defaultType, "", ingredients, steps))
    ensures Dirty(NewBaseline(defaultType), FormState("Soup", defaultType, "", ingredients, steps))
  {
    assert AllSpace("  ");
    assert !IsSpace("Soup"[0]);
    NewFormClean(defaultType, FormState("", defaultType, "", ingredients, steps));
    NewFormClean(defaultType, FormState("  ", defaultType, "", ingredients, steps));
    NewFormClean(defaultType, FormState("Soup", defaultType, "", ingredients, steps));
  }

  /** Before a baseline is taken every state counts as dirty. */
  lemma UnsetAlwaysDirty(st: FormState)
    ensures Dirty(Unset, st)
  {
  }

  // ---------------------------------------------------------------------------
  // Loading a recipe for editing

  /** The rows the form shows for a loaded list: the list itself, or one blank row with
      a fresh id when it is empty. */
  function LoadedRows(rows: seq<Row>, blankId: string): seq<Row>
  {
    if |rows| > 0 then rows else [Row(Some(blankId), "")]
  }

  function LoadedState(r: Recipe, ingredientId: string, stepId: string): FormState
  {
    FormState(r.name, r.recipeType, ImageOrEmpty(r.imageUrl),
              LoadedRows(r.ingredients, ingredientId), LoadedRows(r.steps, stepId))
  }

  function ImageOrEmpty(u: Option<string>): string
  {
    match u
    case Some(s) => s
    case None => ""
  }

  /** The baseline taken on load: the name and image as stored (untrimmed), the rows
      normalised. */
  function LoadedBaseline(r: Recipe): Baseline
  {
    Taken(Snapshot(r.name, r.recipeType, ImageOrEmpty(r.imageUrl), NormRows(r.ingredients), NormRows(r.steps)))
  }

  /** A freshly loaded form is clean exactly when the stored name and image carry no
      surrounding white space (the baseline keeps them untrimmed). */
  lemma LoadedClean(r: Recipe, ingredientId: string, stepId: string)
    ensures !Dirty(LoadedBaseline(r), LoadedState(r, ingredientId, stepId)) <==>
      Trim(r.name) == r.name && Trim(ImageOrEmpty(r.imageUrl)) == ImageOrEmpty(r.imageUrl)
  {
    var blank := Row(Some(ingredientId), "");
    assert NormRows([blank]) == [] by { assert [blank][1..] == []; }
    var blankStep := Row(Some(stepId), "");
    assert NormRows([blankStep]) == [] by { assert [blankStep][1..] == []; }
  }

  // ---------------------------------------------------------------------------
  // Submission

  /** The payload of a valid form: trimmed name, the type, the trimmed image or none
      when it is empty, and the normalised rows as `{text}` only. */
  function PayloadOf(st: FormState): Draft
  {
    var image := Trim(st.imageUrl);
    Draft(Trim(st.name), st.recipeType, if image == "" then None else Some(image),
          TextRows(NormRows(st.ingredients)), TextRows(NormRows(st.steps)))
  }

  /** The second `filter` of `submit` (by text length) keeps every normalised entry. */
  lemma CleanedIsNormalized(rows: seq<Row>)
    ensures Filter(NormRows(rows), (t: string) => |t| > 0) == NormRows(rows)
  {
    NormRowsNormal(rows);
    NormalTextsMembers(NormRows(rows));
    FilterKeepsAll(NormRows(rows), (t: string) => |t| > 0);
  }

  /** The rows of a payload carry non-empty, trimmed texts: no blank entry is ever saved. */
  lemma PayloadRowsNormal(rows: seq<Row>)
    ensures forall i :: 0 <= i < |TextRows(NormRows(rows))| ==> NormalText(TextRows(NormRows(rows))[i].text)
  {
    NormRowsNormal(rows);
    NormalTextsMembers(NormRows(rows));
    var t := NormRows(rows);
    forall i | 0 <= i < |TextRows(t)| ensures NormalText(TextRows(t)[i].text) {
      assert TextRows(t)[i].text == t[i] && t[i] in t;
    }
  }

  /** `submit`'s checks in their order: a blank name first, then no ingredient, then no
      step; the first failure wins, and otherwise the payload is accepted. */
  function Validate(st: FormState): (c: Checked)
    ensures c == Rejected(NameRequired) <==> AllSpace(st.name)
    ensures c == Rejected(IngredientRequired) <==>
      !AllSpace(st.name) && forall i :: 0 <= i < |st.ingredients| ==> AllSpace(st.ingredients[i].text)
    ensures c == Rejected(StepRequired) <==>
      && !AllSpace(st.name)
      && (exists i :: 0 <= i < |st.ingredients| && !AllSpace(st.ingredients[i].text))
      && (forall i :: 0 <= i < |st.steps| ==> AllSpace(st.steps[i].text))
    ensures c.Accepted? ==>
      && c.payload.name != "" && c.payload.ingredients != [] && c.payload.steps != []
      && (forall i :: 0 <= i < |c.payload.ingredients| ==> c.payload.ingredients[i].id == None)
      && (forall i :: 0 <= i < |c.payload.steps| ==> c.payload.steps[i].id == None)
      && (c.payload.imageUrl == None <==> AllSpace(st.imageUrl))
    ensures c.Accepted? ==>
      && (forall i :: 0 <= i < |c.payload.ingredients| ==> NormalText(c.payload.ingredients[i].text))
      && (forall i :: 0 <= i < |c.payload.steps| ==> NormalText(c.payload.steps[i].text))
  {
    TrimSpec(st.name);
    TrimSpec(st.imageUrl);
    NormRowsEmpty(st.ingredients);
    NormRowsEmpty(st.steps);
    PayloadRowsNormal(st.ingredients);
    PayloadRowsNormal(st.steps);
    if Trim(st.name) == "" then Rejected(NameRequired)
    else if NormRows(st.ingredients) == [] then Rejected(IngredientRequired)
    else if NormRows(st.steps) == [] then Rejected(StepRequired)
    else Accepted(PayloadOf(st))
  }

  /** The baseline a successful submit records: the payload with an absent image as "". */
  function SnapshotOf(d: Draft): Snapshot
  {
    Snapshot(d.name, d.recipeType, ImageOrEmpty(d.imageUrl), Texts(d.ingredients), Texts(d.steps))
  }

  /** The baseline recorded after a submit equals the normalised form, so the form is clean. */
  lemma SubmittedSnapshot(st: FormState)
    ensures SnapshotOf(PayloadOf(st)) == Normalize(st)
  {
    TextsOfTextRows(NormRows(st.ingredients));
    TextsOfTextRows(NormRows(st.steps));
  }

  /** The patch `update` receives when an edit is saved: every payload field, `imageUrl`
      included even when it is absent (which clears the stored image). */
  function PatchOf(d: Draft): RecipeStore.Patch
  {
    RecipeStore.Patch(RecipeStore.Keep, RecipeStore.Set(d.name), RecipeStore.Set(d.recipeType),
                      RecipeStore.Set(d.imageUrl), RecipeStore.Set(d.ingredients),
                      RecipeStore.Set(d.steps), RecipeStore.Keep, RecipeStore.Keep)
  }

  /** Saving an edit keeps the record's id and creation time and replaces its contents
      with the payload. */
  lemma EditKeepsIdentity(r: Recipe, d: Draft, now: int)
    ensures RecipeStore.Overlay(r, PatchOf(d), now)
      == Recipe(r.id, d.name, d.recipeType, d.imageUrl, d.ingredients, d.steps, r.createdAt, now)
  {
  }

  /** A recipe saved through the form and loaded again opens clean. */
  lemma SavedThenLoadedClean(st: FormState, r: Recipe, ingredientId: string, stepId: string)
    requires Validate(st).Accepted?
    requires var d := PayloadOf(st);
      r.name == d.name && r.imageUrl == d.imageUrl && r.ingredients == d.ingredients && r.steps == d.steps
    ensures !Dirty(LoadedBaseline(r), LoadedState(r, ingredientId, stepId))
  {
    TrimIdempotent(st.name);
    TrimIdempotent(st.imageUrl);
    LoadedClean(r, ingredientId, stepId);
  }

  // ---------------------------------------------------------------------------
  // Row editors

  /** `addRow`: one blank row with a fresh id at the end. */
  function AppendBlank(rows: seq<Row>, id: string): seq<Row>
  {
    rows + [Row(Some(id), "")]
  }

  /** `setRow`: the `map` that gives every row with the id the new text. */
  function SetText(rows: seq<Row>, id: Option<string>, text: string): seq<Row>
  {
    if rows == [] then []
    else [if rows[0].id == id then rows[0].(text := text) else rows[0]] + SetText(rows[1..], id, text)
  }

  /** `removeRow`: the `filter` that drops every row with the id. */
  function DropRows(rows: seq<Row>, id: Option<string>): seq<Row>
  {
    Filter(rows, (x: Row) => x.id != id)
  }

  /** `setRow` keeps the length and the ids, changes the text of the rows with the id and
      leaves the others alone. */
  lemma {:induction false} SetTextPointwise(rows: seq<Row>, id: Option<string>, text: string)
    ensures |SetText(rows, id, text)| == |rows|
    ensures forall i :: 0 <= i < |rows| ==>
      SetText(rows, id, text)[i] == (if rows[i].id == id then Row(id, text) else rows[i])
  {
    if rows != [] {
      SetTextPointwise(rows[1..], id, text);
      var r := SetText(rows, id, text);
      forall i | 0 < i < |rows|
        ensures r[i] == (if rows[i].id == id then Row(id, text) else rows[i])
      {
        assert r[i] == SetText(rows[1..], id, text)[i - 1];
      }
    }
  }

  /** Rows saved by a submission carry no id, so they all share the absent id: the edit
      of any one of them sets the text of all of them. */
  lemma IdlessRowsEditTogether(texts: seq<string>, k: nat, text: string)
    requires k < |texts|
    ensures var rows := TextRows(texts);
      SetText(rows, rows[k].id, text) == TextRows(seq(|texts|, i => text))
  {
    SetTextPointwise(TextRows(texts), None, text);
  }

  /** On id-less rows every row matches the absent id, so removing any one of them
      removes them all. */
  lemma IdlessRowsRemoveTogether(texts: seq<string>)
    ensures DropRows(TextRows(texts), None) == []
  {
    DropRowsSpec(TextRows(texts), None);
  }

  /** With distinct ids, editing row k changes row k alone. */
  lemma DistinctIdsEditOne(rows: seq<Row>, k: nat, text: string)
    requires k < |rows|
    requires forall i, j :: 0 <= i < j < |rows| ==> rows[i].id != rows[j].id
    ensures SetText(rows, rows[k].id, text) == rows[k := rows[k].(text := text)]
  {
    SetTextPointwise(rows, rows[k].id, text);
  }

  /** `removeRow` keeps exactly the rows with another id, in their order. */
  lemma DropRowsSpec(rows: seq<Row>, id: Option<string>)
    ensures forall r :: r in DropRows(rows, id) <==> r in rows && r.id != id
    ensures SubseqOf(DropRows(rows, id), rows)
    ensures |DropRows(rows, id)| == |rows| - Count(rows, (x: Row) => x.id == id)
  {
    FilterIsSubseq(rows, (x: Row) => x.id != id);
    FilterCount(rows, (x: Row) => x.id != id, (x: Row) => x.id == id);
  }

  // ---------------------------------------------------------------------------
  // The screen

  /** The screen's state: the form fields, the saving flag, the discard sheet, the
      baseline ref and the pending-navigation ref. Navigation the screen performs is
      recorded in `dispatched` (resumed actions) and `wentBack` (the `goBack` of a submit).

      `dirty` is the memoised `isDirty`. It is recomputed only when `normalized` is, that
      is when one of the five fields takes a new value; a write to the baseline ref alone
      leaves it as it was. `IsDirty()` is the same comparison evaluated now. */
  class Form {
    const editingId: Option<string>
    const defaultType: string
    var name: string
    var recipeType: string
    var imageUrl: string
    var ingredients: seq<Row>
    var steps: seq<Row>
    var isSaving: bool
    var showDiscardSheet: bool
    var baseline: Baseline
    var dirty: bool
    var pending: Option<NavAction>
    var dispatched: seq<NavAction>
    var wentBack: bool

    function State(): FormState
      reads this
    {
      FormState(name, recipeType, imageUrl, ingredients, steps)
    }

    /** `editingId` is truthy: present and not the empty string. */
    predicate Editing()
    {
      editingId.Some? && editingId.value != ""
    }

    /** The fields differ from the baseline now. */
    predicate IsDirty()
      reads this
    {
      Dirty(baseline, State())
    }

    /** `prevent`: leaving is intercepted while the memoised flag is set and not saving. */
    predicate Prevent()
      reads this
    {
      dirty && !isSaving
    }

    /** The guard the dirty check is evidently meant to give: intercept while the fields
        differ from the baseline now and not saving. */
    predicate IntendedPrevent()
      reads this
    {
      IsDirty() && !isSaving
    }

    /** The initial render: empty fields, the first type, one blank row in each list. The
        first comparison is against the empty ref, so the memoised flag starts set. */
    constructor (editingId: Option<string>, types: seq<string>, ingredientId: string, stepId: string)
      requires types != []
      ensures this.editingId == editingId && defaultType == types[0]
      ensures State() == FormState("", types[0], "", [Row(Some(ingredientId), "")], [Row(Some(stepId), "")])
      ensures baseline == Unset && dirty && dirty == IsDirty()
      ensures pending == None && dispatched == []
      ensures !isSaving && !showDiscardSheet && !wentBack
    {
      this.editingId := editingId;
      defaultType := types[0];
      name, recipeType, imageUrl := "", types[0], "";
      ingredients := [Row(Some(ingredientId), "")];
      steps := [Row(Some(stepId), "")];
      isSaving, showDiscardSheet := false, false;
      baseline := Unset;
      dirty := true;
      pending := None;
      dispatched := [];
      wentBack := false;
    }

    /** The load effect. A new recipe takes the empty baseline and sets no field, so the
        memoised flag keeps its value. An edited recipe that the store finds fills the
        form and takes its baseline in one batch, and the flag is recomputed against it.
        One the store does not find leaves everything as it was. */
    method Load(store: RecipeStore.Store, ingredientId: string, stepId: string)
      modifies this
      ensures !Editing() ==> State() == old(State()) && baseline == NewBaseline(defaultType) && dirty == old(dirty)
      ensures Editing() ==> match RecipeStore.FindById(store.Contents(), editingId.value)
        case None => State() == old(State()) && baseline == old(baseline) && dirty == old(dirty)
        case Some(r) =>
          State() == LoadedState(r, ingredientId, stepId) && baseline == LoadedBaseline(r) && dirty == IsDirty()
      ensures isSaving == old(isSaving) && showDiscardSheet == old(showDiscardSheet)
      ensures pending == old(pending) && dispatched == old(dispatched) && wentBack == old(wentBack)
    {
      if Editing() {
        var found := store.Get(editingId.value);
        if found.Some? {
          Fill(found.value, ingredientId, stepId);
        }
      } else {
        baseline := NewBaseline(defaultType);
      }
    }

    /** The found branch of the load effect: the fields from the record (an empty row
        list shown as one blank row), the load baseline, and in the same batch the
        memoised flag recomputed against that baseline. */
    method Fill(r: Recipe, ingredientId: string, stepId: string)
      modifies this`name, this`recipeType, this`imageUrl, this`ingredients, this`steps, this`baseline, this`dirty
      ensures State() == LoadedState(r, ingredientId, stepId) && baseline == LoadedBaseline(r)
      ensures dirty == IsDirty()
    {
      name := r.name;
      recipeType := r.recipeType;
      imageUrl := ImageOrEmpty(r.imageUrl);
      ingredients := LoadedRows(r.ingredients, ingredientId);
      steps := LoadedRows(r.steps, stepId);
      baseline := LoadedBaseline(r);
      dirty := IsDirty();
    }

    /** Typing in the name field. Setting the value it already has renders nothing new. */
    method SetName(s: string)
      modifies this`name, this`dirty
      ensures name == s
      ensures dirty == if s != old(name) then IsDirty() else old(dirty)
    {
      if s != name {
        name := s;
        dirty := IsDirty();
      }
    }

    /** Pressing a type chip. */
    method SetType(t: string)
      modifies this`recipeType, this`dirty
      ensures recipeType == t
      ensures dirty == if t != old(recipeType) then IsDirty() else old(dirty)
    {
      if t != recipeType {
        recipeType := t;
        dirty := IsDirty();
      }
    }

    /** A picked image's URI, or "" for `removeImage`. */
    method SetImageUrl(u: string)
      modifies this`imageUrl, this`dirty
      ensures imageUrl == u
      ensures dirty == if u != old(imageUrl) then IsDirty() else old(dirty)
    {
      if u != imageUrl {
        imageUrl := u;
        dirty := IsDirty();
      }
    }

    /** `addRow`: append one blank row with the fresh id `id` to the chosen list. The
        row helpers always build a new array, so the flag is always recomputed. */
    method AddRow(kind: RowKind, id: string)
      modifies this`ingredients, this`steps, this`dirty
      ensures kind == IngredientRows ==> ingredients == AppendBlank(old(ingredients), id) && steps == old(steps)
      ensures kind == StepRows ==> steps == AppendBlank(old(steps), id) && ingredients == old(ingredients)
      ensures dirty == IsDirty()
    {
      match kind {
        case IngredientRows => ingredients := AppendBlank(ingredients, id);
        case StepRows => steps := AppendBlank(steps, id);
      }
      dirty := IsDirty();
    }

    /** `setRow`: give every row of the chosen list whose id is `id` the text. */
    method SetRow(kind: RowKind, id: Option<string>, text: string)
      modifies this`ingredients, this`steps, this`dirty
      ensures kind == IngredientRows ==> ingredients == SetText(old(ingredients), id, text) && steps == old(steps)
      ensures kind == StepRows ==> steps == SetText(old(steps), id, text) && ingredients == old(ingredients)
      ensures dirty == IsDirty()
    {
      match kind {
        case IngredientRows => ingredients := SetText(ingredients, id, text);
        case StepRows => steps := SetText(steps, id, text);
      }
      dirty := IsDirty();
    }

    /** `removeRow`: drop every row of the chosen list whose id is `id`. */
    method RemoveRow(kind: RowKind, id: Option<string>)
      modifies this`ingredients, this`steps, this`dirty
      ensures kind == IngredientRows ==> ingredients == DropRows(old(ingredients), id) && steps == old(steps)
      ensures kind == StepRows ==> steps == DropRows(old(steps), id) && ingredients == old(ingredients)
      ensures dirty == IsDirty()
    {
      match kind {
        case IngredientRows => ingredients := DropRows(ingredients, id);
        case StepRows => steps := DropRows(steps, id);
      }
      dirty := IsDirty();
    }

    /** A navigation attempt away from the screen. When `Prevent()` holds it is held
        back: the latest action replaces any earlier pending one and the sheet shows.
        Otherwise it proceeds and nothing here changes. */
    method BeforeRemove(action: NavAction) returns (blocked: bool)
      modifies this`pending, this`showDiscardSheet
      ensures blocked == old(Prevent())
      ensures blocked ==> pending == Some(action) && showDiscardSheet
      ensures !blocked ==> pending == old(pending) && showDiscardSheet == old(showDiscardSheet)
    {
      blocked := Prevent();
      if blocked {
        if !isSaving {
          pending := Some(action);
          showDiscardSheet := true;
        }
      }
    }

    /** `confirmDiscard`: hide the sheet, clear the pending action and resume it if there was one. */
    method ConfirmDiscard()
      modifies this`showDiscardSheet, this`pending, this`dispatched
      ensures !showDiscardSheet && pending == None
      ensures dispatched == old(dispatched) + (if old(pending).Some? then [old(pending).value] else [])
    {
      showDiscardSheet := false;
      var action := pending;
      pending := None;
      if action.Some? {
        dispatched := dispatched + [action.value];
      }
    }

    /** `cancelDiscard`: clear the pending action and hide the sheet; nothing is resumed. */
    method CancelDiscard()
      modifies this`showDiscardSheet, this`pending
      ensures !showDiscardSheet && pending == None
    {
      pending := None;
      showDiscardSheet := false;
    }

    /** `submit`. A rejected form changes nothing and the store is not called. An accepted
        one sets `isSaving`, calls `update` when editing and `add` otherwise (with the
        fresh id and the two clock readings), records the payload as the new baseline
        and goes back. The baseline write alone does not refresh the memoised flag, so it
        is the saving flag that lifts the guard for the `goBack`. */
    method Submit(store: RecipeStore.Store, newId: string, t1: int, t2: int) returns (c: Checked)
      modifies this`isSaving, this`baseline, this`wentBack, store
      ensures c == Validate(old(State()))
      ensures c.Rejected? ==>
        store.slot == old(store.slot) && baseline == old(baseline) && isSaving == old(isSaving) && wentBack == old(wentBack)
      ensures c.Accepted? ==> c.payload == PayloadOf(State()) && isSaving && wentBack
      ensures c.Accepted? && Editing() ==>
        store.slot == RecipeStore.Parsed(RecipeStore.UpdateById(old(store.Contents()), editingId.value, PatchOf(c.payload), t1))
      ensures c.Accepted? && !Editing() ==>
        store.slot == RecipeStore.Parsed([RecipeStore.Stamp(c.payload, newId, t1, t2)] + old(store.Contents()))
      ensures c.Accepted? ==> baseline == Taken(Normalize(State())) && !IsDirty() && !IntendedPrevent()
      ensures c.Accepted? ==> dirty == old(dirty) && !Prevent()
    {
      c := Validate(State());
      if c.Rejected? {
        return;
      }
      isSaving := true;
      Persist(store, c.payload, newId, t1, t2);
      SubmittedSnapshot(State());
      baseline := Taken(SnapshotOf(c.payload));
      wentBack := true;
    }

    /** The store call of `submit`: `update` with the payload as the patch when editing,
        `add` of the payload otherwise. */
    method Persist(store: RecipeStore.Store, d: Draft, newId: string, t1: int, t2: int)
      modifies store
      ensures Editing() ==>
        store.slot == RecipeStore.Parsed(RecipeStore.UpdateById(old(store.Contents()), editingId.value, PatchOf(d), t1))
      ensures !Editing() ==>
        store.slot == RecipeStore.Parsed([RecipeStore.Stamp(d, newId, t1, t2)] + old(store.Contents()))
    {
      if Editing() {
        store.Update(editingId.value, PatchOf(d), t1);
      } else {
        var rec := store.Add(d, newId, t1, t2);
      }
    }

    /** The timer at the end of `submit` clears the saving flag; the guard is then the
        memoised flag again. */
    method SavingSettled()
      modifies this`isSaving
      ensures !isSaving && (Prevent() <==> dirty)
    {
      isSaving := false;
    }
  }

  /** An empty store and a new-recipe form after its load effect. */
  method OpenNewForm(types: seq<string>) returns (store: RecipeStore.Store, form: Form)
    requires types != []
    ensures fresh(store) && fresh(form) && store.slot == RecipeStore.Absent
    ensures !form.Editing() && !form.isSaving && form.dirty
    ensures form.State() == FormState("", types[0], "", [Row(Some("i1"), "")], [Row(Some("s1"), "")])
    ensures form.baseline == NewBaseline(types[0])
  {
    store := new RecipeStore.Store(RecipeStore.Absent);
    form := new Form(None, types, "i1", "s1");
    form.Load(store, "i2", "s2");
  }

  /** The new-recipe form with the name "Tacos" typed. */
  method TacosNamed(types: seq<string>) returns (store: RecipeStore.Store, form: Form)
    requires types != []
    ensures fresh(store) && fresh(form) && store.slot == RecipeStore.Absent
    ensures !form.Editing() && !form.isSaving
    ensures form.State() == FormState("Tacos", types[0], "", [Row(Some("i1"), "")], [Row(Some("s1"), "")])
  {
    store, form := OpenNewForm(types);
    form.SetName("Tacos");
  }

  /** ... and the ingredient "Beef" typed into the blank ingredient row. */
  method TacosWithIngredient(types: seq<string>) returns (store: RecipeStore.Store, form: Form)
    requires types != []
    ensures fresh(store) && fresh(form) && store.slot == RecipeStore.Absent
    ensures !form.Editing() && !form.isSaving
    ensures form.State() == FormState("Tacos", types[0], "", [Row(Some("i1"), "Beef")], [Row(Some("s1"), "")])
  {
    store, form := TacosNamed(types);
    form.SetRow(IngredientRows, Some("i1"), "Beef");
    assert form.ingredients == [Row(Some("i1"), "Beef")];
  }

  /** ... and the step "Cook" typed into the blank step row. */
  method TacosForm(types: seq<string>) returns (store: RecipeStore.Store, form: Form)
    requires types != []
    ensures fresh(store) && fresh(form) && store.slot == RecipeStore.Absent
    ensures !form.Editing() && !form.isSaving
    ensures form.State() == FormState("Tacos", types[0], "", [Row(Some("i1"), "Beef")], [Row(Some("s1"), "Cook")])
  {
    store, form := TacosWithIngredient(types);
    form.SetRow(StepRows, Some("s1"), "Cook");
    assert form.steps == [Row(Some("s1"), "Cook")];
  }

  /** Creating "Tacos" with one ingredient and one step: the payload, one `add`, and a
      form that may then be left without a prompt. */
  method CreateScenario(types: seq<string>) returns (c: Checked, stored: seq<Recipe>, guarded: bool)
    requires types != []
    ensures c == Accepted(Draft("Tacos", types[0], None, [Row(None, "Beef")], [Row(None, "Cook")]))
    ensures stored == [Recipe("r1", "Tacos", types[0], None, [Row(None, "Beef")], [Row(None, "Cook")], 100, 101)]
    ensures !guarded
  {
    var store, form := TacosForm(types);
    var payload := Draft("Tacos", types[0], None, [Row(None, "Beef")], [Row(None, "Cook")]);
    assert Validate(form.State()) == Accepted(payload) by {
      TrimOfTrimmed("Tacos");
      TrimOfTrimmed("Beef");
      TrimOfTrimmed("Cook");
      TrimOfTrimmed("");
      assert [Row(Some("i1"), "Beef")][1..] == [] && [Row(Some("s1"), "Cook")][1..] == [];
      assert NormRows(form.ingredients) == ["Beef"] && NormRows(form.steps) == ["Cook"];
      assert PayloadOf(form.State()) == payload;
    }
    c := form.Submit(store, "r1", 100, 101);
    stored := store.GetAll();
    guarded := form.Prevent();
  }

  /** A blank name is rejected with its message and the store is left alone. */
  method RejectScenario(types: seq<string>) returns (c: Checked, slot: RecipeStore.Slot)
    requires types != []
    ensures c == Rejected(NameRequired) && c.error.Message() == "Recipe name is required."
    ensures slot == RecipeStore.Absent
  {
    var store, form := OpenNewForm(types);
    c := form.Submit(store, "r1", 100, 101);
    slot := store.slot;
  }

  /** A new recipe opened and left untouched: the load sets no field, so the memoised
      flag keeps the first render's comparison with the empty ref, and leaving is
      intercepted although every field equals the baseline. */
  method StaleGuardScenario(types: seq<string>) returns (blocked: bool, differs: bool)
    requires types != []
    ensures blocked && !differs
  {
    var store, form := OpenNewForm(types);
    NewFormExamples(types[0], [Row(Some("i1"), "")], [Row(Some("s1"), "")]);
    differs := form.IsDirty();
    blocked := form.BeforeRemove(NavAction("back"));
  }

  /** The same form under the intended guard: untouched it may be left, and once a name
      is typed it is intercepted. */
  method FreshGuardScenario(types: seq<string>) returns (untouched: bool, named: bool)
    requires types != []
    ensures !untouched && named
  {
    var store, form := OpenNewForm(types);
    NewFormExamples(types[0], [Row(Some("i1"), "")], [Row(Some("s1"), "")]);
    untouched := form.IntendedPrevent();
    form.SetName("Soup");
    named := form.IntendedPrevent();
  }
}
