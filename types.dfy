/** The record shapes of the recipe collection (src/type.ts). */
module Types {

  datatype Option<+T> = None | Some(value: T)

  /** An ingredient or a step row. Rows made by the form editors carry an id;
      rows written by a form submission carry only `{text}`, so the id is optional. */
  datatype Row = Row(id: Option<string>, text: string)

  /** One persisted recipe. `recipeType` is the record's `type` field, renamed because
      `type` is a Dafny keyword; it is a free-form label, not checked against the
      category list. Timestamps are milliseconds. */
  datatype Recipe = Recipe(
    id: string,
    name: string,
    recipeType: string,
    imageUrl: Option<string>,
    ingredients: seq<Row>,
    steps: seq<Row>,
    createdAt: int,
    updatedAt: int)

  /** The argument of `add`: a recipe without its id and its timestamps. */
  datatype Draft = Draft(
    name: string,
    recipeType: string,
    imageUrl: Option<string>,
    ingredients: seq<Row>,
    steps: seq<Row>)
}
