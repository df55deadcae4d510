/**
 * The community recipe document of backend/models/CommunityRecipe.js: the
 * stored record, the draft a request builds, and the schema's casting of a
 * draft into a stored record (defaults, the `difficulty` enum, the bounds
 * on `rating`, and the required `title` and `user`).
 *
 * Ids are opaque strings; review timestamps are not modelled.
 */
module CommunityRecipe {
  import opened JsBuiltins

  datatype Difficulty = Easy | Medium | Hard

  /** The `enum` validator of `difficulty`. */
  function DifficultyOf(s: string): (r: Option<Difficulty>)
    ensures r.Some? <==> s in {"Easy", "Medium", "Hard"}
    ensures s == "Easy" ==> r == Some(Easy)
    ensures s == "Medium" ==> r == Some(Medium)
    ensures s == "Hard" ==> r == Some(Hard)
  {
    if s == "Easy" then Some(Easy)
    else if s == "Medium" then Some(Medium)
    else if s == "Hard" then Some(Hard)
    else None
  }

  /** An embedded review; `user` is the reviewer's id. */
  datatype Review = Review(text: Option<string>, rating: Option<real>, user: Option<string>, username: Option<string>)

  /** A stored community recipe. */
  datatype Recipe = Recipe(
    id: string,
    title: string,
    ingredients: seq<string>,
    instructions: seq<string>,
    image: string,
    cookingTime: real,
    servings: real,
    difficulty: Difficulty,
    tags: seq<string>,
    rating: real,
    reviews: seq<Review>,
    user: string)

  /** The fields given to `new CommunityRecipe(...)`; `None` is a field left undefined. */
  datatype Draft = Draft(
    title: Option<string>,
    ingredients: Option<seq<string>>,
    instructions: Option<seq<string>>,
    image: Option<string>,
    cookingTime: Option<real>,
    servings: Option<real>,
    difficulty: Option<string>,
    tags: Option<seq<string>>,
    rating: Option<real>,
    user: Option<string>)

  const DefaultImage := ""
  const DefaultCookingTime := 30.0
  const DefaultServings := 4.0
  const DefaultRating := 0.0
  const MinRating := 0.0
  const MaxRating := 5.0

  /** What every stored recipe satisfies. */
  predicate WellFormed(r: Recipe)
  {
    r.title != "" && MinRating <= r.rating <= MaxRating
  }

  /** The paths whose validators fail, in schema order. */
  function Failures(d: Draft): (r: seq<string>)
    ensures r == [] <==>
              && d.title.Some? && d.title.value != ""
              && (d.difficulty.Some? ==> DifficultyOf(d.difficulty.value).Some?)
              && (d.rating.Some? ==> MinRating <= d.rating.value <= MaxRating)
              && d.user.Some?
  {
    (if d.title.None? || d.title.value == "" then ["title"] else [])
    + (if d.difficulty.Some? && DifficultyOf(d.difficulty.value).None? then ["difficulty"] else [])
    + (if d.rating.Some? && !(MinRating <= d.rating.value <= MaxRating) then ["rating"] else [])
    + (if d.user.None? then ["user"] else [])
  }

  /**
   * Casting and validating a draft: every undefined field takes its
   * default (arrays default to `[]`, which `required` accepts), and the
   * document is rejected with the failing paths when a validator fails.
   */
  function Validate(id: string, d: Draft): (r: Result<Recipe, seq<string>>)
    ensures r.Err? <==> Failures(d) != []
    ensures r.Err? ==> r.error == Failures(d)
    ensures r.Ok? ==> r.value.id == id && Some(r.value.title) == d.title && Some(r.value.user) == d.user
    ensures r.Ok? ==> r.value.reviews == []
  {
    if Failures(d) != [] then Err(Failures(d))
    else Ok(Recipe(
      id,
      d.title.value,
      d.ingredients.GetOr([]),
      d.instructions.GetOr([]),
      d.image.GetOr(DefaultImage),
      d.cookingTime.GetOr(DefaultCookingTime),
      d.servings.GetOr(DefaultServings),
      if d.difficulty.Some? then DifficultyOf(d.difficulty.value).value else Medium,
      d.tags.GetOr([]),
      d.rating.GetOr(DefaultRating),
      [],
      d.user.value))
  }

  /** Every record the schema accepts is well formed. */
  lemma ValidatedIsWellFormed(id: string, d: Draft)
    requires Validate(id, d).Ok?
    ensures WellFormed(Validate(id, d).value)
  {
  }

  /** A draft with only the required fields gets every default. */
  lemma DefaultsApplied(id: string, title: string, ingredients: Option<seq<string>>, instructions: Option<seq<string>>, user: string)
    requires title != ""
    ensures Validate(id, Draft(Some(title), ingredients, instructions, None, None, None, None, None, None, Some(user)))
            == Ok(Recipe(id, title, ingredients.GetOr([]), instructions.GetOr([]), "", 30.0, 4.0, Medium, [], 0.0, [], user))
  {
  }

  /** A draft without a user is always rejected, whatever its other fields. */
  lemma UserIsRequired(id: string, d: Draft)
    requires d.user.None?
    ensures Validate(id, d) == Err(Failures(d)) && "user" in Failures(d)
  {
  }
}
