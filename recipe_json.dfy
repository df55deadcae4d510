/**
 * The JSON records the frontend receives: community recipe documents from the
 * application's own API and recipes from the Forkify search API, both as one
 * record type whose fields may be missing, plus the fetch replies that carry
 * them and the `community_` id routing the two recipe pages share.
 *
 * JavaScript truthiness is modelled explicitly: a missing field is `None`,
 * and the empty string and the number 0 are falsy as well.
 */
module RecipeJson {
  import opened JsBuiltins

  /** A field expected to hold an array: it may be missing (or null), an array, or a string. */
  datatype JsList<T> = Absent | List(items: seq<T>) | Text(text: string)

  /** An ingredient: a plain string (community recipes) or an object (Forkify recipes). */
  datatype Ingredient =
    | IngText(text: string)
    | IngObject(quantity: Option<real>, unit: Option<string>, description: Option<string>)

  /** An embedded review as the API returns it; `user` is the reviewer's id. */
  datatype ReviewDoc = ReviewDoc(user: Option<string>, rating: Option<real>, text: Option<string>)

  /**
   * A recipe record. `docId` is the field `_id` of community documents,
   * `recipeId` the field `recipe_id` some favourites carry; the other
   * fields keep their JSON names in camel case.
   */
  datatype RecipeDoc = RecipeDoc(
    docId: Option<string>,
    id: Option<string>,
    recipeId: Option<string>,
    title: Option<string>,
    image: Option<string>,
    imageUrl: Option<string>,
    publisher: Option<string>,
    sourceUrl: Option<string>,
    cookingTime: Option<real>,
    cookingTimeSnake: Option<real>,
    servings: Option<real>,
    difficulty: Option<string>,
    isCommunity: Option<bool>,
    tags: JsList<string>,
    reviews: JsList<ReviewDoc>,
    ingredients: JsList<Ingredient>,
    instructions: JsList<string>)

  /** The Forkify envelope `{ data: { recipe } }` or `{ data: { recipes } }`. */
  datatype EnvelopeData = EnvelopeData(recipe: Option<RecipeDoc>, recipes: Option<seq<RecipeDoc>>)
  datatype Envelope = Envelope(data: Option<EnvelopeData>)

  /**
   * What `fetch(url)` followed by `response.json()` produces: a rejection
   * (network failure or a body that is not JSON) with its message, or a
   * response with its `ok` flag and parsed body.
   */
  datatype Reply<T> = Threw(message: string) | Response(ok: bool, body: T)

  /** A string field is truthy when present and non-empty. */
  predicate Truthy(o: Option<string>)
  {
    o.Some? && o.value != ""
  }

  /** A number field is truthy when present and not 0. */
  predicate NumTruthy(o: Option<real>)
  {
    o.Some? && o.value != 0.0
  }

  /** `o || d` for a string field. */
  function OrElse(o: Option<string>, d: string): (r: string)
    ensures Truthy(o) ==> r == o.value
    ensures !Truthy(o) ==> r == d
  {
    if Truthy(o) then o.value else d
  }

  /** `x || []` for an array field: a falsy value (missing, or the empty string) becomes `[]`. */
  function OrEmpty<T>(x: JsList<T>): (r: JsList<T>)
    ensures r != Absent && r != Text("")
    ensures x.List? ==> r == x
  {
    match x
    case Absent => List([])
    case Text(s) => if s == "" then List([]) else x
    case List(_) => x
  }

  /** `Array.isArray(x) ? x : []`. */
  function ArrayOrEmpty<T>(x: JsList<T>): (r: seq<T>)
    ensures x.List? ==> r == x.items
    ensures !x.List? ==> r == []
  {
    if x.List? then x.items else []
  }

  // ---------------------------------------------------------------------
  // Routing on the `community_` prefix (RecipeDetail.jsx and RecipeItem.jsx)
  // ---------------------------------------------------------------------

  const CommunityPrefix := "community_"

  /** Which endpoint a recipe page fetches for the route parameter `id`. */
  datatype Route = CommunityRoute(communityId: string) | ForkifyRoute(recipeId: string)

  /**
   * `id.startsWith('community_')` picks the community endpoint with
   * `id.replace('community_', '')`; every other id goes to Forkify unchanged.
   */
  function RouteOf(id: string): (r: Route)
    ensures StartsWith(id, CommunityPrefix) ==> r == CommunityRoute(id[|CommunityPrefix|..])
    ensures !StartsWith(id, CommunityPrefix) ==> r == ForkifyRoute(id)
  {
    if StartsWith(id, CommunityPrefix) then
      ReplacePrefix(CommunityPrefix, id[|CommunityPrefix|..]);
      assert CommunityPrefix + id[|CommunityPrefix|..] == id;
      CommunityRoute(ReplaceFirst(id, CommunityPrefix, ""))
    else ForkifyRoute(id)
  }

  /** A community link built from a document id routes back to that id. */
  lemma RouteRoundTrip(docId: string)
    ensures RouteOf(CommunityPrefix + docId) == CommunityRoute(docId)
  {
    assert StartsWith(CommunityPrefix + docId, CommunityPrefix);
    assert (CommunityPrefix + docId)[|CommunityPrefix|..] == docId;
  }

  // ---------------------------------------------------------------------
  // Ingredient text (shared pieces of the two formatters)
  // ---------------------------------------------------------------------

  /** `q || ''` for a quantity, written with the number-to-text conversion `show`. */
  function QuantityText(q: Option<real>, show: real -> string): (r: string)
    ensures NumTruthy(q) ==> r == show(q.value)
    ensures !NumTruthy(q) ==> r == ""
  {
    if NumTruthy(q) then show(q.value) else ""
  }
}
