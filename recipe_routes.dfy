/**
 * The community recipe routes of backend/routes/recipeRoutes.js over an
 * in-memory table of stored recipes: `GET /community` answers the whole
 * table, and `POST /community` builds a document from the request body,
 * validates it against the schema of backend/models/CommunityRecipe.js and
 * stores it.
 *
 * As written, the handler never sets the required `user`, so every POST is
 * rejected; the table's `PostCommunity` takes the id of the submitting
 * user as a parameter instead, with `None` giving the behaviour as written.
 */
module RecipeRoutes {
  import opened JsBuiltins
  import opened RecipeJson
  import opened CommunityRecipe

  /** A JSON request body: any of the recipe's fields, each possibly missing. */
  datatype PostBody = PostBody(
    title: Option<string>,
    ingredients: JsList<string>,
    instructions: JsList<string>,
    image: Option<string>,
    cookingTime: Option<real>,
    servings: Option<real>,
    difficulty: Option<string>,
    tags: JsList<string>,
    rating: Option<real>,
    user: Option<string>)

  /** Casting a value to an array of strings: an array stays, a single string is wrapped, a missing one stays undefined. */
  function CastStrings(x: JsList<string>): (r: Option<seq<string>>)
    ensures x.Absent? <==> r.None?
    ensures x.List? ==> r == Some(x.items)
    ensures x.Text? ==> r == Some([x.text])
  {
    match x
    case Absent => None
    case List(items) => Some(items)
    case Text(s) => Some([s])
  }

  /**
   * The document `new CommunityRecipe({ title, ingredients, instructions, user })`:
   * only the three destructured fields come from the body, and `user` is
   * the submitting user's id.
   */
  function DraftFromBody(body: PostBody, owner: Option<string>): (d: Draft)
    ensures d.title == body.title && d.user == owner
    ensures d.ingredients == CastStrings(body.ingredients) && d.instructions == CastStrings(body.instructions)
    ensures d.image.None? && d.cookingTime.None? && d.servings.None? && d.difficulty.None?
    ensures d.tags.None? && d.rating.None?
  {
    Draft(body.title, CastStrings(body.ingredients), CastStrings(body.instructions),
          None, None, None, None, None, None, owner)
  }

  /** The document the handler builds as written: the same three fields and no `user`. */
  function DraftFromBodyAsWritten(body: PostBody): (d: Draft)
    ensures d == DraftFromBody(body, None)
  {
    Draft(body.title, CastStrings(body.ingredients), CastStrings(body.instructions),
          None, None, None, None, None, None, None)
  }

  /** As written, no request body whatsoever gets a recipe stored: `user` is always missing. */
  lemma EveryPostRejectedAsWritten(id: string, body: PostBody)
    ensures Validate(id, DraftFromBodyAsWritten(body)).Err?
    ensures "user" in Validate(id, DraftFromBodyAsWritten(body)).error
  {
    UserIsRequired(id, DraftFromBodyAsWritten(body));
  }

  /** Fields of the body other than the three are ignored, including a `user` the client sends. */
  lemma PostIgnoresOtherFields(b1: PostBody, b2: PostBody, owner: Option<string>)
    requires b1.title == b2.title && b1.ingredients == b2.ingredients && b1.instructions == b2.instructions
    ensures DraftFromBody(b1, owner) == DraftFromBody(b2, owner)
  {
  }

  /** With an owner, a titled body is stored with every other field at its default. */
  lemma TitledPostStoredWithDefaults(id: string, body: PostBody, owner: string)
    requires Truthy(body.title)
    ensures Validate(id, DraftFromBody(body, Some(owner))) ==
            Ok(Recipe(id, body.title.value,
                      CastStrings(body.ingredients).GetOr([]), CastStrings(body.instructions).GetOr([]),
                      DefaultImage, DefaultCookingTime, DefaultServings, Medium, [], DefaultRating, [], owner))
  {
    DefaultsApplied(id, body.title.value, CastStrings(body.ingredients), CastStrings(body.instructions), owner);
  }

  /** A body without a title, or with an empty one, is rejected whoever submits it. */
  lemma UntitledPostRejected(id: string, body: PostBody, owner: Option<string>)
    requires !Truthy(body.title)
    ensures Validate(id, DraftFromBody(body, owner)).Err?
    ensures "title" in Validate(id, DraftFromBody(body, owner)).error
  {
  }

  /** What a route answers. */
  datatype Body = Listing(recipes: seq<Recipe>) | Stored(recipe: Recipe) | Failure(error: string)
  datatype Reply = Reply(status: nat, body: Body)

  const SubmitFailed := "Failed to submit recipe"

  /** The `CommunityRecipe` collection. */
  class RecipeTable {
    var recipes: seq<Recipe>

    /** Every stored recipe passed the schema, and no two share an id. */
    predicate Valid()
      reads this
    {
      && (forall i :: 0 <= i < |recipes| ==> WellFormed(recipes[i]))
      && (forall i, j :: 0 <= i < j < |recipes| ==> recipes[i].id != recipes[j].id)
    }

    constructor ()
      ensures recipes == [] && Valid()
    {
      recipes := [];
    }

    /** `GET /community`: every stored recipe, in table order. */
    method ListCommunity() returns (reply: Reply)
      ensures reply == Reply(200, Listing(recipes))
    {
      reply := Reply(200, Listing(recipes));
    }

    /**
     * `POST /community` from the user `owner` (`None` as written), with the
     * fresh document id `newId`: 201 with the stored recipe, or 500 with
     * nothing stored.
     */
    method PostCommunity(body: PostBody, owner: Option<string>, newId: string) returns (reply: Reply)
      requires Valid()
      requires forall i :: 0 <= i < |recipes| ==> recipes[i].id != newId
      modifies this
      ensures Valid()
      ensures Validate(newId, DraftFromBody(body, owner)).Ok? ==>
                && reply == Reply(201, Stored(Validate(newId, DraftFromBody(body, owner)).value))
                && recipes == old(recipes) + [reply.body.recipe]
      ensures Validate(newId, DraftFromBody(body, owner)).Err? ==>
                reply == Reply(500, Failure(SubmitFailed)) && recipes == old(recipes)
    {
      var doc := DraftFromBody(body, owner);
      var saved := Validate(newId, doc);
      if saved.Err? {
        return Reply(500, Failure(SubmitFailed));
      }
      ValidatedIsWellFormed(newId, doc);
      recipes := recipes + [saved.value];
      reply := Reply(201, Stored(saved.value));
    }
  }
}
