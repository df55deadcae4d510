/**
 * The recipe detail page, frontend/src/pages/RecipeDetail.jsx: standardising
 * the fetched record, choosing and filtering related recipes, the ingredient
 * text, the saved/reviewed tests and the review-submit guard, plus the page's
 * fetch and review-submit handlers as state transitions.
 *
 * The context members the page reads but the provider does not define
 * (`user`, `saveRecipe`, `isRecipeInFavorites`) are inputs.
 */
module RecipeDetail {
  import opened JsBuiltins
  import opened RecipeJson

  /** A reference in `user.savedRecipes`: a bare id, or a populated document with `_id`. */
  datatype SavedRef = SavedId(refId: string) | SavedDoc(refDocId: Option<string>)

  /** The logged-in user the page reads from the context. */
  datatype ClientUser = ClientUser(userId: string, token: string, savedRecipes: Option<seq<SavedRef>>)

  // ---------------------------------------------------------------------
  // Standardisation of fetched records
  // ---------------------------------------------------------------------

  /** What the page can rely on after standardising a community document. */
  predicate CommunityShaped(r: RecipeDoc)
  {
    && r.isCommunity == Some(true)
    && NumTruthy(r.cookingTimeSnake)
    && Truthy(r.difficulty)
    && r.tags.List? && r.reviews.List? && r.ingredients.List? && r.instructions.List?
  }

  const DefaultCookingTime := 30.0
  const DefaultDifficulty := "Medium"

  /** `data.cookingTime || data.cooking_time || 30`. */
  function CommunityCookingTime(data: RecipeDoc): (r: real)
    ensures r != 0.0
    ensures NumTruthy(data.cookingTime) ==> r == data.cookingTime.value
    ensures !NumTruthy(data.cookingTime) && NumTruthy(data.cookingTimeSnake) ==> r == data.cookingTimeSnake.value
    ensures !NumTruthy(data.cookingTime) && !NumTruthy(data.cookingTimeSnake) ==> r == DefaultCookingTime
  {
    if NumTruthy(data.cookingTime) then data.cookingTime.value
    else if NumTruthy(data.cookingTimeSnake) then data.cookingTimeSnake.value
    else DefaultCookingTime
  }

  /** The record built from a community document: the document spread, with these fields overridden. */
  function StandardizeCommunity(data: RecipeDoc): (r: RecipeDoc)
    ensures CommunityShaped(r)
    ensures r.docId == data.docId && r.image == data.image && r.title == data.title
    ensures r.publisher == data.publisher && r.sourceUrl == data.sourceUrl
    ensures r.cookingTimeSnake == Some(CommunityCookingTime(data))
    ensures r.difficulty == Some(OrElse(data.difficulty, DefaultDifficulty))
    ensures r.tags == List(ArrayOrEmpty(data.tags)) && r.reviews == List(ArrayOrEmpty(data.reviews))
    ensures r.ingredients == List(ArrayOrEmpty(data.ingredients))
    ensures r.instructions == List(ArrayOrEmpty(data.instructions))
  {
    data.(
      isCommunity := Some(true),
      cookingTimeSnake := Some(CommunityCookingTime(data)),
      difficulty := Some(OrElse(data.difficulty, DefaultDifficulty)),
      tags := List(ArrayOrEmpty(data.tags)),
      reviews := List(ArrayOrEmpty(data.reviews)),
      ingredients := List(ArrayOrEmpty(data.ingredients)),
      instructions := List(ArrayOrEmpty(data.instructions)))
  }

  /** The falsy cooking time 0 is not kept: it falls through to `cooking_time`, then to 30. */
  lemma ZeroCookingTimeFallsThrough(data: RecipeDoc)
    requires data.cookingTime == Some(0.0)
    ensures StandardizeCommunity(data).cookingTimeSnake ==
              Some(if NumTruthy(data.cookingTimeSnake) then data.cookingTimeSnake.value else 30.0)
  {
  }

  /** `{ quantity, unit, description }` of one Forkify ingredient (a string has none of the three). */
  function Projected(ing: Ingredient): (r: Ingredient)
    ensures r.IngObject?
    ensures ing.IngObject? ==> r == ing
  {
    match ing
    case IngObject(q, u, d) => IngObject(q, u, d)
    case IngText(_) => IngObject(None, None, None)
  }

  function ProjectAll(ings: seq<Ingredient>): (r: seq<Ingredient>)
    ensures |r| == |ings|
    ensures forall i :: 0 <= i < |ings| ==> r[i] == Projected(ings[i])
  {
    if ings == [] then [] else [Projected(ings[0])] + ProjectAll(ings[1..])
  }

  /**
   * The record built from a Forkify recipe; `ingredients.map` throws when
   * the field is not an array.
   */
  function StandardizeForkify(api: RecipeDoc): (r: Result<RecipeDoc, string>)
    ensures r.Ok? <==> api.ingredients.List?
    ensures r.Ok? ==> r.value.isCommunity == Some(false) && r.value.docId == api.id && r.value.id == api.id
    ensures r.Ok? ==> r.value.image == api.imageUrl && r.value.cookingTimeSnake == api.cookingTimeSnake
    ensures r.Ok? ==> r.value.title == api.title && r.value.publisher == api.publisher && r.value.sourceUrl == api.sourceUrl
    ensures r.Ok? ==> r.value.difficulty == Some(OrElse(api.difficulty, DefaultDifficulty))
    ensures r.Ok? ==> r.value.tags == OrEmpty(api.tags) && r.value.reviews == OrEmpty(api.reviews)
    ensures r.Ok? ==> r.value.ingredients == List(ProjectAll(api.ingredients.items))
    ensures r.Ok? ==> forall i :: 0 <= i < |api.ingredients.items| ==> r.value.ingredients.items[i].IngObject?
  {
    if !api.ingredients.List? then Err("ingredients.map is not a function")
    else
      Ok(api.(
        docId := api.id,
        isCommunity := Some(false),
        image := api.imageUrl,
        cookingTimeSnake := api.cookingTimeSnake,
        difficulty := Some(OrElse(api.difficulty, DefaultDifficulty)),
        tags := OrEmpty(api.tags),
        reviews := OrEmpty(api.reviews),
        ingredients := List(ProjectAll(api.ingredients.items))))
  }

  /** Standardising an already standardised community record changes nothing. */
  lemma StandardizeCommunityIdempotent(data: RecipeDoc)
    ensures StandardizeCommunity(StandardizeCommunity(data)) == StandardizeCommunity(data)
  {
    var once := StandardizeCommunity(data);
    assert CommunityCookingTime(once) == CommunityCookingTime(data);
  }

  // ---------------------------------------------------------------------
  // Ingredient text
  // ---------------------------------------------------------------------

  /**
   * `${quantity || ''} ${unit || ''} ${description || ''}`.trim() for an
   * object; a string is shown as it is.
   */
  function DetailIngredientText(ing: Ingredient, show: real -> string): string
  {
    match ing
    case IngText(s) => s
    case IngObject(q, u, d) => SpacedText(QuantityText(q, show), OrElse(u, ""), OrElse(d, ""))
  }

  /** `${a} ${b} ${c}`.trim(). */
  function SpacedText(a: string, b: string, c: string): string
  {
    Trim(a + " " + b + " " + c)
  }

  /** With all three parts present, the text is the three parts separated by single spaces. */
  lemma DetailTextOfFullIngredient(q: real, u: string, d: string, show: real -> string)
    requires q != 0.0 && show(q) != "" && Trimmed(show(q))
    requires u != "" && Trimmed(u) && d != "" && Trimmed(d)
    ensures DetailIngredientText(IngObject(Some(q), Some(u), Some(d)), show) == show(q) + " " + u + " " + d
  {
    assert DetailIngredientText(IngObject(Some(q), Some(u), Some(d)), show) == SpacedText(show(q), u, d);
    TrimOfSpacedParts(show(q), u, d);
  }

  /** A missing unit leaves two spaces between the quantity and the description. */
  lemma DetailTextKeepsInnerDoubleSpace(q: real, d: string, show: real -> string)
    requires q != 0.0 && show(q) != "" && Trimmed(show(q))
    requires d != "" && Trimmed(d)
    ensures DetailIngredientText(IngObject(Some(q), None, Some(d)), show) == show(q) + "  " + d
  {
    assert DetailIngredientText(IngObject(Some(q), None, Some(d)), show) == SpacedText(show(q), "", d);
    SpacedTextWithoutMiddle(show(q), d);
  }

  /** With an empty middle part, the two separating spaces stay side by side. */
  lemma SpacedTextWithoutMiddle(a: string, c: string)
    requires a != [] && Trimmed(a) && c != [] && Trimmed(c)
    ensures SpacedText(a, "", c) == a + "  " + c
  {
    TrimOfSpacedParts(a, "", c);
    SpacesMeet(a, c);
  }

  lemma SpacesMeet(a: string, c: string)
    ensures a + " " + "" + " " + c == a + "  " + c
  {
    assert (a + " " + "" + " " + c)[..|a| + 2] == a + "  ";
  }

  /** Three parts joined by single spaces, the outer two trimmed and non-empty, are left alone by `trim`. */
  lemma TrimOfSpacedParts(a: string, b: string, c: string)
    requires a != [] && Trimmed(a) && c != [] && Trimmed(c)
    ensures SpacedText(a, b, c) == a + " " + b + " " + c
  {
    var s := a + " " + b + " " + c;
    assert s[0] == a[0] && s[|s| - 1] == c[|c| - 1];
    TrimOfTrimmed(s);
  }

  // ---------------------------------------------------------------------
  // Related recipes
  // ---------------------------------------------------------------------

  /**
   * The tags `fetchRelatedRecipes` works with: a non-empty string is split
   * on commas and each piece trimmed; an array is used as it is; anything
   * falsy gives no tags.
   */
  function RecipeTags(tags: JsList<string>): (r: seq<string>)
    ensures tags.List? ==> r == tags.items
    ensures tags.Absent? || tags == Text("") ==> r == []
    ensures tags.Text? && tags.text != "" ==>
              |r| == |Split(tags.text, ',')| >= 1 &&
              forall i :: 0 <= i < |r| ==> r[i] == Trim(Split(tags.text, ',')[i])
  {
    match tags
    case List(xs) => xs
    case Absent => []
    case Text(s) => if s == "" then [] else TrimAll(Split(s, ','))
  }

  function TrimAll(parts: seq<string>): (r: seq<string>)
    ensures |r| == |parts|
    ensures forall i :: 0 <= i < |parts| ==> r[i] == Trim(parts[i])
  {
    if parts == [] then [] else [Trim(parts[0])] + TrimAll(parts[1..])
  }

  /** The filter of the related-recipes query. */
  datatype RelatedQuery = ByTag(tag: string) | ByDifficulty(difficulty: string) | Unfiltered

  /** Where related recipes come from: the community list with a filter, or a Forkify search by title. */
  datatype RelatedSource = CommunitySearch(query: RelatedQuery) | ForkifySearch(title: Option<string>)

  /** The first tag if there is one, else the difficulty, else no filter. */
  function RelatedQueryOf(current: RecipeDoc): (r: RelatedQuery)
    ensures |RecipeTags(current.tags)| > 0 ==> r == ByTag(RecipeTags(current.tags)[0])
    ensures |RecipeTags(current.tags)| == 0 && Truthy(current.difficulty) ==> r == ByDifficulty(current.difficulty.value)
    ensures |RecipeTags(current.tags)| == 0 && !Truthy(current.difficulty) ==> r == Unfiltered
  {
    var tags := RecipeTags(current.tags);
    if |tags| > 0 then ByTag(tags[0])
    else if Truthy(current.difficulty) then ByDifficulty(current.difficulty.value)
    else Unfiltered
  }

  /** `if (currentRecipe._id)`: a record with a truthy `_id` is matched against the community list. */
  function RelatedSourceOf(current: RecipeDoc): (r: RelatedSource)
    ensures r.CommunitySearch? <==> Truthy(current.docId)
    ensures r.CommunitySearch? ==> r.query == RelatedQueryOf(current)
  {
    if Truthy(current.docId) then CommunitySearch(RelatedQueryOf(current)) else ForkifySearch(current.title)
  }

  /** A non-empty tag string always yields a tag, so the difficulty is never used for it. */
  lemma StringTagsAlwaysFilterByTag(current: RecipeDoc)
    requires current.tags.Text? && current.tags.text != ""
    ensures RelatedQueryOf(current) == ByTag(Trim(Split(current.tags.text, ',')[0]))
  {
  }

  /**
   * Because standardisation copies `id` into `_id`, a Forkify recipe with
   * an id also takes the community branch of the related-recipes fetch.
   */
  lemma ForkifyRecordsSearchCommunity(api: RecipeDoc)
    requires Truthy(api.id) && api.ingredients.List?
    ensures RelatedSourceOf(StandardizeForkify(api).value).CommunitySearch?
  {
  }

  /** The items of `data` whose `key` differs from `current`, in order. */
  function Unrelated(data: seq<RecipeDoc>, key: RecipeDoc -> Option<string>, current: Option<string>): (r: seq<RecipeDoc>)
    ensures forall i :: 0 <= i < |r| ==> key(r[i]) != current
    ensures forall i :: 0 <= i < |data| && key(data[i]) != current ==> data[i] in r
    ensures Subsequence(r, data)
    ensures forall x :: Count(r, x) == if key(x) != current then Count(data, x) else 0
  {
    var keep := (x: RecipeDoc) => key(x) != current;
    FilterIsSubsequence(data, keep);
    FilterCount(data, keep);
    Filter(data, keep)
  }

  const RelatedLimit := 3

  /** `.filter(item => key(item) !== current).slice(0, 3)`. */
  function RelatedBy(data: seq<RecipeDoc>, key: RecipeDoc -> Option<string>, current: Option<string>): (r: seq<RecipeDoc>)
    ensures |r| == if |Unrelated(data, key, current)| < RelatedLimit then |Unrelated(data, key, current)| else RelatedLimit
    ensures forall i :: 0 <= i < |r| ==> key(r[i]) != current
    ensures Subsequence(r, data)
    ensures r == Unrelated(data, key, current)[..|r|]
    ensures |r| < RelatedLimit ==> forall i :: 0 <= i < |data| && key(data[i]) != current ==> data[i] in r
  {
    var all := Unrelated(data, key, current);
    var r := Take(all, RelatedLimit);
    SubsequencePrefix(all, data, |r|);
    r
  }

  function DocIdOf(x: RecipeDoc): Option<string> { x.docId }
  function ForkifyIdOf(x: RecipeDoc): Option<string> { x.id }

  /** Related community recipes: the first three (or all, if fewer) whose `_id` is not the current one, in server order. */
  function RelatedCommunity(data: seq<RecipeDoc>, current: RecipeDoc): (r: seq<RecipeDoc>)
    ensures |r| == if |Unrelated(data, DocIdOf, current.docId)| < RelatedLimit then |Unrelated(data, DocIdOf, current.docId)| else RelatedLimit
    ensures r == Unrelated(data, DocIdOf, current.docId)[..|r|]
    ensures Subsequence(r, data)
    ensures forall i :: 0 <= i < |r| ==> r[i].docId != current.docId
    ensures |r| < RelatedLimit ==> forall i :: 0 <= i < |data| && data[i].docId != current.docId ==> data[i] in r
  {
    RelatedBy(data, DocIdOf, current.docId)
  }

  /** Related Forkify results: the first three (or all, if fewer) whose `id` is not the current one, in search order. */
  function RelatedForkify(data: seq<RecipeDoc>, current: RecipeDoc): (r: seq<RecipeDoc>)
    ensures |r| == if |Unrelated(data, ForkifyIdOf, current.id)| < RelatedLimit then |Unrelated(data, ForkifyIdOf, current.id)| else RelatedLimit
    ensures r == Unrelated(data, ForkifyIdOf, current.id)[..|r|]
    ensures Subsequence(r, data)
    ensures forall i :: 0 <= i < |r| ==> r[i].id != current.id
    ensures |r| < RelatedLimit ==> forall i :: 0 <= i < |data| && data[i].id != current.id ==> data[i] in r
  {
    RelatedBy(data, ForkifyIdOf, current.id)
  }

  // ---------------------------------------------------------------------
  // Saved and reviewed tests, the review form and its guard
  // ---------------------------------------------------------------------

  /** `reviews.some(review => review.user === userId)`. */
  function SomeReviewBy(reviews: seq<ReviewDoc>, userId: string): bool
  {
    if reviews == [] then false
    else reviews[0].user == Some(userId) || SomeReviewBy(reviews[1..], userId)
  }

  /** `user && recipe?.reviews?.some(review => review.user === user._id)`. */
  function HasReviewed(user: Option<ClientUser>, recipe: Option<RecipeDoc>): bool
  {
    && user.Some? && recipe.Some? && recipe.value.reviews.List?
    && SomeReviewBy(recipe.value.reviews.items, user.value.userId)
  }

  lemma {:induction false} SomeReviewByIff(reviews: seq<ReviewDoc>, userId: string)
    ensures SomeReviewBy(reviews, userId) <==> exists i :: 0 <= i < |reviews| && reviews[i].user == Some(userId)
  {
    if reviews != [] {
      SomeReviewByIff(reviews[1..], userId);
      if SomeReviewBy(reviews[1..], userId) {
        var i :| 0 <= i < |reviews[1..]| && reviews[1..][i].user == Some(userId);
        assert reviews[i + 1].user == Some(userId);
      }
      if exists i :: 0 <= i < |reviews| && reviews[i].user == Some(userId) {
        var i :| 0 <= i < |reviews| && reviews[i].user == Some(userId);
        if i > 0 {
          assert reviews[1..][i - 1].user == Some(userId);
        }
      }
    }
  }

  /** The user has reviewed the recipe exactly when one of its reviews carries the user's id. */
  lemma HasReviewedIff(user: ClientUser, recipe: RecipeDoc)
    requires recipe.reviews.List?
    ensures HasReviewed(Some(user), Some(recipe)) <==>
              exists i :: 0 <= i < |recipe.reviews.items| && recipe.reviews.items[i].user == Some(user.userId)
  {
    SomeReviewByIff(recipe.reviews.items, user.userId);
  }

  /** `recipe.source_url || recipe.publisher`: the record came from Forkify. */
  predicate IsExternal(recipe: RecipeDoc)
  {
    Truthy(recipe.sourceUrl) || Truthy(recipe.publisher)
  }

  /** The review form is rendered only for community records, to a logged-in user who has not reviewed. */
  predicate ReviewFormShown(user: Option<ClientUser>, recipe: RecipeDoc)
  {
    !IsExternal(recipe) && Truthy(recipe.docId) && user.Some? && !HasReviewed(user, Some(recipe))
  }

  /** For a community record and a logged-in user, the form is shown exactly when the user has not reviewed. */
  lemma ReviewFormIffNotReviewed(user: ClientUser, recipe: RecipeDoc)
    requires !IsExternal(recipe) && Truthy(recipe.docId)
    ensures ReviewFormShown(Some(user), recipe) <==> !HasReviewed(Some(user), Some(recipe))
  {
  }

  /** Once a review by the user is in the record, the form is no longer shown. */
  lemma {:induction false} OwnReviewHidesForm(user: ClientUser, recipe: RecipeDoc, review: ReviewDoc)
    requires recipe.reviews.List? && review.user == Some(user.userId)
    ensures !ReviewFormShown(Some(user), recipe.(reviews := List(recipe.reviews.items + [review])))
  {
    var items := recipe.reviews.items + [review];
    SomeReviewByIff(items, user.userId);
    assert items[|items| - 1].user == Some(user.userId);
  }

  /** `user?.savedRecipes?.some(savedId => savedId === id || savedId._id === id)`. */
  function SomeSaved(refs: seq<SavedRef>, id: string): bool
  {
    if refs == [] then false
    else (refs[0] == SavedId(id) || refs[0] == SavedDoc(Some(id))) || SomeSaved(refs[1..], id)
  }

  /**
   * `isSaved`: the route id is among the user's saved references (bare or
   * populated), or the favourites test, an input, accepts `recipe?._id || id`.
   */
  function IsSaved(user: Option<ClientUser>, id: string, recipe: Option<RecipeDoc>, inFavorites: string -> bool): (r: bool)
    ensures r <==> (user.Some? && user.value.savedRecipes.Some?
                    && (SavedRef.SavedId(id) in user.value.savedRecipes.value
                        || SavedRef.SavedDoc(Some(id)) in user.value.savedRecipes.value))
                   || inFavorites(if recipe.Some? && Truthy(recipe.value.docId) then recipe.value.docId.value else id)
  {
    SomeSavedHas(if user.Some? && user.value.savedRecipes.Some? then user.value.savedRecipes.value else [], id);
    (user.Some? && user.value.savedRecipes.Some? && SomeSaved(user.value.savedRecipes.value, id))
    || inFavorites(if recipe.Some? && Truthy(recipe.value.docId) then recipe.value.docId.value else id)
  }

  lemma {:induction false} SomeSavedHas(refs: seq<SavedRef>, id: string)
    ensures SomeSaved(refs, id) <==> SavedId(id) in refs || SavedDoc(Some(id)) in refs
  {
    if refs != [] {
      SomeSavedHas(refs[1..], id);
      assert refs == [refs[0]] + refs[1..];
    }
  }

  /** The request `handleReviewSubmit` sends. */
  datatype ReviewRequest = ReviewRequest(recipeId: Option<string>, authorization: string, rating: int, text: string)

  /** The decision `handleReviewSubmit` takes before any request. */
  datatype ReviewGate = ToLogin | Refused(message: string) | Send(request: ReviewRequest)

  const RatingRequired := "Please select a rating"
  const CommunityOnly := "Reviews can only be submitted for community recipes, not external recipes."

  function ReviewGateOf(user: Option<ClientUser>, rating: int, text: string, recipe: RecipeDoc): (g: ReviewGate)
    ensures user.None? ==> g == ToLogin
    ensures user.Some? && rating == 0 ==> g == Refused(RatingRequired)
    ensures user.Some? && rating != 0 && IsExternal(recipe) ==> g == Refused(CommunityOnly)
    ensures g.Send? <==> user.Some? && rating != 0 && !IsExternal(recipe)
    ensures g.Send? ==> g.request == ReviewRequest(recipe.docId, "Bearer " + user.value.token, rating, text)
  {
    if user.None? then ToLogin
    else if rating == 0 then Refused(RatingRequired)
    else if IsExternal(recipe) then Refused(CommunityOnly)
    else Send(ReviewRequest(recipe.docId, "Bearer " + user.value.token, rating, text))
  }

  /** The reply to the review request. */
  datatype ReviewReply =
    | ReviewThrew(message: string)
    | ReviewRejected(error: Option<string>)
    | ReviewAccepted(recipe: Option<RecipeDoc>)

  const CommunityLoadError := "Failed to load community recipe. Please try again later."
  const ForkifyLoadError := "Failed to load recipe. Please try again later."

  /** `data.data.recipe`, when the envelope has it. */
  function EnvelopeRecipe(body: Envelope): Option<RecipeDoc>
  {
    if body.data.Some? then body.data.value.recipe else None
  }

  /**
   * What `fetchRecipe` ends with: the standardised record, or the message
   * the outer `catch` stores (every inner failure is rethrown with one
   * generic message per source).
   */
  function LoadDetail(id: string, community: string -> Reply<RecipeDoc>, forkify: string -> Reply<Envelope>): Result<RecipeDoc, string>
  {
    match RouteOf(id)
    case CommunityRoute(cid) =>
      var reply := community(cid);
      if reply.Threw? || !reply.ok then Err(CommunityLoadError)
      else Ok(StandardizeCommunity(reply.body))
    case ForkifyRoute(fid) =>
      var reply := forkify(fid);
      if reply.Threw? || !reply.ok || EnvelopeRecipe(reply.body).None? then Err(ForkifyLoadError)
      else match StandardizeForkify(EnvelopeRecipe(reply.body).value)
        case Err(_) => Err(ForkifyLoadError)
        case Ok(r) => Ok(r)
  }

  /**
   * A community id loads through the community endpoint and gives a
   * community record; any other id either gives a Forkify record or the
   * Forkify message. "Recipe not found" never reaches the page.
   */
  lemma LoadDetailOutcomes(id: string, community: string -> Reply<RecipeDoc>, forkify: string -> Reply<Envelope>)
    ensures StartsWith(id, CommunityPrefix) ==>
              match LoadDetail(id, community, forkify)
              case Ok(r) => CommunityShaped(r)
              case Err(m) => m == CommunityLoadError
    ensures !StartsWith(id, CommunityPrefix) ==>
              match LoadDetail(id, community, forkify)
              case Ok(r) => r.isCommunity == Some(false)
              case Err(m) => m == ForkifyLoadError
  {
  }

  /** The state of one rendered detail page. */
  class DetailPage {
    var recipe: Option<RecipeDoc>
    var loading: bool
    var error: Option<string>
    var reviewText: string
    var rating: int
    var isSubmittingReview: bool
    var reviewError: Option<string>
    /** The last `navigate` target, if any. */
    var location: Option<string>

    constructor ()
      ensures recipe == None && loading && error == None && reviewText == "" && rating == 0
      ensures !isSubmittingReview && reviewError == None && location == None
    {
      recipe, loading, error, reviewText, rating := None, true, None, "", 0;
      isSubmittingReview, reviewError, location := false, None, None;
    }

    /** `fetchRecipe` for the route parameter `id`; the two endpoints' replies are inputs. */
    method FetchRecipe(id: string, community: string -> Reply<RecipeDoc>, forkify: string -> Reply<Envelope>)
      modifies this`recipe, this`loading, this`error
      ensures !loading
      ensures LoadDetail(id, community, forkify).Ok? ==>
                recipe == Some(LoadDetail(id, community, forkify).value) && error == None
      ensures LoadDetail(id, community, forkify).Err? ==>
                recipe == old(recipe) && error == Some(LoadDetail(id, community, forkify).error)
    {
      loading := true;
      error := None;
      match RouteOf(id) {
        case CommunityRoute(cid) =>
          var reply := community(cid);
          if reply.Threw? || !reply.ok {
            error := Some(CommunityLoadError);
          } else {
            recipe := Some(StandardizeCommunity(reply.body));
          }
        case ForkifyRoute(fid) =>
          var reply := forkify(fid);
          if reply.Threw? || !reply.ok || EnvelopeRecipe(reply.body).None? {
            error := Some(ForkifyLoadError);
          } else {
            var standardized := StandardizeForkify(EnvelopeRecipe(reply.body).value);
            if standardized.Err? {
              error := Some(ForkifyLoadError);
            } else {
              recipe := Some(standardized.value);
            }
          }
      }
      loading := false;
    }

    /**
     * `handleReviewSubmit` for the current form fields; returns the request it
     * sends, if any, and `reply` is that request's outcome.
     */
    method HandleReviewSubmit(user: Option<ClientUser>, reply: ReviewReply) returns (sent: Option<ReviewRequest>)
      requires recipe.Some?
      modifies this`location, this`reviewError, this`isSubmittingReview, this`recipe, this`reviewText, this`rating
      ensures var g := ReviewGateOf(user, old(rating), old(reviewText), old(recipe).value);
              && (g.Send? <==> sent.Some?)
              && (g.Send? ==> sent.value == g.request)
              && (g == ToLogin ==> location == Some("/login") && reviewError == old(reviewError))
              && (g.Refused? ==> reviewError == Some(g.message) && location == old(location))
              && (!g.Send? ==> recipe == old(recipe) && rating == old(rating) && reviewText == old(reviewText))
              && (!g.Send? ==> isSubmittingReview == old(isSubmittingReview))
      ensures sent.Some? ==> !isSubmittingReview && location == old(location)
      ensures sent.Some? && reply.ReviewAccepted? ==>
                recipe == reply.recipe && reviewText == "" && rating == 0 && reviewError == None
      ensures sent.Some? && reply.ReviewRejected? ==>
                reviewError == Some(OrElse(reply.error, "Failed to submit review")) && recipe == old(recipe)
      ensures sent.Some? && reply.ReviewThrew? ==>
                reviewError == Some(reply.message) && recipe == old(recipe)
    {
      sent := None;
      var gate := ReviewGateOf(user, rating, reviewText, recipe.value);
      match gate {
        case ToLogin =>
          location := Some("/login");
        case Refused(message) =>
          reviewError := Some(message);
        case Send(request) =>
          isSubmittingReview := true;
          reviewError := None;
          sent := Some(request);
          match reply {
            case ReviewThrew(message) =>
              reviewError := Some(message);
            case ReviewRejected(err) =>
              reviewError := Some(OrElse(err, "Failed to submit review"));
            case ReviewAccepted(updated) =>
              recipe := updated;
              reviewText := "";
              rating := 0;
          }
          isSubmittingReview := false;
      }
    }
  }
}
