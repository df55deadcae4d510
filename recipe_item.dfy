/**
 * The recipe page of frontend/src/pages/RecipeItem.jsx: the fetch by route
 * id (the same `community_` routing as the detail page, but without any
 * standardisation), the ingredient formatter that builds its text with
 * successive `+=`, and the favourite test behind the star button.
 */
module RecipeItem {
  import opened JsBuiltins
  import opened RecipeJson
  import opened GlobalState
  import opened RecipeDetail

  // ---------------------------------------------------------------------
  // Ingredient text
  // ---------------------------------------------------------------------

  /**
   * The truthy parts among quantity, unit and description, in that order.
   * A string ingredient has none of the three fields.
   */
  function ItemParts(ing: Ingredient, show: real -> string): (r: seq<string>)
    ensures |r| <= 3
    ensures ing.IngText? ==> r == []
  {
    match ing
    case IngText(_) => []
    case IngObject(q, u, d) =>
      (if NumTruthy(q) then [show(q.value)] else [])
      + (if Truthy(u) then [u.value] else [])
      + (if Truthy(d) then [d.value] else [])
  }

  /** The text the formatter yields: the truthy parts joined by single spaces, then trimmed. */
  function ItemIngredientText(ing: Ingredient, show: real -> string): string
  {
    Trim(Join(ItemParts(ing, show), ' '))
  }

  /** The `map` callback of lines 86-91: append each truthy part, then trim. */
  method FormatIngredient(ing: Ingredient, show: real -> string) returns (text: string)
    ensures text == ItemIngredientText(ing, show)
  {
    var q, u, d := None, None, None;
    if ing.IngObject? {
      q, u, d := ing.quantity, ing.unit, ing.description;
    }
    var ingText := "";
    // The parts appended so far; every one of them is followed by a space.
    ghost var front: seq<string> := [];
    if NumTruthy(q) {
      ingText := ingText + show(q.value) + " ";
      front := [show(q.value)];
    }
    if Truthy(u) {
      if front != [] {
        JoinSnoc(front, u.value, ' ');
      }
      ingText := ingText + u.value + " ";
      front := front + [u.value];
    }
    assert front == [] ==> ingText == "";
    assert front != [] ==> ingText == Join(front, ' ') + [' '];
    assert ItemParts(ing, show) == front + (if Truthy(d) then [d.value] else []);
    ghost var parts := ItemParts(ing, show);
    if Truthy(d) {
      if front != [] {
        JoinSnoc(front, d.value, ' ');
      }
      ingText := ingText + d.value;
      assert ingText == Join(parts, ' ');
    } else if front != [] {
      TrimDropsTrailingSpace(Join(front, ' '), ' ');
      assert Trim(ingText) == Trim(Join(parts, ' '));
    } else {
      assert ingText == Join(parts, ' ');
    }
    text := Trim(ingText);
  }

  /** A string ingredient has no quantity, unit or description, so it is shown as "". */
  lemma StringIngredientShowsEmpty(s: string, show: real -> string)
    ensures ItemIngredientText(IngText(s), show) == ""
  {
    assert Join(ItemParts(IngText(s), show), ' ') == "";
  }

  /** A quantity of 0 is falsy and is dropped as if it were missing. */
  lemma ZeroQuantityDropped(u: Option<string>, d: Option<string>, show: real -> string)
    ensures ItemIngredientText(IngObject(Some(0.0), u, d), show) == ItemIngredientText(IngObject(None, u, d), show)
  {
    var rest := (if Truthy(u) then [u.value] else []) + (if Truthy(d) then [d.value] else []);
    assert ItemParts(IngObject(Some(0.0), u, d), show) == [] + rest;
    assert ItemParts(IngObject(None, u, d), show) == [] + rest;
  }

  /** `a` and `b` with one space between them, or whichever of them is non-empty. */
  function SpaceJoin(a: string, b: string): string
  {
    if a == "" then b else if b == "" then a else a + " " + b
  }

  /** The one-element list of a non-empty part, or nothing. */
  function Present(a: string): seq<string>
  {
    if a == "" then [] else [a]
  }

  /**
   * Whichever of quantity, unit and description are missing, the text is
   * the present ones with exactly one space between neighbours and none at
   * either end, provided each present part has no white space at its ends.
   */
  lemma ItemTextSingleSpaced(q: Option<real>, u: Option<string>, d: Option<string>, show: real -> string)
    requires NumTruthy(q) ==> show(q.value) != "" && Trimmed(show(q.value))
    requires u.Some? ==> Trimmed(u.value)
    requires d.Some? ==> Trimmed(d.value)
    ensures ItemIngredientText(IngObject(q, u, d), show)
            == SpaceJoin(SpaceJoin(QuantityText(q, show), OrElse(u, "")), OrElse(d, ""))
  {
    var a, b, c := QuantityText(q, show), OrElse(u, ""), OrElse(d, "");
    assert ItemParts(IngObject(q, u, d), show) == Present(a) + Present(b) + Present(c);
    JoinOfPresent(a, b, c);
    SpaceJoinTrimmed(a, b);
    SpaceJoinTrimmed(SpaceJoin(a, b), c);
    TrimOfTrimmed(SpaceJoin(SpaceJoin(a, b), c));
  }

  lemma JoinOfPresent(a: string, b: string, c: string)
    ensures Join(Present(a) + Present(b) + Present(c), ' ') == SpaceJoin(SpaceJoin(a, b), c)
  {
    var ab := Present(a) + Present(b);
    if a != "" && b != "" {
      assert ab == [a] + [b];
      JoinSnoc([a], b, ' ');
    } else if a != "" {
      assert ab == [a];
    } else if b != "" {
      assert ab == [b];
    } else {
      assert ab == [];
    }
    assert Join(ab, ' ') == SpaceJoin(a, b);
    if c != "" {
      if ab != [] {
        assert ab + Present(c) == ab + [c];
        JoinSnoc(ab, c, ' ');
      } else {
        assert ab + Present(c) == [c];
      }
    } else {
      assert ab + Present(c) == ab;
    }
  }

  lemma SpaceJoinTrimmed(a: string, b: string)
    requires Trimmed(a) && Trimmed(b)
    ensures Trimmed(SpaceJoin(a, b))
  {
    if a != "" && b != "" {
      var s := a + " " + b;
      assert s[0] == a[0] && s[|s| - 1] == b[|b| - 1];
    }
  }

  /** A missing unit adds no extra space: quantity and description are separated by one space. */
  lemma MissingUnitSingleSpace(q: real, d: string, show: real -> string)
    requires q != 0.0 && show(q) != "" && Trimmed(show(q))
    requires d != "" && Trimmed(d)
    ensures ItemIngredientText(IngObject(Some(q), None, Some(d)), show) == show(q) + " " + d
  {
    var s := show(q) + " " + d;
    assert ItemParts(IngObject(Some(q), None, Some(d)), show) == [show(q), d];
    assert Join([show(q), d], ' ') == s;
    assert s[0] == show(q)[0] && s[|s| - 1] == d[|d| - 1];
    TrimOfTrimmed(s);
  }

  /**
   * The two pages' formatters disagree on an ingredient without a unit:
   * the detail page keeps a double space where this one has a single one.
   */
  lemma FormattersDisagreeWithoutUnit(q: real, d: string, show: real -> string)
    requires q != 0.0 && show(q) != "" && Trimmed(show(q))
    requires d != "" && Trimmed(d)
    ensures ItemIngredientText(IngObject(Some(q), None, Some(d)), show)
            != DetailIngredientText(IngObject(Some(q), None, Some(d)), show)
  {
    MissingUnitSingleSpace(q, d, show);
    DetailTextKeepsInnerDoubleSpace(q, d, show);
    assert |show(q) + " " + d| != |show(q) + "  " + d|;
  }

  /** With all three parts present and trimmed, the two formatters agree. */
  lemma FormattersAgreeOnFullIngredient(q: real, u: string, d: string, show: real -> string)
    requires q != 0.0 && show(q) != "" && Trimmed(show(q))
    requires u != "" && Trimmed(u) && d != "" && Trimmed(d)
    ensures ItemIngredientText(IngObject(Some(q), Some(u), Some(d)), show)
            == DetailIngredientText(IngObject(Some(q), Some(u), Some(d)), show)
  {
    var s := show(q) + " " + u + " " + d;
    assert ItemParts(IngObject(Some(q), Some(u), Some(d)), show) == [show(q), u, d];
    JoinSnoc([show(q)], u, ' ');
    JoinSnoc([show(q), u], d, ' ');
    assert [show(q), u] + [d] == [show(q), u, d];
    assert Join([show(q), u, d], ' ') == s;
    assert s[0] == show(q)[0] && s[|s| - 1] == d[|d| - 1];
    TrimOfTrimmed(s);
    DetailTextOfFullIngredient(q, u, d, show);
  }

  /**
   * `recipe.ingredients?.map(...) || []`: a missing list gives no lines, an
   * array one line per ingredient; `None` is the crash of calling `map` on
   * a string.
   */
  method IngredientTexts(ings: JsList<Ingredient>, show: real -> string) returns (r: Option<seq<string>>)
    ensures r.None? <==> ings.Text?
    ensures ings.Absent? ==> r == Some([])
    ensures ings.List? ==> r.Some? && |r.value| == |ings.items|
    ensures ings.List? ==> forall i :: 0 <= i < |ings.items| ==> r.value[i] == ItemIngredientText(ings.items[i], show)
  {
    match ings {
      case Absent =>
        r := Some([]);
      case Text(_) =>
        r := None;
      case List(items) =>
        var lines := FormatAll(items, show);
        r := Some(lines);
    }
  }

  /** The formatter as a function value, for `Map`. */
  function Formatter(show: real -> string): Ingredient -> string
  {
    ing => ItemIngredientText(ing, show)
  }

  /** The `map` over an array of ingredients. */
  method FormatAll(items: seq<Ingredient>, show: real -> string) returns (lines: seq<string>)
    ensures lines == Map(items, Formatter(show))
  {
    lines := [];
    for i := 0 to |items|
      invariant lines == Map(items[..i], Formatter(show))
    {
      var line := FormatIngredient(items[i], show);
      assert items[..i + 1][..i] == items[..i];
      lines := lines + [line];
    }
    assert items[..|items|] == items;
  }

  // ---------------------------------------------------------------------
  // The favourite test
  // ---------------------------------------------------------------------

  /** `favoritesList.some(item => item.id === id || item.recipe_id === id)`. */
  function SomeFavorite(list: seq<RecipeDoc>, id: Option<string>): bool
  {
    if list == [] then false
    else list[0].id == id || list[0].recipeId == id || SomeFavorite(list[1..], id)
  }

  /** The star's test for the shown recipe. */
  function IsFavorite(list: seq<RecipeDoc>, recipe: RecipeDoc): bool
  {
    SomeFavorite(list, recipe.id)
  }

  /** The recipe is a favourite exactly when a list entry has its id as `id` or as `recipe_id`. */
  lemma {:induction false} IsFavoriteIff(list: seq<RecipeDoc>, recipe: RecipeDoc)
    ensures IsFavorite(list, recipe) <==>
              exists i :: 0 <= i < |list| && (list[i].id == recipe.id || list[i].recipeId == recipe.id)
  {
    SomeFavoriteIff(list, recipe.id);
  }

  lemma {:induction false} SomeFavoriteIff(list: seq<RecipeDoc>, id: Option<string>)
    ensures SomeFavorite(list, id) <==> exists i :: 0 <= i < |list| && (list[i].id == id || list[i].recipeId == id)
  {
    if list != [] {
      SomeFavoriteIff(list[1..], id);
      if SomeFavorite(list[1..], id) {
        var i :| 0 <= i < |list[1..]| && (list[1..][i].id == id || list[1..][i].recipeId == id);
        assert list[i + 1] == list[1..][i];
      }
      if exists i :: 0 <= i < |list| && (list[i].id == id || list[i].recipeId == id) {
        var i :| 0 <= i < |list| && (list[i].id == id || list[i].recipeId == id);
        if i > 0 {
          assert list[1..][i - 1] == list[i];
        }
      }
    }
  }

  /** Pressing the star for a recipe whose id is not in the list makes it a favourite. */
  lemma ToggleAbsentMakesFavorite(list: seq<RecipeDoc>, recipe: RecipeDoc)
    requires forall j :: 0 <= j < |list| ==> list[j].id != recipe.id
    ensures IsFavorite(Toggled(list, recipe), recipe)
  {
    ToggleAbsentAppends(list, recipe);
    IsFavoriteIff(list + [recipe], recipe);
    assert (list + [recipe])[|list|] == recipe;
  }

  /**
   * When only the `recipe_id` of an entry matches, the star already shows
   * the recipe as a favourite, yet pressing it appends a second copy: the
   * test and the toggle look at different fields.
   */
  lemma FavoriteByRecipeIdStillAppends(list: seq<RecipeDoc>, recipe: RecipeDoc, k: nat)
    requires k < |list| && list[k].recipeId == recipe.id
    requires forall j :: 0 <= j < |list| ==> list[j].id != recipe.id
    ensures IsFavorite(list, recipe)
    ensures Toggled(list, recipe) == list + [recipe]
  {
    IsFavoriteIff(list, recipe);
    ToggleAbsentAppends(list, recipe);
  }

  // ---------------------------------------------------------------------
  // Fetching the recipe
  // ---------------------------------------------------------------------

  const NotFound := "Recipe not found"
  const InvalidData := "Invalid recipe data"

  /**
   * What `fetchRecipeDetails` ends with: the record as received, or the
   * message of the error it caught (a rejected fetch keeps its own message).
   */
  function LoadItem(id: string, community: string -> Reply<RecipeDoc>, forkify: string -> Reply<Envelope>): Result<RecipeDoc, string>
  {
    match RouteOf(id)
    case CommunityRoute(cid) =>
      (match community(cid)
       case Threw(m) => Err(m)
       case Response(ok, body) => if !ok then Err(NotFound) else Ok(body))
    case ForkifyRoute(fid) =>
      (match forkify(fid)
       case Threw(m) => Err(m)
       case Response(ok, body) =>
         if !ok then Err(NotFound)
         else if EnvelopeRecipe(body).None? then Err(InvalidData)
         else Ok(EnvelopeRecipe(body).value))
  }

  /**
   * A community id is fetched by the id without its prefix and its record is
   * kept as it is; a non-ok reply is "Recipe not found" on both paths, and
   * only the Forkify path can report "Invalid recipe data".
   */
  lemma LoadItemOutcomes(id: string, community: string -> Reply<RecipeDoc>, forkify: string -> Reply<Envelope>)
    ensures StartsWith(id, CommunityPrefix) ==>
              var reply := community(id[|CommunityPrefix|..]);
              (reply.Response? && reply.ok ==> LoadItem(id, community, forkify) == Ok(reply.body))
              && (reply.Response? && !reply.ok ==> LoadItem(id, community, forkify) == Err(NotFound))
    ensures !StartsWith(id, CommunityPrefix) ==>
              var reply := forkify(id);
              (reply.Response? && !reply.ok ==> LoadItem(id, community, forkify) == Err(NotFound))
              && (reply.Response? && reply.ok && EnvelopeRecipe(reply.body).None? ==> LoadItem(id, community, forkify) == Err(InvalidData))
              && (reply.Response? && reply.ok && EnvelopeRecipe(reply.body).Some? ==> LoadItem(id, community, forkify) == Ok(EnvelopeRecipe(reply.body).value))
    ensures StartsWith(id, CommunityPrefix) && LoadItem(id, community, forkify) == Err(InvalidData) ==>
              community(id[|CommunityPrefix|..]) == Threw(InvalidData)
  {
  }

  /** The state of one rendered recipe page. */
  class ItemPage {
    var recipe: Option<RecipeDoc>
    var loading: bool
    var error: Option<string>

    constructor ()
      ensures recipe == None && loading && error == None
    {
      recipe, loading, error := None, true, None;
    }

    /** `fetchRecipeDetails`; note that it never clears an earlier error. */
    method FetchRecipeDetails(id: string, community: string -> Reply<RecipeDoc>, forkify: string -> Reply<Envelope>)
      modifies this`recipe, this`loading, this`error
      ensures !loading
      ensures LoadItem(id, community, forkify).Ok? ==>
                recipe == Some(LoadItem(id, community, forkify).value) && error == old(error)
      ensures LoadItem(id, community, forkify).Err? ==>
                recipe == old(recipe) && error == Some(LoadItem(id, community, forkify).error)
    {
      loading := true;
      match RouteOf(id) {
        case CommunityRoute(cid) =>
          var reply := community(cid);
          if reply.Threw? {
            error := Some(reply.message);
          } else if !reply.ok {
            error := Some(NotFound);
          } else {
            recipe := Some(reply.body);
          }
        case ForkifyRoute(fid) =>
          var reply := forkify(fid);
          if reply.Threw? {
            error := Some(reply.message);
          } else if !reply.ok {
            error := Some(NotFound);
          } else if EnvelopeRecipe(reply.body).None? {
            error := Some(InvalidData);
          } else {
            recipe := EnvelopeRecipe(reply.body);
          }
      }
      loading := false;
    }
  }
}
