/**
 * The client state provider of frontend/src/context/index.jsx: the search
 * state, the favourites list with its toggle, the community list, and the
 * two `localStorage` entries the provider loads on mount and writes back.
 *
 * `localStorage` is two fields holding the parsed value stored under
 * "favoritesList" and "communityRecipes" (`None` when nothing is stored);
 * the search request's reply is an input; `navigate` records its target in
 * `location`.
 */
module GlobalState {
  import opened JsBuiltins
  import opened RecipeJson

  /** `list.findIndex(item => item.id === id)`, with -1 for "not found". */
  function FindIndexById(list: seq<RecipeDoc>, id: Option<string>): (r: int)
    ensures -1 <= r < |list|
    ensures r == -1 <==> forall j :: 0 <= j < |list| ==> list[j].id != id
    ensures r >= 0 ==> list[r].id == id && forall j :: 0 <= j < r ==> list[j].id != id
  {
    if list == [] then -1
    else if list[0].id == id then 0
    else
      var k := FindIndexById(list[1..], id);
      assert forall j :: 1 <= j < |list| ==> list[j] == list[1..][j - 1];
      if k == -1 then -1 else k + 1
  }

  /**
   * The favourites list after toggling `item`, defined element by element:
   * the first entry with the item's id is dropped, and when there is none
   * the item goes at the end.
   */
  function Toggled(list: seq<RecipeDoc>, item: RecipeDoc): seq<RecipeDoc>
  {
    if list == [] then [item]
    else if list[0].id == item.id then list[1..]
    else [list[0]] + Toggled(list[1..], item)
  }

  /** Toggling an item whose id is absent appends it; the existing entries keep their order. */
  lemma {:induction false} ToggleAbsentAppends(list: seq<RecipeDoc>, item: RecipeDoc)
    requires forall j :: 0 <= j < |list| ==> list[j].id != item.id
    ensures Toggled(list, item) == list + [item]
  {
    if list != [] {
      ToggleAbsentAppends(list[1..], item);
      assert [list[0]] + (list[1..] + [item]) == list + [item];
    }
  }

  /** Toggling an item whose id is present removes the first entry with that id and nothing else. */
  lemma {:induction false} TogglePresentRemovesFirst(list: seq<RecipeDoc>, item: RecipeDoc, k: nat)
    requires k < |list| && list[k].id == item.id
    requires forall j :: 0 <= j < k ==> list[j].id != item.id
    ensures Toggled(list, item) == list[..k] + list[k + 1..]
  {
    if k > 0 {
      TogglePresentRemovesFirst(list[1..], item, k - 1);
      assert list[1..][..k - 1] == list[1..k];
      assert list[1..][k..] == list[k + 1..];
      assert [list[0]] + (list[1..k] + list[k + 1..]) == list[..k] + list[k + 1..];
    }
  }

  /** Toggling the same item twice, from a list without its id, gives the original list back. */
  lemma ToggleTwiceRestores(list: seq<RecipeDoc>, item: RecipeDoc)
    requires forall j :: 0 <= j < |list| ==> list[j].id != item.id
    ensures Toggled(Toggled(list, item), item) == list
  {
    ToggleAbsentAppends(list, item);
    var once := list + [item];
    TogglePresentRemovesFirst(once, item, |list|);
    assert once[..|list|] == list;
  }

  /** What the persist effect leaves in storage: the list, but only when it is non-empty. */
  function Persisted(list: seq<RecipeDoc>, stored: Option<seq<RecipeDoc>>): (r: Option<seq<RecipeDoc>>)
    ensures |list| > 0 ==> r == Some(list)
    ensures |list| == 0 ==> r == stored
  {
    if |list| > 0 then Some(list) else stored
  }

  /** The list the load effect starts from: the stored value when there is one. */
  function Loaded(current: seq<RecipeDoc>, stored: Option<seq<RecipeDoc>>): (r: seq<RecipeDoc>)
    ensures stored.Some? ==> r == stored.value
    ensures stored.None? ==> r == current
  {
    if stored.Some? then stored.value else current
  }

  /**
   * Removing the last favourite does not clear storage, so the next load
   * brings the removed favourite back.
   */
  lemma LastFavouriteComesBack(item: RecipeDoc)
    ensures Toggled([item], item) == []
    ensures Persisted(Toggled([item], item), Persisted([item], None)) == Some([item])
    ensures Loaded([], Persisted(Toggled([item], item), Persisted([item], None))) == [item]
  {
    TogglePresentRemovesFirst([item], item, 0);
  }

  /** The state held by one `GlobalState` provider. */
  class GlobalState {
    var searchParam: string
    var loading: bool
    var recipeList: seq<RecipeDoc>
    var favoritesList: seq<RecipeDoc>
    var communityRecipes: seq<RecipeDoc>
    /** The last `navigate` target, if any. */
    var location: Option<string>
    /** `localStorage.getItem("favoritesList")`, parsed. */
    var storedFavorites: Option<seq<RecipeDoc>>
    /** `localStorage.getItem("communityRecipes")`, parsed. */
    var storedCommunityRecipes: Option<seq<RecipeDoc>>

    /** The initial render, over whatever storage holds. */
    constructor (favorites: Option<seq<RecipeDoc>>, community: Option<seq<RecipeDoc>>)
      ensures searchParam == "" && !loading && recipeList == [] && location == None
      ensures favoritesList == [] && communityRecipes == []
      ensures storedFavorites == favorites && storedCommunityRecipes == community
    {
      searchParam, loading, recipeList, location := "", false, [], None;
      favoritesList, communityRecipes := [], [];
      storedFavorites, storedCommunityRecipes := favorites, community;
    }

    /** The mount effect: copy what storage holds into the two lists. */
    method LoadFromStorage()
      modifies this`favoritesList, this`communityRecipes
      ensures favoritesList == Loaded(old(favoritesList), storedFavorites)
      ensures communityRecipes == Loaded(old(communityRecipes), storedCommunityRecipes)
    {
      if storedFavorites.Some? {
        favoritesList := storedFavorites.value;
      }
      if storedCommunityRecipes.Some? {
        communityRecipes := storedCommunityRecipes.value;
      }
    }

    /** The effect on `favoritesList`: write it to storage when it is non-empty. */
    method PersistFavorites()
      modifies this`storedFavorites
      ensures storedFavorites == Persisted(favoritesList, old(storedFavorites))
    {
      if |favoritesList| > 0 {
        storedFavorites := Some(favoritesList);
      }
    }

    /** The effect on `communityRecipes`: write it to storage when it is non-empty. */
    method PersistCommunityRecipes()
      modifies this`storedCommunityRecipes
      ensures storedCommunityRecipes == Persisted(communityRecipes, old(storedCommunityRecipes))
    {
      if |communityRecipes| > 0 {
        storedCommunityRecipes := Some(communityRecipes);
      }
    }

    /**
     * `handleSubmit`: returns the search term it requests (`None` when it
     * returns early); `reply` is the outcome of that request.
     */
    method HandleSubmit(reply: Reply<Envelope>) returns (requested: Option<string>)
      modifies this`loading, this`recipeList, this`searchParam, this`location
      ensures Trim(old(searchParam)) == "" ==>
                requested == None && loading == old(loading) && recipeList == old(recipeList)
                && searchParam == old(searchParam) && location == old(location)
      ensures Trim(old(searchParam)) != "" ==> requested == Some(old(searchParam))
      ensures Trim(old(searchParam)) != "" && reply.Threw? ==>
                !loading && searchParam == "" && recipeList == old(recipeList) && location == old(location)
      ensures Trim(old(searchParam)) != "" && reply.Response? && SearchResults(reply.body).Some? ==>
                !loading && searchParam == "" && recipeList == SearchResults(reply.body).value && location == Some("/")
      ensures Trim(old(searchParam)) != "" && reply.Response? && SearchResults(reply.body).None? ==>
                loading && searchParam == old(searchParam) && recipeList == old(recipeList) && location == old(location)
    {
      requested := None;
      if Trim(searchParam) == "" {
        return;
      }
      requested := Some(searchParam);
      loading := true;
      match reply {
        case Threw(_) =>
          loading := false;
          searchParam := "";
        case Response(_, body) =>
          var recipes := SearchResults(body);
          if recipes.Some? {
            recipeList := recipes.value;
            loading := false;
            searchParam := "";
            location := Some("/");
          }
      }
    }

    /** `handleAddToFavorite`: copy the list, then push the item or splice out its first match. */
    method HandleAddToFavorite(item: RecipeDoc)
      modifies this`favoritesList
      ensures favoritesList == Toggled(old(favoritesList), item)
    {
      var updated := favoritesList;
      var index := FindIndexById(updated, item.id);
      if index == -1 {
        ToggleAbsentAppends(updated, item);
        updated := updated + [item];
      } else {
        TogglePresentRemovesFirst(updated, item, index);
        updated := updated[..index] + updated[index + 1..];
      }
      favoritesList := updated;
    }

    /** `addRecipe`: append to the community list. */
    method AddRecipe(recipe: RecipeDoc)
      modifies this`communityRecipes
      ensures communityRecipes == old(communityRecipes) + [recipe]
    {
      communityRecipes := communityRecipes + [recipe];
    }
  }

  /** `data?.data?.recipes`: the search results a reply carries, if any. */
  function SearchResults(body: Envelope): (r: Option<seq<RecipeDoc>>)
    ensures r.Some? <==> body.data.Some? && body.data.value.recipes.Some?
    ensures r.Some? ==> r.value == body.data.value.recipes.value
  {
    if body.data.Some? then body.data.value.recipes else None
  }
}
