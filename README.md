# FoodRecipeApp core, modelled in Dafny

This project models the logic of FoodRecipeApp, a recipe-sharing application. The application has an Express/Mongoose backend and a React frontend. The model covers:

- the backend's account handlers: register, login, and adding and removing saved recipes;
- the author-statistics scan;
- the bearer-token gate;
- the `User` and `CommunityRecipe` schemas;
- the community-recipe list and create routes;
- the frontend's notification queue;
- the favourites and search state provider;
- the record normalisation, routing and selection helpers of the two recipe pages.

The database is an in-memory table (a `seq` of records). Every `fetch` reply, `localStorage` entry, bcrypt call and `jsonwebtoken` call is a parameter. Code that updates state step by step is a `class` with `modifies` clauses. Schema rules and expression-level helpers are functions, with lemmas about them.

The modules, one file each:

- `JsBuiltins` (js_builtins.dfy): JavaScript string and array built-ins the code relies on (`trim`, `split`, `toLowerCase`, `filter`, `startsWith`, `replace`), and the names every plain object inherits.
- `Notification` (notification.dfy): `createNotificationSystem` and the notification style lookup.
- `RecipeJson` (recipe_json.dfy): the JSON records the frontend receives, JavaScript truthiness, and the `community_` id routing.
- `GlobalState` (global_state.dfy): the context provider of `frontend/src/context/index.jsx`.
- `RecipeDetail` (recipe_detail.dfy) and `RecipeItem` (recipe_item.dfy): the non-visual logic of the two recipe pages.
- `UserModel` (user_model.dfy): the `User` schema, its setters, the pre-save hook and `matchPassword`.
- `UserRoutes` (user_routes.dfy): register, login, save-recipe and remove-recipe.
- `UserStats` (user_stats.dfy): `GET /stats`.
- `AuthMiddleware` (auth_middleware.dfy): `protect`.
- `CommunityRecipe` (community_recipe.dfy): the `CommunityRecipe` schema, as a validation function.
- `RecipeRoutes` (recipe_routes.dfy): `GET` and `POST /community`.

Where the code and the documented behaviour of the application differ, the model follows the code. Two cases are listed under "## Findings":

- the statistics tally is a plain object, so a tag named like an inherited member is never counted;
- the create route never sets the owner of a recipe.

Library behaviour the model relies on:

- **Mongoose.** A `[String]` path casts a single string to a one-element array. `required` on an array accepts `[]`. A required string rejects `""`. A query filter on an undefined value matches nothing.
- **Setters on queries.** The `trim` and `lowercase` setters also run on the values of query filters, so `findOne({ email })` and the register conflict test compare normalised values.
- **Object.entries.** `Object.entries` of a plain object lists array-index keys in ascending numeric order, then the other keys in insertion order. This is the OrdinaryOwnPropertyKeys operation of ECMA-262 (section 10.1.11.1).

## Model

| member | source | states |
|---|---|---|
| Notification.StyleOf | frontend/src/components/Notification.jsx:4-52 | each of the four type names selects its own style; the result is an inherited non-style value exactly when the type is a name every object inherits |
| Notification.UnknownKindFallsBackToInfo | frontend/src/components/Notification.jsx:52 | any other type name falls back to the info style |
| Notification.BroadcastReachesEverySubscriber | frontend/src/components/Notification.jsx:84-86 | one notification round calls every subscriber once, in subscription order, each with the same head |
| Notification.BroadcastOnlyCarriesHead | frontend/src/components/Notification.jsx:84-86 | every subscriber is told the current head, or null for an empty queue, never any other entry |
| Notification.WithoutId | frontend/src/components/Notification.jsx:105-107 | filtering by id removes every entry with that id and keeps every copy of every other entry, in order; with no such entry the queue is unchanged |
| Notification.NotificationSystem.constructor | frontend/src/components/Notification.jsx:80-82 | a new system has an empty queue, no subscribers and no deliveries |
| Notification.NotificationSystem.Head | frontend/src/components/Notification.jsx:85 | the head is null exactly when the queue is empty, and otherwise the first entry |
| Notification.NotificationSystem.NotifySubscribers | frontend/src/components/Notification.jsx:84-86 | the delivery log grows by exactly one broadcast of the current head to the current subscribers |
| Notification.NotificationSystem.Show | frontend/src/components/Notification.jsx:89-98 | the new entry (with the default type and duration when they are absent) goes at the tail, the queue grows by one, the id is returned, and subscribers are told only when the queue was empty |
| Notification.NotificationSystem.Remove | frontend/src/components/Notification.jsx:101-108 | removing the head's id drops exactly that entry and tells every subscriber the new head; any other id drops all its entries and tells nobody |
| Notification.NotificationSystem.Subscribe | frontend/src/components/Notification.jsx:110-111 | the callback is added at the end of the subscriber list |
| Notification.NotificationSystem.Unsubscribe | frontend/src/components/Notification.jsx:112-114 | every occurrence of the callback is removed and no other subscriber is |
| Notification.RemoveAbsentKeepsQueue | frontend/src/components/Notification.jsx:101-107 | removing an id that is not queued, or removing from an empty queue, leaves the queue unchanged |
| Notification.HeadRemovalKeepsLaterDuplicates | frontend/src/components/Notification.jsx:102-106 | removal by the head's id keeps a later entry with the same id, while removal by filter would drop it |
| RecipeJson.RouteOf | frontend/src/pages/RecipeDetail.jsx:36-37 | an id with the `community_` prefix routes to the community endpoint with the prefix stripped; every other id routes to Forkify unchanged |
| RecipeJson.RouteRoundTrip | frontend/src/pages/RecipeItem.jsx:20-22 | a link built as `community_` plus a document id routes back to exactly that document id |
| GlobalState.FindIndexById | frontend/src/context/index.jsx:67 | -1 exactly when no entry has the id; otherwise the first entry with it |
| GlobalState.ToggleAbsentAppends | frontend/src/context/index.jsx:66-70 | toggling an item whose id is absent appends it at the end, and the existing entries keep their order |
| GlobalState.TogglePresentRemovesFirst | frontend/src/context/index.jsx:67-72 | toggling an item whose id is present removes only the first entry with that id |
| GlobalState.ToggleTwiceRestores | frontend/src/context/index.jsx:65-76 | toggling the same item twice, from a list without its id, restores the list |
| GlobalState.Persisted | frontend/src/context/index.jsx:29-40 | storage takes the list when it is non-empty and keeps its previous value otherwise |
| GlobalState.Loaded | frontend/src/context/index.jsx:16-26 | the list starts from the stored value when there is one |
| GlobalState.LastFavouriteComesBack | frontend/src/context/index.jsx:16-40 | removing the last favourite leaves the old stored list, so the next load brings the favourite back |
| GlobalState.GlobalState.constructor | frontend/src/context/index.jsx:7-13 | the initial state: an empty term, no loading, and empty lists |
| GlobalState.GlobalState.LoadFromStorage | frontend/src/context/index.jsx:16-26 | each list becomes its stored value when one exists and is unchanged otherwise |
| GlobalState.GlobalState.PersistFavorites | frontend/src/context/index.jsx:29-33 | the stored favourites follow the list only while it is non-empty |
| GlobalState.GlobalState.PersistCommunityRecipes | frontend/src/context/index.jsx:36-40 | the stored community list follows the list only while it is non-empty |
| GlobalState.GlobalState.HandleSubmit | frontend/src/context/index.jsx:43-62 | a term that is blank after trimming changes nothing and sends nothing; a reply with results replaces the list, clears the term and `loading`, and navigates home; a reply without results leaves `loading` set; a thrown request clears both `loading` and the term |
| GlobalState.GlobalState.HandleAddToFavorite | frontend/src/context/index.jsx:65-76 | the new favourites list is the toggle of the old one, so the three toggle lemmas apply |
| GlobalState.GlobalState.AddRecipe | frontend/src/context/index.jsx:79-81 | the recipe goes at the end of the community list and nothing else changes |
| GlobalState.SearchResults | frontend/src/context/index.jsx:51-52 | results exist exactly when the reply carries `data.recipes`, and they are that array |
| RecipeDetail.CommunityCookingTime | frontend/src/pages/RecipeDetail.jsx:54 | `cookingTime`, else `cooking_time`, else 30, where a 0 falls through like a missing value |
| RecipeDetail.StandardizeCommunity | frontend/src/pages/RecipeDetail.jsx:49-60 | a community record keeps its fields, gets the cooking-time fallback and difficulty "Medium" by default, and every non-array list field becomes [] |
| RecipeDetail.ZeroCookingTimeFallsThrough | frontend/src/pages/RecipeDetail.jsx:54 | a cooking time of 0 is replaced by the snake-case field or 30 |
| RecipeDetail.StandardizeCommunityIdempotent | frontend/src/pages/RecipeDetail.jsx:49-60 | standardising a community record twice gives the same record as standardising it once |
| RecipeDetail.Projected | frontend/src/pages/RecipeDetail.jsx:95-99 | an ingredient object is reduced to its quantity, unit and description |
| RecipeDetail.ProjectAll | frontend/src/pages/RecipeDetail.jsx:95-99 | every ingredient is projected, in order |
| RecipeDetail.StandardizeForkify | frontend/src/pages/RecipeDetail.jsx:80-100 | a Forkify record fails exactly when it has no ingredient array; otherwise `_id` and `id` are the Forkify id, `image` is `image_url`, `isCommunity` is false, and the ingredients are projected |
| RecipeDetail.DetailTextOfFullIngredient | frontend/src/pages/RecipeDetail.jsx:417-419 | an ingredient with quantity, unit and description renders as the three parts joined by single spaces |
| RecipeDetail.DetailTextKeepsInnerDoubleSpace | frontend/src/pages/RecipeDetail.jsx:417-419 | without a unit the rendered text keeps a double space inside, because only the ends are trimmed |
| RecipeDetail.RecipeTags | frontend/src/pages/RecipeDetail.jsx:134-136 | a non-empty tag string is split on "," and each part trimmed; array tags are kept; missing tags or the empty string give no tags |
| RecipeDetail.TrimAll | frontend/src/pages/RecipeDetail.jsx:135 | every part is trimmed, in order |
| RecipeDetail.RelatedQueryOf | frontend/src/pages/RecipeDetail.jsx:139-145 | the related query uses the first tag, else the difficulty, else no filter |
| RecipeDetail.RelatedSourceOf | frontend/src/pages/RecipeDetail.jsx:132-165 | a record with an `_id` searches the community endpoint with that query; any other searches Forkify by title |
| RecipeDetail.StringTagsAlwaysFilterByTag | frontend/src/pages/RecipeDetail.jsx:134-142 | a non-empty tag string always yields a filter on its first trimmed part, so the difficulty is never used for it |
| RecipeDetail.ForkifyRecordsSearchCommunity | frontend/src/pages/RecipeDetail.jsx:88-132 | a standardised Forkify record has an `_id`, so its related recipes come from the community endpoint |
| RecipeDetail.Unrelated | frontend/src/pages/RecipeDetail.jsx:156-157 | the kept items are exactly those whose key differs from the current one, every copy of each, in server order |
| RecipeDetail.RelatedBy | frontend/src/pages/RecipeDetail.jsx:156-158 | exactly min(3, number of unrelated items) items: the first ones of the filtered list, in order, none with the current key |
| RecipeDetail.RelatedCommunity | frontend/src/pages/RecipeDetail.jsx:156-158 | the community related recipes are the first min(3, n) of the n records whose `_id` differs from the current one, in the server's order |
| RecipeDetail.RelatedForkify | frontend/src/pages/RecipeDetail.jsx:174-176 | the Forkify related recipes are the first min(3, n) of the n results whose `id` differs from the current one, in the search order |
| RecipeDetail.SomeReviewByIff | frontend/src/pages/RecipeDetail.jsx:188-190 | some review is by the user exactly when one review's `user` equals the user's id |
| RecipeDetail.HasReviewedIff | frontend/src/pages/RecipeDetail.jsx:188-190 | `hasReviewed` holds exactly when one of the recipe's reviews is by the signed-in user |
| RecipeDetail.ReviewFormIffNotReviewed | frontend/src/pages/RecipeDetail.jsx:466-470 | on a community recipe the review form is shown exactly when the user has not reviewed it |
| RecipeDetail.OwnReviewHidesForm | frontend/src/pages/RecipeDetail.jsx:470 | a recipe holding one of the user's reviews never shows the form |
| RecipeDetail.SomeSavedHas | frontend/src/pages/RecipeDetail.jsx:24-25 | the saved test holds exactly when the collection has the id as a bare id or as a populated document with that `_id` |
| RecipeDetail.IsSaved | frontend/src/pages/RecipeDetail.jsx:24-26 | a recipe counts as saved exactly when the user's collection holds its route id, bare or as a populated `_id`, or the favourites test accepts its `_id` (the route id when it has none) |
| RecipeDetail.ReviewGateOf | frontend/src/pages/RecipeDetail.jsx:226-256 | no user goes to login; rating 0 is refused; an external recipe is refused; only otherwise is a request sent, with the bearer header and the rating and text |
| RecipeDetail.LoadDetailOutcomes | frontend/src/pages/RecipeDetail.jsx:36-106 | a community load yields a standardised record or the community error; a Forkify load yields a standardised record or the Forkify error |
| RecipeDetail.DetailPage.constructor | frontend/src/pages/RecipeDetail.jsx:8-14 | the page starts loading, with no record, no error, an empty review and rating 0 |
| RecipeDetail.DetailPage.FetchRecipe | frontend/src/pages/RecipeDetail.jsx:29-118 | loading ends; a successful load stores the record and clears the error; a failed one keeps the old record and sets the message |
| RecipeDetail.DetailPage.HandleReviewSubmit | frontend/src/pages/RecipeDetail.jsx:223-279 | a request is sent exactly when the gate allows it; a refusal sets its message or redirects to login; an accepted reply replaces the record and clears the form; a failed one sets the error |
| RecipeItem.ItemTextSingleSpaced | frontend/src/pages/RecipeItem.jsx:86-91 | whichever of quantity, unit and description are missing (a quantity of 0 counts as missing), the text is the present parts in that order with exactly one space between neighbours and none at either end |
| RecipeItem.FormatIngredient | frontend/src/pages/RecipeItem.jsx:86-91 | building the text with successive appends and then trimming gives the item formatter's text |
| RecipeItem.StringIngredientShowsEmpty | frontend/src/pages/RecipeItem.jsx:86-91 | a plain-string ingredient has none of the fields read, so it renders as "" |
| RecipeItem.ZeroQuantityDropped | frontend/src/pages/RecipeItem.jsx:88 | a quantity of 0 renders like a missing one |
| RecipeItem.MissingUnitSingleSpace | frontend/src/pages/RecipeItem.jsx:88-91 | a missing unit adds no double space |
| RecipeItem.FormattersDisagreeWithoutUnit | frontend/src/pages/RecipeItem.jsx:86-91 | for a quantity and description without a unit, this page and the detail page render different texts |
| RecipeItem.FormattersAgreeOnFullIngredient | frontend/src/pages/RecipeItem.jsx:86-91 | with all three parts present, the two formatters agree |
| RecipeItem.IngredientTexts | frontend/src/pages/RecipeItem.jsx:86-92 | missing ingredients give []; an array gives one text per item, in order |
| RecipeItem.FormatAll | frontend/src/pages/RecipeItem.jsx:86-92 | the loop formats every item, in order |
| RecipeItem.IsFavoriteIff | frontend/src/pages/RecipeItem.jsx:106-111 | a recipe is a favourite exactly when some list item has `id` or `recipe_id` equal to the recipe's `id` |
| RecipeItem.SomeFavoriteIff | frontend/src/pages/RecipeItem.jsx:106-109 | the search over the list succeeds exactly when there is a matching item |
| RecipeItem.ToggleAbsentMakesFavorite | frontend/src/pages/RecipeItem.jsx:103-107 | toggling a recipe that is not a favourite makes it one |
| RecipeItem.FavoriteByRecipeIdStillAppends | frontend/src/pages/RecipeItem.jsx:103-111 | a favourite matched only through `recipe_id` is appended again by the toggle, which tests `id` only |
| RecipeItem.LoadItemOutcomes | frontend/src/pages/RecipeItem.jsx:14-58 | a non-ok reply gives "Recipe not found"; a Forkify reply without `data.recipe` gives "Invalid recipe data"; otherwise the record is kept as sent |
| RecipeItem.ItemPage.constructor | frontend/src/pages/RecipeItem.jsx:7-9 | the page starts loading, with no record and no error |
| RecipeItem.ItemPage.FetchRecipeDetails | frontend/src/pages/RecipeItem.jsx:15-55 | loading ends; a successful load stores the record; a failed one keeps the old record and sets the message |
| UserModel.NormalizeUsername | backend/models/User.js:5-10 | a stored username is trimmed |
| UserModel.NormalizeEmail | backend/models/User.js:11-17 | a stored email is trimmed and has no upper-case letter |
| UserModel.EmailSetterOrderIrrelevant | backend/models/User.js:15-16 | trimming then lower-casing gives the same email as lower-casing then trimming |
| UserModel.UsernameNormalizeIdempotent | backend/models/User.js:9 | normalising a stored username changes nothing |
| UserModel.EmailNormalizeIdempotent | backend/models/User.js:15-16 | normalising a stored email changes nothing |
| UserModel.NormalFormsAreFixedPoints | backend/models/User.js:5-17 | a value is in stored form exactly when normalising leaves it unchanged |
| UserModel.RequiredMissing | backend/models/User.js:5-21 | validation passes exactly when username, email and password are all non-empty |
| UserModel.UserDocument.Create | backend/models/User.js:4-28 | a new document holds the normalised username and email, the plain password marked as modified, and no saved recipes |
| UserModel.UserDocument.Load | backend/models/User.js:4-28 | a loaded document holds the stored record, with the password unmodified |
| UserModel.UserDocument.PushSaved | backend/routes/userRoutes.js:104 | the id goes at the end of the collection |
| UserModel.UserDocument.SetSaved | backend/routes/userRoutes.js:130 | the collection becomes the given list |
| UserModel.UserDocument.PreSave | backend/models/User.js:31-41 | the password is hashed only when it was modified, and is otherwise left as stored |
| UserModel.UserDocument.Save | backend/models/User.js:31-41 | a document with a missing required field is rejected with those fields; otherwise the record is stored after the hook |
| UserModel.MatchAfterSaves | backend/models/User.js:31-46 | a new user's document is saved exactly when no required field is empty after the setters; after that save, and after a second save that only changes the collection, `matchPassword` compares the candidate with the hash of the original password; an unsaved document still holds the plain password |
| UserRoutes.WithSaved | backend/routes/userRoutes.js:104 | the id goes at the end of the user's collection, and nothing else about the user changes |
| UserRoutes.WithoutSaved | backend/routes/userRoutes.js:130 | the id is no longer in the collection, and nothing else about the user changes |
| UserRoutes.SaveThenRemoveRestores | backend/routes/userRoutes.js:99-131 | saving a new id and then removing it restores the user record |
| UserRoutes.RemoveKeepsOthersInOrder | backend/routes/userRoutes.js:130 | removal keeps every other id, in order |
| UserRoutes.LookupFindsTheMatch | backend/routes/userRoutes.js:48 | with unique emails, the lookup finds the one user with that email |
| UserRoutes.LoginFailuresLookAlike | backend/routes/userRoutes.js:48-60 | an unknown email and a wrong password both get 401 "Invalid email or password" |
| UserRoutes.LoginSucceedsIff | backend/routes/userRoutes.js:48-57 | login succeeds exactly when a stored user has the email and the compare accepts the password |
| UserRoutes.Candidate | backend/routes/userRoutes.js:20-24 | creation fails exactly when a field is missing or empty after normalisation; otherwise the new user holds the normalised fields, the hash and an empty collection |
| UserRoutes.CandidateIsStored | backend/routes/userRoutes.js:20-24 | a created user meets the schema's guarantees |
| UserRoutes.CreateUser | backend/routes/userRoutes.js:20-24 | building and saving a document gives the candidate user |
| UserRoutes.ResaveWithCollection | backend/routes/userRoutes.js:104-105 | re-saving with a new collection changes only the collection; the stored hash is kept |
| UserRoutes.UserStore.Register | backend/routes/userRoutes.js:9-40 | a clash on email or username gives 400 "User already exists" and stores nothing; otherwise a valid user is appended and answered 201 with a token, and a rejected one gives 500; the table stays unique |
| UserRoutes.UserStore.Login | backend/routes/userRoutes.js:43-65 | the reply is the login decision over the stored table |
| UserRoutes.UserStore.SaveRecipe | backend/routes/userRoutes.js:89-112 | an unknown user gets 404; an id already saved gets 400 "Recipe already saved" and no change; otherwise the id is appended and the new list returned; collections stay duplicate-free |
| UserRoutes.UserStore.RemoveRecipe | backend/routes/userRoutes.js:115-138 | an unknown user gets 404; an id not saved gets 400 and no change; otherwise every occurrence is removed and the rest returned in order |
| UserStats.OwnRecipes | backend/routes/userRoutes.js:179 | exactly the caller's recipes, every copy of each, in table order |
| UserStats.Average | backend/routes/userRoutes.js:185-195 | 0 when no recipe is rated, and otherwise the quotient of the positive ratings' sum by their count |
| UserStats.UnratedIgnored | backend/routes/userRoutes.js:188-195 | recipes that all have rating 0 count as unrated: no rating is counted or summed, and the average is 0 |
| UserStats.AverageWithinBounds | backend/routes/userRoutes.js:185-195 | for recipes within the schema's rating bounds, the average lies in [0, 5] |
| UserStats.TallyCounts | backend/routes/userRoutes.js:198-205 | the tally's keys are exactly the distinct tags, in first-seen order, and each count is that tag's number of occurrences |
| UserStats.EntriesOrderShape | backend/routes/userRoutes.js:207-210 | entries list the array-index keys first, ascending, then the other keys in insertion order |
| UserStats.EntriesOrderKeys | backend/routes/userRoutes.js:207-210 | entries list exactly the tally's keys |
| UserStats.MaxScanFindsFirstMaximum | backend/routes/userRoutes.js:207-215 | the strict `>` scan returns the first entry with the largest count |
| UserStats.MaxScanOfNothingNumeric | backend/routes/userRoutes.js:207-215 | with no numeric count the scan keeps '' |
| UserStats.NoTagsNoFavorite | backend/routes/userRoutes.js:207-215 | no tags give the favourite tag '' |
| UserStats.FavoriteTagIsMostCommon | backend/routes/userRoutes.js:198-215 | with tags, the favourite is a tag of maximal count, and ties go to the tag enumerated first |
| UserStats.IndexKeysEnumeratedFirst | backend/routes/userRoutes.js:207-215 | an integer-like tag wins a tie against an earlier word tag |
| UserStats.InheritedNameNeverFavorite | backend/routes/userRoutes.js:198-215 | as written, a tag named like an inherited member is never the favourite |
| UserStats.InheritedNameLosesToRarerTag | backend/routes/userRoutes.js:198-215 | as written, ["toString", "toString", "soup"] gives "soup", while the most common tag is "toString" |
| UserStats.AsWrittenAgreesWithoutInheritedNames | backend/routes/userRoutes.js:198-215 | without inherited names among the tags, the code as written picks the most common tag |
| UserStats.SumRatings | backend/routes/userRoutes.js:185-193 | the loop sums the positive ratings and counts them |
| UserStats.BumpAll | backend/routes/userRoutes.js:201-203 | each pass of the inner loop bumps one tag's count |
| UserStats.TallyTags | backend/routes/userRoutes.js:198-205 | the nested loops build the tally of all the tags |
| UserStats.ScanEntries | backend/routes/userRoutes.js:207-215 | the scan loop returns the entry the strict `>` scan selects |
| UserStats.SumReviews | backend/routes/userRoutes.js:218-223 | the loop sums the lengths of the review lists |
| UserStats.ComputeStats | backend/routes/userRoutes.js:173-230 | the reply is the caller's recipe count, their review total, the average of their positive ratings, and the favourite tag the code computes over its plain-object tally; when no tag is named like an inherited member, that tag is the corrected favourite, so FavoriteTagIsMostCommon applies |
| AuthMiddleware.TokenOf | backend/middleware/authMiddleware.js:13 | the token exists exactly when the header has a second space-separated field; it is that field and holds no space |
| AuthMiddleware.Verified | backend/middleware/authMiddleware.js:16 | an undefined or empty token always fails verification |
| AuthMiddleware.NoSchemeNoToken | backend/middleware/authMiddleware.js:7-32 | a missing header, or one not starting with the case-sensitive "Bearer", gives 401 "Not authorized, no token" |
| AuthMiddleware.BareSchemeFailsAsToken | backend/middleware/authMiddleware.js:13-29 | "Bearer" alone or "Bearer " yields no token and lands in 401 "Not authorized, token failed" |
| AuthMiddleware.VerifyAndLookupFailures | backend/middleware/authMiddleware.js:16-29 | a failed verification or a thrown lookup gives "token failed"; a verified payload without a stored user gives "User not found or unauthorized" |
| AuthMiddleware.ValidTokenPasses | backend/middleware/authMiddleware.js:13-25 | a token that verifies to a stored user's id passes with that user |
| AuthMiddleware.OnlyPrefixAndSecondFieldMatter | backend/middleware/authMiddleware.js:9-13 | only the prefix "Bearer" and the second field are read, so headers outside the exact form of RFC 6750 section 2.1 pass as well |
| AuthMiddleware.Request.Protect | backend/middleware/authMiddleware.js:4-32 | exactly one outcome: `next` with `req.user` set to the found user, or a 401; an unknown user leaves `req.user` null, and the other 401s leave it unchanged |
| CommunityRecipe.DifficultyOf | backend/models/CommunityRecipe.js:10-14 | a difficulty is accepted exactly when it is Easy, Medium or Hard, and each name gives its own value |
| CommunityRecipe.Failures | backend/models/CommunityRecipe.js:3-39 | validation passes exactly when the title is present and non-empty, the user is present, a given difficulty is in the enum and a given rating lies in [0, 5]; ingredients and instructions never fail, since a missing array defaults to `[]` |
| CommunityRecipe.Validate | backend/models/CommunityRecipe.js:3-39 | a rejected draft reports its failures; an accepted one keeps its id, title and user and has no reviews |
| CommunityRecipe.ValidatedIsWellFormed | backend/models/CommunityRecipe.js:4-21 | every accepted recipe has a title and a rating in [0, 5] |
| CommunityRecipe.DefaultsApplied | backend/models/CommunityRecipe.js:7-21 | absent fields take image "", cookingTime 30, servings 4, difficulty Medium, tags [] and rating 0 |
| CommunityRecipe.UserIsRequired | backend/models/CommunityRecipe.js:35-39 | a draft without a user is always rejected, with "user" among the failures |
| RecipeRoutes.CastStrings | backend/routes/recipeRoutes.js:23-24 | a missing field stays unset, an array is kept, and a single string becomes a one-element array |
| RecipeRoutes.DraftFromBody | backend/routes/recipeRoutes.js:19-25 | only title, ingredients and instructions come from the body; every other field is left to its default; the owner is the given user |
| RecipeRoutes.DraftFromBodyAsWritten | backend/routes/recipeRoutes.js:19-25 | as written, the draft has no owner |
| RecipeRoutes.EveryPostRejectedAsWritten | backend/routes/recipeRoutes.js:19-31 | as written, every POST fails validation on the missing user |
| RecipeRoutes.PostIgnoresOtherFields | backend/routes/recipeRoutes.js:19 | two bodies that agree on title, ingredients and instructions give the same draft |
| RecipeRoutes.TitledPostStoredWithDefaults | backend/routes/recipeRoutes.js:21-28 | with an owner, a body with a title is stored with the schema defaults |
| RecipeRoutes.UntitledPostRejected | backend/routes/recipeRoutes.js:21-31 | a body without a title is rejected, with "title" among the failures |
| RecipeRoutes.RecipeTable.constructor | backend/routes/recipeRoutes.js:7-14 | the table starts empty and valid |
| RecipeRoutes.RecipeTable.ListCommunity | backend/routes/recipeRoutes.js:7-14 | GET answers 200 with every stored recipe, in order |
| RecipeRoutes.RecipeTable.PostCommunity | backend/routes/recipeRoutes.js:17-32 | an accepted draft is appended and answered 201 with the stored recipe; any failure answers 500 "Failed to submit recipe" and stores nothing; the table stays valid |

## Left out

- Presentational components are not modelled: the Navbar variants, Home, Favorites, CommunityRecipes, the Details pages, the card components, the recipe forms, the login and register pages, App and index. They render and theme, and hold no logic with a stateable contract.
- The Notification component's rendering and its auto-hide timer (frontend/src/components/Notification.jsx:40-47) are left out because they depend on time. `Date.now()` ids are a parameter of `Show`.
- The profile, saved-recipes and `/recipes` routes (backend/routes/userRoutes.js:68-86, 141-170) are left out. They only read the table and rely on `populate`.
- Mongoose machinery is left out: `populate`, ObjectId casting, and the race between the unique-index check and the insert. Ids are opaque strings, and handlers run one at a time.
- Database failures are left out. Every query and save succeeds or fails only as the model decides, so the 500 "Server error" and "Failed to fetch recipes" paths caused by a failing database are not modelled.
- The 400 "Invalid user data" branch (backend/routes/userRoutes.js:34) is not modelled. `User.create` either returns a user or throws, so that branch cannot be reached.
- UserRoutes.UserStore.Register: requires that bcrypt never yields an empty hash. Without this, the stored user could break the required-password rule.
- Request-body fields are taken to be strings or absent. Non-string JSON values are not modelled: an object such as `{"$ne": null}` that Mongoose reads as a query operator in `findOne({ email })` (backend/routes/userRoutes.js:48) or in the `$or` of registration (backend/routes/userRoutes.js:14), and numbers or booleans that Mongoose casts to strings. UserRoutes.LoginSucceedsIff and UserRoutes.UserStore.Register hold for string fields only.
- A query filter on an undefined value is taken to match no user. Mongoose's strictQuery settings are not modelled.
- bcrypt and jsonwebtoken are uninterpreted parameters. `verify` has one fixed fact: an undefined or empty token throws.
- UserStats.ComputeStats: `averageRating` is the exact quotient of reals. The floating-point division and `toFixed(1)` rounding are not modelled.
- AuthMiddleware.Lookup: the found user is the whole stored record. The projection `.select('-password')` that drops the hash is not modelled, because no decision of the gate depends on it.
- `toLowerCase` is modelled on ASCII letters only. Unicode case mapping is not modelled.
- A `null` array field is treated like a missing one.
- Interleaved async requests, stale responses and React effect timing are not modelled. This includes the check of the `recipe` state at frontend/src/pages/RecipeDetail.jsx:110-112, which sees the value from before `setRecipe` and so never starts the related-recipe request after a first load. Related-recipe selection is modelled as the functions that request would use.
- `handleSaveRecipe` (frontend/src/pages/RecipeDetail.jsx:197-221) is left out because it only forwards to the context's `saveRecipe`. The context members `user`, `saveRecipe` and `isRecipeInFavorites` are inputs of the model.
- `localStorage` and JSON parsing are represented by the optional stored values of `GlobalState`. A malformed stored value is not modelled.
- Review `createdAt` timestamps and the `timestamps` option are left out because they depend on time.

## Findings

| source | as written | input that shows it | evidently intended | confidence | as-written member | corrected member |
|---|---|---|---|---|---|---|
| backend/routes/userRoutes.js:198-215 | the tag tally is a plain object, so a tag such as "toString" starts from the inherited function, its count never becomes a number, and it never passes `count > maxCount` | tags ["toString", "toString", "soup"] give favouriteTag "soup" | the most common tag, "toString" | not executed | UserStats.InheritedNameLosesToRarerTag | UserStats.FavoriteTagIsMostCommon |
| backend/routes/recipeRoutes.js:19-25 | the new recipe is built from title, ingredients and instructions only, but `user` is required (backend/models/CommunityRecipe.js:35-39) | any POST body, for example {"title": "Soup", "ingredients": ["water"], "instructions": ["boil"]}, answers 500 "Failed to submit recipe" | the owner is taken from the authenticated request and the recipe is stored with its defaults | not executed | RecipeRoutes.EveryPostRejectedAsWritten | RecipeRoutes.TitledPostStoredWithDefaults |
