/**
 * The account handlers of backend/routes/userRoutes.js over an in-memory
 * user table: register, login, and the save-recipe and remove-recipe
 * handlers. (The stats handler is the module UserStats.)
 *
 * The caller's id is `req.user._id` as the bearer-token gate set it; new
 * ids, bcrypt (`hash`, `compare`) and token signing (`sign`) are
 * parameters. Query filters are compared after the schema's setters have
 * run on them, and a filter on an undefined value matches no user.
 */
module UserRoutes {
  import opened JsBuiltins
  import opened UserModel

  /** A JSON response: its status and body. */
  datatype Reply = Reply(status: nat, body: Body)

  datatype Body =
    | Authed(id: string, username: string, email: string, token: string)
    | Collection(message: string, savedRecipes: seq<string>)
    | Failure(error: string)

  const UserExists := "User already exists"
  const ServerError := "Server error"
  const BadCredentials := "Invalid email or password"
  const UserNotFound := "User not found"
  const AlreadySaved := "Recipe already saved"
  const NotInCollection := "Recipe not in collection"
  const SavedMessage := "Recipe saved to collection"
  const RemovedMessage := "Recipe removed from collection"

  /** `{ $or: [{ email }, { username }] }`, matched against one stored user. */
  predicate Conflicts(u: UserRecord, username: Option<string>, email: Option<string>)
  {
    (email.Some? && u.email == NormalizeEmail(email.value))
    || (username.Some? && u.username == NormalizeUsername(username.value))
  }

  /** `{ email }`, matched against one stored user. */
  predicate HasEmail(u: UserRecord, email: Option<string>)
  {
    email.Some? && u.email == NormalizeEmail(email.value)
  }

  /** The `findOne` filters and `findById`, as tests on one stored user. */
  function ConflictWith(username: Option<string>, email: Option<string>): UserRecord -> bool
  {
    (u: UserRecord) => Conflicts(u, username, email)
  }

  function EmailIs(email: Option<string>): UserRecord -> bool
  {
    (u: UserRecord) => HasEmail(u, email)
  }

  function IdIs(id: string): UserRecord -> bool
  {
    (u: UserRecord) => u.id == id
  }

  /** The record after `savedRecipes.push(id)`. */
  function WithSaved(u: UserRecord, recipeId: string): (r: UserRecord)
    ensures r.savedRecipes == u.savedRecipes + [recipeId]
    ensures r.(savedRecipes := u.savedRecipes) == u
  {
    u.(savedRecipes := u.savedRecipes + [recipeId])
  }

  /** The record after `savedRecipes = savedRecipes.filter(id => id !== recipeId)`. */
  function WithoutSaved(u: UserRecord, recipeId: string): (r: UserRecord)
    ensures recipeId !in r.savedRecipes
    ensures r.(savedRecipes := u.savedRecipes) == u
  {
    u.(savedRecipes := RemoveAll(u.savedRecipes, recipeId))
  }

  /** Saving a recipe that is not in the collection and removing it again restores the record. */
  lemma SaveThenRemoveRestores(u: UserRecord, recipeId: string)
    requires recipeId !in u.savedRecipes
    ensures WithoutSaved(WithSaved(u, recipeId), recipeId) == u
  {
    RemoveAllUndoesAppend(u.savedRecipes, recipeId);
  }

  /** Removing deletes every occurrence and keeps the other ids in order. */
  lemma RemoveKeepsOthersInOrder(u: UserRecord, recipeId: string)
    ensures Subsequence(WithoutSaved(u, recipeId).savedRecipes, u.savedRecipes)
    ensures forall i :: 0 <= i < |u.savedRecipes| && u.savedRecipes[i] != recipeId ==>
              u.savedRecipes[i] in WithoutSaved(u, recipeId).savedRecipes
  {
    RemoveAllIsFilter(u.savedRecipes, recipeId);
    FilterIsSubsequence(u.savedRecipes, (x: string) => x != recipeId);
  }

  lemma {:induction false} RemoveAllIsFilter(s: seq<string>, x: string)
    ensures RemoveAll(s, x) == Filter(s, (y: string) => y != x)
  {
    if s != [] {
      RemoveAllIsFilter(s[1..], x);
    }
  }

  /** What the login handler answers. */
  function LoginOutcome(users: seq<UserRecord>, email: Option<string>, password: Option<string>,
                        compare: (string, string) -> bool, sign: string -> string): Reply
  {
    var found := FirstIndex(users, EmailIs(email));
    if found.None? then Reply(401, Failure(BadCredentials))
    // bcrypt.compare rejects an undefined candidate
    else if password.None? then Reply(500, Failure(ServerError))
    else
      var u := users[found.value];
      if compare(password.value, u.password) then Reply(200, Authed(u.id, u.username, u.email, sign(u.id)))
      else Reply(401, Failure(BadCredentials))
  }

  /** With unique emails, the login lookup finds the one user with that email. */
  lemma LookupFindsTheMatch(users: seq<UserRecord>, email: string, i: nat)
    requires Unique(users) && i < |users| && HasEmail(users[i], Some(email))
    ensures FirstIndex(users, EmailIs(Some(email))) == Some(i)
  {
    assert EmailIs(Some(email))(users[i]);
    var f := FirstIndex(users, EmailIs(Some(email)));
    assert f.Some?;
    assert users[f.value].email == users[i].email;
  }

  /** An unknown email and a wrong password get the same answer, so the reply does not tell them apart. */
  lemma LoginFailuresLookAlike(users: seq<UserRecord>, email: string, password: string,
                               compare: (string, string) -> bool, sign: string -> string)
    requires Unique(users)
    requires forall i :: 0 <= i < |users| && HasEmail(users[i], Some(email)) ==> !compare(password, users[i].password)
    ensures LoginOutcome(users, Some(email), Some(password), compare, sign) == Reply(401, Failure(BadCredentials))
  {
    var f := FirstIndex(users, EmailIs(Some(email)));
    if f.Some? {
      assert EmailIs(Some(email))(users[f.value]);
    }
  }

  /** Login succeeds exactly for a stored email whose hash accepts the password. */
  lemma LoginSucceedsIff(users: seq<UserRecord>, email: string, password: string,
                         compare: (string, string) -> bool, sign: string -> string)
    requires Unique(users)
    ensures LoginOutcome(users, Some(email), Some(password), compare, sign).status == 200 <==>
              exists i :: 0 <= i < |users| && HasEmail(users[i], Some(email)) && compare(password, users[i].password)
  {
    var f := FirstIndex(users, EmailIs(Some(email)));
    if f.Some? {
      assert EmailIs(Some(email))(users[f.value]);
    }
    if exists i :: 0 <= i < |users| && HasEmail(users[i], Some(email)) && compare(password, users[i].password) {
      var i :| 0 <= i < |users| && HasEmail(users[i], Some(email)) && compare(password, users[i].password);
      LookupFindsTheMatch(users, email, i);
    }
  }

  /**
   * The user `User.create({ username, email, password })` stores, or the
   * required paths that reject it; an undefined field counts as missing.
   */
  function Candidate(id: string, username: Option<string>, email: Option<string>, password: Option<string>,
                     hash: string -> string): (r: Option<UserRecord>)
    ensures r.None? <==> username.None? || email.None? || password.None?
                         || NormalizeUsername(username.value) == "" || NormalizeEmail(email.value) == "" || password.value == ""
    ensures r.Some? ==> r.value.id == id && r.value.password == hash(password.value) && r.value.savedRecipes == []
    ensures r.Some? ==> r.value.username == NormalizeUsername(username.value) && r.value.email == NormalizeEmail(email.value)
  {
    // an undefined field is built as the empty string, which the setters keep empty
    assert |NormalizeUsername("")| == 0 && |NormalizeEmail("")| == 0;
    var name, mail, pass := NormalizeUsername(username.GetOr("")), NormalizeEmail(email.GetOr("")), password.GetOr("");
    if RequiredMissing(name, mail, pass) != [] then None else Some(UserRecord(id, name, mail, hash(pass), []))
  }

  /** A created user satisfies the schema's guarantees whenever the hash is non-empty. */
  lemma CandidateIsStored(id: string, username: Option<string>, email: Option<string>, password: Option<string>,
                          hash: string -> string)
    requires Candidate(id, username, email, password, hash).Some?
    requires hash(password.value) != ""
    ensures Stored(Candidate(id, username, email, password, hash).value)
  {
  }

  /** `User.create({ username, email, password })`: build the document and save it. */
  method CreateUser(id: string, username: Option<string>, email: Option<string>, password: Option<string>,
                    hash: string -> string) returns (r: Option<UserRecord>)
    ensures r == Candidate(id, username, email, password, hash)
  {
    var doc := new UserDocument.Create(id, username.GetOr(""), email.GetOr(""), password.GetOr(""));
    var saved := doc.Save(hash);
    r := if saved.Ok? then Some(saved.value) else None;
  }

  /**
   * Load a stored user, replace its collection, and save it again: the
   * password was not modified, so the hook leaves the stored hash as it is.
   */
  method ResaveWithCollection(u: UserRecord, collection: seq<string>, hash: string -> string) returns (r: UserRecord)
    requires Stored(u)
    ensures r == u.(savedRecipes := collection)
  {
    var doc := new UserDocument.Load(u);
    doc.SetSaved(collection);
    var saved := doc.Save(hash);
    if saved.Err? {
      assert false;
    }
    r := saved.value;
  }

  /** Appending a user that clashes with no stored one keeps the table's guarantees. */
  lemma AppendKeepsTableValid(users: seq<UserRecord>, u: UserRecord)
    requires Unique(users) && forall i :: 0 <= i < |users| ==> Stored(users[i]) && NoDuplicates(users[i].savedRecipes)
    requires Stored(u) && NoDuplicates(u.savedRecipes)
    requires forall i :: 0 <= i < |users| ==> users[i].id != u.id && users[i].username != u.username && users[i].email != u.email
    ensures Unique(users + [u]) && forall i :: 0 <= i < |users + [u]| ==> Stored((users + [u])[i]) && NoDuplicates((users + [u])[i].savedRecipes)
  {
    var t := users + [u];
    forall i, j | 0 <= i < j < |t|
      ensures t[i].id != t[j].id && t[i].username != t[j].username && t[i].email != t[j].email
    {
      assert t[i] == users[i];
      if j < |users| {
        assert t[j] == users[j];
      }
    }
  }

  /** The user table. */
  class UserStore {
    var users: seq<UserRecord>

    /** The schema's guarantees over the whole table, and duplicate-free collections. */
    predicate Valid()
      reads this
    {
      && Unique(users)
      && forall i :: 0 <= i < |users| ==> Stored(users[i]) && NoDuplicates(users[i].savedRecipes)
    }

    constructor ()
      ensures Valid() && users == []
    {
      users := [];
    }

    /**
     * `POST /register`. `newId` is the id Mongoose assigns, and bcrypt never
     * yields an empty hash.
     */
    method Register(username: Option<string>, email: Option<string>, password: Option<string>, newId: string,
                    hash: string -> string, sign: string -> string) returns (reply: Reply)
      requires Valid()
      requires forall i :: 0 <= i < |users| ==> users[i].id != newId
      requires forall p :: hash(p) != ""
      modifies this`users
      ensures Valid()
      ensures (exists i :: 0 <= i < |old(users)| && Conflicts(old(users)[i], username, email)) ==>
                reply == Reply(400, Failure(UserExists)) && users == old(users)
      ensures (forall i :: 0 <= i < |old(users)| ==> !Conflicts(old(users)[i], username, email)) ==>
                match Candidate(newId, username, email, password, hash)
                case None => reply == Reply(500, Failure(ServerError)) && users == old(users)
                case Some(u) => users == old(users) + [u] && reply == Reply(201, Authed(newId, u.username, u.email, sign(newId)))
    {
      var conflict := FirstIndex(users, ConflictWith(username, email));
      if conflict.Some? {
        return Reply(400, Failure(UserExists));
      }
      var saved := CreateUser(newId, username, email, password, hash);
      if saved.None? {
        return Reply(500, Failure(ServerError));
      }
      var u := saved.value;
      forall i | 0 <= i < |users| ensures users[i].username != u.username && users[i].email != u.email {
        assert !ConflictWith(username, email)(users[i]);
      }
      CandidateIsStored(newId, username, email, password, hash);
      AppendKeepsTableValid(users, u);
      users := users + [u];
      reply := Reply(201, Authed(u.id, u.username, u.email, sign(u.id)));
    }

    /** `POST /login`. */
    method Login(email: Option<string>, password: Option<string>,
                 compare: (string, string) -> bool, sign: string -> string) returns (reply: Reply)
      ensures reply == LoginOutcome(users, email, password, compare, sign)
    {
      var found := FirstIndex(users, EmailIs(email));
      if found.None? {
        return Reply(401, Failure(BadCredentials));
      }
      if password.None? {
        return Reply(500, Failure(ServerError));
      }
      var doc := new UserDocument.Load(users[found.value]);
      if doc.MatchPassword(password.value, compare) {
        reply := Reply(200, Authed(doc.id, doc.username, doc.email, sign(doc.id)));
      } else {
        reply := Reply(401, Failure(BadCredentials));
      }
    }

    /** `POST /save-recipe/:id` for the caller `userId`. */
    method SaveRecipe(userId: string, recipeId: string, hash: string -> string) returns (reply: Reply)
      requires Valid()
      modifies this`users
      ensures Valid()
      ensures var k := FirstIndex(old(users), IdIs(userId));
              && (k.None? ==> reply == Reply(404, Failure(UserNotFound)) && users == old(users))
              && (k.Some? && recipeId in old(users)[k.value].savedRecipes ==>
                    reply == Reply(400, Failure(AlreadySaved)) && users == old(users))
              && (k.Some? && recipeId !in old(users)[k.value].savedRecipes ==>
                    users == old(users)[k.value := WithSaved(old(users)[k.value], recipeId)]
                    && reply == Reply(200, Collection(SavedMessage, old(users)[k.value].savedRecipes + [recipeId])))
    {
      var k := FirstIndex(users, IdIs(userId));
      if k.None? {
        return Reply(404, Failure(UserNotFound));
      }
      var i := k.value;
      if recipeId in users[i].savedRecipes {
        return Reply(400, Failure(AlreadySaved));
      }
      var updated := ResaveWithCollection(users[i], users[i].savedRecipes + [recipeId], hash);
      users := users[i := updated];
      reply := Reply(200, Collection(SavedMessage, updated.savedRecipes));
    }

    /** `DELETE /remove-recipe/:id` for the caller `userId`. */
    method RemoveRecipe(userId: string, recipeId: string, hash: string -> string) returns (reply: Reply)
      requires Valid()
      modifies this`users
      ensures Valid()
      ensures var k := FirstIndex(old(users), IdIs(userId));
              && (k.None? ==> reply == Reply(404, Failure(UserNotFound)) && users == old(users))
              && (k.Some? && recipeId !in old(users)[k.value].savedRecipes ==>
                    reply == Reply(400, Failure(NotInCollection)) && users == old(users))
              && (k.Some? && recipeId in old(users)[k.value].savedRecipes ==>
                    users == old(users)[k.value := WithoutSaved(old(users)[k.value], recipeId)]
                    && reply == Reply(200, Collection(RemovedMessage, RemoveAll(old(users)[k.value].savedRecipes, recipeId))))
    {
      var k := FirstIndex(users, IdIs(userId));
      if k.None? {
        return Reply(404, Failure(UserNotFound));
      }
      var i := k.value;
      if recipeId !in users[i].savedRecipes {
        return Reply(400, Failure(NotInCollection));
      }
      RemoveAllNoDuplicates(users[i].savedRecipes, recipeId);
      var updated := ResaveWithCollection(users[i], RemoveAll(users[i].savedRecipes, recipeId), hash);
      users := users[i := updated];
      reply := Reply(200, Collection(RemovedMessage, updated.savedRecipes));
    }
  }
}
