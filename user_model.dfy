/**
 * The user document of backend/models/User.js: the stored record, the
 * normalisation the schema's `trim` and `lowercase` options apply, the
 * required and unique constraints, and the document whose `save` runs the
 * pre-save hook that rehashes the password only when it was modified.
 *
 * bcrypt is abstract: `hash` (salt included) and `compare` are parameters.
 * Ids are opaque strings.
 */
module UserModel {
  import opened JsBuiltins

  /** A user as stored; `password` is the stored hash. */
  datatype UserRecord = UserRecord(id: string, username: string, email: string, password: string, savedRecipes: seq<string>)

  /** The `trim: true` setter of `username`. */
  function NormalizeUsername(s: string): (r: string)
    ensures Trimmed(r) && |r| <= |s|
  {
    Trim(s)
  }

  /** The `trim: true` and `lowercase: true` setters of `email`. */
  function NormalizeEmail(s: string): (r: string)
    ensures Trimmed(r) && |r| <= |s|
    ensures forall i :: 0 <= i < |r| ==> !('A' <= r[i] <= 'Z')
  {
    var t := Trim(s);
    ToLowerKeepsTrimmed(t);
    ToLower(t)
  }

  /** The two setters commute, so their order does not change the stored email. */
  lemma EmailSetterOrderIrrelevant(s: string)
    ensures NormalizeEmail(s) == Trim(ToLower(s))
  {
    TrimToLowerCommute(s);
  }

  /** Normalising a username twice is normalising it once. */
  lemma UsernameNormalizeIdempotent(s: string)
    ensures NormalizeUsername(NormalizeUsername(s)) == NormalizeUsername(s)
  {
    TrimIdempotent(s);
  }

  /** Normalising an email twice is normalising it once. */
  lemma EmailNormalizeIdempotent(s: string)
    ensures NormalizeEmail(NormalizeEmail(s)) == NormalizeEmail(s)
  {
    var t := Trim(s);
    var l := ToLower(t);
    ToLowerIdempotent(t);
    ToLowerKeepsTrimmed(t);
    TrimOfTrimmed(l);
    assert NormalizeEmail(l) == ToLower(l);
  }

  /** A username as its setter leaves it: no white space at either end. */
  predicate NormalUsername(s: string)
  {
    Trimmed(s)
  }

  /** An email as its setters leave it: trimmed, with no upper-case letter. */
  predicate NormalEmail(s: string)
  {
    Trimmed(s) && forall i :: 0 <= i < |s| ==> !('A' <= s[i] <= 'Z')
  }

  /** The normal forms are exactly the values normalisation leaves unchanged. */
  lemma NormalFormsAreFixedPoints(s: string)
    ensures NormalUsername(s) <==> NormalizeUsername(s) == s
    ensures NormalEmail(s) <==> NormalizeEmail(s) == s
  {
    if NormalUsername(s) {
      TrimOfTrimmed(s);
    }
    if NormalEmail(s) {
      TrimOfTrimmed(s);
      assert ToLower(s) == s;
    }
  }

  /**
   * What the schema guarantees of every stored user: username and email
   * are stored normalised, and the three required strings are non-empty.
   */
  predicate Stored(u: UserRecord)
  {
    && NormalUsername(u.username) && u.username != ""
    && NormalEmail(u.email) && u.email != ""
    && u.password != ""
  }

  /** The two `unique` indexes: no two users share a username or an email. */
  predicate Unique(users: seq<UserRecord>)
  {
    forall i, j :: 0 <= i < j < |users| ==>
      users[i].id != users[j].id && users[i].username != users[j].username && users[i].email != users[j].email
  }

  /** The required-field validation of a document about to be saved. */
  function RequiredMissing(username: string, email: string, password: string): (r: seq<string>)
    ensures r == [] <==> username != "" && email != "" && password != ""
  {
    (if username == "" then ["username"] else [])
    + (if email == "" then ["email"] else [])
    + (if password == "" then ["password"] else [])
  }

  /** A Mongoose user document. */
  class UserDocument {
    var id: string
    var username: string
    var email: string
    var password: string
    var savedRecipes: seq<string>
    /** `isModified('password')`. */
    var passwordModified: bool

    /** `new User({ username, email, password })`: the setters run and every path counts as modified. */
    constructor Create(id: string, username: string, email: string, password: string)
      ensures this.id == id && this.username == NormalizeUsername(username) && this.email == NormalizeEmail(email)
      ensures this.password == password && savedRecipes == [] && passwordModified
    {
      var name, mail := NormalizeUsername(username), NormalizeEmail(email);
      this.id, this.username, this.email, this.password := id, name, mail, password;
      savedRecipes, passwordModified := [], true;
    }

    /** A document loaded from the store: nothing is modified yet. */
    constructor Load(u: UserRecord)
      ensures Record() == u && !passwordModified
    {
      id, username, email, password, savedRecipes := u.id, u.username, u.email, u.password, u.savedRecipes;
      passwordModified := false;
    }

    function Record(): (r: UserRecord)
      reads this
      ensures r.id == id && r.username == username && r.email == email
      ensures r.password == password && r.savedRecipes == savedRecipes
    {
      UserRecord(id, username, email, password, savedRecipes)
    }

    /** `user.savedRecipes.push(id)`. */
    method PushSaved(recipeId: string)
      modifies this`savedRecipes
      ensures savedRecipes == old(savedRecipes) + [recipeId]
    {
      savedRecipes := savedRecipes + [recipeId];
    }

    /** `user.savedRecipes = list`. */
    method SetSaved(list: seq<string>)
      modifies this`savedRecipes
      ensures savedRecipes == list
    {
      savedRecipes := list;
    }

    /** The pre-save hook: hash the password only when it was modified. */
    method PreSave(hash: string -> string)
      modifies this`password
      ensures passwordModified ==> password == hash(old(password))
      ensures !passwordModified ==> password == old(password)
    {
      if !passwordModified {
        return;
      }
      password := hash(password);
    }

    /**
     * `save()`: validation of the required fields (on the value before
     * hashing), then the pre-save hook; the saved state is no longer modified.
     * The unique indexes are checked by the store, not here.
     */
    method Save(hash: string -> string) returns (r: Result<UserRecord, seq<string>>)
      modifies this`password, this`passwordModified
      ensures RequiredMissing(username, email, old(password)) != [] ==>
                r == Err(RequiredMissing(username, email, old(password))) && password == old(password)
                && passwordModified == old(passwordModified)
      ensures RequiredMissing(username, email, old(password)) == [] ==>
                r == Ok(Record()) && !passwordModified
                && (old(passwordModified) ==> password == hash(old(password)))
                && (!old(passwordModified) ==> password == old(password))
    {
      var missing := RequiredMissing(username, email, password);
      if missing != [] {
        return Err(missing);
      }
      PreSave(hash);
      passwordModified := false;
      r := Ok(Record());
    }

    /** `matchPassword`: depends only on the candidate and the stored hash. */
    function MatchPassword(candidate: string, compare: (string, string) -> bool): (r: bool)
      reads this
      ensures r == compare(candidate, password)
    {
      compare(candidate, password)
    }
  }

  /**
   * A new user saved once, then saved again after a change to the
   * collection: `matchPassword` compares with the hash of the original
   * password after both saves, because the second save does not rehash.
   * A document that failed validation still holds the plain password.
   */
  method MatchAfterSaves(id: string, username: string, email: string, password: string, collection: seq<string>,
                         hash: string -> string, compare: (string, string) -> bool, candidate: string)
    returns (saved: bool, first: bool, second: bool)
    ensures saved <==> RequiredMissing(NormalizeUsername(username), NormalizeEmail(email), password) == []
    ensures saved ==> first == compare(candidate, hash(password)) && second == compare(candidate, hash(password))
    ensures !saved ==> first == compare(candidate, password)
  {
    var doc := new UserDocument.Create(id, username, email, password);
    var r := doc.Save(hash);
    saved := r.Ok?;
    first := doc.MatchPassword(candidate, compare);
    doc.SetSaved(collection);
    var again := doc.Save(hash);
    second := doc.MatchPassword(candidate, compare);
  }
}
