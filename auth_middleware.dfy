/**
 * The bearer-token gate `protect` of backend/middleware/authMiddleware.js:
 * a decision over the `Authorization` header that either passes the found
 * user on to the next handler or answers 401 with one of three messages.
 *
 * `jsonwebtoken`'s verification and the user lookup are parameters, with
 * one fixed fact: verifying an undefined or empty token always throws.
 */
module AuthMiddleware {
  import opened JsBuiltins
  import opened UserModel

  /** The payload a verified token carries; `id` is undefined when the payload lacks it. */
  datatype Payload = Payload(id: Option<string>)

  /** The outcome of `User.findById(id).select('-password')`. */
  datatype Lookup = Found(user: UserRecord) | NoUser | LookupThrew

  /** Exactly one of: `next()` with `req.user` set, or a 401 with its error message. */
  datatype Outcome = Next(user: UserRecord) | Unauthorized(error: string)

  const Scheme := "Bearer"
  const NoToken := "Not authorized, no token"
  const TokenFailed := "Not authorized, token failed"
  const UnknownUser := "User not found or unauthorized"

  /** `header.split(' ')[1]`: the second space-separated field, if there is one. */
  function TokenOf(header: string): (r: Option<string>)
    ensures r.Some? <==> |Split(header, ' ')| > 1
    ensures r.Some? ==> r.value == Split(header, ' ')[1] && ' ' !in r.value
  {
    var fields := Split(header, ' ');
    if |fields| > 1 then Some(fields[1]) else None
  }

  /** `jwt.verify(token, secret)`; `None` is a thrown error. */
  function Verified(token: Option<string>, verify: string -> Option<Payload>): (r: Option<Payload>)
    ensures token.None? || token.value == "" ==> r.None?
    ensures token.Some? && token.value != "" ==> r == verify(token.value)
  {
    if token.None? || token.value == "" then None else verify(token.value)
  }

  /** What `protect` decides for the header `header`. */
  function Decide(header: Option<string>, verify: string -> Option<Payload>, lookup: string -> Lookup): Outcome
  {
    if header.None? || !StartsWith(header.value, Scheme) then Unauthorized(NoToken)
    else match Verified(TokenOf(header.value), verify)
      case None => Unauthorized(TokenFailed)
      // `findById(undefined)` finds no one
      case Some(payload) =>
        if payload.id.None? then Unauthorized(UnknownUser)
        else match lookup(payload.id.value)
          case LookupThrew => Unauthorized(TokenFailed)
          case NoUser => Unauthorized(UnknownUser)
          case Found(u) => Next(u)
  }

  /** A missing header, or one that does not start with the case-sensitive "Bearer", has no token. */
  lemma NoSchemeNoToken(header: Option<string>, verify: string -> Option<Payload>, lookup: string -> Lookup)
    requires header.None? || !StartsWith(header.value, Scheme)
    ensures Decide(header, verify, lookup) == Unauthorized(NoToken)
  {
  }

  /** "Bearer" alone, or followed by one space only, gets past the prefix test and fails as a token. */
  lemma BareSchemeFailsAsToken(verify: string -> Option<Payload>, lookup: string -> Lookup)
    ensures Decide(Some(Scheme), verify, lookup) == Unauthorized(TokenFailed)
    ensures Decide(Some(Scheme + " "), verify, lookup) == Unauthorized(TokenFailed)
  {
    assert StartsWith(Scheme, Scheme);
    SplitWithoutSeparator(Scheme, ' ');
    assert StartsWith(Scheme + " ", Scheme);
    SplitAtFirstSeparator(Scheme, "", ' ');
    assert Scheme + [' '] + "" == Scheme + " ";
    SplitWithoutSeparator("", ' ');
  }

  /** The fields of "<first> <token>", as `split(' ')` gives them. */
  lemma FieldsOfTwo(first: string, token: string)
    requires ' ' !in first && ' ' !in token
    ensures Split(first + " " + token, ' ') == [first, token]
  {
    SplitAtFirstSeparator(first, token, ' ');
    assert first + [' '] + token == first + " " + token;
    SplitWithoutSeparator(token, ' ');
  }

  /** The fields of "<first> <token> <rest>", as `split(' ')` gives them. */
  lemma FieldsOfMore(first: string, token: string, rest: string)
    requires ' ' !in first && ' ' !in token
    ensures Split(first + " " + token + " " + rest, ' ') == [first, token] + Split(rest, ' ')
  {
    SplitAtFirstSeparator(first, token + " " + rest, ' ');
    assert first + [' '] + (token + " " + rest) == first + " " + token + " " + rest;
    SplitAtFirstSeparator(token, rest, ' ');
    assert token + [' '] + rest == token + " " + rest;
  }

  /**
   * A header "Bearer <token>" whose token verifies to the id of a stored
   * user passes the gate with that user.
   */
  lemma ValidTokenPasses(token: string, id: string, u: UserRecord,
                         verify: string -> Option<Payload>, lookup: string -> Lookup)
    requires token != "" && ' ' !in token
    requires verify(token) == Some(Payload(Some(id))) && lookup(id) == Found(u)
    ensures Decide(Some(Scheme + " " + token), verify, lookup) == Next(u)
  {
    FieldsOfTwo(Scheme, token);
    assert (Scheme + " " + token)[..|Scheme|] == Scheme;
  }

  /**
   * For a header "Bearer <token>": a failed verification or a lookup that
   * throws is a token failure, and a verified payload without a stored user
   * (no id, or an id nobody has) is an unknown user.
   */
  lemma VerifyAndLookupFailures(token: string, verify: string -> Option<Payload>, lookup: string -> Lookup)
    requires token != "" && ' ' !in token
    ensures verify(token).None? ==> Decide(Some(Scheme + " " + token), verify, lookup) == Unauthorized(TokenFailed)
    ensures verify(token).Some? && verify(token).value.id.None? ==>
              Decide(Some(Scheme + " " + token), verify, lookup) == Unauthorized(UnknownUser)
    ensures verify(token).Some? && verify(token).value.id.Some? && lookup(verify(token).value.id.value) == LookupThrew ==>
              Decide(Some(Scheme + " " + token), verify, lookup) == Unauthorized(TokenFailed)
    ensures verify(token).Some? && verify(token).value.id.Some? && lookup(verify(token).value.id.value) == NoUser ==>
              Decide(Some(Scheme + " " + token), verify, lookup) == Unauthorized(UnknownUser)
  {
    FieldsOfTwo(Scheme, token);
    assert (Scheme + " " + token)[..|Scheme|] == Scheme;
  }

  /**
   * Only the prefix is tested, not the whole scheme word, and fields after
   * the token are ignored: "Bearerxyz <token> more" decides like
   * "Bearer <token>", where section 2.1 of RFC 6750 asks for exactly
   * "Bearer", one space, and the token.
   */
  lemma OnlyPrefixAndSecondFieldMatter(suffix: string, token: string, rest: string,
                                       verify: string -> Option<Payload>, lookup: string -> Lookup)
    requires ' ' !in suffix && ' ' !in token
    ensures Decide(Some(Scheme + suffix + " " + token + " " + rest), verify, lookup)
            == Decide(Some(Scheme + " " + token), verify, lookup)
  {
    FieldsOfMore(Scheme + suffix, token, rest);
    FieldsOfTwo(Scheme, token);
    assert (Scheme + suffix + " " + token + " " + rest)[..|Scheme|] == Scheme;
    assert (Scheme + " " + token)[..|Scheme|] == Scheme;
  }

  /** An incoming request: its header, and the `user` field `protect` sets. */
  class Request {
    const authorization: Option<string>
    var user: Option<UserRecord>

    constructor (authorization: Option<string>)
      ensures this.authorization == authorization && user == None
    {
      this.authorization := authorization;
      user := None;
    }

    /** `protect(req, res, next)`. */
    method Protect(verify: string -> Option<Payload>, lookup: string -> Lookup) returns (outcome: Outcome)
      modifies this`user
      ensures outcome == Decide(authorization, verify, lookup)
      ensures outcome.Next? ==> user == Some(outcome.user)
      ensures outcome == Unauthorized(UnknownUser) ==> user == None
      ensures outcome == Unauthorized(NoToken) || outcome == Unauthorized(TokenFailed) ==> user == old(user)
    {
      var token: Option<string> := None;
      if authorization.Some? && StartsWith(authorization.value, Scheme) {
        token := TokenOf(authorization.value);
        var decoded := Verified(token, verify);
        if decoded.None? {
          return Unauthorized(TokenFailed);
        }
        if decoded.value.id.None? {
          user := None;
        } else {
          var found := lookup(decoded.value.id.value);
          if found.LookupThrew? {
            return Unauthorized(TokenFailed);
          }
          user := if found.Found? then Some(found.user) else None;
        }
        if user.None? {
          return Unauthorized(UnknownUser);
        }
        return Next(user.value);
      }
      return Unauthorized(NoToken);
    }
  }
}
