/** The `protect` guard in front of the private HTTP routes: the bearer token
    from the `Authorization` header, its verification and the user lookup. */
module AuthMiddleware {
  import opened Wrappers
  import opened Strings
  import opened Wire
  import opened Http
  import opened Models
  import opened Store

  const NoToken := "Not authorized, no token provided"
  const UserGone := "User no longer exists"
  const TokenInvalid := "Not authorized, token invalid"

  /** The token `protect` reads: the second space-separated piece of a header
      that begins with the letters `Bearer`, when that piece is non-empty. */
  function ExtractToken(header: Option<string>): (r: Option<string>)
    ensures r.Some? ==> header.Some? && StartsWith(header.value, "Bearer")
    ensures r.Some? ==> r.value != "" && ' ' !in r.value
    ensures r.Some? <==>
      (header.Some? && StartsWith(header.value, "Bearer") && |Split(header.value, ' ')| >= 2
       && Split(header.value, ' ')[1] != "")
    ensures r.Some? ==> r.value == Split(header.value, ' ')[1]
  {
    if header.None? || !StartsWith(header.value, "Bearer") then None
    else
      var pieces := Split(header.value, ' ');
      if |pieces| < 2 || pieces[1] == "" then None else Some(pieces[1])
  }

  /** Any scheme word that merely begins with `Bearer`, followed by one space
      and a token without spaces, yields exactly that token: the prefix
      test is looser than the scheme of section 2.1 of RFC 6750. */
  lemma BearerPrefixToken(x: string, t: string)
    requires ' ' !in x && t != "" && ' ' !in t
    ensures ExtractToken(Some("Bearer" + x + " " + t)) == Some(t)
  {
    var h := "Bearer" + x + " " + t;
    assert h[..6] == "Bearer";
    assert h == ("Bearer" + x) + [' '] + t;
    SplitAtFirst("Bearer" + x, t, ' ');
    SplitAbsent(t, ' ');
  }

  /** The form section 2.1 of RFC 6750 prescribes, `Bearer` and one space
      before a token without spaces, yields exactly that token. */
  lemma BearerHeaderToken(t: string)
    requires t != "" && ' ' !in t
    ensures ExtractToken(Some("Bearer " + t)) == Some(t)
  {
    BearerPrefixToken("", t);
    assert "Bearer" + "" + " " + t == "Bearer " + t;
  }

  /** Anything after a further space is ignored. */
  lemma BearerHeaderTrailer(t: string, rest: string)
    requires t != "" && ' ' !in t
    ensures ExtractToken(Some("Bearer " + t + " " + rest)) == Some(t)
  {
    assert "Bearer " + t + " " + rest == "Bearer" + [' '] + (t + [' '] + rest);
    SplitAtFirst("Bearer", t + [' '] + rest, ' ');
    SplitAtFirst(t, rest, ' ');
  }

  /** For instance `Bearerx abc` is read as carrying the token `abc`. */
  lemma LooseBearerPrefix()
    ensures ExtractToken(Some("Bearerx abc")) == Some("abc")
  {
    BearerPrefixToken("x", "abc");
    assert "Bearer" + "x" + " " + "abc" == "Bearerx abc";
  }

  /** The scheme is matched case-sensitively, and a second space before the
      token leaves an empty second piece: neither header yields a token. */
  lemma RejectedBearerForms()
    ensures ExtractToken(Some("bearer abc")) == None
    ensures ExtractToken(Some("Bearer  abc")) == None
  {
    assert "Bearer  abc" == "Bearer" + [' '] + ([' '] + "abc");
    SplitAtFirst("Bearer", [' '] + "abc", ' ');
    SplitAtFirst("", "abc", ' ');
  }

  /** What `protect` did, and the `req.user` it set when it passed. */
  datatype Guarded = Guarded(step: Step, user: Option<User>)

  /** `protect`: `verify` is `jwt.verify` followed by reading the `id` claim,
      None where verification throws. */
  function Protect(header: Option<string>, verify: string -> Option<Id>, users: seq<User>): (r: Guarded)
    ensures r.step.nextCalls <= 1
    ensures r.step.nextCalls == 1 <==> r.user.Some?
    ensures r.user.Some? ==> r.step.response.None? && r.user.value in users
    ensures ExtractToken(header).None? ==> r == Guarded(Step(0, Some(Failure(401, NoToken))), None)
    ensures ExtractToken(header).Some? && verify(ExtractToken(header).value).None? ==>
      r == Guarded(Step(0, Some(Failure(401, TokenInvalid))), None)
    ensures ExtractToken(header).Some? && verify(ExtractToken(header).value).Some? ==>
      var found := UserById(users, verify(ExtractToken(header).value).value);
      && (found.None? ==> r == Guarded(Step(0, Some(Failure(401, UserGone))), None))
      && (found.Some? ==> r == Guarded(Step(1, None), found))
  {
    match ExtractToken(header)
    case None => Guarded(Step(0, Some(Failure(401, NoToken))), None)
    case Some(t) =>
      match verify(t)
      case None => Guarded(Step(0, Some(Failure(401, TokenInvalid))), None)
      case Some(id) =>
        match UserById(users, id)
        case None => Guarded(Step(0, Some(Failure(401, UserGone))), None)
        case Some(u) => Guarded(Step(1, None), Some(u))
  }

  /** A request is let through exactly when it carries a token that verifies
      to the id of a stored user, and `req.user` is that user. */
  lemma ProtectPassesExactly(header: Option<string>, verify: string -> Option<Id>, users: seq<User>, u: User)
    ensures Protect(header, verify, users).user == Some(u) <==>
      && ExtractToken(header).Some?
      && verify(ExtractToken(header).value) == Some(u.id)
      && UserById(users, u.id) == Some(u)
  {
  }
}
