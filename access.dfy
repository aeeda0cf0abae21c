/** backend/src/middleware/auth.js: finding the session token, attaching the
    signed-in user to the request, and the two access gates. JWT
    verification is a parameter that yields the token's user id, or None
    where `jwt.verify` throws. */
module Access {
  import opened Common
  import opened Schema

  /** `/^bearer$/i`: the word "bearer" in any ASCII case. */
  predicate IsBearer(word: string)
  {
    ToLower(word) == "bearer"
  }

  /** The token of an `Authorization` header of the form `Bearer <token>`:
      after trimming, exactly two pieces separated by one space. */
  function BearerToken(header: string): (t: Option<string>)
    ensures t.Some? <==> |Split(Trim(header), ' ')| == 2 && IsBearer(Split(Trim(header), ' ')[0])
    ensures t.Some? ==> Trim(header) == Split(Trim(header), ' ')[0] + " " + t.value
    ensures t.Some? ==> t.value != "" && ' ' !in t.value
  {
    var h := Trim(header);
    var parts := Split(h, ' ');
    if |parts| == 2 && IsBearer(parts[0]) then
      assert h == parts[0] + " " + parts[1] by {
        assert Join(parts[1..], " ") == parts[1];
      }
      assert h[|h| - 1] == if parts[1] == "" then ' ' else parts[1][|parts[1]| - 1];
      Some(parts[1])
    else None
  }

  /** `extractToken`: a non-empty `loan_session` cookie wins; otherwise the
      `authorization` header (or, when that is empty, `Authorization`) must
      be a bearer header. */
  function ExtractToken(cookie: Option<string>, authorization: Option<string>, authorizationAlt: Option<string>): (t: Option<string>)
    ensures Filled(cookie) ==> t == cookie
    ensures !Filled(cookie) && !Filled(OrElse(authorization, authorizationAlt)) ==> t.None?
    ensures !Filled(cookie) && Filled(OrElse(authorization, authorizationAlt))
            ==> t == BearerToken(OrElse(authorization, authorizationAlt).value)
    ensures t.Some? ==> t.value != ""
  {
    if Filled(cookie) then cookie
    else
      var header := OrElse(authorization, authorizationAlt);
      if Filled(header) then BearerToken(header.value) else None
  }

  /** A well-formed bearer header yields exactly its token, whatever the
      case of the scheme word. */
  lemma BearerHeaderAccepted(scheme: string, token: string)
    requires IsBearer(scheme)
    requires token != "" && ' ' !in token && !IsWhitespace(token[|token| - 1])
    ensures ExtractToken(None, Some(scheme + " " + token), None) == Some(token)
  {
    var header := scheme + " " + token;
    assert |scheme| == 6;
    assert ' ' !in scheme by {
      forall i | 0 <= i < |scheme| ensures scheme[i] != ' ' {
        assert ToLower(scheme)[i] == LowerChar(scheme[i]);
      }
    }
    assert !IsWhitespace(header[0]) by {
      assert ToLower(scheme)[0] == LowerChar(scheme[0]);
    }
    assert header[|header| - 1] == token[|token| - 1];
    TrimUnchanged(header);
    assert Join([scheme, token], " ") == header by {
      assert [scheme, token][1..] == [token];
    }
    SplitJoin([scheme, token], ' ');
  }

  /** The user a token names: the stored user whose id the verified token
      carries, without the password hash. */
  function Authenticate(token: Option<string>, verify: string -> Option<int>, users: seq<UserRow>): (u: Option<PublicUser>)
    ensures u.Some? <==> token.Some? && verify(token.value).Some? && UserById(users, verify(token.value).value).Some?
    ensures u.Some? ==> u.value == Public(UserById(users, verify(token.value).value).value)
  {
    if token.None? then None
    else
      var id := verify(token.value);
      if id.Some? && UserById(users, id.value).Some? then Some(Public(UserById(users, id.value).value)) else None
  }

  /** The part of an Express request the portal reads, and the `user` that
      `attachUser` assigns. */
  class Request {
    const cookie: Option<string>
    const authorization: Option<string>
    const authorizationAlt: Option<string>
    var user: Option<PublicUser>

    constructor (cookie: Option<string>, authorization: Option<string>, authorizationAlt: Option<string>)
      ensures this.cookie == cookie && this.authorization == authorization
      ensures this.authorizationAlt == authorizationAlt && user.None?
    {
      this.cookie := cookie;
      this.authorization := authorization;
      this.authorizationAlt := authorizationAlt;
      user := None;
    }

    /** `attachUser`: any failure (no token, a token that does not verify,
        no such user) leaves `user` null. */
    method AttachUser(verify: string -> Option<int>, users: seq<UserRow>)
      modifies this
      ensures user == Authenticate(ExtractToken(cookie, authorization, authorizationAlt), verify, users)
      ensures ExtractToken(cookie, authorization, authorizationAlt).None? ==> user.None?
    {
      var token := ExtractToken(cookie, authorization, authorizationAlt);
      if token.None? {
        user := None;
        return;
      }
      var id := verify(token.value);
      if id.None? {
        user := None;
        return;
      }
      var row := UserById(users, id.value);
      if row.Some? {
        user := Some(Public(row.value));
      } else {
        user := None;
      }
    }
  }

  /** A middleware decision: go on to the handler, or answer with an error. */
  datatype Gate = Proceed | Deny(error: ApiError)

  /** `requireAuth` */
  function RequireAuth(user: Option<PublicUser>): (g: Gate)
    ensures g.Proceed? <==> user.Some?
    ensures g.Deny? ==> g.error == ApiError(401, "Authentication required")
  {
    if user.None? then Deny(ApiError(401, "Authentication required")) else Proceed
  }

  /** `requireAdmin` */
  function RequireAdmin(user: Option<PublicUser>): (g: Gate)
    ensures g.Proceed? <==> user.Some? && user.value.role == AdminRole
    ensures g.Deny? ==> g.error == ApiError(403, "Administrator access required")
  {
    if user.None? || user.value.role != AdminRole then Deny(ApiError(403, "Administrator access required"))
    else Proceed
  }

  /** `/me`: status 200 with the attached user, or with null. */
  function Me(user: Option<PublicUser>): (r: (int, Option<PublicUser>))
    ensures r.0 == 200
    ensures r.1.None? <==> RequireAuth(user).Deny?
    ensures r.1.Some? ==> r.1 == user
  {
    (200, user)
  }

  /** Without a session `/me` answers null, and never an error. */
  lemma MeWithoutSession(verify: string -> Option<int>, users: seq<UserRow>)
    ensures Me(Authenticate(ExtractToken(None, None, None), verify, users)) == (200, None)
  {
  }

  /** Whoever passes the admin gate passes the authentication gate. */
  lemma AdminPassesAuth(user: Option<PublicUser>)
    requires RequireAdmin(user).Proceed?
    ensures RequireAuth(user).Proceed?
  {
  }
}
