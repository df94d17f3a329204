/** The pieces both authentication middlewares share: the JWT claims, the
    `verifyToken` oracle and the extraction of the bearer token from the
    `Authorization` header. */
module Jwt {
  import opened Wrappers

  /** The payload `generateToken` signs: the user's id, login name and role (null for a
      user whose `rol` column is NULL). */
  datatype Claims = Claims(id: int, nombre_usuario: string, rol: Option<string>)

  /** `verifyToken(token)`: `jwt.verify` under the signing secret, giving the claims,
      or null when the signature or the 15-minute expiry does not check. The check
      itself is foreign code, so the model receives it as a function value. */
  type Verifier = string -> Option<Claims>

  const BearerPrefix: string := "Bearer "

  /** p occurs in s starting at index i. */
  predicate OccursAt(s: string, p: string, i: int) {
    0 <= i && i + |p| <= |s| && s[i..i + |p|] == p
  }

  /** i is the first index at which p occurs in s. */
  predicate FirstOccurrence(s: string, p: string, i: int) {
    OccursAt(s, p, i) && forall j :: 0 <= j < i ==> !OccursAt(s, p, j)
  }

  lemma OccursAtTail(s: string, p: string, i: int)
    requires |s| > 0 && i >= 0
    ensures OccursAt(s, p, i + 1) <==> OccursAt(s[1..], p, i)
  {
    if i + 1 + |p| <= |s| {
      assert s[1..][i..i + |p|] == s[i + 1..i + 1 + |p|];
    }
  }

  /** JavaScript `s.replace(p, '')` with a string pattern. */
  function RemoveFirst(s: string, p: string): string
    requires p != []
    decreases |s|
  {
    if |s| < |p| then s
    else if s[..|p|] == p then s[|p|..]
    else [s[0]] + RemoveFirst(s[1..], p)
  }

  /** Without an occurrence of p, `replace` leaves s unchanged. */
  lemma {:induction false} RemoveFirstAbsent(s: string, p: string)
    requires p != []
    requires forall i :: !OccursAt(s, p, i)
    ensures RemoveFirst(s, p) == s
    decreases |s|
  {
    if |s| >= |p| {
      assert !OccursAt(s, p, 0);
      forall i ensures !OccursAt(s[1..], p, i) {
        if i >= 0 { OccursAtTail(s, p, i); }
      }
      RemoveFirstAbsent(s[1..], p);
    }
  }

  /** `replace` removes the FIRST occurrence of p, wherever in s it stands, and
      nothing else. */
  lemma {:induction false} RemoveFirstAt(s: string, p: string, i: int)
    requires p != []
    requires FirstOccurrence(s, p, i)
    ensures RemoveFirst(s, p) == s[..i] + s[i + |p|..]
    decreases |s|
  {
    if i > 0 {
      assert !OccursAt(s, p, 0);
      var t := s[1..];
      forall j | 0 <= j < i - 1 ensures !OccursAt(t, p, j) { OccursAtTail(s, p, j); }
      OccursAtTail(s, p, i - 1);
      RemoveFirstAt(t, p, i - 1);
      assert s[..i] + s[i + |p|..] == [s[0]] + (t[..i - 1] + t[i - 1 + |p|..]);
    }
  }

  /** `req.headers.authorization?.replace('Bearer ', '')` followed by the `!token`
      test of both middlewares: None when the header is absent or nothing is left of
      it, else the remaining text. */
  function BearerToken(authorization: Option<string>): (t: Option<string>)
    ensures t.None? <==> authorization.None? || RemoveFirst(authorization.value, BearerPrefix) == ""
    ensures t.Some? ==> t.value != "" && t.value == RemoveFirst(authorization.value, BearerPrefix)
  {
    match authorization
    case None => None
    case Some(h) =>
      var token := RemoveFirst(h, BearerPrefix);
      if token == "" then None else Some(token)
  }

  /** A well-formed header `Bearer <token>` yields exactly the token. */
  lemma BearerHeaderYieldsToken(token: string)
    requires token != ""
    ensures BearerToken(Some(BearerPrefix + token)) == Some(token)
  {
    var h := BearerPrefix + token;
    assert h[..|BearerPrefix|] == BearerPrefix;
    assert h[|BearerPrefix|..] == token;
  }

  /** A header without any `Bearer ` in it is taken whole as the token: the prefix is
      not required. */
  lemma HeaderWithoutPrefixIsToken(h: string)
    requires h != ""
    requires forall i :: !OccursAt(h, BearerPrefix, i)
    ensures BearerToken(Some(h)) == Some(h)
  {
    RemoveFirstAbsent(h, BearerPrefix);
  }

  /** The header `Bearer ` alone leaves an empty token, which counts as missing. */
  lemma BarePrefixIsMissingToken()
    ensures BearerToken(Some(BearerPrefix)) == None
  {
  }
}
