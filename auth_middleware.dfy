/**
 * The two route guards: protect reads a bearer token from the Authorization
 * header and loads the user it names; ownerOnly lets only owners through.
 * Token verification is a parameter standing for the signature check with
 * the server's secret.
 */
module AuthMiddleware {
  import opened Wrappers
  import opened Text
  import opened HostelSchema
  import opened UserSchema

  /** NoToken and TokenFailed are the two 401 replies; Next calls the handler
      with the loaded user, None when the token's user no longer exists. */
  datatype ProtectOutcome = NoToken | TokenFailed | Next(user: Option<UserView>)

  /** The token a header carries, when it carries one verify accepts. */
  function VerifiedId(header: string, verify: string -> Option<UserId>): (id: Option<UserId>)
    ensures id.Some? <==> (var t := SecondField(header); t.Some? && t.value != "" && verify(t.value).Some?)
    ensures id.Some? ==> verify(SecondField(header).value) == id
  {
    match SecondField(header)
    case None => None
    case Some(t) => if t == "" then None else verify(t)
  }

  function Protect(header: Option<string>, verify: string -> Option<UserId>, users: map<UserId, User>): (r: ProtectOutcome)
    ensures r == NoToken <==> header.None? || !StartsWith(header.value, "Bearer")
    ensures r.Next? <==> header.Some? && StartsWith(header.value, "Bearer") && VerifiedId(header.value, verify).Some?
    ensures r.Next? ==>
      var id := VerifiedId(header.value, verify).value;
      r.user == (if id in users then Some(View(users[id])) else None)
  {
    if header.None? || !StartsWith(header.value, "Bearer") then NoToken
    else match VerifiedId(header.value, verify)
      case None => TokenFailed
      case Some(id) => Next(if id in users then Some(View(users[id])) else None)
  }

  function ProtectStatus(r: ProtectOutcome): (code: int)
    ensures code == 401 <==> !r.Next?
  {
    if r.Next? then 200 else 401
  }

  /** A header written as "Bearer " followed by a token that verify accepts
      lets the request through with that token's user. */
  lemma BearerHeaderAccepted(t: string, verify: string -> Option<UserId>, users: map<UserId, User>)
    requires t != "" && ' ' !in t && verify(t).Some?
    ensures
      var id := verify(t).value;
      Protect(Some("Bearer " + t), verify, users) == Next(if id in users then Some(View(users[id])) else None)
  {
    SecondFieldOf("Bearer", t, []);
    assert "Bearer" + " " + t + [] == "Bearer " + t;
    assert ("Bearer " + t)[..6] == "Bearer";
  }

  /** A header without a second space-separated part fails verification,
      whatever verify would have said. */
  lemma BareBearerFails(verify: string -> Option<UserId>, users: map<UserId, User>)
    ensures Protect(Some("Bearer"), verify, users) == TokenFailed
  {
    assert ' ' !in "Bearer";
  }

  datatype Gate = Pass | Forbidden

  function OwnerOnly(user: Option<UserView>): (g: Gate)
    ensures g.Pass? <==> user.Some? && user.value.role == Owner
  {
    if user.Some? && user.value.role == Owner then Pass else Forbidden
  }

  function GateStatus(g: Gate): (code: int)
    ensures code == 403 <==> g.Forbidden?
  {
    if g.Pass? then 200 else 403
  }
}
