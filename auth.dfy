/**
 * The authorization middlewares. `verifyToken` takes the bearer token from
 * the `Authorization` header and stores its verified payload as `req.user`;
 * `verifyAdmin` and `verifySeller` admit a request by the role stored on the
 * user record that the payload's `userId` names, not by the role the token
 * carries.
 */
module Auth {
  import opened Common
  import opened Http

  const NoTokenMessage := "Access denied. No token provided."
  const InvalidTokenMessage := "Invalid token."
  const AdminRequiredMessage := "Access denied. Admin privileges required."
  const SellerRequiredMessage := "Access denied. Seller privileges required."
  const ServerErrorMessage := "Server error during authorization check."

  /** The text `verifyToken` removes from the header. */
  const Bearer := "Bearer "

  /**
   * `jwt.verify(token, process.env.JWT_SECRET)` at the current time: the
   * payload of a token whose signature and expiry check out, None where it
   * throws.
   */
  type Verifier = string -> Option<Identity>

  /** `pat` occurs in `s` at position `i`. */
  predicate OccursAt(s: string, pat: string, i: nat)
  {
    i + |pat| <= |s| && s[i..i + |pat|] == pat
  }

  /** `s.indexOf(pat, from)`: the first position at or after `from` where `pat` occurs. */
  function IndexOf(s: string, pat: string, from: nat): (r: Option<nat>)
    requires from <= |s|
    decreases |s| - from
    ensures r.Some? ==>
      from <= r.value && OccursAt(s, pat, r.value) &&
      forall j :: from <= j < r.value ==> !OccursAt(s, pat, j)
    ensures r.None? ==> forall j :: from <= j <= |s| ==> !OccursAt(s, pat, j)
  {
    if OccursAt(s, pat, from) then Some(from)
    else if from == |s| then None
    else IndexOf(s, pat, from + 1)
  }

  /**
   * `s.replace(pat, rep)` with a string pattern: the first occurrence of
   * `pat` is replaced, and only that one.
   */
  function ReplaceFirst(s: string, pat: string, rep: string): (r: string)
    ensures (forall j :: 0 <= j <= |s| ==> !OccursAt(s, pat, j)) ==> r == s
    ensures forall i :: 0 <= i <= |s| && OccursAt(s, pat, i) && (forall j :: 0 <= j < i ==> !OccursAt(s, pat, j)) ==>
      r == s[..i] + rep + s[i + |pat|..]
  {
    match IndexOf(s, pat, 0)
    case None => s
    case Some(i) => s[..i] + rep + s[i + |pat|..]
  }

  /** `req.header("Authorization")?.replace("Bearer ", "")`: None when there is no header. */
  function ExtractToken(header: Option<string>): (token: Option<string>)
    ensures token.None? <==> header.None?
    ensures header.Some? ==> |token.value| == |header.value| || |token.value| + |Bearer| == |header.value|
  {
    match header
    case None => None
    case Some(h) => Some(ReplaceFirst(h, Bearer, ""))
  }

  /**
   * The decision of `verifyToken`: 401 when there is no token (no header, or
   * one that reduces to the empty string), 400 when verification throws,
   * `next` when it succeeds.
   */
  function TokenOutcome(header: Option<string>, verify: Verifier): (o: Outcome)
    ensures o == Respond(401, ErrorBody(NoTokenMessage, None)) <==> ExtractToken(header) in {None, Some("")}
    ensures o == Respond(400, ErrorBody(InvalidTokenMessage, None)) <==>
      ExtractToken(header) !in {None, Some("")} && verify(ExtractToken(header).value).None?
    ensures o == Continue <==>
      ExtractToken(header) !in {None, Some("")} && verify(ExtractToken(header).value).Some?
  {
    match ExtractToken(header)
    case None => Respond(401, ErrorBody(NoTokenMessage, None))
    case Some(token) =>
      if token == "" then Respond(401, ErrorBody(NoTokenMessage, None))
      else if verify(token).None? then Respond(400, ErrorBody(InvalidTokenMessage, None))
      else Continue
  }

  /**
   * The middleware `verifyToken`: on success `req.user` becomes the decoded
   * payload and `next` is called; otherwise one error response is written
   * and `req.user` is left as it was.
   */
  method VerifyToken(ex: Exchange, verify: Verifier)
    modifies ex`user, ex`sent, ex`nextCalls
    ensures ex.Completed(TokenOutcome(ex.authorization, verify))
    ensures TokenOutcome(ex.authorization, verify) == Continue ==>
      ex.user.Some? && ex.user == verify(ExtractToken(ex.authorization).value)
    ensures TokenOutcome(ex.authorization, verify) != Continue ==> ex.user == old(ex.user)
  {
    var token := ExtractToken(ex.authorization);
    if token.None? || token.value == "" {
      ex.Finish(Respond(401, ErrorBody(NoTokenMessage, None)));
      return;
    }
    var decoded := verify(token.value);
    if decoded.None? {
      ex.Finish(Respond(400, ErrorBody(InvalidTokenMessage, None)));
      return;
    }
    ex.user := decoded;
    ex.Finish(Continue);
  }

  /** A record of the `users` collection; the gates read only its role. */
  datatype User = User(email: string, role: Option<string>)

  /**
   * The `users` collection as the role gates see it: the records by `_id`,
   * whether the database answers, and `new ObjectId(s)`, which throws (None)
   * for a string that is not an ObjectId.
   */
  datatype UserStore = UserStore(
    users: map<string, User>,
    reachable: bool,
    parseObjectId: string -> Option<string>)

  /** The result of `findOne({ _id: new ObjectId(req.user.userId) })`, or the exception on the way. */
  datatype Lookup = Found(user: User) | NotFound | Threw

  /** The lookup both role gates perform. */
  function FindUser(store: UserStore, user: Option<Identity>): Lookup
  {
    match user
    case None => Threw  // req.user is undefined, so reading its userId throws
    case Some(id) =>
      if !store.reachable then Threw
      else
        match id.userId
        case None => NotFound  // new ObjectId(undefined) makes a fresh id, which names no stored user
        case Some(uid) =>
          match store.parseObjectId(uid)
          case None => Threw
          case Some(oid) => if oid in store.users then Found(store.users[oid]) else NotFound
  }

  /** The user `id` names is stored, with role `role`. */
  predicate HasStoredRole(store: UserStore, id: Identity, role: string)
  {
    store.reachable && id.userId.Some? &&
    store.parseObjectId(id.userId.value).Some? &&
    var oid := store.parseObjectId(id.userId.value).value;
    oid in store.users && store.users[oid].role == Some(role)
  }

  /** The lookup throws: no `req.user`, an unreachable database, or an id that is not an ObjectId. */
  predicate LookupThrows(store: UserStore, user: Option<Identity>)
  {
    user.None? || !store.reachable ||
    (user.value.userId.Some? && store.parseObjectId(user.value.userId.value).None?)
  }

  /** The decision of a role gate once the user has been looked up. */
  function RoleGate(l: Lookup, admitted: seq<string>, denied: string): Outcome
  {
    match l
    case Threw => Respond(500, ErrorBody(ServerErrorMessage, None))
    case NotFound => Respond(403, ErrorBody(denied, None))
    case Found(u) =>
      if u.role.Some? && u.role.value in admitted then Continue
      else Respond(403, ErrorBody(denied, None))
  }

  /** The decision of `verifyAdmin`. */
  function AdminOutcome(store: UserStore, user: Option<Identity>): (o: Outcome)
    ensures o == Continue <==> user.Some? && HasStoredRole(store, user.value, "admin")
    ensures o == Respond(500, ErrorBody(ServerErrorMessage, None)) <==> LookupThrows(store, user)
    ensures o != Continue && !LookupThrows(store, user) ==> o == Respond(403, ErrorBody(AdminRequiredMessage, None))
  {
    RoleGate(FindUser(store, user), ["admin"], AdminRequiredMessage)
  }

  /** The decision of `verifySeller`. */
  function SellerOutcome(store: UserStore, user: Option<Identity>): (o: Outcome)
    ensures o == Continue <==>
      user.Some? && (HasStoredRole(store, user.value, "seller") || HasStoredRole(store, user.value, "admin"))
    ensures o == Respond(500, ErrorBody(ServerErrorMessage, None)) <==> LookupThrows(store, user)
    ensures o != Continue && !LookupThrows(store, user) ==> o == Respond(403, ErrorBody(SellerRequiredMessage, None))
  {
    RoleGate(FindUser(store, user), ["seller", "admin"], SellerRequiredMessage)
  }

  /** The middleware `verifyAdmin`: `next`, or one 403 or 500 response; `req.user` is not touched. */
  method VerifyAdmin(ex: Exchange, store: UserStore)
    modifies ex`sent, ex`nextCalls
    ensures ex.Completed(AdminOutcome(store, ex.user))
  {
    var found := FindUser(store, ex.user);
    if found.Threw? {
      ex.Finish(Respond(500, ErrorBody(ServerErrorMessage, None)));
      return;
    }
    if found.NotFound? || found.user.role != Some("admin") {
      ex.Finish(Respond(403, ErrorBody(AdminRequiredMessage, None)));
      return;
    }
    ex.Finish(Continue);
  }

  /** The middleware `verifySeller`: `next`, or one 403 or 500 response; `req.user` is not touched. */
  method VerifySeller(ex: Exchange, store: UserStore)
    modifies ex`sent, ex`nextCalls
    ensures ex.Completed(SellerOutcome(store, ex.user))
  {
    var found := FindUser(store, ex.user);
    if found.Threw? {
      ex.Finish(Respond(500, ErrorBody(ServerErrorMessage, None)));
      return;
    }
    if found.NotFound? || (found.user.role != Some("seller") && found.user.role != Some("admin")) {
      ex.Finish(Respond(403, ErrorBody(SellerRequiredMessage, None)));
      return;
    }
    ex.Finish(Continue);
  }
}
