/** Properties of the authorization middlewares across inputs. */
module AuthFacts {
  import opened Common
  import opened Http
  import opened Auth

  /** A header `Bearer <t>` yields the token `t`. */
  lemma BearerPrefixStripped(t: string)
    ensures ExtractToken(Some(Bearer + t)) == Some(t)
  {
    var h := Bearer + t;
    assert OccursAt(h, Bearer, 0) by {
      assert h[0..|Bearer|] == Bearer;
    }
    assert h[..0] + "" + h[|Bearer|..] == t;
  }

  /** Only the first "Bearer " is removed: `Bearer Bearer abc` yields the token `Bearer abc`. */
  lemma OnlyFirstBearerRemoved()
    ensures ExtractToken(Some("Bearer Bearer abc")) == Some("Bearer abc")
  {
    BearerPrefixStripped("Bearer abc");
    assert Bearer + "Bearer abc" == "Bearer Bearer abc";
  }

  /** A header with no "Bearer " in it is taken as the token itself. */
  lemma HeaderWithoutBearer(h: string)
    requires forall j :: 0 <= j <= |h| ==> !OccursAt(h, Bearer, j)
    ensures ExtractToken(Some(h)) == Some(h)
  {
  }

  /** For a header `Bearer <t>`: 401 for an empty `t`, else 400 or `next` as verification fails or succeeds. */
  lemma BearerHeaderOutcome(t: string, verify: Verifier)
    ensures TokenOutcome(Some(Bearer + t), verify) ==
      if t == "" then Respond(401, ErrorBody(NoTokenMessage, None))
      else if verify(t).None? then Respond(400, ErrorBody(InvalidTokenMessage, None))
      else Continue
  {
    BearerPrefixStripped(t);
  }

  /** No header, an empty header, and the header "Bearer " alone are all answered 401 without verifying anything. */
  lemma NoTokenCases(verify: Verifier)
    ensures TokenOutcome(None, verify) == Respond(401, ErrorBody(NoTokenMessage, None))
    ensures TokenOutcome(Some(""), verify) == Respond(401, ErrorBody(NoTokenMessage, None))
    ensures TokenOutcome(Some("Bearer "), verify) == Respond(401, ErrorBody(NoTokenMessage, None))
  {
    BearerPrefixStripped("");
    assert Bearer + "" == "Bearer ";
  }

  /** Every request `verifyAdmin` admits, `verifySeller` admits too, over the same user store. */
  lemma AdminPassesSellerGate(store: UserStore, user: Option<Identity>)
    ensures AdminOutcome(store, user) == Continue ==> SellerOutcome(store, user) == Continue
    ensures AdminOutcome(store, user).Respond? && AdminOutcome(store, user).status == 500 <==>
            SellerOutcome(store, user).Respond? && SellerOutcome(store, user).status == 500
  {
  }

  /**
   * The role a token carries is never consulted: two payloads with the same
   * `userId` get the same answer from both gates.
   */
  lemma GatesIgnoreTokenRole(store: UserStore, a: Identity, b: Identity)
    requires a.userId == b.userId
    ensures AdminOutcome(store, Some(a)) == AdminOutcome(store, Some(b))
    ensures SellerOutcome(store, Some(a)) == SellerOutcome(store, Some(b))
  {
  }
}
