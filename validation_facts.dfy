/**
 * What the four schemas mean: for each, `validate(schema)` calls `next`
 * exactly for the bodies the field-by-field predicate of module Validation
 * describes, together with the consequences the application relies on.
 */
module ValidationFacts {
  import opened Common
  import opened Joi
  import opened Http
  import opened Validation

  // One lemma per shape of key the schemas use: what Joi demands of the key.

  lemma LengthKey(name: string, lo: nat, hi: nat, m: seq<Member>, f: Formats)
    requires 0 < lo
    ensures KeyError(Key(name, Required, Text([MinLength(lo), MaxLength(hi)]), None), m, f).None?
        <==> StringOfLength(Get(m, name), lo, hi)
  {
    var v := Get(m, name);
    if v.Some? && v.value.Str? && v.value.s != "" {
      var rules := [MinLength(lo), MaxLength(hi)];
      var s := v.value.s;
      if lo <= JsLength(s) <= hi {
        forall i | 0 <= i < |rules| ensures StringRuleError(rules[i], s, f).None? {
          if i == 0 {} else {}
        }
      } else {
        assert StringRuleError(rules[0], s, f).Some? || StringRuleError(rules[1], s, f).Some?;
      }
    }
  }

  lemma OptionalMaxKey(name: string, hi: nat, m: seq<Member>, f: Formats)
    ensures KeyError(Key(name, Optional, Text([MaxLength(hi)]), None), m, f).None?
        <==> Get(m, name).None? || StringOfLength(Get(m, name), 1, hi)
  {
  }

  lemma MinLengthKey(name: string, lo: nat, m: seq<Member>, f: Formats)
    ensures KeyError(Key(name, Required, Text([MinLength(lo)]), None), m, f).None?
        <==> StringAtLeast(Get(m, name), lo)
  {
  }

  lemma EmailKey(name: string, m: seq<Member>, f: Formats)
    ensures KeyError(Key(name, Required, Text([Email]), None), m, f).None?
        <==> EmailAddress(Get(m, name), f)
  {
  }

  lemma UriKey(name: string, m: seq<Member>, f: Formats)
    ensures KeyError(Key(name, Required, Text([Uri]), None), m, f).None?
        <==> UriString(Get(m, name), f)
  {
  }

  lemma NonEmptyKey(name: string, m: seq<Member>, f: Formats)
    ensures KeyError(Key(name, Required, Text([]), None), m, f).None?
        <==> NonEmptyString(Get(m, name))
  {
  }

  lemma PhoneKey(p: Presence, m: seq<Member>, f: Formats)
    ensures KeyError(Key("phone", p, Text([Digits(10, 15)]), None), m, f).None?
        <==> (p == Optional && Get(m, "phone").None?) || PhoneNumber(Get(m, "phone"))
  {
  }

  lemma OneOfKey(name: string, p: Presence, valids: seq<string>, d: Option<Json>, m: seq<Member>, f: Formats)
    ensures KeyError(Key(name, p, OneOf(valids), d), m, f).None?
        <==> (p == Optional && Get(m, name).None?) || StringAmong(Get(m, name), valids)
  {
  }

  lemma PositiveKey(name: string, m: seq<Member>, f: Formats)
    ensures KeyError(Key(name, Required, Number([Positive]), None), m, f).None?
        <==> PositiveNumber(Get(m, name), f)
  {
  }

  lemma PositiveIntegerKey(name: string, m: seq<Member>, f: Formats)
    ensures KeyError(Key(name, Required, Number([Integer, Positive]), None), m, f).None?
        <==> PositiveInteger(Get(m, name), f)
  {
    var v := Get(m, name);
    if v.Some? && AsNumber(v.value, f).Some? {
      var rules := [Integer, Positive];
      var x := AsNumber(v.value, f).value;
      if x == x.Floor as real && x > 0.0 {
        forall i | 0 <= i < |rules| ensures NumberRuleError(rules[i], x).None? {
          if i == 0 {} else {}
        }
      } else {
        assert NumberRuleError(rules[0], x).Some? || NumberRuleError(rules[1], x).Some?;
      }
    }
  }

  lemma RatingKey(m: seq<Member>, f: Formats)
    ensures KeyError(Key("rating", Required, Number([Integer, Min(1), Max(5)]), None), m, f).None?
        <==> IntegerBetween(Get(m, "rating"), f, 1, 5)
  {
    var v := Get(m, "rating");
    if v.Some? && AsNumber(v.value, f).Some? {
      var rules := [Integer, Min(1), Max(5)];
      var x := AsNumber(v.value, f).value;
      if x == x.Floor as real && 1.0 <= x <= 5.0 {
        forall i | 0 <= i < |rules| ensures NumberRuleError(rules[i], x).None? {
          if i == 0 {} else if i == 1 {} else {}
        }
      } else {
        assert NumberRuleError(rules[0], x).Some? || NumberRuleError(rules[1], x).Some?
          || NumberRuleError(rules[2], x).Some?;
      }
    }
  }

  lemma OptionalBooleanKey(name: string, m: seq<Member>, f: Formats)
    ensures KeyError(Key(name, Optional, Boolean, None), m, f).None?
        <==> OptionalBoolean(Get(m, name), f)
  {
  }

  // userRegistrationSchema

  lemma RegistrationSchemaKeys()
    ensures |UserRegistrationSchema| == 6
    ensures UserRegistrationSchema[0] == Key("name", Required, Text([MinLength(2), MaxLength(50)]), None)
    ensures UserRegistrationSchema[1] == Key("email", Required, Text([Email]), None)
    ensures UserRegistrationSchema[2] == Key("password", Required, Text([MinLength(6)]), None)
    ensures UserRegistrationSchema[3] == Key("role", Optional, OneOf(["buyer", "seller"]), Some(Str("buyer")))
    ensures UserRegistrationSchema[4] == Key("phone", Optional, Text([Digits(10, 15)]), None)
    ensures UserRegistrationSchema[5] == Key("address", Optional, Text([MaxLength(200)]), None)
  {
  }

  lemma RegistrationKeyErrors(m: seq<Member>, f: Formats)
    ensures (forall k :: k in UserRegistrationSchema ==> KeyError(k, m, f).None?)
        <==> RegistrationFields(m, f)
  {
    var S := UserRegistrationSchema;
    RegistrationSchemaKeys();
    var e0, e1, e2 := KeyError(S[0], m, f), KeyError(S[1], m, f), KeyError(S[2], m, f);
    var e3, e4, e5 := KeyError(S[3], m, f), KeyError(S[4], m, f), KeyError(S[5], m, f);
    LengthKey("name", 2, 50, m, f);
    EmailKey("email", m, f);
    MinLengthKey("password", 6, m, f);
    OneOfKey("role", Optional, ["buyer", "seller"], Some(Str("buyer")), m, f);
    PhoneKey(Optional, m, f);
    OptionalMaxKey("address", 200, m, f);
    assert RegistrationFields(m, f) <==> e0.None? && e1.None? && e2.None? && e3.None? && e4.None? && e5.None?;
  }

  /** `validate(userRegistrationSchema)` calls `next` exactly for registration bodies. */
  lemma {:induction false} RegistrationAccepted(body: Json, f: Formats)
    ensures ValidateOutcome(UserRegistrationSchema, body, f) == Continue <==> IsRegistration(body, f)
  {
    RegistrationSchemaKeys();
    if body.Obj? {
      RegistrationKeyErrors(body.members, f);
    }
  }

  // listingSchema

  lemma ListingSchemaKeys()
    ensures |ListingRequiredKeys| == 7 && |ListingOptionalKeys| == 5
    ensures ListingRequiredKeys[0] == Key("name", Required, Text([MinLength(2), MaxLength(100)]), None)
    ensures ListingRequiredKeys[1] == Key("category", Required, OneOf(["Pets", "Pet Food", "Accessories", "Pet Care Products"]), None)
    ensures ListingRequiredKeys[2] == Key("Price", Required, Number([Positive]), None)
    ensures ListingRequiredKeys[3] == Key("location", Required, Text([MinLength(2), MaxLength(100)]), None)
    ensures ListingRequiredKeys[4] == Key("description", Required, Text([MinLength(10), MaxLength(1000)]), None)
    ensures ListingRequiredKeys[5] == Key("image", Required, Text([Uri]), None)
    ensures ListingRequiredKeys[6] == Key("email", Required, Text([Email]), None)
    ensures ListingOptionalKeys[0] == Key("breed", Optional, Text([MaxLength(50)]), None)
    ensures ListingOptionalKeys[1] == Key("age", Optional, Text([MaxLength(20)]), None)
    ensures ListingOptionalKeys[2] == Key("gender", Optional, OneOf(["Male", "Female"]), None)
    ensures ListingOptionalKeys[3] == Key("vaccinated", Optional, Boolean, None)
    ensures ListingOptionalKeys[4] == Key("trained", Optional, Boolean, None)
  {
  }

  lemma ListingRequiredKeyErrors(m: seq<Member>, f: Formats)
    ensures (forall k :: k in ListingRequiredKeys ==> KeyError(k, m, f).None?) <==> ListingRequiredFields(m, f)
  {
    var S := ListingRequiredKeys;
    ListingSchemaKeys();
    var e0, e1, e2, e3 := KeyError(S[0], m, f), KeyError(S[1], m, f), KeyError(S[2], m, f), KeyError(S[3], m, f);
    var e4, e5, e6 := KeyError(S[4], m, f), KeyError(S[5], m, f), KeyError(S[6], m, f);
    LengthKey("name", 2, 100, m, f);
    OneOfKey("category", Required, ["Pets", "Pet Food", "Accessories", "Pet Care Products"], None, m, f);
    PositiveKey("Price", m, f);
    LengthKey("location", 2, 100, m, f);
    LengthKey("description", 10, 1000, m, f);
    UriKey("image", m, f);
    EmailKey("email", m, f);
    assert ListingRequiredFields(m, f) <==>
      e0.None? && e1.None? && e2.None? && e3.None? && e4.None? && e5.None? && e6.None?;
  }

  lemma ListingOptionalKeyErrors(m: seq<Member>, f: Formats)
    ensures (forall k :: k in ListingOptionalKeys ==> KeyError(k, m, f).None?) <==> ListingOptionalFields(m, f)
  {
    var S := ListingOptionalKeys;
    ListingSchemaKeys();
    var e7, e8, e9 := KeyError(S[0], m, f), KeyError(S[1], m, f), KeyError(S[2], m, f);
    var e10, e11 := KeyError(S[3], m, f), KeyError(S[4], m, f);
    OptionalMaxKey("breed", 50, m, f);
    OptionalMaxKey("age", 20, m, f);
    OneOfKey("gender", Optional, ["Male", "Female"], None, m, f);
    OptionalBooleanKey("vaccinated", m, f);
    OptionalBooleanKey("trained", m, f);
    assert ListingOptionalFields(m, f) <==> e7.None? && e8.None? && e9.None? && e10.None? && e11.None?;
  }

  lemma ListingKeyErrors(m: seq<Member>, f: Formats)
    ensures (forall k :: k in ListingSchema ==> KeyError(k, m, f).None?) <==> ListingFields(m, f)
  {
    ListingRequiredKeyErrors(m, f);
    ListingOptionalKeyErrors(m, f);
    assert forall k :: k in ListingSchema <==> k in ListingRequiredKeys || k in ListingOptionalKeys;
  }

  /** `validate(listingSchema)` calls `next` exactly for listing bodies. */
  lemma {:induction false} ListingAccepted(body: Json, f: Formats)
    ensures ValidateOutcome(ListingSchema, body, f) == Continue <==> IsListing(body, f)
  {
    if body.Obj? {
      ListingKeyErrors(body.members, f);
    }
  }

  // orderSchema

  lemma OrderSchemaKeys()
    ensures |OrderSchema| == 9
    ensures OrderSchema[0] == Key("productName", Required, Text([MinLength(2), MaxLength(100)]), None)
    ensures OrderSchema[1] == Key("buyerName", Required, Text([MinLength(2), MaxLength(50)]), None)
    ensures OrderSchema[2] == Key("price", Required, Number([Positive]), None)
    ensures OrderSchema[3] == Key("quantity", Required, Number([Integer, Positive]), None)
    ensures OrderSchema[4] == Key("address", Required, Text([MinLength(10), MaxLength(200)]), None)
    ensures OrderSchema[5] == Key("phone", Required, Text([Digits(10, 15)]), None)
    ensures OrderSchema[6] == Key("email", Required, Text([Email]), None)
    ensures OrderSchema[7] == Key("listingId", Required, Text([]), None)
    ensures OrderSchema[8] == Key("sellerId", Required, Text([]), None)
  {
  }

  /** A property holds of every element of a nine-element sequence exactly when it holds at each position. */
  lemma NineByPosition<T>(S: seq<T>, P: T -> bool)
    requires |S| == 9
    ensures (forall k :: k in S ==> P(k)) <==>
      P(S[0]) && P(S[1]) && P(S[2]) && P(S[3]) && P(S[4]) && P(S[5]) && P(S[6]) && P(S[7]) && P(S[8])
  {
    if P(S[0]) && P(S[1]) && P(S[2]) && P(S[3]) && P(S[4]) && P(S[5]) && P(S[6]) && P(S[7]) && P(S[8]) {
      forall k | k in S
        ensures P(k)
      {
        var i :| 0 <= i < 9 && S[i] == k;
      }
    }
  }

  lemma OrderKeyErrors(m: seq<Member>, f: Formats)
    ensures (forall k :: k in OrderSchema ==> KeyError(k, m, f).None?)
        <==> OrderFields(m, f)
  {
    OrderSchemaKeys();
    NineByPosition(OrderSchema, k => KeyError(k, m, f).None?);
    LengthKey("productName", 2, 100, m, f);
    LengthKey("buyerName", 2, 50, m, f);
    PositiveKey("price", m, f);
    PositiveIntegerKey("quantity", m, f);
    LengthKey("address", 10, 200, m, f);
    PhoneKey(Required, m, f);
    EmailKey("email", m, f);
    NonEmptyKey("listingId", m, f);
    NonEmptyKey("sellerId", m, f);
  }

  /** `validate(orderSchema)` calls `next` exactly for order bodies. */
  lemma {:induction false} OrderAccepted(body: Json, f: Formats)
    ensures ValidateOutcome(OrderSchema, body, f) == Continue <==> IsOrder(body, f)
  {
    OrderSchemaKeys();
    if body.Obj? {
      OrderKeyErrors(body.members, f);
    }
  }

  // reviewSchema

  lemma ReviewSchemaKeys()
    ensures |ReviewSchema| == 4
    ensures ReviewSchema[0] == Key("rating", Required, Number([Integer, Min(1), Max(5)]), None)
    ensures ReviewSchema[1] == Key("comment", Required, Text([MinLength(5), MaxLength(500)]), None)
    ensures ReviewSchema[2] == Key("listingId", Required, Text([]), None)
    ensures ReviewSchema[3] == Key("buyerEmail", Required, Text([Email]), None)
  {
  }

  lemma ReviewKeyErrors(m: seq<Member>, f: Formats)
    ensures (forall k :: k in ReviewSchema ==> KeyError(k, m, f).None?)
        <==> ReviewFields(m, f)
  {
    var S := ReviewSchema;
    ReviewSchemaKeys();
    var e0, e1, e2, e3 := KeyError(S[0], m, f), KeyError(S[1], m, f), KeyError(S[2], m, f), KeyError(S[3], m, f);
    RatingKey(m, f);
    LengthKey("comment", 5, 500, m, f);
    NonEmptyKey("listingId", m, f);
    EmailKey("buyerEmail", m, f);
    assert ReviewFields(m, f) <==> e0.None? && e1.None? && e2.None? && e3.None?;
  }

  /** `validate(reviewSchema)` calls `next` exactly for review bodies. */
  lemma {:induction false} ReviewAccepted(body: Json, f: Formats)
    ensures ValidateOutcome(ReviewSchema, body, f) == Continue <==> IsReview(body, f)
  {
    ReviewSchemaKeys();
    if body.Obj? {
      ReviewKeyErrors(body.members, f);
    }
  }

  // Consequences the application relies on.

  /**
   * `min` and `max` count UTF-16 code units: a name made of one emoji has
   * length 2 and meets `min(2)`, while 26 of them have length 52 and break
   * `max(50)`.
   */
  lemma {:induction false} NameLengthInCodeUnits(s: string, f: Formats)
    requires |s| == 26 && forall i :: 0 <= i < |s| ==> s[i] == '\U{1F600}'
    ensures KeyError(UserRegistrationSchema[0], [Member("name", Str("\U{1F600}"))], f).None?
    ensures KeyError(UserRegistrationSchema[0], [Member("name", Str(s))], f) == Some(StringMax(50))
  {
    RegistrationSchemaKeys();
    var one := "\U{1F600}";
    assert JsLength(one) == 2 by {
      assert IsAstral(one[0]);
    }
    assert JsLength(s) == 52 by {
      assert forall i :: 0 <= i < |s| ==> IsAstral(s[i]);
    }
    var m := [Member("name", Str(s))];
    assert Get(m, "name") == Some(Str(s));
    assert s != "" by { assert s[0] == '\U{1F600}'; }
    var rules := [MinLength(2), MaxLength(50)];
    assert StringRuleError(rules[0], s, f).None?;
    assert FirstStringError(rules[1..], s, f) == Some(StringMax(50));
    assert FirstStringError(rules, s, f) == Some(StringMax(50));
  }

  /** A client can never register itself as an admin: `role` is absent, "buyer" or "seller". */
  lemma {:induction false} NoSelfRegisteredAdmin(body: Json, f: Formats)
    requires ValidateOutcome(UserRegistrationSchema, body, f) == Continue
    ensures body.Obj?
    ensures Get(body.members, "role") in {None, Some(Str("buyer")), Some(Str("seller"))}
    ensures Get(body.members, "role") != Some(Str("admin"))
  {
    RegistrationAccepted(body, f);
  }

  /** A phone number written with a dash fails the digits-only pattern of both schemas that have one. */
  lemma {:induction false} DashedPhoneRejected(body: Json, f: Formats)
    requires body.Obj? && Get(body.members, "phone") == Some(Str("555-0123"))
    ensures ValidateOutcome(UserRegistrationSchema, body, f).Respond?
    ensures ValidateOutcome(OrderSchema, body, f).Respond?
  {
    var m := body.members;
    RegistrationSchemaKeys();
    OrderSchemaKeys();
    PhoneKey(Optional, m, f);
    PhoneKey(Required, m, f);
    assert !PhoneNumber(Get(m, "phone")) by {
      assert "555-0123"[3] == '-';
    }
    assert UserRegistrationSchema[4] in UserRegistrationSchema;
    assert OrderSchema[5] in OrderSchema;
  }

  /**
   * An empty review is answered with the first missing key only: Joi stops at
   * `rating`, the first key `reviewSchema` declares.
   */
  lemma EmptyReviewRejected(f: Formats)
    ensures ValidateOutcome(ReviewSchema, Obj([]), f)
         == Respond(400, ErrorBody(ValidationFailed, Some([Detail("rating", AnyRequired)])))
  {
    ReviewSchemaKeys();
    var d := KeyErrors(ReviewSchema, [], f);
    assert KeyError(ReviewSchema[0], [], f) == Some(AnyRequired);
    assert d != [];
    assert d[0] == Detail("rating", AnyRequired);
  }

  /**
   * For a registration without a role, the value Joi returns carries the
   * default role "buyer", which the body does not: `validate` reads only the
   * error, so the default never reaches the request.
   */
  lemma {:induction false} DefaultRoleNotInBody(body: Json, f: Formats)
    requires IsRegistration(body, f) && !HasKey(body.members, "role")
    ensures ValidateOutcome(UserRegistrationSchema, body, f) == Continue
    ensures Member("role", Str("buyer")) in Validate(UserRegistrationSchema, body, f).value.members
    ensures Member("role", Str("buyer")) !in body.members
  {
    RegistrationAccepted(body, f);
    RegistrationSchemaKeys();
    assert UserRegistrationSchema[3] in UserRegistrationSchema;
  }
}
