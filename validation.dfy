/**
 * The request validators: the four object schemas (user registration,
 * listing, order, review) and the `validate(schema)` middleware that answers
 * 400 when a body breaks its schema and calls `next` otherwise.
 */
module Validation {
  import opened Common
  import opened Joi
  import opened Http

  const ValidationFailed := "Validation failed"

  /** `userRegistrationSchema`. */
  const UserRegistrationSchema: ObjectSchema := [
    Key("name", Required, Text([MinLength(2), MaxLength(50)]), None),
    Key("email", Required, Text([Email]), None),
    Key("password", Required, Text([MinLength(6)]), None),
    Key("role", Optional, OneOf(["buyer", "seller"]), Some(Str("buyer"))),
    Key("phone", Optional, Text([Digits(10, 15)]), None),
    Key("address", Optional, Text([MaxLength(200)]), None)
  ]

  /** `listingSchema`: its seven required keys, then its five optional ones. */
  const ListingSchema: ObjectSchema := ListingRequiredKeys + ListingOptionalKeys

  const ListingRequiredKeys: ObjectSchema := [
    Key("name", Required, Text([MinLength(2), MaxLength(100)]), None),
    Key("category", Required, OneOf(["Pets", "Pet Food", "Accessories", "Pet Care Products"]), None),
    Key("Price", Required, Number([Positive]), None),
    Key("location", Required, Text([MinLength(2), MaxLength(100)]), None),
    Key("description", Required, Text([MinLength(10), MaxLength(1000)]), None),
    Key("image", Required, Text([Uri]), None),
    Key("email", Required, Text([Email]), None)
  ]

  const ListingOptionalKeys: ObjectSchema := [
    Key("breed", Optional, Text([MaxLength(50)]), None),
    Key("age", Optional, Text([MaxLength(20)]), None),
    Key("gender", Optional, OneOf(["Male", "Female"]), None),
    Key("vaccinated", Optional, Boolean, None),
    Key("trained", Optional, Boolean, None)
  ]

  /** `orderSchema`. */
  const OrderSchema: ObjectSchema := [
    Key("productName", Required, Text([MinLength(2), MaxLength(100)]), None),
    Key("buyerName", Required, Text([MinLength(2), MaxLength(50)]), None),
    Key("price", Required, Number([Positive]), None),
    Key("quantity", Required, Number([Integer, Positive]), None),
    Key("address", Required, Text([MinLength(10), MaxLength(200)]), None),
    Key("phone", Required, Text([Digits(10, 15)]), None),
    Key("email", Required, Text([Email]), None),
    Key("listingId", Required, Text([]), None),
    Key("sellerId", Required, Text([]), None)
  ]

  /** `reviewSchema`. */
  const ReviewSchema: ObjectSchema := [
    Key("rating", Required, Number([Integer, Min(1), Max(5)]), None),
    Key("comment", Required, Text([MinLength(5), MaxLength(500)]), None),
    Key("listingId", Required, Text([]), None),
    Key("buyerEmail", Required, Text([Email]), None)
  ]

  // What each schema demands, stated field by field.

  /** A present, non-empty string. */
  predicate NonEmptyString(v: Option<Json>)
  {
    v.Some? && v.value.Str? && v.value.s != ""
  }

  /** A present string whose JavaScript `length` is `lo` to `hi`. */
  predicate StringOfLength(v: Option<Json>, lo: nat, hi: nat)
  {
    NonEmptyString(v) && lo <= JsLength(v.value.s) <= hi
  }

  /** A present string whose JavaScript `length` is at least `lo`. */
  predicate StringAtLeast(v: Option<Json>, lo: nat)
  {
    NonEmptyString(v) && lo <= JsLength(v.value.s)
  }

  /** A present string that is one of `allowed`. */
  predicate StringAmong(v: Option<Json>, allowed: seq<string>)
  {
    v.Some? && v.value.Str? && v.value.s in allowed
  }

  /** A present string of 10 to 15 ASCII digits and nothing else. */
  predicate PhoneNumber(v: Option<Json>)
  {
    v.Some? && v.value.Str? && 10 <= |v.value.s| <= 15 &&
    forall i :: 0 <= i < |v.value.s| ==> '0' <= v.value.s[i] <= '9'
  }

  predicate EmailAddress(v: Option<Json>, f: Formats)
  {
    NonEmptyString(v) && f.isEmail(v.value.s)
  }

  predicate UriString(v: Option<Json>, f: Formats)
  {
    NonEmptyString(v) && f.isUri(v.value.s)
  }

  predicate PositiveNumber(v: Option<Json>, f: Formats)
  {
    v.Some? && AsNumber(v.value, f).Some? && AsNumber(v.value, f).value > 0.0
  }

  /** A present number with an integral value in [lo, hi]. */
  predicate IntegerBetween(v: Option<Json>, f: Formats, lo: int, hi: int)
  {
    v.Some? && AsNumber(v.value, f).Some? &&
    var x := AsNumber(v.value, f).value;
    x == x.Floor as real && lo as real <= x <= hi as real
  }

  predicate PositiveInteger(v: Option<Json>, f: Formats)
  {
    v.Some? && AsNumber(v.value, f).Some? &&
    var x := AsNumber(v.value, f).value;
    x == x.Floor as real && x > 0.0
  }

  /** Absent, or a boolean, or a string that converts to one. */
  predicate OptionalBoolean(v: Option<Json>, f: Formats)
  {
    v.None? || v.value.Bool? || (v.value.Str? && f.toBoolean(v.value.s).Some?)
  }

  /** Every key of the object is one of `allowed` (for a schema: one it declares). */
  predicate OnlyKeys(members: seq<Member>, allowed: set<string>)
  {
    forall i :: 0 <= i < |members| ==> members[i].key in allowed
  }

  /** The declared fields of a registration body meet `userRegistrationSchema`. */
  predicate RegistrationFields(m: seq<Member>, f: Formats)
  {
    && StringOfLength(Get(m, "name"), 2, 50)
    && EmailAddress(Get(m, "email"), f)
    && StringAtLeast(Get(m, "password"), 6)
    && (Get(m, "role").None? || StringAmong(Get(m, "role"), ["buyer", "seller"]))
    && (Get(m, "phone").None? || PhoneNumber(Get(m, "phone")))
    && (Get(m, "address").None? || StringOfLength(Get(m, "address"), 1, 200))
  }

  /** A body `userRegistrationSchema` accepts. */
  predicate IsRegistration(body: Json, f: Formats)
  {
    body.Obj? && RegistrationFields(body.members, f) && OnlyKeys(body.members, Names(UserRegistrationSchema))
  }

  /** The required fields of a listing body meet `listingSchema`. */
  predicate ListingRequiredFields(m: seq<Member>, f: Formats)
  {
    && StringOfLength(Get(m, "name"), 2, 100)
    && StringAmong(Get(m, "category"), ["Pets", "Pet Food", "Accessories", "Pet Care Products"])
    && PositiveNumber(Get(m, "Price"), f)
    && StringOfLength(Get(m, "location"), 2, 100)
    && StringOfLength(Get(m, "description"), 10, 1000)
    && UriString(Get(m, "image"), f)
    && EmailAddress(Get(m, "email"), f)
  }

  /** The optional fields of a listing body, where present, meet `listingSchema`. */
  predicate ListingOptionalFields(m: seq<Member>, f: Formats)
  {
    && (Get(m, "breed").None? || StringOfLength(Get(m, "breed"), 1, 50))
    && (Get(m, "age").None? || StringOfLength(Get(m, "age"), 1, 20))
    && (Get(m, "gender").None? || StringAmong(Get(m, "gender"), ["Male", "Female"]))
    && OptionalBoolean(Get(m, "vaccinated"), f)
    && OptionalBoolean(Get(m, "trained"), f)
  }

  /** The declared fields of a listing body meet `listingSchema`. */
  predicate ListingFields(m: seq<Member>, f: Formats)
  {
    ListingRequiredFields(m, f) && ListingOptionalFields(m, f)
  }

  /** A body `listingSchema` accepts. */
  predicate IsListing(body: Json, f: Formats)
  {
    body.Obj? && ListingFields(body.members, f) && OnlyKeys(body.members, Names(ListingSchema))
  }

  /** The declared fields of an order body meet `orderSchema`. */
  predicate OrderFields(m: seq<Member>, f: Formats)
  {
    && StringOfLength(Get(m, "productName"), 2, 100)
    && StringOfLength(Get(m, "buyerName"), 2, 50)
    && PositiveNumber(Get(m, "price"), f)
    && PositiveInteger(Get(m, "quantity"), f)
    && StringOfLength(Get(m, "address"), 10, 200)
    && PhoneNumber(Get(m, "phone"))
    && EmailAddress(Get(m, "email"), f)
    && NonEmptyString(Get(m, "listingId"))
    && NonEmptyString(Get(m, "sellerId"))
  }

  /** A body `orderSchema` accepts. */
  predicate IsOrder(body: Json, f: Formats)
  {
    body.Obj? && OrderFields(body.members, f) && OnlyKeys(body.members, Names(OrderSchema))
  }

  /** The declared fields of a review body meet `reviewSchema`. */
  predicate ReviewFields(m: seq<Member>, f: Formats)
  {
    && IntegerBetween(Get(m, "rating"), f, 1, 5)
    && StringOfLength(Get(m, "comment"), 5, 500)
    && NonEmptyString(Get(m, "listingId"))
    && EmailAddress(Get(m, "buyerEmail"), f)
  }

  /** A body `reviewSchema` accepts. */
  predicate IsReview(body: Json, f: Formats)
  {
    body.Obj? && ReviewFields(body.members, f) && OnlyKeys(body.members, Names(ReviewSchema))
  }

  /**
   * The decision of `validate(schema)`: 400 with "Validation failed" and the
   * messages of the error's details, or `next`. Only `error` is read from
   * Joi's result; the value with its defaults is dropped.
   */
  function ValidateOutcome(schema: ObjectSchema, body: Json, f: Formats): (o: Outcome)
    ensures o.Continue? <==> Errors(schema, body, f) == []
    ensures o.Respond? ==>
      o.status == 400 && o.body.error == ValidationFailed && o.body.details.Some? &&
      o.body.details.value == [Errors(schema, body, f)[0]]
  {
    var r := Validate(schema, body, f);
    if r.error.Some? then Respond(400, ErrorBody(ValidationFailed, Some(r.error.value.details)))
    else Continue
  }

  /** The middleware `validate(schema)` applied to one request. */
  method ValidateRequest(ex: Exchange, schema: ObjectSchema, f: Formats)
    modifies ex`sent, ex`nextCalls
    ensures ex.Completed(ValidateOutcome(schema, ex.body, f))
  {
    var r := Validate(schema, ex.body, f);
    if r.error.Some? {
      ex.Finish(Respond(400, ErrorBody(ValidationFailed, Some(r.error.value.details))));
      return;
    }
    ex.Finish(Continue);
  }
}
