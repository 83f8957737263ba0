# PawMart request validation and authorization, modelled in Dafny

This project models the two middleware files of the PawMart marketplace server:

- **Request validators** (`middleware/validation.js`). Four Joi object schemas cover user registration, listings, orders and reviews. The `validate(schema)` middleware answers `400 { error: "Validation failed", details }` when a request body breaks its schema. Otherwise it calls `next()`.
- **Authorization gates** (`middleware/auth.js`). `verifyToken` takes the bearer token from the `Authorization` header, verifies it and stores the payload as `req.user`. `verifyAdmin` and `verifySeller` look up the user that `req.user.userId` names and admit the request by the role stored on that record.

Modules and files:

- `common.dfy` (`Common`): `Option`, and JSON values as `express.json()` parses them. An object is a sequence of members in key order.
- `joi.dfy` (`Joi`): the part of Joi the schemas use. A schema is data (`seq<Key>`). `KeyErrors`, `UnknownKeys`, `Errors` and `Validate` give Joi's meaning under its default options:
  - `abortEarly`: the error holds only the first detail.
  - `convert`: numeric and boolean strings are accepted through the `Formats` conversions.
  - unknown keys are refused.
  - a `valid(...)` list is checked before the type.
  - the empty string is refused.
  - rules are checked in the order they are declared.
- `http.dfy` (`Http`): the Express side. `Outcome` is either `Continue` (call `next()`) or `Respond(status, body)`. The `Exchange` class holds one request:
  - the `Authorization` header and the body are constants;
  - `req.user`, the responses written and the number of `next()` calls are fields the middlewares update.
- `validation.dfy` (`Validation`):
  - the four schemas as constants that read like the JavaScript;
  - a field-by-field reference predicate per schema (`IsRegistration`, `IsListing`, `IsOrder`, `IsReview`);
  - the `validate` decision `ValidateOutcome` and the middleware method `ValidateRequest`.
- `validation_facts.dfy` (`ValidationFacts`): one lemma per kind of key, then the theorem that each schema accepts exactly the bodies its reference predicate describes, and the consequences of that.
- `auth.dfy` (`Auth`): the functions behind the token decision:
  - `IndexOf`, `ReplaceFirst` and `ExtractToken` follow JavaScript's `indexOf` and `replace`;
  - `TokenOutcome` is the token decision.

  The same module holds the role gates `AdminOutcome` and `SellerOutcome` over a `UserStore`, and the middleware methods `VerifyToken`, `VerifyAdmin` and `VerifySeller`.
- `auth_facts.dfy` (`AuthFacts`): header forms, the 401 cases, admin implies seller, and that the token's own role is never consulted.

Three foreign calls become function-valued parameters, so the model says nothing about their internals:

- `jwt.verify` is a `Verifier` (`string -> Option<Identity>`);
- Joi's `email()` and `uri()` checks and its convert-mode conversions are the fields of `Formats`;
- MongoDB's `new ObjectId(s)` is `UserStore.parseObjectId`.

The database lookup is a `map` from id to user record, plus a flag that says whether the database answers.

Points about the code that a reader might not expect:

- The listing price key is `Price`, with a capital P, in both the schema and the seed data.
- Under Joi's default `abortEarly`, a rejected body gets exactly one entry in `details`, not one per broken field.
- `min` and `max` compare JavaScript's `length`, which counts UTF-16 code units. A character above U+FFFF, such as an emoji, counts 2. The model counts the same way (`Common.JsLength`).
- Ownership rules, pagination, search and review averaging are not in these two files and are not modelled.

## Model

| member | source | states |
|---|---|---|
| `Joi.FirstStringError` | middleware/validation.js:5 | The error of the first rule, in declaration order, that the string breaks, and None exactly when it breaks none. |
| `Joi.FirstNumberError` | middleware/validation.js:50 | The same first-failure result for the number rules (`integer`, `positive`, `min`, `max`). |
| `Joi.KeyErrors` | middleware/validation.js:4-13 | No detail exactly when every declared key passes. Otherwise the first detail names the first failing key, in declaration order, and its error. |
| `Joi.UnknownKeys` | middleware/validation.js:4 | No detail exactly when every key of the body is declared by the schema. Each detail is `object.unknown` for an undeclared key, and the first detail names the body's first undeclared key. |
| `Joi.Defaults` | middleware/validation.js:8 | `default(...)` adds a member for each declared key with a default that the body lacks. It adds only keys the body lacks, and every member it adds is a declared key with its declared default. |
| `Joi.Validate` | middleware/validation.js:59 | `schema.validate(body)` has no error exactly when the body is an object whose declared keys all pass and which has no undeclared key. Otherwise the error has exactly one detail, the first one Joi meets. That is the first failing declared key, or, when every declared key passes, the first undeclared key of the body. A non-object body gets `object.base`. |
| `Validation.ValidateOutcome` | middleware/validation.js:57-68 | `validate(schema)` continues exactly when Joi reports no error. Otherwise it answers 400, "Validation failed", and a `details` list holding the one detail of the error. |
| `Validation.ValidateRequest` | middleware/validation.js:58-67 | On one request, the middleware either calls `next` once and writes nothing, or writes the 400 response once and does not call `next`. The body is never assigned. |
| `ValidationFacts.LengthKey` | middleware/validation.js:5 | A required string key with `min(lo).max(hi)` passes exactly when it is present, is a string, and its JavaScript `length` is between lo and hi. |
| `ValidationFacts.OptionalMaxKey` | middleware/validation.js:12 | An optional string key with `max(hi)` passes exactly when it is absent, or is a non-empty string whose JavaScript `length` is at most hi. |
| `ValidationFacts.MinLengthKey` | middleware/validation.js:7 | A required string key with only `min(lo)` passes exactly when it is a non-empty string whose JavaScript `length` is at least lo. |
| `ValidationFacts.EmailKey` | middleware/validation.js:6 | A required `email()` key passes exactly when it is a non-empty string the email check accepts. |
| `ValidationFacts.UriKey` | middleware/validation.js:24 | A required `uri()` key passes exactly when it is a non-empty string the URI check accepts. |
| `ValidationFacts.NonEmptyKey` | middleware/validation.js:44 | A required `Joi.string()` key with no rule still refuses the empty string: it passes exactly when it is a non-empty string. |
| `ValidationFacts.PhoneKey` | middleware/validation.js:9-11 | The phone key passes exactly when it is a string of 10 to 15 ASCII digits and nothing else, or, in the optional case, when it is absent. |
| `ValidationFacts.OneOfKey` | middleware/validation.js:8 | A `valid(...)` key passes exactly when it is a string in the list, or, when optional, absent. |
| `ValidationFacts.PositiveKey` | middleware/validation.js:21 | A required `number().positive()` key passes exactly when its value, or the number its string converts to, is greater than 0. |
| `ValidationFacts.PositiveIntegerKey` | middleware/validation.js:38 | `quantity` passes exactly when its number is integral and greater than 0. |
| `ValidationFacts.RatingKey` | middleware/validation.js:50 | `rating` passes exactly when its number is integral and between 1 and 5. |
| `ValidationFacts.OptionalBooleanKey` | middleware/validation.js:29 | An optional boolean key passes exactly when it is absent, a boolean, or a string that converts to a boolean. |
| `ValidationFacts.NameLengthInCodeUnits` | middleware/validation.js:5 | Lengths are counted in UTF-16 code units. A name of one emoji has length 2 and passes `min(2)`. A name of 26 emoji has length 52 and fails with `string.max` 50. |
| `ValidationFacts.RegistrationAccepted` | middleware/validation.js:4-13 | `validate(userRegistrationSchema)` continues if and only if the body is a registration: name of 2 to 50 UTF-16 code units, an email, a password of at least 6 UTF-16 code units, role absent or "buyer" or "seller", phone absent or 10 to 15 digits, address absent or 1 to 200 UTF-16 code units, and no other key. |
| `ValidationFacts.ListingAccepted` | middleware/validation.js:16-31 | `validate(listingSchema)` continues if and only if the body is a listing. The category is one of the four, `Price` is greater than 0, and the description has 10 to 1000 UTF-16 code units. Gender is absent or "Male" or "Female". There is no other key. |
| `ValidationFacts.OrderAccepted` | middleware/validation.js:34-46 | `validate(orderSchema)` continues if and only if the body is an order. `quantity` is a positive integer and `price` is greater than 0. The address has 10 to 200 UTF-16 code units and the phone has 10 to 15 digits. `listingId` and `sellerId` are non-empty strings. There is no other key. |
| `ValidationFacts.ReviewAccepted` | middleware/validation.js:49-54 | `validate(reviewSchema)` continues if and only if the rating is an integer from 1 to 5, the comment has 5 to 500 UTF-16 code units, `listingId` is a non-empty string and `buyerEmail` is an email. There is no other key. |
| `ValidationFacts.NoSelfRegisteredAdmin` | middleware/validation.js:8 | A registration that passes has `role` absent, "buyer" or "seller", so never "admin". |
| `ValidationFacts.DashedPhoneRejected` | middleware/validation.js:9-11 | A body whose phone is "555-0123" is rejected by the registration schema, and by the order schema with the same pattern at lines 40-42. |
| `ValidationFacts.EmptyReviewRejected` | middleware/validation.js:59-64 | An empty review body is answered 400 with the single detail `rating` / `any.required`: Joi stops at the first key it finds missing. |
| `ValidationFacts.DefaultRoleNotInBody` | middleware/validation.js:59 | For a passing registration without a role, Joi's returned value has the role "buyer" while the body has no role. Since `validate` keeps only `error`, the default does not reach the request. |
| `Http.Exchange.Finish` | middleware/validation.js:61-66 | One `next()` call and no response, or exactly one response appended and no `next()` call. |
| `Auth.IndexOf` | middleware/auth.js:6 | Returns the first position at or after `from` where the pattern occurs. Returns None exactly when it occurs at no position. |
| `Auth.ReplaceFirst` | middleware/auth.js:6 | String `replace` removes the first occurrence of the pattern and only that one. Without an occurrence, the string is unchanged. |
| `Auth.ExtractToken` | middleware/auth.js:6 | Without a header there is no token. With a header, the token is the header, or the header shortened by the length of "Bearer ". |
| `Auth.TokenOutcome` | middleware/auth.js:5-19 | 401 "Access denied. No token provided." exactly when there is no header or the token is empty. 400 "Invalid token." exactly when a non-empty token fails verification. `next` exactly when it verifies. |
| `Auth.VerifyToken` | middleware/auth.js:5-19 | Carries out `TokenOutcome` once. On success `req.user` is the decoded payload. On either failure `req.user` is unchanged. |
| `Auth.AdminOutcome` | middleware/auth.js:22-41 | Continues if and only if the stored record of the user the payload names has role "admin". Answers 500 exactly when the lookup throws, and 403 "Access denied. Admin privileges required." otherwise. |
| `Auth.SellerOutcome` | middleware/auth.js:44-63 | Continues if and only if the stored role is "seller" or "admin". Answers 500 exactly when the lookup throws, and 403 "Access denied. Seller privileges required." otherwise. |
| `Auth.VerifyAdmin` | middleware/auth.js:22-41 | Carries out `AdminOutcome` once: `next` or a single response, never both. |
| `Auth.VerifySeller` | middleware/auth.js:44-63 | Carries out `SellerOutcome` once: `next` or a single response, never both. |
| `AuthFacts.BearerPrefixStripped` | middleware/auth.js:6 | The header `Bearer <t>` yields the token `t`. |
| `AuthFacts.OnlyFirstBearerRemoved` | middleware/auth.js:6 | `Bearer Bearer abc` yields `Bearer abc`: only the first "Bearer " goes. |
| `AuthFacts.HeaderWithoutBearer` | middleware/auth.js:6 | A header that does not contain "Bearer " is used whole as the token. |
| `AuthFacts.BearerHeaderOutcome` | middleware/auth.js:6-18 | For the header `Bearer <t>`: 401 when `t` is empty, 400 when `t` fails verification, `next` when it verifies. |
| `AuthFacts.NoTokenCases` | middleware/auth.js:8-10 | No header, an empty header and the header "Bearer " alone are all answered 401. |
| `AuthFacts.AdminPassesSellerGate` | middleware/auth.js:31 | Over the same store, every request `verifyAdmin` admits is admitted by `verifySeller` (line 53), and the two answer 500 in the same cases. |
| `AuthFacts.GatesIgnoreTokenRole` | middleware/auth.js:27-31 | Two payloads with the same `userId` get the same answer from both gates, whatever role each token carries. |

## Left out

- Joi's message wording: a detail is modelled as the key and the Joi error code, not as the English message that `detail.message` holds.
- Joi's `email()` and `uri()` formats and its convert-mode string-to-number and string-to-boolean conversions: these are `Formats` parameters, because Joi's code is not part of this model.
- JavaScript numbers: numbers are exact reals. Double rounding, Joi's safe-integer bound (`number.unsafe`), `-0` and infinities are not modelled.
- Key order: an object's members are taken in the order given. JavaScript lists integer-like keys first, which can change which undeclared key the single `object.unknown` detail names. Whether the body is accepted does not depend on it.
- An absent body (`req.body` undefined): Joi accepts `undefined` for these schemas, which are not `.required()`, so `validate` would call `next`. The model takes the body to be a parsed JSON value and does not cover this case.
- Repeated keys in a body: `JSON.parse` keeps the last value of a repeated key. `Common.Get` takes the first, so the model is faithful only for bodies with distinct keys.
- Lone UTF-16 surrogates, which a JSON string may contain, cannot be written as Dafny characters and are not modelled.
- `jwt.verify`: signature, expiry and secret handling are the `Verifier` parameter.
- Payloads that are not objects, such as a token signed over a plain string, are not modelled. `req.user` is an `Identity`.
- `Auth.FindUser`: a payload without `userId` makes `new ObjectId(undefined)` generate a fresh id. The model takes it that no stored user has that id.
- The MongoDB driver: its asynchrony, its connection handling and which call throws are not modelled. Every failure in the lookup is one `Threw` case, answered 500.
- Express header lookup (case-insensitive names, repeated headers): the header value is an input.
- `seedData.js`, `utils/email.js`, `index.js` and `mongoClient.js` are not part of this model. They are database seeding, mail sending and server start-up, with no decision logic.
