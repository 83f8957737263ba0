/**
 * The part of the Joi validation library that the request schemas use:
 * object schemas whose keys are required or optional strings, numbers and
 * booleans with their rules, `valid(...)` lists and `default(...)`, and
 * `schema.validate(value)` under Joi's default options (`abortEarly`,
 * `convert`, unknown keys refused).
 */
module Joi {
  import opened Common

  /** The Joi error codes the schemas can produce. */
  datatype ErrorCode =
    | AnyRequired            // any.required
    | AnyOnly                // any.only: not one of the valid(...) values
    | StringBase             // string.base: not a string
    | StringEmpty            // string.empty: the empty string
    | StringMin(limit: nat)  // string.min
    | StringMax(limit: nat)  // string.max
    | StringPattern          // string.pattern.base
    | StringEmail            // string.email
    | StringUri              // string.uri
    | NumberBase             // number.base: not a number, nor a string that converts to one
    | NumberInteger          // number.integer
    | NumberPositive         // number.positive
    | NumberMin(bound: int)  // number.min
    | NumberMax(bound: int)  // number.max
    | BooleanBase            // boolean.base
    | ObjectBase             // object.base: the body is not an object
    | ObjectUnknown          // object.unknown: a key the schema does not declare

  /**
   * One entry of `error.details`: the key it is about (empty for the body
   * itself) and the code of the rule that failed. The wording of Joi's
   * message for it is not modelled.
   */
  datatype Detail = Detail(path: string, code: ErrorCode)

  /** The `ValidationError` that `validate` returns as `error`. */
  datatype ValidationError = ValidationError(details: seq<Detail>)

  /** What `schema.validate(value)` returns: `{ value, error }`. */
  datatype ValidationResult = ValidationResult(value: Json, error: Option<ValidationError>)

  /**
   * The checks Joi performs with code this model does not contain: the
   * `email()` and `uri()` formats, and the string-to-number and
   * string-to-boolean conversions of convert mode.
   */
  datatype Formats = Formats(
    isEmail: string -> bool,
    isUri: string -> bool,
    toNumber: string -> Option<real>,
    toBoolean: string -> Option<bool>)

  /** A string rule; `Digits(lo, hi)` is the pattern `/^[0-9]{lo,hi}$/`. */
  datatype StringRule = MinLength(min: nat) | MaxLength(max: nat) | Digits(lo: nat, hi: nat) | Email | Uri

  datatype NumberRule = Integer | Positive | Min(min: int) | Max(max: int)

  /**
   * The type of a key: `Joi.string()` with rules, `Joi.string().valid(...)`,
   * `Joi.number()` with rules, or `Joi.boolean()`.
   */
  datatype Kind = Text(rules: seq<StringRule>) | OneOf(valids: seq<string>) | Number(nrules: seq<NumberRule>) | Boolean

  datatype Presence = Required | Optional

  /** One key of `Joi.object({...})`. */
  datatype Key = Key(name: string, presence: Presence, kind: Kind, default: Option<Json>)

  /** The keys of `Joi.object({...})`, in the order they are declared. */
  type ObjectSchema = seq<Key>

  predicate IsDigit(c: char) { '0' <= c <= '9' }

  /**
   * The error of one string rule on a non-empty string, None when it holds.
   * `min` and `max` compare JavaScript's `length`, in UTF-16 code units.
   */
  function StringRuleError(rule: StringRule, s: string, f: Formats): Option<ErrorCode>
  {
    match rule
    case MinLength(n) => if JsLength(s) < n then Some(StringMin(n)) else None
    case MaxLength(n) => if JsLength(s) > n then Some(StringMax(n)) else None
    case Digits(lo, hi) =>
      if lo <= |s| <= hi && forall i :: 0 <= i < |s| ==> IsDigit(s[i]) then None else Some(StringPattern)
    case Email => if f.isEmail(s) then None else Some(StringEmail)
    case Uri => if f.isUri(s) then None else Some(StringUri)
  }

  /** The error of the first rule, in declaration order, that `s` breaks. */
  function FirstStringError(rules: seq<StringRule>, s: string, f: Formats): (e: Option<ErrorCode>)
    ensures e.None? <==> forall i :: 0 <= i < |rules| ==> StringRuleError(rules[i], s, f).None?
    ensures e.Some? ==>
      exists i :: 0 <= i < |rules| && StringRuleError(rules[i], s, f) == e &&
        forall j :: 0 <= j < i ==> StringRuleError(rules[j], s, f).None?
  {
    if rules == [] then None
    else
      match StringRuleError(rules[0], s, f)
      case Some(c) => Some(c)
      case None =>
        var e := FirstStringError(rules[1..], s, f);
        assert forall i :: 1 <= i < |rules| ==> rules[1..][i - 1] == rules[i];
        e
  }

  /** The error of one number rule, None when it holds. */
  function NumberRuleError(rule: NumberRule, x: real): Option<ErrorCode>
  {
    match rule
    case Integer => if x == x.Floor as real then None else Some(NumberInteger)
    case Positive => if x > 0.0 then None else Some(NumberPositive)
    case Min(n) => if x >= n as real then None else Some(NumberMin(n))
    case Max(n) => if x <= n as real then None else Some(NumberMax(n))
  }

  /** The error of the first number rule, in declaration order, that `x` breaks. */
  function FirstNumberError(rules: seq<NumberRule>, x: real): (e: Option<ErrorCode>)
    ensures e.None? <==> forall i :: 0 <= i < |rules| ==> NumberRuleError(rules[i], x).None?
    ensures e.Some? ==>
      exists i :: 0 <= i < |rules| && NumberRuleError(rules[i], x) == e &&
        forall j :: 0 <= j < i ==> NumberRuleError(rules[j], x).None?
  {
    if rules == [] then None
    else
      match NumberRuleError(rules[0], x)
      case Some(c) => Some(c)
      case None =>
        var e := FirstNumberError(rules[1..], x);
        assert forall i :: 1 <= i < |rules| ==> rules[1..][i - 1] == rules[i];
        e
  }

  /** The number a value stands for in convert mode: a number, or a string that converts. */
  function AsNumber(v: Json, f: Formats): Option<real>
  {
    match v
    case Num(n) => Some(n)
    case Str(s) => f.toNumber(s)
    case _ => None
  }

  /**
   * The error Joi reports for a value that is present. A `valid(...)` list is
   * consulted before the type; a string must be non-empty before its rules
   * run, since none of the schemas admits the empty string with `allow('')`.
   */
  function ValueError(kind: Kind, v: Json, f: Formats): Option<ErrorCode>
  {
    match kind
    case OneOf(valids) => if v.Str? && v.s in valids then None else Some(AnyOnly)
    case Text(rules) =>
      if !v.Str? then Some(StringBase)
      else if v.s == "" then Some(StringEmpty)
      else FirstStringError(rules, v.s, f)
    case Number(rules) =>
      (match AsNumber(v, f)
       case None => Some(NumberBase)
       case Some(x) => FirstNumberError(rules, x))
    case Boolean =>
      if v.Bool? || (v.Str? && f.toBoolean(v.s).Some?) then None else Some(BooleanBase)
  }

  /** The error Joi reports for one declared key of an object. */
  function KeyError(k: Key, members: seq<Member>, f: Formats): Option<ErrorCode>
  {
    match Get(members, k.name)
    case None => if k.presence == Required then Some(AnyRequired) else None
    case Some(v) => ValueError(k.kind, v, f)
  }

  /** A declared key never fails with `object.unknown`, which is kept for undeclared keys. */
  lemma KeyErrorNotUnknown(k: Key, members: seq<Member>, f: Formats)
    ensures KeyError(k, members, f) != Some(ObjectUnknown)
  {
    var v := Get(members, k.name);
    if v.Some? {
      match k.kind
      case Text(rules) =>
        if v.value.Str? && v.value.s != "" {
          var e := FirstStringError(rules, v.value.s, f);
          if e.Some? {
            var i :| 0 <= i < |rules| && StringRuleError(rules[i], v.value.s, f) == e;
          }
        }
      case Number(rules) =>
        var x := AsNumber(v.value, f);
        if x.Some? {
          var e := FirstNumberError(rules, x.value);
          if e.Some? {
            var i :| 0 <= i < |rules| && NumberRuleError(rules[i], x.value) == e;
          }
        }
      case _ =>
    }
  }

  /** The details for the declared keys, in declaration order, one per failing key. */
  function KeyErrors(schema: ObjectSchema, members: seq<Member>, f: Formats): (d: seq<Detail>)
    ensures d == [] <==> forall k :: k in schema ==> KeyError(k, members, f).None?
    ensures d != [] ==>
      exists i :: 0 <= i < |schema| && KeyError(schema[i], members, f).Some? &&
        d[0] == Detail(schema[i].name, KeyError(schema[i], members, f).value) &&
        forall j :: 0 <= j < i ==> KeyError(schema[j], members, f).None?
  {
    if schema == [] then []
    else
      var rest := KeyErrors(schema[1..], members, f);
      assert forall i :: 1 <= i < |schema| ==> schema[1..][i - 1] == schema[i];
      assert forall k :: k in schema <==> k == schema[0] || k in schema[1..];
      match KeyError(schema[0], members, f)
      case Some(c) => [Detail(schema[0].name, c)] + rest
      case None => rest
  }

  /** The names of the declared keys. */
  function Names(schema: ObjectSchema): set<string>
  {
    set k | k in schema :: k.name
  }

  /** The details for the keys the schema does not declare, in the object's key order. */
  function UnknownKeys(names: set<string>, members: seq<Member>): (d: seq<Detail>)
    ensures d == [] <==> forall i :: 0 <= i < |members| ==> members[i].key in names
    ensures forall i :: 0 <= i < |d| ==> d[i].code == ObjectUnknown && d[i].path !in names
    ensures d != [] ==>
      exists i :: 0 <= i < |members| && members[i].key !in names &&
        d[0] == Detail(members[i].key, ObjectUnknown) &&
        forall j :: 0 <= j < i ==> members[j].key in names
  {
    if members == [] then []
    else
      var rest := UnknownKeys(names, members[1..]);
      assert forall i :: 1 <= i < |members| ==> members[1..][i - 1] == members[i];
      if members[0].key in names then
        assert rest != [] ==>
          exists i :: 0 <= i < |members| && members[i].key !in names &&
            rest[0] == Detail(members[i].key, ObjectUnknown) &&
            forall j :: 0 <= j < i ==> members[j].key in names
        by {
          if rest != [] {
            var i :| 0 <= i < |members[1..]| && members[1..][i].key !in names &&
              rest[0] == Detail(members[1..][i].key, ObjectUnknown) &&
              forall j :: 0 <= j < i ==> members[1..][j].key in names;
            forall j | 0 <= j < i + 1
              ensures members[j].key in names
            {
              if j > 0 { assert members[j] == members[1..][j - 1]; }
            }
            assert members[i + 1] == members[1..][i];
          }
        }
        rest
      else [Detail(members[0].key, ObjectUnknown)] + rest
  }

  /**
   * Every detail Joi would report with `abortEarly` switched off: the body's
   * type, then the declared keys in order, then the undeclared ones.
   */
  function Errors(schema: ObjectSchema, body: Json, f: Formats): seq<Detail>
  {
    if body.Obj? then KeyErrors(schema, body.members, f) + UnknownKeys(Names(schema), body.members)
    else [Detail("", ObjectBase)]
  }

  /** The members `default(...)` adds for declared keys the object lacks. */
  function Defaults(schema: ObjectSchema, members: seq<Member>): (added: seq<Member>)
    ensures forall i :: 0 <= i < |added| ==> !HasKey(members, added[i].key)
    ensures forall k :: k in schema && k.default.Some? && !HasKey(members, k.name) ==>
      Member(k.name, k.default.value) in added
    ensures forall i :: 0 <= i < |added| ==>
      exists j :: 0 <= j < |schema| && schema[j].default.Some? &&
        added[i] == Member(schema[j].name, schema[j].default.value)
  {
    if schema == [] then []
    else
      var rest := Defaults(schema[1..], members);
      assert forall k :: k in schema <==> k == schema[0] || k in schema[1..];
      var first := schema[0].default.Some? && !HasKey(members, schema[0].name);
      var added := if first then [Member(schema[0].name, schema[0].default.value)] + rest else rest;
      assert forall i :: 0 <= i < |added| ==>
        exists j :: 0 <= j < |schema| && schema[j].default.Some? &&
          added[i] == Member(schema[j].name, schema[j].default.value)
      by {
        forall i | 0 <= i < |added|
          ensures exists j :: 0 <= j < |schema| && schema[j].default.Some? &&
                                added[i] == Member(schema[j].name, schema[j].default.value)
        {
          if first && i == 0 {
          } else {
            var r := if first then i - 1 else i;
            assert added[i] == rest[r];
            var j :| 0 <= j < |schema[1..]| && schema[1..][j].default.Some? &&
              rest[r] == Member(schema[1..][j].name, schema[1..][j].default.value);
            assert schema[1..][j] == schema[j + 1];
          }
        }
      }
      added
  }

  /**
   * `schema.validate(body)` with the default options. Under `abortEarly` the
   * error holds one detail, the first Joi meets; the value is the body with
   * the declared defaults filled in. The conversions of convert mode (`"5"`
   * returned as `5`) are not applied to the value: the middleware keeps only
   * `error`, so the value never reaches the request.
   */
  function Validate(schema: ObjectSchema, body: Json, f: Formats): (r: ValidationResult)
    ensures r.error.None? <==>
      body.Obj? &&
      (forall k :: k in schema ==> KeyError(k, body.members, f).None?) &&
      (forall i :: 0 <= i < |body.members| ==> body.members[i].key in Names(schema))
    ensures r.error.Some? ==> |r.error.value.details| == 1 && r.error.value.details[0] == Errors(schema, body, f)[0]
    ensures !body.Obj? ==> r.error == Some(ValidationError([Detail("", ObjectBase)]))
    ensures r.error.Some? && body.Obj? && r.error.value.details[0].code != ObjectUnknown ==>
      exists i :: 0 <= i < |schema| && KeyError(schema[i], body.members, f).Some? &&
        r.error.value.details[0] == Detail(schema[i].name, KeyError(schema[i], body.members, f).value) &&
        forall j :: 0 <= j < i ==> KeyError(schema[j], body.members, f).None?
    ensures r.error.Some? && body.Obj? && r.error.value.details[0].code == ObjectUnknown ==>
      (forall k :: k in schema ==> KeyError(k, body.members, f).None?) &&
      exists i :: 0 <= i < |body.members| && body.members[i].key !in Names(schema) &&
        r.error.value.details[0] == Detail(body.members[i].key, ObjectUnknown) &&
        forall j :: 0 <= j < i ==> body.members[j].key in Names(schema)
  {
    var errors := Errors(schema, body, f);
    assert body.Obj? && errors != [] && errors[0].code == ObjectUnknown ==>
      KeyErrors(schema, body.members, f) == []
    by {
      if body.Obj? && KeyErrors(schema, body.members, f) != [] {
        var d := KeyErrors(schema, body.members, f);
        var i :| 0 <= i < |schema| && KeyError(schema[i], body.members, f).Some? &&
          d[0] == Detail(schema[i].name, KeyError(schema[i], body.members, f).value);
        KeyErrorNotUnknown(schema[i], body.members, f);
        assert errors[0] == d[0];
      }
    }
    var value := if body.Obj? then Obj(body.members + Defaults(schema, body.members)) else body;
    if errors == [] then ValidationResult(value, None)
    else ValidationResult(value, Some(ValidationError([errors[0]])))
  }
}
