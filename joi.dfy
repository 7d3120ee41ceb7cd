/**
  The part of the Joi object validator the input schemas rely on, restated as a
  closed set of field descriptors evaluated by one validation routine. Fields
  are checked in declaration order and the first failure is reported (Joi's
  default abort-early mode); messages follow Joi's English templates.
 */
module Joi {
  import opened Wrappers

  /** A value as it can appear in a parsed JSON request body. */
  datatype Value =
    | Str(s: string)
    | Num(x: real)
    | Bool(b: bool)
    | Null
    | Arr(items: seq<Value>)
    | Obj(fields: map<string, Value>)
    | Instant(ms: int)  // a Date object

  /** A request body: its own keys and their values. */
  type Body = map<string, Value>

  /** The one pattern the schemas use: a 24-digit hexadecimal object id. */
  datatype Pattern = ObjectIdHex

  /** A string rule: inclusive length bounds and an optional pattern. */
  datatype TextRule = TextRule(minLen: nat, maxLen: nat, pattern: Option<Pattern>)

  /** What a field's value must be. */
  datatype Rule =
    | Text(text: TextRule)           // Joi.string().min().max()[.pattern()]
    | Integer(lo: int, hi: int)      // Joi.number().integer().min().max()
    | TextList(item: TextRule)       // Joi.array().items(Joi.string()...)
    | Date                           // Joi.date()

  /** One key of an object schema, with the message that replaces "any.required". */
  datatype Field = Field(name: string, rule: Rule, required: bool, missing: Option<string>)

  /** An object schema: its keys in declaration order. */
  type Shape = seq<Field>

  function Digit(d: nat): char
    requires d < 10
  {
    "0123456789"[d]
  }

  /** Decimal rendering of a limit inside a message. */
  function NatToString(n: nat): (r: string)
    ensures |r| >= 1
  {
    if n < 10 then [Digit(n)] else NatToString(n / 10) + [Digit(n % 10)]
  }

  function IntToString(n: int): string
  {
    if n < 0 then "-" + NatToString(-n) else NatToString(n)
  }

  /** The label Joi gives a key in its messages: the key's path in double quotes. */
  function Quoted(path: string): string
  {
    "\"" + path + "\""
  }

  predicate IsHexDigit(c: char)
  {
    '0' <= c <= '9' || 'a' <= c <= 'f' || 'A' <= c <= 'F'
  }

  predicate IsDecimalDigit(c: char)
  {
    '0' <= c <= '9'
  }

  /** Whether `s` matches `pattern`. */
  predicate Matches(s: string, pattern: Pattern)
  {
    match pattern
    case ObjectIdHex => |s| == 24 && forall i :: 0 <= i < |s| ==> IsHexDigit(s[i])
  }

  /** The pattern as Joi prints it. */
  function PatternSource(pattern: Pattern): string
  {
    match pattern
    case ObjectIdHex => "/^[0-9a-fA-F]{24}$/"
  }

  function DigitValue(c: char): nat
    requires IsDecimalDigit(c)
  {
    c as int - '0' as int
  }

  /**
    A date string accepted here: exactly YYYY-MM-DD, with a month from 01 to 12
    and a day from 01 to 31. This is a subset of what JavaScript's Date parser,
    which Joi.date() relies on, turns into a valid date.
   */
  predicate IsDateText(s: string)
  {
    && |s| == 10
    && (forall i :: 0 <= i < 10 && i != 4 && i != 7 ==> IsDecimalDigit(s[i]))
    && s[4] == '-' && s[7] == '-'
    && 1 <= DigitValue(s[5]) * 10 + DigitValue(s[6]) <= 12
    && 1 <= DigitValue(s[8]) * 10 + DigitValue(s[9]) <= 31
  }

  /** The first failure of string value `v` under `t`, or None. */
  function CheckText(path: string, t: TextRule, v: Value): (r: Option<string>)
    ensures r.None? <==> v.Str? && v.s != [] && t.minLen <= |v.s| <= t.maxLen &&
                         (t.pattern.Some? ==> Matches(v.s, t.pattern.value))
  {
    if !v.Str? then Some(Quoted(path) + " must be a string")
    else if v.s == [] then Some(Quoted(path) + " is not allowed to be empty")
    else if |v.s| < t.minLen then
      Some(Quoted(path) + " length must be at least " + NatToString(t.minLen) + " characters long")
    else if |v.s| > t.maxLen then
      Some(Quoted(path) + " length must be less than or equal to " + NatToString(t.maxLen) + " characters long")
    else if t.pattern.Some? && !Matches(v.s, t.pattern.value) then
      Some(Quoted(path) + " with value " + Quoted(v.s) + " fails to match the required pattern: " +
           PatternSource(t.pattern.value))
    else None
  }

  /** The first failing item of `items`, from index `from` on, labelled `path[i]`. */
  function CheckItems(path: string, t: TextRule, items: seq<Value>, from: nat): (r: Option<string>)
    requires from <= |items|
    ensures r.None? <==> forall i :: from <= i < |items| ==> CheckText(path, t, items[i]).None?
    decreases |items| - from
  {
    if from == |items| then None
    else match CheckText(path + "[" + NatToString(from) + "]", t, items[from])
      case Some(m) => Some(m)
      case None => CheckItems(path, t, items, from + 1)
  }

  /**
    The first failure of a present value `v` under `rule`, or None: an
    integer rule passes exactly for a whole number within its inclusive
    bounds, a list rule exactly for an array whose every item passes the item
    rule, and a date rule exactly for a Date, a timestamp or a date string.
   */
  function CheckValue(path: string, rule: Rule, v: Value): (r: Option<string>)
    ensures rule.Text? ==> (r.None? <==> v.Str? && v.s != [] && rule.text.minLen <= |v.s| <= rule.text.maxLen &&
                                         (rule.text.pattern.Some? ==> Matches(v.s, rule.text.pattern.value)))
    ensures rule.Integer? ==> (r.None? <==> v.Num? && v.x.Floor as real == v.x &&
                                            rule.lo as real <= v.x <= rule.hi as real)
    ensures rule.Integer? && !v.Num? ==> r == Some(Quoted(path) + " must be a number")
    ensures rule.TextList? ==> (r.None? <==> v.Arr? &&
                                             forall i :: 0 <= i < |v.items| ==> CheckText(path, rule.item, v.items[i]).None?)
    ensures rule.TextList? && !v.Arr? ==> r == Some(Quoted(path) + " must be an array")
    ensures rule.Date? ==> (r.None? <==> v.Instant? || v.Num? || (v.Str? && IsDateText(v.s)))
    ensures rule.Date? && r.Some? ==> r == Some(Quoted(path) + " must be a valid date")
  {
    match rule
    case Text(t) => CheckText(path, t, v)
    case Integer(lo, hi) =>
      if !v.Num? then Some(Quoted(path) + " must be a number")
      else if v.x.Floor as real != v.x then Some(Quoted(path) + " must be an integer")
      else if v.x < lo as real then Some(Quoted(path) + " must be greater than or equal to " + IntToString(lo))
      else if v.x > hi as real then Some(Quoted(path) + " must be less than or equal to " + IntToString(hi))
      else None
    case TextList(t) =>
      if !v.Arr? then Some(Quoted(path) + " must be an array")
      else CheckItems(path, t, v.items, 0)
    case Date =>
      if v.Instant? || v.Num? || (v.Str? && IsDateText(v.s)) then None
      else Some(Quoted(path) + " must be a valid date")
  }

  /**
    The failure `body` has at field `f`, or None. A missing optional field
    passes; a missing required field fails with the field's own "missing"
    message, or Joi's `"k" is required` when it has none; a present field is
    judged by its rule alone.
   */
  function CheckField(f: Field, body: Body): (r: Option<string>)
    ensures f.name !in body ==> (r.None? <==> !f.required)
    ensures f.name !in body && f.required && f.missing.Some? ==> r == Some(f.missing.value)
    ensures f.name !in body && f.required && f.missing.None? ==> r == Some(Quoted(f.name) + " is required")
    ensures f.name in body ==> r == CheckValue(f.name, f.rule, body[f.name])
  {
    if f.name !in body then
      if !f.required then None
      else if f.missing.Some? then Some(f.missing.value)
      else Some(Quoted(f.name) + " is required")
    else CheckValue(f.name, f.rule, body[f.name])
  }

  /** Whether the shape declares key `k`. */
  predicate Declares(shape: Shape, k: string)
  {
    exists i :: 0 <= i < |shape| && shape[i].name == k
  }

  /** The keys of `body` the shape does not declare: Joi objects allow no others. */
  function Undeclared(shape: Shape, body: Body): set<string>
  {
    set k | k in body && !Declares(shape, k)
  }

  /** The message of the first failing field in declaration order, or None when every field passes. */
  function FirstFailure(shape: Shape, body: Body): (r: Option<string>)
    ensures r.None? <==> forall i :: 0 <= i < |shape| ==> CheckField(shape[i], body).None?
    ensures r.Some? ==> exists i :: 0 <= i < |shape| && CheckField(shape[i], body) == r &&
                                    forall j :: 0 <= j < i ==> CheckField(shape[j], body).None?
  {
    if shape == [] then None
    else match CheckField(shape[0], body)
      case Some(m) => Some(m)
      case None =>
        var rest := FirstFailure(shape[1..], body);
        assert forall i :: 1 <= i < |shape| ==> shape[i] == shape[1..][i - 1];
        rest
  }

  /**
    schema.validate(body): Ok with the body itself when every declared field
    passes and the body has no other key. Otherwise Err with the message of
    the first failing field in declaration order; when every field passes, the
    message names one undeclared key. The body's key order is not modelled, so
    which undeclared key is named is left open.
   */
  ghost function Validate(shape: Shape, body: Body): (r: Result<Body, string>)
    ensures r.Ok? ==> r.value == body
    ensures r.Ok? <==> (forall i :: 0 <= i < |shape| ==> CheckField(shape[i], body).None?) &&
                       Undeclared(shape, body) == {}
    ensures r.Err? && (exists i :: 0 <= i < |shape| && CheckField(shape[i], body).Some?) ==>
              exists i :: 0 <= i < |shape| && CheckField(shape[i], body) == Some(r.error) &&
                          forall j :: 0 <= j < i ==> CheckField(shape[j], body).None?
    ensures r.Err? && (forall i :: 0 <= i < |shape| ==> CheckField(shape[i], body).None?) ==>
              exists k :: k in Undeclared(shape, body) && r.error == Quoted(k) + " is not allowed"
  {
    match FirstFailure(shape, body)
    case Some(m) => Err(m)
    case None =>
      if Undeclared(shape, body) == {} then Ok(body)
      else
        var k :| k in Undeclared(shape, body);
        Err(Quoted(k) + " is not allowed")
  }

  /**
    The message reported is that of the first failing field in declaration
    order, whatever the later fields hold.
   */
  lemma {:induction false} FirstFailureReported(shape: Shape, body: Body, k: nat)
    requires k < |shape|
    requires forall j :: 0 <= j < k ==> CheckField(shape[j], body).None?
    requires CheckField(shape[k], body).Some?
    ensures Validate(shape, body) == Err(CheckField(shape[k], body).value)
  {
    var r := Validate(shape, body);
    assert r.Err?;
    var i :| 0 <= i < |shape| && CheckField(shape[i], body) == Some(r.error) &&
             forall j :: 0 <= j < i ==> CheckField(shape[j], body).None?;
    assert i == k;
  }

  /** Once every declared field passes, a single undeclared key is the one reported. */
  lemma UndeclaredKeyReported(shape: Shape, body: Body, k: string)
    requires forall i :: 0 <= i < |shape| ==> CheckField(shape[i], body).None?
    requires Undeclared(shape, body) == {k}
    ensures Validate(shape, body) == Err(Quoted(k) + " is not allowed")
  {
    var r := Validate(shape, body);
    assert r.Err?;
    var k' :| k' in Undeclared(shape, body) && r.error == Quoted(k') + " is not allowed";
    assert k' == k;
  }
}
