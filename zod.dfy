/** The part of the Zod schema library the forms rely on. A schema lists its
    keys in order and each key lists its checks in order; `parse` runs every
    check of every key, collects one issue per failing check, and the pages
    show the message of the first issue. */
module Zod {

  /** A JavaScript number, as `Number(...)`, `parseInt` and `parseFloat`
      produce it. */
  datatype JsNumber = NaN | PosInfinity | NegInfinity | Finite(value: real)

  /** The message of an issue: a text the schema gives, or one of Zod's
      built-in messages, whose wording is not modelled. */
  datatype Message =
    | Text(text: string)
    | TooSmall(minimum: int)  // built-in message of a failed `min`
    | TooBig(maximum: int)    // built-in message of a failed `max`
    | NotANumber              // built-in message of `z.number()` given NaN

  /** A check on a string: `min`, `max` (lengths) or `email`, whose pattern
      is the predicate `isEmail`. */
  datatype StringCheck =
    | MinLength(n: nat, message: Message)
    | MaxLength(n: nat, message: Message)
    | Email(isEmail: string -> bool, message: Message)

  /** A check on a number: `min` and `max`, both inclusive. */
  datatype NumberCheck =
    | AtLeast(bound: int, message: Message)
    | AtMost(bound: int, message: Message)

  predicate StringPasses(s: string, c: StringCheck) {
    match c
    case MinLength(n, _) => |s| >= n
    case MaxLength(n, _) => |s| <= n
    case Email(isEmail, _) => isEmail(s)
  }

  /** The issue one check raises: none, or its message. */
  function StringIssue(s: string, c: StringCheck): seq<Message> {
    if StringPasses(s, c) then [] else [c.message]
  }

  /** The issues a string key raises: one message per failing check, in the
      order of the checks. */
  function StringIssues(s: string, checks: seq<StringCheck>): (issues: seq<Message>)
    ensures |issues| <= |checks|
    ensures checks != [] && !StringPasses(s, checks[0]) ==> issues != [] && issues[0] == checks[0].message
  {
    if checks == [] then [] else StringIssue(s, checks[0]) + StringIssues(s, checks[1..])
  }

  lemma {:induction false} StringIssuesNone(s: string, checks: seq<StringCheck>)
    ensures StringIssues(s, checks) == [] <==> forall i :: 0 <= i < |checks| ==> StringPasses(s, checks[i])
    decreases |checks|
  {
    if checks != [] {
      StringIssuesNone(s, checks[1..]);
      assert forall i :: 1 <= i < |checks| ==> checks[i] == checks[1..][i - 1];
    }
  }

  lemma StringIssuesOfOne(s: string, c: StringCheck)
    ensures StringIssues(s, [c]) == StringIssue(s, c)
  {
    assert [c][1..] == [];
  }

  lemma StringIssuesOfTwo(s: string, c1: StringCheck, c2: StringCheck)
    ensures StringIssues(s, [c1, c2]) == StringIssue(s, c1) + StringIssue(s, c2)
  {
    assert [c1, c2][1..] == [c2];
    StringIssuesOfOne(s, c2);
  }

  lemma LengthBetween(s: string, lo: nat, hi: nat, m1: Message, m2: Message)
    ensures StringIssues(s, [MinLength(lo, m1), MaxLength(hi, m2)]) == [] <==> lo <= |s| <= hi
  {
    StringIssuesOfTwo(s, MinLength(lo, m1), MaxLength(hi, m2));
  }

  lemma LengthAtLeast(s: string, lo: nat, m: Message)
    ensures StringIssues(s, [MinLength(lo, m)]) == [] <==> lo <= |s|
  {
    StringIssuesOfOne(s, MinLength(lo, m));
  }

  lemma LengthAtMost(s: string, hi: nat, m: Message)
    ensures StringIssues(s, [MaxLength(hi, m)]) == [] <==> |s| <= hi
  {
    StringIssuesOfOne(s, MaxLength(hi, m));
  }

  lemma EmailAtMost(s: string, isEmail: string -> bool, hi: nat, m1: Message, m2: Message)
    ensures StringIssues(s, [Email(isEmail, m1), MaxLength(hi, m2)]) == [] <==> isEmail(s) && |s| <= hi
  {
    StringIssuesOfTwo(s, Email(isEmail, m1), MaxLength(hi, m2));
  }

  lemma EmailOnly(s: string, isEmail: string -> bool, m: Message)
    ensures StringIssues(s, [Email(isEmail, m)]) == [] <==> isEmail(s)
  {
    StringIssuesOfOne(s, Email(isEmail, m));
  }

  /** A number other than NaN passes a check; infinities pass the bound on
      their own side. */
  predicate NumberPasses(x: JsNumber, c: NumberCheck) {
    match c
    case AtLeast(b, _) => x.PosInfinity? || (x.Finite? && x.value >= b as real)
    case AtMost(b, _) => x.NegInfinity? || (x.Finite? && x.value <= b as real)
  }

  function NumberIssue(x: JsNumber, c: NumberCheck): seq<Message> {
    if NumberPasses(x, c) then [] else [c.message]
  }

  /** The issues a number key raises: NaN is rejected as not a number before
      any bound is checked; otherwise one message per failing bound. */
  function NumberIssues(x: JsNumber, checks: seq<NumberCheck>): (issues: seq<Message>)
    ensures x.NaN? ==> issues == [NotANumber]
    ensures !x.NaN? ==> |issues| <= |checks|
  {
    if x.NaN? then [NotANumber]
    else if checks == [] then []
    else NumberIssue(x, checks[0]) + NumberIssues(x, checks[1..])
  }

  lemma NumberIssuesOfOne(x: JsNumber, c: NumberCheck)
    ensures NumberIssues(x, [c]) == if x.NaN? then [NotANumber] else NumberIssue(x, c)
  {
    assert [c][1..] == [];
  }

  lemma NumberIssuesOfTwo(x: JsNumber, c1: NumberCheck, c2: NumberCheck)
    ensures NumberIssues(x, [c1, c2]) ==
      if x.NaN? then [NotANumber] else NumberIssue(x, c1) + NumberIssue(x, c2)
  {
    assert [c1, c2][1..] == [c2];
    NumberIssuesOfOne(x, c2);
  }

  lemma NumberBetween(x: JsNumber, lo: int, hi: int, m1: Message, m2: Message)
    ensures NumberIssues(x, [AtLeast(lo, m1), AtMost(hi, m2)]) == [] <==>
      x.Finite? && lo as real <= x.value <= hi as real
  {
    NumberIssuesOfTwo(x, AtLeast(lo, m1), AtMost(hi, m2));
  }

  lemma NumberAtLeast(x: JsNumber, lo: int, m: Message)
    ensures NumberIssues(x, [AtLeast(lo, m)]) == [] <==>
      x.PosInfinity? || (x.Finite? && x.value >= lo as real)
  {
    NumberIssuesOfOne(x, AtLeast(lo, m));
  }

  /** A schema has no issue exactly when none of its keys has one. */
  lemma NoIssueInAnyKey(a: seq<Message>, b: seq<Message>, c: seq<Message>, d: seq<Message>,
                        e: seq<Message>, f: seq<Message>, g: seq<Message>)
    ensures a + b + c + d + e + f + g == [] <==>
      a == [] && b == [] && c == [] && d == [] && e == [] && f == [] && g == []
  {
    assert |a + b + c + d + e + f + g| == |a| + |b| + |c| + |d| + |e| + |f| + |g|;
  }

  lemma SixthIssueFirst(a: seq<Message>, b: seq<Message>, c: seq<Message>, d: seq<Message>,
                        e: seq<Message>, f: seq<Message>, g: seq<Message>)
    requires a == [] && b == [] && c == [] && d == [] && e == [] && f != []
    ensures (a + b + c + d + e + f + g)[0] == f[0]
  {
    assert a + b + c + d + e + f + g == f + g;
  }

  /** The outcome of `schema.parse`: the parsed value when there is no issue,
      otherwise the first issue's message. */
  datatype Parsed<+T> = Valid(value: T) | Invalid(message: Message)

  function FirstIssue<T>(issues: seq<Message>, value: T): (r: Parsed<T>)
    ensures r.Valid? <==> issues == []
    ensures r.Valid? ==> r.value == value
    ensures r.Invalid? ==> r.message == issues[0]
  {
    if issues == [] then Valid(value) else Invalid(issues[0])
  }
}
