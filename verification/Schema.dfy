/**
 The zod schemas of the contracts package, as data: a schema is a tree, and parsing either rejects a JSON
 value or returns it normalised (strings trimmed).  Whether a text is a URL or a date-time, and the wording
 of a rejection, belong to zod and are parameters.
 */
module Schema {
  import opened Seqs
  import opened Text

  datatype Json =
    | JNull
    | JBool(b: bool)
    | JNumber(n: real)
    | JString(s: string)
    | JArray(items: seq<Json>)
    | JObject(members: map<string, Json>)

  datatype Zod = Zod(isUrl: string -> bool, isDateTime: string -> bool, explain: Json -> string)

  datatype TextRule = AnyText | NonBlank | MinOne | UuidText | UrlText | DateTimeText
  datatype Sign = AnySign | NonNegative | Positive
  datatype Field = Field(required: bool, schema: Shape)

  datatype Shape =
    | Text(rule: TextRule)
    | Literal(text: string)
    | Number(integral: bool, sign: Sign)
    | OneOf(values: seq<nat>)
    | Nullable(inner: Shape)
    | ArrayOf(element: Shape, min: nat, exact: Option<nat>)
    | Strict(fields: map<string, Field>)
    | Union(tag: string, arms: map<string, Shape>)

  predicate IsHex(c: char) { IsDigit(c) || 'a' <= c <= 'f' || 'A' <= c <= 'F' }

  /** Groups of 8, 4, 4, 4 and 12 hexadecimal digits joined by dashes. */
  predicate IsUuid(s: string) {
    && |s| == 36
    && forall i :: 0 <= i < 36 ==>
         if i == 8 || i == 13 || i == 18 || i == 23 then s[i] == '-' else IsHex(s[i])
  }

  /** The UUID x0000000-0000-4000-8000-000000000000 with this first digit. */
  function SampleUuid(head: char): string {
    seq(36, i => if i == 0 then head else if i == 8 || i == 13 || i == 18 || i == 23 then '-'
                 else if i == 14 then '4' else if i == 19 then '8' else '0')
  }

  function ParseText(z: Zod, rule: TextRule, s: string): Option<string> {
    match rule
    case AnyText => Some(s)
    case NonBlank => if Trim(s) != "" then Some(Trim(s)) else None
    case MinOne => if s != "" then Some(s) else None
    case UuidText => if IsUuid(s) then Some(s) else None
    case UrlText => if z.isUrl(s) then Some(s) else None
    case DateTimeText => if z.isDateTime(s) then Some(s) else None
  }

  predicate NumberFits(integral: bool, sign: Sign, n: real) {
    && (integral ==> n == n.Floor as real)
    && (sign.NonNegative? ==> n >= 0.0)
    && (sign.Positive? ==> n > 0.0)
  }

  function Parse(z: Zod, shape: Shape, j: Json): Option<Json>
    decreases shape
  {
    match shape
    case Text(rule) =>
      if !j.JString? then None else
      (match ParseText(z, rule, j.s) case Some(t) => Some(JString(t)) case None => None)
    case Literal(text) => if j == JString(text) then Some(j) else None
    case Number(integral, sign) => if j.JNumber? && NumberFits(integral, sign, j.n) then Some(j) else None
    case OneOf(values) =>
      if j.JNumber? && exists i :: 0 <= i < |values| && values[i] as real == j.n then Some(j) else None
    case Nullable(inner) => if j.JNull? then Some(j) else Parse(z, inner, j)
    case ArrayOf(element, min, exact) =>
      if !j.JArray? || |j.items| < min || (exact.Some? && |j.items| != exact.value) then None
      else if exists i :: 0 <= i < |j.items| && Parse(z, element, j.items[i]).None? then None
      else Some(JArray(seq(|j.items|, i requires 0 <= i < |j.items| => Parse(z, element, j.items[i]).value)))
    case Strict(fields) =>
      if !j.JObject? || !(j.members.Keys <= fields.Keys) then None
      else if exists k :: k in fields && fields[k].required && k !in j.members then None
      else if exists k :: k in j.members && Parse(z, fields[k].schema, j.members[k]).None? then None
      else Some(JObject(map k | k in j.members :: Parse(z, fields[k].schema, j.members[k]).value))
    case Union(tag, arms) =>
      if !j.JObject? || tag !in j.members || !j.members[tag].JString? || j.members[tag].s !in arms then None
      else Parse(z, arms[j.members[tag].s], j)
  }

  /** What zod demands of a discriminated union: each arm is an object that requires its own tag value. */
  predicate WellFormed(shape: Shape) {
    match shape
    case Nullable(inner) => WellFormed(inner)
    case ArrayOf(element, _, _) => WellFormed(element)
    case Strict(fields) => forall k :: k in fields ==> WellFormed(fields[k].schema)
    case Union(tag, arms) =>
      forall x :: x in arms ==>
        && WellFormed(arms[x])
        && arms[x].Strict? && tag in arms[x].fields && arms[x].fields[tag] == Field(true, Literal(x))
    case _ => true
  }

  /** Parsing twice is parsing once, for every schema: a normalised value is accepted unchanged. */
  lemma {:induction false} ParseIdempotent(z: Zod, shape: Shape, j: Json)
    requires WellFormed(shape) && Parse(z, shape, j).Some?
    ensures Parse(z, shape, Parse(z, shape, j).value) == Parse(z, shape, j)
    decreases shape
  {
    var p := Parse(z, shape, j).value;
    match shape
    case Nullable(inner) =>
      if !j.JNull? {
        ParseIdempotent(z, inner, j);
      }
    case ArrayOf(element, min, exact) =>
      forall i | 0 <= i < |j.items|
        ensures Parse(z, element, p.items[i]) == Some(p.items[i])
      {
        ParseIdempotent(z, element, j.items[i]);
      }
      assert Parse(z, shape, p).value.items == p.items;
    case Strict(fields) =>
      forall k | k in j.members
        ensures Parse(z, fields[k].schema, p.members[k]) == Some(p.members[k])
      {
        ParseIdempotent(z, fields[k].schema, j.members[k]);
      }
      assert Parse(z, shape, p).value.members == p.members;
    case Union(tag, arms) =>
      var x := j.members[tag].s;
      ParseIdempotent(z, arms[x], j);
      assert Parse(z, Literal(x), j.members[tag]) == Some(p.members[tag]);
    case _ =>
  }
}
