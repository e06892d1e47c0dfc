/** How long the payloads of the two agents are: the width of the JSON text that json.dumps
    writes with its default separators and non-ASCII characters kept. */
module RequestPayload {
  import opened Common

  datatype Json =
    | Null
    | Text(text: string)
    | Number(number: int)
    | Uuid
    | List(items: seq<Json>)
    | Object(fields: seq<Field>)

  datatype Field = Field(key: string, value: Json)

  /** A quote, a backslash and five control characters are written as two characters, the
      other control characters as six. */
  function CharWidth(c: char): nat
  {
    if c == '\"' || c == '\\' || c == '\n' || c == '\r' || c == '\t' || c as int == 8 || c as int == 12 then 2
    else if c as int < 32 then 6
    else 1
  }

  function CharsWidth(s: string): nat
  {
    if s == [] then 0 else CharsWidth(Front(s)) + CharWidth(Last(s))
  }

  function Digits(n: nat): nat
  {
    if n < 10 then 1 else 1 + Digits(n / 10)
  }

  function Width(j: Json): nat
    decreases j, 1
  {
    match j
    case Null => 4
    case Text(text) => 2 + CharsWidth(text)
    case Number(number) => if number < 0 then 1 + Digits(-number) else Digits(number)
    case Uuid => 38
    case List(items) => 2 + PartsWidth(j, |items|) + Separators(|items|)
    case Object(fields) => 2 + PartsWidth(j, |fields|) + Separators(|fields|)
  }

  /** A comma and a blank between neighbours. */
  function Separators(parts: nat): nat
  {
    if parts == 0 then 0 else 2 * (parts - 1)
  }

  /** The first k items of a list, or the first k fields of an object. */
  function PartsWidth(j: Json, k: nat): nat
    requires (j.List? && k <= |j.items|) || (j.Object? && k <= |j.fields|)
    decreases j, 0, k
  {
    if k == 0 then 0
    else
      PartsWidth(j, k - 1)
      + (if j.List? then Width(j.items[k - 1])
         else 2 + CharsWidth(j.fields[k - 1].key) + 2 + Width(j.fields[k - 1].value))
  }

  /** ModelCallRequest refuses a longer user payload. */
  const MAX_USER_PAYLOAD: nat := 200_000

  predicate Fits(payload: Json)
  {
    Width(payload) <= MAX_USER_PAYLOAD
  }

  // ---------- long parts make long payloads ----------

  lemma {:induction false} TextIsAtLeastItsLength(s: string)
    ensures |s| <= CharsWidth(s)
  {
    if s != [] {
      TextIsAtLeastItsLength(Front(s));
    }
  }

  lemma {:induction false} PartsGrow(j: Json, k: nat, n: nat)
    requires (j.List? && n <= |j.items|) || (j.Object? && n <= |j.fields|)
    requires k < n
    ensures (if j.List? then Width(j.items[k]) else Width(j.fields[k].value)) <= PartsWidth(j, n)
    decreases n
  {
    if k < n - 1 {
      PartsGrow(j, k, n - 1);
    }
  }

  /** A field's value is never wider than its object. */
  lemma FieldIsWithin(j: Json, k: nat)
    requires j.Object? && k < |j.fields|
    ensures Width(j.fields[k].value) <= Width(j)
  {
    PartsGrow(j, k, |j.fields|);
  }

  // ---------- short parts make short payloads ----------

  lemma {:induction false} TextIsAtMostSixfold(s: string)
    ensures CharsWidth(s) <= 6 * |s|
  {
    if s != [] {
      TextIsAtMostSixfold(Front(s));
    }
  }

  /** What one item of a list, or one field of an object, adds. */
  function PartWidth(j: Json, k: nat): nat
    requires (j.List? && k < |j.items|) || (j.Object? && k < |j.fields|)
  {
    if j.List? then Width(j.items[k]) else 2 + CharsWidth(j.fields[k].key) + 2 + Width(j.fields[k].value)
  }

  lemma {:induction false} PartsAtMost(j: Json, n: nat, bound: nat)
    requires (j.List? && n <= |j.items|) || (j.Object? && n <= |j.fields|)
    requires forall k :: 0 <= k < n ==> PartWidth(j, k) <= bound
    ensures PartsWidth(j, n) <= n * bound
    decreases n
  {
    if n > 0 {
      PartsAtMost(j, n - 1, bound);
      assert PartWidth(j, n - 1) <= bound;
      assert n * bound == (n - 1) * bound + bound;
    }
  }

  lemma NarrowList(items: seq<Json>, bound: nat)
    requires forall k :: 0 <= k < |items| ==> Width(items[k]) <= bound
    ensures Width(List(items)) <= 2 + |items| * (bound + 2)
  {
    PartsAtMost(List(items), |items|, bound);
    assert |items| * (bound + 2) == |items| * bound + 2 * |items|;
  }

  /** Keys of at most 40 characters. */
  lemma NarrowObject(fields: seq<Field>, bound: nat)
    requires forall k :: 0 <= k < |fields| ==> |fields[k].key| <= 40 && Width(fields[k].value) <= bound
    ensures Width(Object(fields)) <= 2 + |fields| * (bound + 246)
  {
    var j := Object(fields);
    forall k | 0 <= k < |fields|
      ensures PartWidth(j, k) <= bound + 244
    {
      TextIsAtMostSixfold(fields[k].key);
    }
    PartsAtMost(j, |fields|, bound + 244);
    assert |fields| * (bound + 246) == |fields| * (bound + 244) + 2 * |fields|;
  }

  lemma NarrowText(s: string, bound: nat)
    requires |s| <= bound
    ensures Width(Text(s)) <= 2 + 6 * bound
  {
    TextIsAtMostSixfold(s);
  }
}
