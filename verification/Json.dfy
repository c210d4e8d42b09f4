/**
 How long pretty-printed JSON is: `json.dumps(value, ensure_ascii=False, indent=2,
 separators=(",", ": "))`. Strings are escaped as section 7 of RFC 8259 requires.
 */
module Json {
  import opened Sums

  datatype Value =
    | Null
    | Bool(b: bool)
    | Num(n: nat)
    | Str(s: string)
    | Arr(items: seq<Value>)
    | Obj(fields: seq<Field>)

  datatype Field = Field(key: string, value: Value)

  // ----- Characters and numbers -----

  predicate IsShortEscape(c: char) {
    c == '\"' || c == '\\' || c == '\n' || c == '\r' || c == '\t' || c == 8 as char || c == 12 as char
  }

  /** Two characters for a short escape, six for any other control character, one otherwise. */
  function CharCost(c: char): nat {
    if IsShortEscape(c) then 2 else if c < ' ' then 6 else 1
  }

  function Escaped(s: string): nat {
    if s == "" then 0 else CharCost(s[0]) + Escaped(s[1..])
  }

  predicate Plain(s: string) {
    forall c | c in s :: CharCost(c) == 1
  }

  lemma {:induction false} EscapedConcat(a: string, b: string)
    ensures Escaped(a + b) == Escaped(a) + Escaped(b)
  {
    if a == "" {
      assert a + b == b;
    } else {
      assert (a + b)[1..] == a[1..] + b;
      EscapedConcat(a[1..], b);
    }
  }

  lemma {:induction false} EscapedPlain(s: string)
    requires Plain(s)
    ensures Escaped(s) == |s|
  {
    if s != "" {
      assert s[0] in s;
      EscapedPlain(s[1..]);
    }
  }

  /** A text costs at most its length times what its dearest character costs. */
  lemma {:induction false} EscapedAtMost(s: string, cost: nat)
    requires forall c | c in s :: CharCost(c) <= cost
    ensures Escaped(s) <= cost * |s|
  {
    if s != "" {
      assert s[0] in s;
      EscapedAtMost(s[1..], cost);
      OneMore(cost, |s| - 1);
    }
  }

  lemma OneMore(a: nat, n: nat)
    ensures a + a * n == a * (n + 1)
  {
  }

  // ----- The text itself -----

  function Hex(n: nat): char
    requires n < 16
  {
    "0123456789abcdef"[n]
  }

  /** How a character is written inside a JSON string: a short escape, a four-digit hex escape, or itself. */
  function Written(c: char): string {
    if c == '\"' then "\\\""
    else if c == '\\' then "\\\\"
    else if c == '\n' then "\\n"
    else if c == '\r' then "\\r"
    else if c == '\t' then "\\t"
    else if c == 8 as char then "\\b"
    else if c == 12 as char then "\\f"
    else if c < ' ' then "\\u00" + [Hex(c as int / 16), Hex(c as int % 16)]
    else [c]
  }

  function JsonText(s: string): string {
    if s == "" then "" else Written(s[0]) + JsonText(s[1..])
  }

  /** The length model counts exactly the characters written. */
  lemma {:induction false} JsonTextLength(s: string)
    ensures |JsonText(s)| == Escaped(s)
  {
    if s != "" {
      JsonTextLength(s[1..]);
    }
  }

  lemma {:induction false} JsonTextConcat(a: string, b: string)
    ensures JsonText(a + b) == JsonText(a) + JsonText(b)
  {
    if a == "" {
      assert a + b == b;
    } else {
      assert (a + b)[1..] == a[1..] + b;
      JsonTextConcat(a[1..], b);
    }
  }

  lemma {:induction false} JsonTextPlain(s: string)
    requires Plain(s)
    ensures JsonText(s) == s
  {
    if s != "" {
      assert s[0] in s;
      JsonTextPlain(s[1..]);
    }
  }

  predicate StandsAt(text: string, part: string, i: nat) {
    i + |part| <= |text| && text[i..i + |part|] == part
  }

  predicate Contains(text: string, part: string) {
    exists i: nat | i <= |text| :: StandsAt(text, part, i)
  }

  /** The text, once it is written as a JSON string, contains the marker. */
  predicate Mentions(text: string, marker: string) {
    Contains(JsonText(text), marker)
  }

  /** A text that quotes a plain marker mentions it. */
  lemma QuotingMentions(before: string, marker: string, after: string)
    requires Plain(marker)
    ensures Mentions(before + marker + after, marker)
  {
    JsonTextConcat(before + marker, after);
    JsonTextConcat(before, marker);
    JsonTextPlain(marker);
    var text := JsonText(before + marker + after);
    assert StandsAt(text, marker, |JsonText(before)|);
  }

  function Digit(n: nat): char
    requires n < 10
  {
    "0123456789"[n]
  }

  function Decimal(n: nat): string {
    if n < 10 then [Digit(n)] else Decimal(n / 10) + [Digit(n % 10)]
  }

  lemma {:induction false} DecimalPlain(n: nat)
    ensures Plain(Decimal(n)) && |Decimal(n)| >= 1
  {
    if n >= 10 {
      DecimalPlain(n / 10);
    }
  }

  lemma {:induction false} DecimalMonotone(m: nat, n: nat)
    requires m <= n
    ensures |Decimal(m)| <= |Decimal(n)|
  {
    if m < 10 {
      DecimalPlain(n);
    } else {
      DecimalMonotone(m / 10, n / 10);
    }
  }

  /** A number has no more digits than its value, zero apart. */
  lemma {:induction false} DecimalShort(n: nat)
    ensures |Decimal(n)| <= n + 1 && (n >= 1 ==> |Decimal(n)| <= n)
  {
    if n >= 10 {
      DecimalShort(n / 10);
    }
  }

  // ----- Values -----

  /** The length of a value printed at a nesting depth. Each line of a container is broken and indented by two per level. */
  function Len(v: Value, depth: nat): nat
    decreases v, 1
  {
    match v
    case Null => 4
    case Bool(b) => if b then 4 else 5
    case Num(n) => |Decimal(n)|
    case Str(s) => 2 + Escaped(s)
    case Arr(items) => if items == [] then 2 else 2 * depth + 2 + ItemsLen(items, depth + 1)
    case Obj(fields) => if fields == [] then 2 else 2 * depth + 2 + FieldsLen(fields, depth + 1)
  }

  /** Items, each with its line break, its indentation, and its comma or the closing line break. */
  function ItemsLen(items: seq<Value>, depth: nat): nat
    decreases items, 0
  {
    if items == [] then 0 else Len(items[0], depth) + 2 * depth + 2 + ItemsLen(items[1..], depth)
  }

  function FieldsLen(fields: seq<Field>, depth: nat): nat
    decreases fields, 0
  {
    if fields == [] then 0
    else FieldLen(fields[0], depth) + FieldsLen(fields[1..], depth)
  }

  /** A field adds its quoted key and ": " to its value's line. */
  function FieldLen(f: Field, depth: nat): nat
    decreases f, 0
  {
    Escaped(f.key) + 4 + Len(f.value, depth) + 2 * depth + 2
  }

  // ----- Lists of strings -----

  function Strings(xs: seq<string>): Value {
    Arr(seq(|xs|, i requires 0 <= i < |xs| => Str(xs[i])))
  }

  /** The line of one string in a list at this depth. */
  function StringLine(depth: nat): string -> int {
    (s: string) => Escaped(s) + 2 * depth + 6
  }

  lemma {:induction false} StringItems(xs: seq<string>, depth: nat)
    ensures ItemsLen(Strings(xs).items, depth + 1) == Sum(xs, StringLine(depth))
  {
    if xs != [] {
      assert Strings(xs).items[1..] == Strings(xs[1..]).items;
      StringItems(xs[1..], depth);
    }
  }

  lemma StringsLen(xs: seq<string>, depth: nat)
    ensures Len(Strings(xs), depth) == if xs == [] then 2 else 2 * depth + 2 + Sum(xs, StringLine(depth))
  {
    StringItems(xs, depth);
  }

  /** A list with fewer and shorter strings than the limits allow is no longer than one at the limits. */
  lemma StringsWithin(xs: seq<string>, ys: seq<string>, limit: nat, depth: nat)
    requires |xs| <= |ys|
    requires forall x | x in xs :: Escaped(x) <= limit
    requires forall y | y in ys :: Escaped(y) == limit
    ensures Len(Strings(xs), depth) <= Len(Strings(ys), depth)
  {
    StringsLen(xs, depth);
    StringsLen(ys, depth);
    var line := limit + 2 * depth + 6;
    SumAtMost(xs, StringLine(depth), line);
    SumConstant(ys, StringLine(depth), line);
    LinesGrow(|xs|, |ys|, line);
  }

  lemma LinesGrow(m: nat, n: nat, line: nat)
    requires m <= n
    ensures m * line <= n * line
  {
  }

  lemma {:induction false} SumAtMost<T>(xs: seq<T>, f: T -> int, bound: int)
    requires forall x | x in xs :: f(x) <= bound
    ensures Sum(xs, f) <= |xs| * bound
  {
    if xs != [] {
      assert f(xs[0]) <= bound;
      SumAtMost(xs[1..], f, bound);
    }
  }

  // ----- Objects with fixed keys -----

  /** An object with these keys, in this order. */
  function Record(keys: seq<string>, values: seq<Value>): Value
    requires |keys| == |values|
  {
    Obj(seq(|keys|, i requires 0 <= i < |keys| => Field(keys[i], values[i])))
  }

  function KeysLen(keys: seq<string>, depth: nat): nat {
    if keys == [] then 0 else Escaped(keys[0]) + 2 * depth + 6 + KeysLen(keys[1..], depth)
  }

  function ValuesLen(values: seq<Value>, depth: nat): nat {
    if values == [] then 0 else Len(values[0], depth) + ValuesLen(values[1..], depth)
  }

  lemma {:induction false} RecordFields(keys: seq<string>, values: seq<Value>, depth: nat)
    requires |keys| == |values|
    ensures FieldsLen(Record(keys, values).fields, depth) == KeysLen(keys, depth) + ValuesLen(values, depth)
  {
    if keys != [] {
      assert Record(keys, values).fields[1..] == Record(keys[1..], values[1..]).fields;
      RecordFields(keys[1..], values[1..], depth);
    }
  }

  /** Keys and values contribute separately. */
  lemma RecordLen(keys: seq<string>, values: seq<Value>, depth: nat)
    requires |keys| == |values| && keys != []
    ensures Len(Record(keys, values), depth) == 2 * depth + 2 + KeysLen(keys, depth + 1) + ValuesLen(values, depth + 1)
  {
    RecordFields(keys, values, depth + 1);
  }

  lemma {:induction false} ValuesConcat(a: seq<Value>, b: seq<Value>, depth: nat)
    ensures ValuesLen(a + b, depth) == ValuesLen(a, depth) + ValuesLen(b, depth)
  {
    if a == [] {
      assert a + b == b;
    } else {
      assert (a + b)[1..] == a[1..] + b;
      ValuesConcat(a[1..], b, depth);
    }
  }

  lemma ValuesLen1(a: Value, depth: nat)
    ensures ValuesLen([a], depth) == Len(a, depth)
  {
    assert ValuesLen([a], depth) == Len(a, depth) + ValuesLen([a][1..], depth);
  }

  lemma ValuesLen2(a: Value, b: Value, depth: nat)
    ensures ValuesLen([a, b], depth) == Len(a, depth) + Len(b, depth)
  {
    assert [a, b] == [a] + [b];
    ValuesConcat([a], [b], depth);
    ValuesLen1(a, depth);
    ValuesLen1(b, depth);
  }

  lemma ValuesLen4(a: Value, b: Value, c: Value, d: Value, depth: nat)
    ensures ValuesLen([a, b, c, d], depth) == Len(a, depth) + Len(b, depth) + Len(c, depth) + Len(d, depth)
  {
    assert [a, b, c, d] == [a, b] + [c, d];
    ValuesConcat([a, b], [c, d], depth);
    ValuesLen2(a, b, depth);
    ValuesLen2(c, d, depth);
  }

  /** Two objects with the same keys differ in length by what their values differ. */
  lemma RecordDifference(keys: seq<string>, u: seq<Value>, v: seq<Value>, depth: nat)
    requires |keys| == |u| == |v| && keys != []
    ensures Len(Record(keys, v), depth) - Len(Record(keys, u), depth)
            == ValuesLen(v, depth + 1) - ValuesLen(u, depth + 1)
  {
    RecordLen(keys, u, depth);
    RecordLen(keys, v, depth);
  }

  lemma PairDifference(keys: seq<string>, a: Value, b: Value, a': Value, b': Value, depth: nat)
    requires |keys| == 2
    ensures Len(Record(keys, [a', b']), depth) - Len(Record(keys, [a, b]), depth)
            == Len(a', depth + 1) - Len(a, depth + 1) + Len(b', depth + 1) - Len(b, depth + 1)
  {
    RecordDifference(keys, [a, b], [a', b'], depth);
    ValuesLen2(a, b, depth + 1);
    ValuesLen2(a', b', depth + 1);
  }

  lemma FourValues(v: seq<Value>, depth: nat)
    requires |v| == 4
    ensures ValuesLen(v, depth) == Len(v[0], depth) + Len(v[1], depth) + Len(v[2], depth) + Len(v[3], depth)
  {
    assert v == [v[0], v[1], v[2], v[3]];
    ValuesLen4(v[0], v[1], v[2], v[3], depth);
  }

  // ----- Lists of any values -----

  function ItemLine(depth: nat): Value -> int {
    (v: Value) => Len(v, depth) + 2 * depth + 2
  }

  lemma {:induction false} ItemsSum(items: seq<Value>, depth: nat)
    ensures ItemsLen(items, depth) == Sum(items, ItemLine(depth))
  {
    if items != [] {
      ItemsSum(items[1..], depth);
    }
  }
}
