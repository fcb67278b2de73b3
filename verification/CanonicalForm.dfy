// What the canonical form guarantees: equal text exactly for equal content.
module CanonicalForm {
  import opened Json
  import JsonParser

  lemma RenderIsInjective(a: Value, b: Value)
    requires Render(a) == Render(b)
    ensures a == b
  {
    JsonParser.ParseRender(a, "");
    JsonParser.ParseRender(b, "");
    assert Render(a) + "" == Render(b) + "";
  }

  // The entries of an object after normalization, found from either side.
  lemma NormalizedEntry(fields: Fields, e: Field)
    requires DistinctKeys(fields)
    ensures e in SortFields(NormalizeFields(fields)) <==>
            exists i :: 0 <= i < |fields| && e == Field(fields[i].key, Normalize(fields[i].value))
  {
    var normal := NormalizeFields(fields);
    SortEntries(normal);
    if e in normal {
      var i :| 0 <= i < |normal| && normal[i] == e;
      assert e == Field(fields[i].key, Normalize(fields[i].value));
    }
    if i :| 0 <= i < |fields| && e == Field(fields[i].key, Normalize(fields[i].value)) {
      assert normal[i] == e;
    }
  }

  lemma NormalizedIsSorted(fields: Fields)
    requires DistinctKeys(fields)
    ensures StrictlySorted(SortFields(NormalizeFields(fields)))
  {
    var normal := NormalizeFields(fields);
    forall i, j | 0 <= i < j < |normal|
      ensures normal[i].key != normal[j].key
    {
      assert fields[i].key != fields[j].key;
    }
    SortSorts(normal);
  }

  // Same content, same normal form.
  lemma {:induction false} SameNormalizes(a: Value, b: Value)
    requires WellFormed(a) && WellFormed(b) && Same(a, b)
    ensures Normalize(a) == Normalize(b)
    decreases a
  {
    match a
    case Arr(x) =>
      forall i | 0 <= i < |x|
        ensures Normalize(x[i]) == Normalize(b.items[i])
      {
        SameNormalizes(x[i], b.items[i]);
      }
      assert NormalizeItems(x) == NormalizeItems(b.items);
    case Obj(x) =>
      var y := b.fields;
      forall i, j | 0 <= i < |x| && 0 <= j < |y| && x[i].key == y[j].key
        ensures Normalize(x[i].value) == Normalize(y[j].value)
      {
        SameNormalizes(x[i].value, y[j].value);
      }
      forall e
        ensures e in SortFields(NormalizeFields(x)) <==> e in SortFields(NormalizeFields(y))
      {
        NormalizedEntry(x, e);
        NormalizedEntry(y, e);
        if i :| 0 <= i < |x| && e == Field(x[i].key, Normalize(x[i].value)) {
          assert x[i].key in Keys(y);
        }
        if j :| 0 <= j < |y| && e == Field(y[j].key, Normalize(y[j].value)) {
          assert y[j].key in Keys(x);
        }
      }
      NormalizedIsSorted(x);
      NormalizedIsSorted(y);
      SortedIsUnique(SortFields(NormalizeFields(x)), SortFields(NormalizeFields(y)));
    case _ =>
  }

  // Same normal form, same content.
  lemma {:induction false} NormalizedSame(a: Value, b: Value)
    requires WellFormed(a) && WellFormed(b) && Normalize(a) == Normalize(b)
    ensures Same(a, b)
    decreases a
  {
    match a
    case Arr(x) =>
      var y := b.items;
      assert NormalizeItems(x) == NormalizeItems(y);
      forall i | 0 <= i < |x|
        ensures Same(x[i], y[i])
      {
        assert NormalizeItems(x)[i] == NormalizeItems(y)[i];
        NormalizedSame(x[i], y[i]);
      }
    case Obj(x) =>
      var y := b.fields;
      KeysTransfer(x, y);
      KeysTransfer(y, x);
      forall i, j | 0 <= i < |x| && 0 <= j < |y| && x[i].key == y[j].key
        ensures Same(x[i].value, y[j].value)
      {
        EntryTransfer(x, y, i, j);
        NormalizedSame(x[i].value, y[j].value);
      }
    case _ =>
  }

  lemma KeysTransfer(x: Fields, y: Fields)
    requires DistinctKeys(x) && DistinctKeys(y)
    requires SortFields(NormalizeFields(x)) == SortFields(NormalizeFields(y))
    ensures Keys(x) <= Keys(y)
  {
    forall i | 0 <= i < |x|
      ensures x[i].key in Keys(y)
    {
      var e := Field(x[i].key, Normalize(x[i].value));
      NormalizedEntry(x, e);
      NormalizedEntry(y, e);
    }
  }

  lemma EntryTransfer(x: Fields, y: Fields, i: nat, j: nat)
    requires DistinctKeys(x) && DistinctKeys(y)
    requires SortFields(NormalizeFields(x)) == SortFields(NormalizeFields(y))
    requires i < |x| && j < |y| && x[i].key == y[j].key
    ensures Normalize(x[i].value) == Normalize(y[j].value)
  {
    var e := Field(x[i].key, Normalize(x[i].value));
    NormalizedEntry(x, e);
    NormalizedEntry(y, e);
    var k :| 0 <= k < |y| && e == Field(y[k].key, Normalize(y[k].value));
    assert k == j;
  }

  // The canonical text is equal exactly when the content is equal: it ignores the order
  // in which keys were inserted, at any depth, and nothing else.
  lemma CanonicalIffSame(a: Value, b: Value)
    requires WellFormed(a) && WellFormed(b)
    ensures Canonicalize(a) == Canonicalize(b) <==> Same(a, b)
  {
    if Same(a, b) {
      SameNormalizes(a, b);
    }
    if Canonicalize(a) == Canonicalize(b) {
      RenderIsInjective(Normalize(a), Normalize(b));
      NormalizedSame(a, b);
    }
  }

  lemma {:induction false} SameIsReflexive(a: Value)
    requires WellFormed(a)
    ensures Same(a, a)
  {
    CanonicalIffSame(a, a);
  }

  // Rearranging the entries of an object never shows in the canonical text.
  lemma EntryOrderIsInvisible(x: Fields, y: Fields)
    requires WellFormed(Obj(x)) && WellFormed(Obj(y))
    requires multiset(x) == multiset(y)
    ensures Canonicalize(Obj(x)) == Canonicalize(Obj(y))
  {
    forall e
      ensures e in x <==> e in y
    {
      assert e in multiset(x) <==> e in multiset(y);
    }
    KeysOfMembers(x, y);
    KeysOfMembers(y, x);
    forall i, j | 0 <= i < |x| && 0 <= j < |y| && x[i].key == y[j].key
      ensures Same(x[i].value, y[j].value)
    {
      assert x[i] in y;
      var k :| 0 <= k < |y| && y[k] == x[i];
      assert k == j;
      SameIsReflexive(x[i].value);
    }
    CanonicalIffSame(Obj(x), Obj(y));
  }

  lemma KeysOfMembers(x: Fields, y: Fields)
    requires forall e :: e in x ==> e in y
    ensures Keys(x) <= Keys(y)
  {
    forall i | 0 <= i < |x|
      ensures x[i].key in Keys(y)
    {
      assert x[i] in y;
    }
  }

  // ---------------------------------------------------------------------------------
  // No character below U+0020 survives printing; in particular no newline
  // ---------------------------------------------------------------------------------

  ghost predicate Printable(s: string) {
    forall i :: 0 <= i < |s| ==> s[i] as int >= 32
  }

  lemma {:induction false} EscapePrintable(s: string)
    ensures Printable(Escape(s))
  {
    if s != "" {
      EscapePrintable(s[1..]);
    }
  }

  lemma {:induction false} NatTextPrintable(n: nat)
    ensures Printable(NatText(n))
  {
    if n >= 10 {
      NatTextPrintable(n / 10);
    }
  }

  lemma {:induction false} RenderPrintable(v: Value)
    ensures Printable(Render(v))
    decreases v, 1
  {
    match v
    case Int(n) => NatTextPrintable(if n < 0 then -n else n);
    case Str(s) => EscapePrintable(s);
    case Arr(items) => ItemsPrintable(items);
    case Obj(fields) => FieldsPrintable(fields);
    case _ =>
  }

  lemma {:induction false} ItemsPrintable(items: seq<Value>)
    ensures Printable(RenderItems(items))
    decreases items, 0
  {
    if |items| > 0 {
      RenderPrintable(items[0]);
      ItemsPrintable(items[1..]);
    }
  }

  lemma {:induction false} FieldsPrintable(fields: Fields)
    ensures Printable(RenderFields(fields))
    decreases fields, 0
  {
    if |fields| > 0 {
      EscapePrintable(fields[0].key);
      RenderPrintable(fields[0].value);
      FieldsPrintable(fields[1..]);
    }
  }

  lemma CanonicalHasNoNewline(v: Value)
    ensures '\n' !in Canonicalize(v)
  {
    RenderPrintable(Normalize(v));
  }
}
