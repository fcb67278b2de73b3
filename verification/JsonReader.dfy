// Reading JSON objects by key, and what two objects that are the same up to key order have in
// common.
module JsonReader {
  import opened Wrappers
  import opened Json
  import opened Domain

  // --- Readers ------------------------------------------------------------------------

  function TextIn(fields: Fields, key: string): Option<string> {
    match Get(fields, key)
    case Some(Str(text)) => Some(text)
    case _ => None
  }

  // A key with default None.
  function OptTextIn(fields: Fields, key: string): Option<Option<string>> {
    match Get(fields, key)
    case None => Some(None)
    case Some(Null) => Some(None)
    case Some(Str(text)) => Some(Some(text))
    case _ => None
  }

  // A key with an empty list as default.
  function ItemsIn(fields: Fields, key: string): Option<seq<Value>> {
    match Get(fields, key)
    case None => Some([])
    case Some(Arr(items)) => Some(items)
    case _ => None
  }

  // All of the values, if none is missing.
  function Collect<T>(found: seq<Option<T>>): Option<seq<T>> {
    if forall i | 0 <= i < |found| :: found[i].Some? then
      Some(seq(|found|, i requires 0 <= i < |found| => found[i].value))
    else None
  }

  function ReadText(v: Value): Option<string> {
    if v.Str? then Some(v.s) else None
  }

  function ReadTexts(items: seq<Value>): Option<seq<string>> {
    Collect(seq(|items|, i requires 0 <= i < |items| => ReadText(items[i])))
  }

  // --- What was written under a key is read there -------------------------------------

  predicate Keyed(f: Fields, keys: seq<string>) {
    |f| == |keys| && forall i | 0 <= i < |keys| :: f[i].key == keys[i]
  }

  lemma EntryIsFound(f: Fields, i: nat, key: string)
    requires DistinctKeys(f) && i < |f| && f[i].key == key
    ensures Get(f, key) == Some(f[i].value)
  {
    GetAt(f, i);
  }

  lemma TextIsFound(f: Fields, i: nat, key: string, text: string)
    requires DistinctKeys(f) && i < |f| && f[i].key == key && f[i].value == Str(text)
    ensures TextIn(f, key) == Some(text)
  {
    EntryIsFound(f, i, key);
  }

  lemma OptTextIsFound(f: Fields, i: nat, key: string, text: Option<string>)
    requires DistinctKeys(f) && i < |f| && f[i].key == key && f[i].value == OptStr(text)
    ensures OptTextIn(f, key) == Some(text)
  {
    EntryIsFound(f, i, key);
  }

  lemma ItemsAreFound(f: Fields, i: nat, key: string, items: seq<Value>)
    requires DistinctKeys(f) && i < |f| && f[i].key == key && f[i].value == Arr(items)
    ensures ItemsIn(f, key) == Some(items)
  {
    EntryIsFound(f, i, key);
  }

  lemma CollectAll<T>(found: seq<Option<T>>, values: seq<T>)
    requires |found| == |values| && forall i :: 0 <= i < |found| ==> found[i] == Some(values[i])
    ensures Collect(found) == Some(values)
  {
    assert Collect(found).value == values;
  }

  lemma TextsReadBack(texts: seq<string>)
    ensures ReadTexts(StrItems(texts)) == Some(texts)
  {
    CollectAll(seq(|texts|, i requires 0 <= i < |texts| => ReadText(StrItems(texts)[i])), texts);
  }

  // --- Objects that are the same ------------------------------------------------------

  lemma SameTexts(a: seq<string>, b: seq<string>)
    ensures Same(Arr(StrItems(a)), Arr(StrItems(b))) <==> a == b
  {
    if Same(Arr(StrItems(a)), Arr(StrItems(b))) {
      assert forall i | 0 <= i < |a| :: Same(StrItems(a)[i], StrItems(b)[i]);
    }
  }

  lemma KeysOfCons(e: Field, rest: Fields)
    ensures Keys([e] + rest) == {e.key} + Keys(rest)
  {
    var all := [e] + rest;
    forall key
      ensures key in Keys(all) <==> key == e.key || key in Keys(rest)
    {
      if key == e.key {
        assert all[0].key == key;
      }
      if key in Keys(rest) {
        var i :| 0 <= i < |rest| && rest[i].key == key;
        assert all[i + 1].key == key;
      }
    }
  }

  lemma OneMoreStaysSame(e: Field, x: Fields, d: Field, y: Fields)
    requires e.key == d.key && e.key !in Keys(x) && d.key !in Keys(y)
    requires Same(e.value, d.value) && Same(Obj(x), Obj(y))
    ensures Same(Obj([e] + x), Obj([d] + y))
  {
    var xs, ys := [e] + x, [d] + y;
    KeysOfCons(e, x);
    KeysOfCons(d, y);
    assert forall i | 0 <= i < |x| :: x[i].key in Keys(x);
    assert forall j | 0 <= j < |y| :: y[j].key in Keys(y);
    forall i, j | 0 <= i < |xs| && 0 <= j < |ys| && xs[i].key == ys[j].key
      ensures Same(xs[i].value, ys[j].value)
    {
      assert i == 0 || xs[i] == x[i - 1];
      assert j == 0 || ys[j] == y[j - 1];
    }
  }

  lemma OneLessStaysSame(e: Field, x: Fields, d: Field, y: Fields)
    requires e.key == d.key && e.key !in Keys(x) && d.key !in Keys(y)
    requires Same(Obj([e] + x), Obj([d] + y))
    ensures Same(e.value, d.value) && Same(Obj(x), Obj(y))
  {
    var xs, ys := [e] + x, [d] + y;
    KeysOfCons(e, x);
    KeysOfCons(d, y);
    assert Same(xs[0].value, ys[0].value);
    assert Keys(x) == Keys(xs) - {e.key} && Keys(y) == Keys(ys) - {d.key};
    forall i, j | 0 <= i < |x| && 0 <= j < |y| && x[i].key == y[j].key
      ensures Same(x[i].value, y[j].value)
    {
      assert xs[i + 1] == x[i] && ys[j + 1] == y[j];
    }
  }

  lemma OneMoreDiffers(e: Field, x: Fields, y: Fields)
    requires e.key !in Keys(y)
    ensures !Same(Obj([e] + x), Obj(y)) && !Same(Obj(y), Obj([e] + x))
  {
    KeysOfCons(e, x);
  }
}
