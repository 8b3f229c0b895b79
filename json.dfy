/**
 * The JavaScript values the application passes around: server payloads,
 * request configurations, stored user objects. An object is a list of
 * key/value entries in the order they were written; `ObjectKeys` derives from
 * it the order `Object.keys` and `for...in` visit (array-index keys first,
 * ascending, then the other keys in creation order). `undefined` is not a
 * value of its own: a missing key or an `Option.None` stands for it.
 *
 * JSON.parse and JSON.stringify are foreign behaviour and enter the model as
 * function parameters (`Parse`, `Stringify`).
 */
module Json {
  import opened Text

  datatype Option<+T> = None | Some(value: T)

  datatype Json =
    | Null
    | Bool(b: bool)
    | Num(n: int)
    | Str(s: string)
    | Arr(items: seq<Json>)
    | Obj(fields: seq<(string, Json)>)

  type Fields = seq<(string, Json)>

  /** The outcome of `JSON.parse`: a value, or the SyntaxError it throws. */
  datatype Parsed = Parsed(value: Json) | SyntaxError(message: string)

  type Parse = string -> Parsed

  type Stringify = Json -> string

  /** ToBoolean: null, false, 0 and '' are falsy; arrays and objects are truthy. */
  predicate Truthy(j: Json)
    ensures j.Null? ==> !Truthy(j)
    ensures j.Arr? || j.Obj? ==> Truthy(j)
  {
    match j
    case Null => false
    case Bool(b) => b
    case Num(n) => n != 0
    case Str(s) => s != ""
    case Arr(_) => true
    case Obj(_) => true
  }

  /** Exactly four values are falsy: null, false, 0 and ''. */
  lemma FalsyValues(j: Json)
    ensures !Truthy(j) <==> j == Null || j == Bool(false) || j == Num(0) || j == Str("")
  {
  }

  /**
   * The placeholder for the message of the TypeError a JavaScript engine
   * throws on reading or writing a property of null; engines word it
   * differently, so the model does not spell it out.
   */
  const EngineTypeError := "TypeError"

  // ---------------------------------------------------------------------------
  // Object entries
  // ---------------------------------------------------------------------------

  function Keys(fs: Fields): (ks: seq<string>)
    ensures |ks| == |fs|
    ensures forall i :: 0 <= i < |fs| ==> ks[i] == fs[i].0
  {
    seq(|fs|, i requires 0 <= i < |fs| => fs[i].0)
  }

  lemma KeysOfPrefix(fs: Fields, n: nat)
    requires n <= |fs|
    ensures Keys(fs[..n]) == Keys(fs)[..n]
  {
  }

  /** `obj[k]`: the value of the key's last entry (a later entry wins, as in an object literal). */
  function Lookup(fs: Fields, k: string): (r: Option<Json>)
    ensures r.Some? <==> k in Keys(fs)
    ensures r.Some? ==> (k, r.value) in fs
  {
    if fs == [] then None
    else
      var init := fs[..|fs| - 1];
      assert Keys(fs) == Keys(init) + [fs[|fs| - 1].0];
      if fs[|fs| - 1].0 == k then Some(fs[|fs| - 1].1)
      else Lookup(init, k)
  }

  // ---------------------------------------------------------------------------
  // Own-key order
  // ---------------------------------------------------------------------------

  /** The position of the first entry of key `k`: where the property was created. */
  function FirstWrite(ks: seq<string>, k: string): (p: nat)
    requires k in ks
    ensures p < |ks| && ks[p] == k && k !in ks[..p]
  {
    if ks[0] == k then 0
    else
      var q := FirstWrite(ks[1..], k);
      assert ks[..q + 1] == [ks[0]] + ks[1..][..q];
      q + 1
  }

  /** The first position holding `k` is the only one with no `k` before it. */
  lemma {:induction false} FirstWriteUnique(ks: seq<string>, k: string, p: nat)
    requires p < |ks| && ks[p] == k && k !in ks[..p]
    ensures FirstWrite(ks, k) == p
  {
    if p > 0 {
      assert ks[..p][0] == ks[0];
      assert ks[1..][..p - 1] == ks[..p][1..];
      FirstWriteUnique(ks[1..], k, p - 1);
    }
  }

  /** Appending a key leaves the creation positions of the earlier keys alone. */
  lemma FirstWriteSnoc(ks: seq<string>, x: string)
    ensures forall k :: k in ks ==> FirstWrite(ks + [x], k) == FirstWrite(ks, k)
    ensures x !in ks ==> FirstWrite(ks + [x], x) == |ks|
  {
    forall k | k in ks
      ensures FirstWrite(ks + [x], k) == FirstWrite(ks, k)
    {
      var p := FirstWrite(ks, k);
      assert (ks + [x])[..p] == ks[..p];
      FirstWriteUnique(ks + [x], k, p);
    }
    if x !in ks {
      assert (ks + [x])[..|ks|] == ks;
      FirstWriteUnique(ks + [x], x, |ks|);
    }
  }

  /** Every key of `ks` is a key of `ref`, and `ks` lists them in the order `ref` created them. */
  predicate CreatedInOrder(ks: seq<string>, ref: seq<string>)
  {
    && (forall i :: 0 <= i < |ks| ==> ks[i] in ref)
    && (forall i, j :: 0 <= i < j < |ks| ==> FirstWrite(ref, ks[i]) < FirstWrite(ref, ks[j]))
  }

  /** Each key once, in the order the properties were created. */
  function CreationOrder(fs: Fields): (ks: seq<string>)
    ensures forall k :: k in ks <==> k in Keys(fs)
    ensures CreatedInOrder(ks, Keys(fs))
  {
    if fs == [] then []
    else
      var init := fs[..|fs| - 1];
      var k := fs[|fs| - 1].0;
      var before := CreationOrder(init);
      assert Keys(fs) == Keys(init) + [k];
      FirstWriteSnoc(Keys(init), k);
      if k in Keys(init) then before
      else
        var ks := before + [k];
        assert forall i :: 0 <= i < |before| ==> ks[i] == before[i] && before[i] in Keys(init);
        ks
  }

  /**
   * An array index as a property key: the canonical decimal form of an
   * integer below 2^32 - 1 ("0", "7", "10"; not "01", "-1" or "4294967295").
   */
  predicate IsIndexKey(k: string)
  {
    AllDigits(k) && k == NatToDecimal(DecimalValue(k)) && DecimalValue(k) < 0xFFFF_FFFF
  }

  /** Index keys in strictly ascending numeric order. */
  predicate IndexAscending(ks: seq<string>)
  {
    && (forall i :: 0 <= i < |ks| ==> IsIndexKey(ks[i]))
    && (forall i, j :: 0 <= i < j < |ks| ==> DecimalValue(ks[i]) < DecimalValue(ks[j]))
  }

  /** The keys of `ks` that are index keys (`index`), or those that are not, in their order. */
  function KeysWhere(ks: seq<string>, index: bool): (r: seq<string>)
    ensures forall k :: k in r <==> k in ks && IsIndexKey(k) == index
  {
    if ks == [] then []
    else
      var k := ks[|ks| - 1];
      assert ks == ks[..|ks| - 1] + [k];
      var rest := KeysWhere(ks[..|ks| - 1], index);
      if IsIndexKey(k) == index then rest + [k] else rest
  }

  /** Keeping some of the keys keeps their creation order. */
  lemma {:induction false} KeysWhereInOrder(ks: seq<string>, ref: seq<string>, index: bool)
    requires CreatedInOrder(ks, ref)
    ensures CreatedInOrder(KeysWhere(ks, index), ref)
  {
    if ks != [] {
      var init := ks[..|ks| - 1];
      var k := ks[|ks| - 1];
      assert forall i :: 0 <= i < |init| ==> init[i] == ks[i];
      KeysWhereInOrder(init, ref, index);
      var rest := KeysWhere(init, index);
      if IsIndexKey(k) == index {
        var r := rest + [k];
        forall i | 0 <= i < |rest|
          ensures FirstWrite(ref, rest[i]) < FirstWrite(ref, k)
        {
          assert rest[i] in init;
          var m :| 0 <= m < |init| && init[m] == rest[i];
          assert ks[m] == rest[i];
        }
        assert forall i :: 0 <= i < |rest| ==> r[i] == rest[i];
      }
    }
  }

  /** Puts index key `k` into its place in an ascending list. */
  function InsertIndex(sorted: seq<string>, k: string): (r: seq<string>)
    requires IndexAscending(sorted) && IsIndexKey(k) && k !in sorted
    ensures IndexAscending(r)
    ensures forall x :: x in r <==> x in sorted || x == k
  {
    if sorted == [] then [k]
    else if DecimalValue(k) < DecimalValue(sorted[0]) then [k] + sorted
    else
      var rest := InsertIndex(sorted[1..], k);
      assert DecimalValue(k) != DecimalValue(sorted[0]);
      assert forall x :: x in rest ==> DecimalValue(sorted[0]) < DecimalValue(x) by {
        forall x | x in rest ensures DecimalValue(sorted[0]) < DecimalValue(x) {
          if x != k {
            HeadBelowTail(sorted, x);
          }
        }
      }
      [sorted[0]] + rest
  }

  /** In an ascending sequence the head is below every later key. */
  lemma HeadBelowTail(sorted: seq<string>, x: string)
    requires IndexAscending(sorted) && |sorted| > 0 && x in sorted[1..]
    ensures DecimalValue(sorted[0]) < DecimalValue(x)
  {
    var m :| 0 <= m < |sorted[1..]| && sorted[1..][m] == x;
    assert sorted[m + 1] == x;
  }

  /** Distinct index keys in ascending numeric order. */
  function SortIndexKeys(ks: seq<string>): (r: seq<string>)
    requires forall i :: 0 <= i < |ks| ==> IsIndexKey(ks[i])
    requires forall i, j :: 0 <= i < j < |ks| ==> ks[i] != ks[j]
    ensures IndexAscending(r)
    ensures forall x :: x in r <==> x in ks
  {
    if ks == [] then []
    else
      var init := ks[..|ks| - 1];
      assert ks == init + [ks[|ks| - 1]];
      InsertIndex(SortIndexKeys(init), ks[|ks| - 1])
  }

  /**
   * The order `Object.keys` lists keys in, for an object whose entry keys are
   * `ref`: no key twice; the array-index keys first, in ascending numeric
   * order; then the other keys in the order the properties were created.
   */
  predicate OwnKeyOrder(ks: seq<string>, ref: seq<string>)
  {
    && (forall i, j :: 0 <= i < j < |ks| ==> ks[i] != ks[j])
    && (forall i, j :: 0 <= i < j < |ks| && IsIndexKey(ks[j]) ==>
          IsIndexKey(ks[i]) && DecimalValue(ks[i]) < DecimalValue(ks[j]))
    && (forall i, j :: 0 <= i < j < |ks| && !IsIndexKey(ks[i]) ==>
          !IsIndexKey(ks[j]) && ks[i] in ref && ks[j] in ref && FirstWrite(ref, ks[i]) < FirstWrite(ref, ks[j]))
  }

  /** `Object.keys` of an object, and the order `for...in` visits its keys. */
  function ObjectKeys(fs: Fields): (ks: seq<string>)
    ensures forall k :: k in ks <==> k in Keys(fs)
    ensures forall i, j :: 0 <= i < j < |ks| ==> ks[i] != ks[j]
    ensures OwnKeyOrder(ks, Keys(fs))
  {
    var created := CreationOrder(fs);
    KeysWhereInOrder(created, Keys(fs), true);
    KeysWhereInOrder(created, Keys(fs), false);
    var index := SortIndexKeys(KeysWhere(created, true));
    var named := KeysWhere(created, false);
    JoinKeyOrder(index, named, Keys(fs));
    index + named
  }

  /** Ascending index keys followed by other keys in creation order are in own-key order. */
  lemma JoinKeyOrder(index: seq<string>, named: seq<string>, ref: seq<string>)
    requires IndexAscending(index)
    requires forall i :: 0 <= i < |named| ==> !IsIndexKey(named[i])
    requires CreatedInOrder(named, ref)
    ensures OwnKeyOrder(index + named, ref)
  {
    var ks := index + named;
    assert forall i :: 0 <= i < |index| ==> ks[i] == index[i];
    assert forall i :: |index| <= i < |ks| ==> ks[i] == named[i - |index|];
  }

  /** Looking a key up after appending one entry. */
  lemma LookupSnoc(fs: Fields, e: (string, Json), k: string)
    ensures Keys(fs + [e]) == Keys(fs) + [e.0]
    ensures Lookup(fs + [e], k) == if e.0 == k then Some(e.1) else Lookup(fs, k)
  {
    assert (fs + [e])[..|fs|] == fs;
  }

  /** No key occurs twice, as in an object literal without repeated keys. */
  predicate DistinctKeys(fs: Fields)
  {
    forall i, j :: 0 <= i < j < |fs| ==> fs[i].0 != fs[j].0
  }

  /** With distinct keys every entry is the one its key finds. */
  lemma {:induction false} LookupDistinct(fs: Fields, i: nat)
    requires DistinctKeys(fs) && i < |fs|
    ensures Lookup(fs, fs[i].0) == Some(fs[i].1)
  {
    if i < |fs| - 1 {
      var init := fs[..|fs| - 1];
      assert init[i] == fs[i];
      LookupDistinct(init, i);
    }
  }

  /** Gives every entry of key `k` the value `v`, in place. */
  function Replace(fs: Fields, k: string, v: Json): (r: Fields)
    ensures Keys(r) == Keys(fs)
    ensures Lookup(r, k) == if k in Keys(fs) then Some(v) else None
    ensures forall k' :: k' != k ==> Lookup(r, k') == Lookup(fs, k')
  {
    if fs == [] then []
    else
      var init := fs[..|fs| - 1];
      var last := fs[|fs| - 1];
      var e := if last.0 == k then (k, v) else last;
      assert fs == init + [last];
      LookupSnoc(init, last, k);
      LookupSnoc(Replace(init, k, v), e, k);
      forall k' | k' != k
        ensures Lookup(Replace(init, k, v) + [e], k') == Lookup(fs, k')
      {
        LookupSnoc(init, last, k');
        LookupSnoc(Replace(init, k, v), e, k');
      }
      Replace(init, k, v) + [e]
  }

  /**
   * `obj[k] = v`: an existing key keeps its position and takes the new value,
   * a new key is appended.
   */
  function Put(fs: Fields, k: string, v: Json): (r: Fields)
    ensures Lookup(r, k) == Some(v)
    ensures forall k' :: k' != k ==> Lookup(r, k') == Lookup(fs, k')
    ensures Keys(r) == if k in Keys(fs) then Keys(fs) else Keys(fs) + [k]
  {
    if k in Keys(fs) then Replace(fs, k, v)
    else
      var r := fs + [(k, v)];
      assert r[..|r| - 1] == fs;
      r
  }

  /** `delete obj[k]`: every entry of `k` is dropped, the others keep their order. */
  function Delete(fs: Fields, k: string): (r: Fields)
    ensures Lookup(r, k) == None
    ensures forall k' :: k' != k ==> Lookup(r, k') == Lookup(fs, k')
    ensures |r| <= |fs|
  {
    if fs == [] then []
    else
      var init := fs[..|fs| - 1];
      var last := fs[|fs| - 1];
      if last.0 == k then Delete(init, k)
      else
        var r := Delete(init, k) + [last];
        assert r[..|r| - 1] == Delete(init, k);
        r
  }

  /** The value a key ends up with when a later write `second` may override `first`. */
  function Later(first: Option<Json>, second: Option<Json>): Option<Json>
  {
    if second.Some? then second else first
  }

  /**
   * `Object.assign(target, src)`, and equally `{...target, ...src}`: the
   * entries of `src` are written one by one in order, so a key of `src` wins
   * over the same key of `target`, and every other key of `target` is kept.
   */
  function Assign(fs: Fields, src: Fields): (r: Fields)
    ensures forall k :: Lookup(r, k) == Later(Lookup(fs, k), Lookup(src, k))
    ensures Keys(fs) <= Keys(r)
  {
    if src == [] then fs
    else
      var init := src[..|src| - 1];
      var last := src[|src| - 1];
      Put(Assign(fs, init), last.0, last.1)
  }

  /** The entries `{...j}` copies: an object's own entries, an array's or string's index entries, none otherwise. */
  function SpreadFields(j: Json): (r: Fields)
    ensures j.Obj? ==> r == j.fields
    ensures !j.Obj? && !j.Arr? && !j.Str? ==> r == []
  {
    match j
    case Obj(fs) => fs
    case Arr(items) => seq(|items|, i requires 0 <= i < |items| => (NatToDecimal(i), items[i]))
    case Str(s) => seq(|s|, i requires 0 <= i < |s| => (NatToDecimal(i), Str([s[i]])))
    case _ => []
  }

  /** Distinct indices have distinct decimal names. */
  lemma DecimalInjective(m: nat, n: nat)
    requires NatToDecimal(m) == NatToDecimal(n)
    ensures m == n
  {
    DecimalRoundTrip(m);
    DecimalRoundTrip(n);
  }

  /**
   * The entries `Object.keys(j).forEach(k => ... j[k])` and `for (k in j)`
   * visit: an object's keys in `ObjectKeys` order with their current values,
   * an array's or string's indices; no key twice.
   */
  function OwnEntries(j: Json): (r: Fields)
    ensures DistinctKeys(r)
    ensures j.Obj? ==> Keys(r) == ObjectKeys(j.fields)
    ensures forall k :: Lookup(r, k) == Lookup(SpreadFields(j), k)
    ensures j.Obj? ==> forall i :: 0 <= i < |r| ==> r[i] in j.fields
  {
    match j
    case Obj(fs) => ObjectEntries(fs)
    case Arr(_) =>
      IndexKeysDistinct(SpreadFields(j));
      SpreadFields(j)
    case Str(_) =>
      IndexKeysDistinct(SpreadFields(j));
      SpreadFields(j)
    case _ => []
  }

  /** An object's entries in `ObjectKeys` order, each with its key's current value. */
  function ObjectEntries(fs: Fields): (r: Fields)
    ensures Keys(r) == ObjectKeys(fs)
    ensures forall i :: 0 <= i < |r| ==> r[i].1 == Lookup(fs, r[i].0).value
    ensures DistinctKeys(r)
    ensures forall k :: Lookup(r, k) == Lookup(fs, k)
    ensures forall i :: 0 <= i < |r| ==> r[i] in fs
  {
    var ks := ObjectKeys(fs);
    var r := seq(|ks|, i requires 0 <= i < |ks| => (ks[i], Lookup(fs, ks[i]).value));
    EntriesByKeys(fs, ks, r);
    r
  }

  /** Pairing distinct keys of `fs` with their values gives entries that look up as `fs` does. */
  lemma EntriesByKeys(fs: Fields, ks: seq<string>, r: Fields)
    requires forall k :: k in ks <==> k in Keys(fs)
    requires forall i, j :: 0 <= i < j < |ks| ==> ks[i] != ks[j]
    requires |r| == |ks| && forall i :: 0 <= i < |ks| ==> r[i] == (ks[i], Lookup(fs, ks[i]).value)
    ensures Keys(r) == ks && DistinctKeys(r)
    ensures forall k :: Lookup(r, k) == Lookup(fs, k)
  {
    assert Keys(r) == ks;
    forall k ensures Lookup(r, k) == Lookup(fs, k) {
      if k in ks {
        var i :| 0 <= i < |ks| && ks[i] == k;
        LookupDistinct(r, i);
      }
    }
  }

  /** Entries keyed by their own decimal index have distinct keys. */
  lemma IndexKeysDistinct(r: Fields)
    requires forall i :: 0 <= i < |r| ==> r[i].0 == NatToDecimal(i)
    ensures DistinctKeys(r)
  {
    forall i, i' | 0 <= i < i' < |r| ensures r[i].0 != r[i'].0 {
      if r[i].0 == r[i'].0 {
        DecimalInjective(i, i');
      }
    }
  }

  /**
   * `j.k` for a value that is not null: an object's entry, and `undefined`
   * (None) for every other kind of value. Reading a property of null throws;
   * callers decide that case before calling this.
   */
  function Field(j: Json, k: string): (r: Option<Json>)
    ensures r.Some? ==> j.Obj? && k in Keys(j.fields)
  {
    if j.Obj? then Lookup(j.fields, k) else None
  }

  /** An object with the entries of `{...a, ...b}`. */
  function Spread(a: Json, b: Json): (r: Json)
    ensures r.Obj?
    ensures forall k :: Lookup(r.fields, k) == Later(Lookup(SpreadFields(a), k), Lookup(SpreadFields(b), k))
  {
    Obj(Assign(SpreadFields(a), SpreadFields(b)))
  }

  // ---------------------------------------------------------------------------
  // String(value)
  // ---------------------------------------------------------------------------

  /** `String(j)`: what `new Error(j)`, `URLSearchParams.append` and `localStorage.setItem` store. */
  function JsString(j: Json): (s: string)
    ensures j.Str? ==> s == j.s
    ensures j.Num? ==> |s| >= 1 && (s[0] == '-' <==> j.n < 0)
    ensures j.Obj? ==> s == "[object Object]"
    decreases j, 1
  {
    match j
    case Null => "null"
    case Bool(b) => if b then "true" else "false"
    case Num(n) => IntToDecimal(n)
    case Str(s) => s
    case Arr(items) => ArrayString(j, 0)
    case Obj(_) => "[object Object]"
  }

  /** The text `String(n)` gives for an integer reads back as that integer: its digits, after a '-' when negative. */
  lemma {:induction false} NumberStringRoundTrip(n: int)
    ensures var s := JsString(Num(n));
      && (n >= 0 ==> AllDigits(s) && DecimalValue(s) == n)
      && (n < 0 ==> |s| > 1 && AllDigits(s[1..]) && DecimalValue(s[1..]) == -n)
  {
    if n >= 0 {
      DecimalRoundTrip(n);
    } else {
      DecimalRoundTrip(-n);
      assert JsString(Num(n))[1..] == NatToDecimal(-n);
    }
  }

  /** `Array.prototype.join(',')` from index `i` on; null elements render empty. */
  function ArrayString(a: Json, i: nat): string
    requires a.Arr? && i <= |a.items|
    decreases a, 0, |a.items| - i
  {
    if i == |a.items| then ""
    else
      var item := a.items[i];
      var text := if item.Null? then "" else JsString(item);
      if i + 1 == |a.items| then text else text + "," + ArrayString(a, i + 1)
  }
}
