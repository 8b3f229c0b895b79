/**
 * The query-string helpers of the HTTP utilities: `buildQueryString`,
 * `parseQueryString` and `formatUrl`. A query is the list of name/value pairs
 * a `URLSearchParams` holds; its text form joins `name=value` with '&'.
 * Percent-encoding and decoding are the identity here.
 */
module Query {
  import opened Text
  import opened Json

  type Pairs = seq<(string, string)>

  // ---------------------------------------------------------------------------
  // buildQueryString
  // ---------------------------------------------------------------------------

  /**
   * The values one entry appends: none for null and '', one per element for
   * an array, the value itself otherwise — each converted with `String`.
   */
  function EntryValues(v: Json): seq<string>
  {
    if v.Null? || v == Str("") then []
    else if v.Arr? then seq(|v.items|, i requires 0 <= i < |v.items| => JsString(v.items[i]))
    else [JsString(v)]
  }

  function PairsOf(k: string, vals: seq<string>): (ps: Pairs)
    ensures |ps| == |vals|
    ensures forall i :: 0 <= i < |ps| ==> ps[i] == (k, vals[i])
  {
    seq(|vals|, i requires 0 <= i < |vals| => (k, vals[i]))
  }

  /** The pairs the entries append, entry after entry. */
  function QueryPairs(es: Fields): Pairs
  {
    if es == [] then []
    else
      var last := es[|es| - 1];
      QueryPairs(es[..|es| - 1]) + PairsOf(last.0, EntryValues(last.1))
  }

  /** The values held under name `k`, in order. */
  function ValuesOf(ps: Pairs, k: string): seq<string>
  {
    if ps == [] then []
    else ValuesOf(ps[..|ps| - 1], k) + (if ps[|ps| - 1].0 == k then [ps[|ps| - 1].1] else [])
  }

  /** `URLSearchParams.prototype.toString` with percent-encoding left out. */
  function Serialize(ps: Pairs): string
  {
    Join(Segments(ps), '&')
  }

  function Segments(ps: Pairs): (segs: seq<string>)
    ensures |segs| == |ps|
    ensures forall i :: 0 <= i < |ps| ==> segs[i] == ps[i].0 + "=" + ps[i].1
  {
    seq(|ps|, i requires 0 <= i < |ps| => ps[i].0 + "=" + ps[i].1)
  }

  /** What `buildQueryString(params)` returns; '' unless `params` is an object or an array. */
  function QueryString(params: Option<Json>): (q: string)
    ensures !(params.Some? && (params.value.Obj? || params.value.Arr?)) ==> q == ""
  {
    if params.Some? && (params.value.Obj? || params.value.Arr?) then Serialize(QueryPairs(OwnEntries(params.value)))
    else ""
  }

  lemma {:induction false} ValuesOfConcat(a: Pairs, b: Pairs, k: string)
    ensures ValuesOf(a + b, k) == ValuesOf(a, k) + ValuesOf(b, k)
  {
    if b != [] {
      var ab := a + b;
      var init := b[..|b| - 1];
      var tail := if b[|b| - 1].0 == k then [b[|b| - 1].1] else [];
      ValuesOfConcat(a, init, k);
      assert ab[..|ab| - 1] == a + init;
      assert ab[|ab| - 1] == b[|b| - 1];
      assert ValuesOf(ab, k) == ValuesOf(a + init, k) + tail;
      assert ValuesOf(b, k) == ValuesOf(init, k) + tail;
    } else {
      assert a + b == a;
    }
  }

  lemma {:induction false} ValuesOfPairsOf(k': string, vals: seq<string>, k: string)
    ensures ValuesOf(PairsOf(k', vals), k) == if k == k' then vals else []
  {
    if vals != [] {
      ValuesOfPairsOf(k', vals[..|vals| - 1], k);
      assert PairsOf(k', vals)[..|vals| - 1] == PairsOf(k', vals[..|vals| - 1]);
    }
  }

  /**
   * The query holds, for each name, exactly the values of that key — none
   * for null or '', each element of an array in order, the value otherwise —
   * and nothing under a name that is not a key.
   */
  lemma {:induction false} QueryPairsPerKey(es: Fields, k: string)
    requires DistinctKeys(es)
    ensures ValuesOf(QueryPairs(es), k) == if k in Keys(es) then EntryValues(Lookup(es, k).value) else []
  {
    if es != [] {
      var init := es[..|es| - 1];
      var last := es[|es| - 1];
      var tail := PairsOf(last.0, EntryValues(last.1));
      assert es == init + [last];
      assert DistinctKeys(init);
      QueryPairsPerKey(init, k);
      assert QueryPairs(es) == QueryPairs(init) + tail;
      ValuesOfConcat(QueryPairs(init), tail, k);
      ValuesOfPairsOf(last.0, EntryValues(last.1), k);
      LookupSnoc(init, last, k);
      LastKeyFresh(es);
    }
  }

  /** With distinct keys, the last entry's key is not among the earlier ones. */
  lemma LastKeyFresh(es: Fields)
    requires DistinctKeys(es) && es != []
    ensures es[|es| - 1].0 !in Keys(es[..|es| - 1])
  {
    var init := es[..|es| - 1];
    forall i | 0 <= i < |init| ensures Keys(init)[i] != es[|es| - 1].0 {
      assert init[i].0 == es[i].0;
    }
  }

  /** `buildQueryString(params)`, per value of `params`, over the pairs it appends. */
  lemma BuildQueryStringPerKey(params: Json, k: string)
    requires params.Obj? || params.Arr?
    ensures var es := OwnEntries(params);
      ValuesOf(QueryPairs(es), k) == if Lookup(SpreadFields(params), k).Some? then EntryValues(Lookup(SpreadFields(params), k).value) else []
  {
    QueryPairsPerKey(OwnEntries(params), k);
  }

  /**
   * `buildQueryString({b: 1, "1": 2})` is "1=2&b=1": the index key "1" is
   * visited before "b", although "b" was created first.
   */
  lemma IndexKeyVisitedFirst()
    ensures QueryString(Some(Obj([("b", Num(1)), ("1", Num(2))]))) == "1=2&b=1"
  {
    SampleQuery([("b", Num(1)), ("1", Num(2))]);
  }

  lemma SampleQuery(fs: Fields)
    requires fs == [("b", Num(1)), ("1", Num(2))]
    ensures QueryString(Some(Obj(fs))) == "1=2&b=1"
  {
    SampleEntries(fs);
    SamplePairs();
  }

  /** The steps of the example: its pairs and their text, its entries, its keys. */
  lemma SamplePairs()
    ensures Serialize(QueryPairs([("1", Num(2)), ("b", Num(1))])) == "1=2&b=1"
  {
    var es := [("1", Num(2)), ("b", Num(1))];
    var ps := [("1", "2"), ("b", "1")];
    assert QueryPairs(es) == ps by {
      assert JsString(Num(2)) == "2" && JsString(Num(1)) == "1";
      assert EntryValues(Num(2)) == ["2"] && EntryValues(Num(1)) == ["1"];
      assert es[..1] == [("1", Num(2))] && es[..1][..0] == [];
      assert QueryPairs(es[..1]) == [("1", "2")];
    }
    assert "1" + "=" + "2" == "1=2" && "b" + "=" + "1" == "b=1";
    assert Segments(ps) == ["1=2", "b=1"];
    assert Join(["1=2", "b=1"], '&') == "1=2" + "&" + Join(["b=1"], '&');
  }

  lemma SampleEntries(fs: Fields)
    requires fs == [("b", Num(1)), ("1", Num(2))]
    ensures OwnEntries(Obj(fs)) == [("1", Num(2)), ("b", Num(1))]
  {
    SampleObjectEntries(fs);
  }

  lemma SampleObjectEntries(fs: Fields)
    requires fs == [("b", Num(1)), ("1", Num(2))]
    ensures ObjectEntries(fs) == [("1", Num(2)), ("b", Num(1))]
  {
    var es := ObjectEntries(fs);
    assert Keys(es) == ["1", "b"] by {
      SampleKeys(fs);
    }
    assert Lookup(fs, "1") == Some(Num(2)) && Lookup(fs, "b") == Some(Num(1)) by {
      assert fs[..1] == [("b", Num(1))];
    }
    assert |es| == 2 && es[0] == ("1", Num(2)) && es[1] == ("b", Num(1));
  }

  lemma SampleKeys(fs: Fields)
    requires fs == [("b", Num(1)), ("1", Num(2))]
    ensures ObjectKeys(fs) == ["1", "b"]
  {
    SampleCreationOrder(fs);
    SampleKeysWhere(["b", "1"]);
  }

  lemma SampleIndexKeys()
    ensures IsIndexKey("1") && !IsIndexKey("b")
  {
    assert DecimalValue("1") == DecimalValue("") * 10 + 1;
    assert NatToDecimal(1) == "1";
    assert !IsDigit('b');
  }

  lemma SampleCreationOrder(fs: Fields)
    requires fs == [("b", Num(1)), ("1", Num(2))]
    ensures CreationOrder(fs) == ["b", "1"]
  {
    assert fs[..1] == [("b", Num(1))] && fs[..1][..0] == [];
    assert Keys(fs[..1]) == ["b"];
    assert CreationOrder(fs[..1]) == ["b"];
  }

  lemma SampleKeysWhere(ks: seq<string>)
    requires ks == ["b", "1"]
    ensures KeysWhere(ks, true) == ["1"] && KeysWhere(ks, false) == ["b"]
    ensures SortIndexKeys(["1"]) == ["1"]
  {
    SampleIndexKeys();
    var one := ks[..1];
    assert one == ["b"] && one[..0] == [] && one[|one| - 1] == "b";
    assert KeysWhere(one, true) == [] && KeysWhere(one, false) == ["b"];
    assert ["1"][..0] == [];
  }

  /**
   * `buildQueryString(params)`: each own key of an object (or index of an
   * array) appends its values to a `URLSearchParams`, which is then
   * serialized.
   */
  method BuildQueryString(params: Option<Json>) returns (query: string)
    ensures query == QueryString(params)
  {
    if !(params.Some? && (params.value.Obj? || params.value.Arr?)) {
      return "";
    }
    var entries := OwnEntries(params.value);
    var pairs: Pairs := [];
    var i := 0;
    while i < |entries|
      invariant 0 <= i <= |entries|
      invariant pairs == QueryPairs(entries[..i])
    {
      var key := entries[i].0;
      var value := entries[i].1;
      assert QueryPairs(entries[..i + 1]) == QueryPairs(entries[..i]) + PairsOf(key, EntryValues(value)) by {
        assert entries[..i + 1][..i] == entries[..i];
      }
      pairs := AppendEntry(pairs, key, value);
      i := i + 1;
    }
    assert entries[..i] == entries;
    query := Serialize(pairs);
  }

  /**
   * The loop body for one entry: null and '' are skipped, an array appends
   * each element, any other value appends itself.
   */
  method AppendEntry(pairs: Pairs, key: string, value: Json) returns (out: Pairs)
    ensures out == pairs + PairsOf(key, EntryValues(value))
  {
    out := pairs;
    if value != Null && value != Str("") {
      if value.Arr? {
        out := AppendEach(pairs, key, value.items);
      } else {
        out := pairs + [(key, JsString(value))];
      }
    }
  }

  /** `value.forEach(item => searchParams.append(key, item))`. */
  method AppendEach(pairs: Pairs, key: string, items: seq<Json>) returns (out: Pairs)
    ensures out == pairs + PairsOf(key, EntryValues(Arr(items)))
  {
    var vals := EntryValues(Arr(items));
    out := pairs;
    var j := 0;
    while j < |items|
      invariant 0 <= j <= |items|
      invariant out == pairs + PairsOf(key, vals[..j])
    {
      assert PairsOf(key, vals[..j + 1]) == PairsOf(key, vals[..j]) + [(key, JsString(items[j]))];
      out := out + [(key, JsString(items[j]))];
      j := j + 1;
    }
    assert vals[..j] == vals;
  }

  // ---------------------------------------------------------------------------
  // Reading a query back
  // ---------------------------------------------------------------------------

  /** One `name=value` segment, split at its first '='; no '=' means an empty value. */
  function SplitPair(seg: string): (p: (string, string))
    ensures '=' in seg ==> p.0 + "=" + p.1 == seg && '=' !in p.0
    ensures '=' !in seg ==> p == (seg, "")
  {
    var i := IndexOf(seg, '=');
    if i < 0 then (seg, "")
    else
      assert seg == seg[..i] + [seg[i]] + seg[i + 1..];
      (seg[..i], seg[i + 1..])
  }

  function ParseSegments(segs: seq<string>): Pairs
  {
    if segs == [] then []
    else (if segs[0] == "" then [] else [SplitPair(segs[0])]) + ParseSegments(segs[1..])
  }

  /**
   * `new URLSearchParams(query)` on a string: one leading '?' is dropped,
   * the rest is split on '&', empty segments are skipped.
   */
  function ParsePairs(query: string): Pairs
  {
    var body := if query != "" && query[0] == '?' then query[1..] else query;
    ParseSegments(Split(body, '&'))
  }

  /** Names free of '&' and '=', values free of '&', and no leading '?'. */
  predicate Plain(ps: Pairs)
  {
    && (forall i :: 0 <= i < |ps| ==> '&' !in ps[i].0 && '=' !in ps[i].0 && '&' !in ps[i].1)
    && (ps != [] && ps[0].0 != "" ==> ps[0].0[0] != '?')
  }

  lemma SplitPairOf(k: string, v: string)
    requires '=' !in k
    ensures SplitPair(k + "=" + v) == (k, v)
  {
    var seg := k + "=" + v;
    var i := IndexOf(seg, '=');
    assert seg[|k|] == '=';
    assert seg[..|k|] == k && seg[|k| + 1..] == v;
  }

  lemma {:induction false} ParseSegmentsOf(ps: Pairs)
    requires forall i :: 0 <= i < |ps| ==> '=' !in ps[i].0
    ensures ParseSegments(Segments(ps)) == ps
  {
    if ps != [] {
      assert Segments(ps)[1..] == Segments(ps[1..]);
      ParseSegmentsOf(ps[1..]);
      SplitPairOf(ps[0].0, ps[0].1);
      assert Segments(ps)[0] != "";
    }
  }

  /** Reading a serialized query gives its pairs back, when no name or value holds a delimiter. */
  lemma ParseSerialize(ps: Pairs)
    requires Plain(ps)
    ensures ParsePairs(Serialize(ps)) == ps
  {
    var segs := Segments(ps);
    if ps == [] {
      assert Serialize(ps) == "";
      assert Split("", '&') == [""];
      assert ParseSegments([""]) == [];
    } else {
      assert forall i :: 0 <= i < |segs| ==> '&' !in segs[i];
      SplitJoin(segs, '&');
      var text := Serialize(ps);
      assert text[0] != '?' by {
        var head := segs[0];
        assert head == ps[0].0 + "=" + ps[0].1;
        if |segs| > 1 {
          assert text == head + ['&'] + Join(segs[1..], '&');
        }
        assert text[0] == head[0];
      }
      ParseSegmentsOf(ps);
    }
  }

  // ---------------------------------------------------------------------------
  // parseQueryString
  // ---------------------------------------------------------------------------

  /**
   * What `params[key]` becomes when `value` arrives, as the code is written:
   * a truthy current value turns into (or grows) an array; a missing or
   * EMPTY current value is overwritten.
   */
  function Arrive(current: Option<Json>, value: string): Json
  {
    if current.Some? && Truthy(current.value) then
      if current.value.Arr? then Arr(current.value.items + [Str(value)]) else Arr([current.value, Str(value)])
    else Str(value)
  }

  /** The object `parseQueryString` builds from the pairs, as the code is written. */
  function Collect(ps: Pairs): Fields
  {
    if ps == [] then []
    else
      var acc := Collect(ps[..|ps| - 1]);
      var last := ps[|ps| - 1];
      Put(acc, last.0, Arrive(Lookup(acc, last.0), last.1))
  }

  /** The value a key ends with, computed from that key's own values alone. */
  function KeyValue(vals: seq<string>): Option<Json>
  {
    if vals == [] then None else Some(Arrive(KeyValue(vals[..|vals| - 1]), vals[|vals| - 1]))
  }

  /** Each key of the parsed object depends only on the values of that name, in order. */
  lemma {:induction false} CollectPerKey(ps: Pairs, k: string)
    ensures Lookup(Collect(ps), k) == KeyValue(ValuesOf(ps, k))
  {
    if ps != [] {
      var init := ps[..|ps| - 1];
      var last := ps[|ps| - 1];
      var acc := Collect(init);
      CollectPerKey(init, k);
      assert Collect(ps) == Put(acc, last.0, Arrive(Lookup(acc, last.0), last.1));
      var vs := ValuesOf(init, k);
      if last.0 == k {
        assert ValuesOf(ps, k) == vs + [last.1];
        assert (vs + [last.1])[..|vs|] == vs;
      } else {
        assert ValuesOf(ps, k) == vs;
      }
    }
  }

  /** `parseQueryString(query)` on a string: the pairs are folded into an object one by one. */
  method ParseQueryString(query: string) returns (params: Json)
    ensures params.Obj? && params.fields == Collect(ParsePairs(query))
  {
    var pairs := ParsePairs(query);
    var fs: Fields := [];
    var i := 0;
    while i < |pairs|
      invariant 0 <= i <= |pairs|
      invariant fs == Collect(pairs[..i])
    {
      var key := pairs[i].0;
      var value := pairs[i].1;
      assert pairs[..i + 1][..i] == pairs[..i];
      fs := Put(fs, key, Arrive(Lookup(fs, key), value));
      i := i + 1;
    }
    assert pairs[..i] == pairs;
    params := Obj(fs);
  }

  /** The values as JSON strings, the array a repeated name should collect into. */
  function Strs(vals: seq<string>): (js: seq<Json>)
    ensures |js| == |vals| && forall i :: 0 <= i < |js| ==> js[i] == Str(vals[i])
  {
    seq(|vals|, i requires 0 <= i < |vals| => Str(vals[i]))
  }

  /**
   * As written, an empty first value is lost: in "a=&a=x" the second value
   * overwrites the first instead of joining it in an array.
   */
  lemma EmptyValueLost()
    ensures Lookup(Collect([("a", ""), ("a", "x")]), "a") == Some(Str("x"))
    ensures ValuesOf([("a", ""), ("a", "x")], "a") == ["", "x"]
  {
    var ps: Pairs := [("a", ""), ("a", "x")];
    var vs := ValuesOf(ps, "a");
    assert ps[..1] == [("a", "")];
    assert ps[..1][..0] == [];
    assert ValuesOf(ps[..1], "a") == [""];
    assert vs == ["", "x"];
    CollectPerKey(ps, "a");
    assert vs[..1] == [""];
    assert vs[..1][..0] == [];
    assert KeyValue(vs[..1]) == Some(Str(""));
  }

  /** The step the code evidently intends: an existing key, whatever its value, collects the new one. */
  function ArrivePresent(current: Option<Json>, value: string): Json
  {
    if current.Some? then
      if current.value.Arr? then Arr(current.value.items + [Str(value)]) else Arr([current.value, Str(value)])
    else Str(value)
  }

  function CollectPresent(ps: Pairs): Fields
  {
    if ps == [] then []
    else
      var acc := CollectPresent(ps[..|ps| - 1]);
      var last := ps[|ps| - 1];
      Put(acc, last.0, ArrivePresent(Lookup(acc, last.0), last.1))
  }

  function KeyValuePresent(vals: seq<string>): Option<Json>
  {
    if vals == [] then None else Some(ArrivePresent(KeyValuePresent(vals[..|vals| - 1]), vals[|vals| - 1]))
  }

  /** With the presence check a name seen once maps to its value, a repeated name to all its values in order. */
  lemma {:induction false} KeyValuePresentGroups(vals: seq<string>)
    ensures KeyValuePresent(vals) ==
      if |vals| == 0 then None
      else if |vals| == 1 then Some(Str(vals[0]))
      else Some(Arr(Strs(vals)))
  {
    if |vals| > 1 {
      var init := vals[..|vals| - 1];
      KeyValuePresentGroups(init);
      if |init| > 1 {
        assert Strs(init) + [Str(vals[|vals| - 1])] == Strs(vals);
      } else {
        assert [Str(init[0]), Str(vals[|vals| - 1])] == Strs(vals);
      }
    }
  }

  /** The corrected parse: every key holds its single value or the array of all its values. */
  lemma {:induction false} CollectPresentPerKey(ps: Pairs, k: string)
    ensures Lookup(CollectPresent(ps), k) ==
      var vals := ValuesOf(ps, k);
      if |vals| == 0 then None
      else if |vals| == 1 then Some(Str(vals[0]))
      else Some(Arr(Strs(vals)))
  {
    CollectPresentAgrees(ps, k);
    KeyValuePresentGroups(ValuesOf(ps, k));
  }

  lemma {:induction false} CollectPresentAgrees(ps: Pairs, k: string)
    ensures Lookup(CollectPresent(ps), k) == KeyValuePresent(ValuesOf(ps, k))
  {
    if ps != [] {
      var init := ps[..|ps| - 1];
      var last := ps[|ps| - 1];
      var acc := CollectPresent(init);
      CollectPresentAgrees(init, k);
      assert CollectPresent(ps) == Put(acc, last.0, ArrivePresent(Lookup(acc, last.0), last.1));
      var vs := ValuesOf(init, k);
      if last.0 == k {
        assert ValuesOf(ps, k) == vs + [last.1];
        assert (vs + [last.1])[..|vs|] == vs;
      } else {
        assert ValuesOf(ps, k) == vs;
      }
    }
  }

  /** The code as written agrees with the corrected step as long as no value is empty. */
  lemma {:induction false} KeyValueWithoutEmpties(vals: seq<string>)
    requires forall i :: 0 <= i < |vals| ==> vals[i] != ""
    ensures KeyValue(vals) == KeyValuePresent(vals)
  {
    if vals != [] {
      KeyValueWithoutEmpties(vals[..|vals| - 1]);
      var prev := KeyValue(vals[..|vals| - 1]);
      if prev.Some? {
        KeyValueTruthy(vals[..|vals| - 1]);
      }
    }
  }

  /** Without empty values every collected value is truthy. */
  lemma {:induction false} KeyValueTruthy(vals: seq<string>)
    requires vals != []
    requires forall i :: 0 <= i < |vals| ==> vals[i] != ""
    ensures KeyValue(vals).Some? && Truthy(KeyValue(vals).value)
  {
  }

  // ---------------------------------------------------------------------------
  // formatUrl
  // ---------------------------------------------------------------------------

  /** `s.replace(/\/$/, '')`: one trailing '/' removed. */
  function DropTrailingSlash(s: string): (r: string)
    ensures s != [] && s[|s| - 1] == '/' ==> r + "/" == s
    ensures !(s != [] && s[|s| - 1] == '/') ==> r == s
  {
    if s != [] && s[|s| - 1] == '/' then s[..|s| - 1] else s
  }

  /** `s.replace(/^\//, '')`: one leading '/' removed. */
  function DropLeadingSlash(s: string): (r: string)
    ensures s != [] && s[0] == '/' ==> "/" + r == s
    ensures !(s != [] && s[0] == '/') ==> r == s
  {
    if s != [] && s[0] == '/' then s[1..] else s
  }

  /**
   * `formatUrl(baseUrl, path, params)`: base and path joined by one '/',
   * then the query, after '?' or after '&' when the URL already has a '?';
   * nothing is appended for an empty query.
   */
  function FormatUrl(baseUrl: string, path: string, params: Option<Json>): (url: string)
    ensures var head := DropTrailingSlash(baseUrl) + "/" + DropLeadingSlash(path);
      && head <= url
      && (QueryString(params) == "" ==> url == head)
      && (QueryString(params) != "" ==> url == head + (if '?' in head then "&" else "?") + QueryString(params))
  {
    var head := DropTrailingSlash(baseUrl) + "/" + DropLeadingSlash(path);
    if params.Some? && Truthy(params.value) && |OwnEntries(params.value)| > 0 then
      var query := QueryString(params);
      if query != "" then head + (if '?' in head then "&" else "?") + query else head
    else
      assert params.Some? && (params.value.Obj? || params.value.Arr?) ==> OwnEntries(params.value) == [];
      head
  }
}
