/**
 * The remaining HTTP utilities: `deepMerge`, `retry`, the file validators,
 * `getFileExtension` and `getRelativeTime` (with the current time as a
 * parameter).
 */
module Http {
  import opened Text
  import opened Json
  import opened Results

  // ---------------------------------------------------------------------------
  // deepMerge
  // ---------------------------------------------------------------------------

  /** `isObject(item)`: a plain object, i.e. neither null, nor an array, nor a primitive. */
  predicate IsObject(j: Json)
  {
    j.Obj?
  }

  /**
   * One step of `deepMerge(target, source)`: when both are objects, the
   * source's keys are visited in order (`for...in`); otherwise the target is
   * returned untouched.
   */
  function Merge(target: Json, source: Json, repair: bool): (r: Json)
    ensures r.Obj? <==> target.Obj?
    ensures !(target.Obj? && source.Obj?) ==> r == target
    decreases source, 1
  {
    if target.Obj? && source.Obj? then Obj(MergeKeys(target.fields, source, 0, repair)) else target
  }

  function MergeKeys(fs: Fields, source: Json, i: nat, repair: bool): Fields
    requires source.Obj? && i <= |OwnEntries(source)|
    decreases source, 0, |OwnEntries(source)| - i
  {
    var es := OwnEntries(source);
    if i == |es| then fs
    else
      assert es[i] in source.fields;
      MergeKeys(MergeKey(fs, es[i].0, es[i].1, repair), source, i + 1, repair)
  }

  /**
   * The body of the `for...in` loop for one key: a non-object source value
   * is assigned; an object is merged into the target's object, or into a
   * fresh `{}` when the target's value is falsy. As written (`repair`
   * false), a truthy target value that is not an object is left alone and
   * the source object dropped; with `repair` it is replaced by `{}` first.
   */
  function MergeKey(fs: Fields, key: string, value: Json, repair: bool): Fields
    decreases value, 2
  {
    var current := Lookup(fs, key);
    if !IsObject(value) then Put(fs, key, value)
    else if current.Some? && IsObject(current.value) then Put(fs, key, Merge(current.value, value, repair))
    else if current.Some? && Truthy(current.value) && !repair then fs
    else Put(fs, key, Merge(Obj([]), value, repair))
  }

  /**
   * The value key `k` of the target ends with when one source is merged in,
   * from the target's current value and the source's value: scalars and
   * arrays overwrite, objects merge.
   */
  function MergedValue(current: Option<Json>, incoming: Option<Json>, repair: bool): Option<Json>
  {
    if incoming.None? then current
    else if !IsObject(incoming.value) then incoming
    else if current.Some? && IsObject(current.value) then Some(Merge(current.value, incoming.value, repair))
    else if current.Some? && Truthy(current.value) && !repair then current
    else Some(Merge(Obj([]), incoming.value, repair))
  }

  lemma MergeKeyLookup(fs: Fields, key: string, value: Json, repair: bool, k: string)
    ensures Lookup(MergeKey(fs, key, value, repair), k) ==
      if k == key then MergedValue(Lookup(fs, key), Some(value), repair) else Lookup(fs, k)
  {
  }

  lemma {:induction false} MergeKeysPerKey(fs: Fields, source: Json, i: nat, repair: bool, k: string)
    requires source.Obj? && i <= |OwnEntries(source)|
    ensures Lookup(MergeKeys(fs, source, i, repair), k) ==
      if k in Keys(OwnEntries(source))[i..] then MergedValue(Lookup(fs, k), Lookup(source.fields, k), repair)
      else Lookup(fs, k)
    decreases |OwnEntries(source)| - i
  {
    var es := OwnEntries(source);
    var ks := Keys(es);
    if i < |es| {
      var key := es[i].0;
      var next := MergeKey(fs, key, es[i].1, repair);
      assert MergeKeys(fs, source, i, repair) == MergeKeys(next, source, i + 1, repair);
      MergeKeysPerKey(next, source, i + 1, repair, k);
      MergeKeyLookup(fs, key, es[i].1, repair, k);
      SliceHead(ks, i);
      if k == key {
        EntryKeyOnce(source, i);
        assert k !in ks[i + 1..];
        assert Lookup(source.fields, k) == Some(es[i].1);
        assert Lookup(next, k) == MergedValue(Lookup(fs, k), Some(es[i].1), repair);
      } else {
        assert (k in ks[i..]) == (k in ks[i + 1..]);
        assert Lookup(next, k) == Lookup(fs, k);
      }
    }
  }

  /** A suffix holds its first element and the shorter suffix's elements. */
  lemma SliceHead(ks: seq<string>, i: nat)
    requires i < |ks|
    ensures forall k :: k in ks[i..] <==> k == ks[i] || k in ks[i + 1..]
  {
    assert ks[i..] == [ks[i]] + ks[i + 1..];
  }

  /** The i-th key `for...in` visits occurs nowhere later, and it holds the i-th value. */
  lemma EntryKeyOnce(source: Json, i: nat)
    requires i < |OwnEntries(source)|
    ensures var es := OwnEntries(source);
      es[i].0 !in Keys(es)[i + 1..] && Lookup(SpreadFields(source), es[i].0) == Some(es[i].1)
  {
    var es := OwnEntries(source);
    var ks := Keys(es);
    LookupDistinct(es, i);
    forall j | i + 1 <= j < |ks| ensures ks[j] != es[i].0 {
      assert es[j].0 != es[i].0;
    }
  }

  /**
   * Merging one source, key by key: keys the source lacks keep the target's
   * value, the others take `MergedValue`.
   */
  lemma MergePerKey(target: Json, source: Json, repair: bool, k: string)
    requires target.Obj? && source.Obj?
    ensures Lookup(Merge(target, source, repair).fields, k) == MergedValue(Lookup(target.fields, k), Lookup(source.fields, k), repair)
  {
    var es := OwnEntries(source);
    MergeKeysPerKey(target.fields, source, 0, repair, k);
    assert Keys(es)[0..] == Keys(es);
    assert k in Keys(es) <==> Lookup(es, k).Some?;
  }

  /** `deepMerge(target, ...sources)`: the sources are merged in one after another, left to right. */
  function DeepMergeWith(target: Json, sources: seq<Json>, repair: bool): (r: Json)
    ensures r.Obj? <==> target.Obj?
    ensures !target.Obj? ==> r == target
    decreases |sources|
  {
    if sources == [] then target else DeepMergeWith(Merge(target, sources[0], repair), sources[1..], repair)
  }

  /** `deepMerge` as written. */
  function DeepMerge(target: Json, sources: seq<Json>): (r: Json)
    ensures r.Obj? <==> target.Obj?
    ensures !target.Obj? ==> r == target
  {
    DeepMergeWith(target, sources, false)
  }

  /** `deepMerge` with the repair: a nested source object always lands as an object. */
  function DeepMergeRepaired(target: Json, sources: seq<Json>): (r: Json)
    ensures r.Obj? <==> target.Obj?
    ensures !target.Obj? ==> r == target
  {
    DeepMergeWith(target, sources, true)
  }

  /** The last source is merged last. */
  lemma {:induction false} DeepMergeSnoc(target: Json, sources: seq<Json>, last: Json, repair: bool)
    ensures DeepMergeWith(target, sources + [last], repair) == Merge(DeepMergeWith(target, sources, repair), last, repair)
    decreases |sources|
  {
    if sources != [] {
      assert (sources + [last])[1..] == sources[1..] + [last];
      DeepMergeSnoc(Merge(target, sources[0], repair), sources[1..], last, repair);
    } else {
      assert (sources + [last])[1..] == [];
    }
  }

  /** Later sources win: a non-object value in the last source is the merged value of its key. */
  lemma LaterSourceWins(target: Json, sources: seq<Json>, last: Json, k: string, v: Json)
    requires target.Obj? && last.Obj?
    requires Lookup(last.fields, k) == Some(v) && !IsObject(v)
    ensures Lookup(DeepMerge(target, sources + [last]).fields, k) == Some(v)
  {
    DeepMergeSnoc(target, sources, last, false);
    MergePerKey(DeepMergeWith(target, sources, false), last, false, k);
  }

  /** A key no source has keeps the target's value. */
  lemma {:induction false} UntouchedKeyKept(target: Json, sources: seq<Json>, repair: bool, k: string)
    requires target.Obj?
    requires forall i :: 0 <= i < |sources| ==> !(sources[i].Obj? && k in Keys(sources[i].fields))
    ensures Lookup(DeepMergeWith(target, sources, repair).fields, k) == Lookup(target.fields, k)
    decreases |sources|
  {
    if sources != [] {
      var next := Merge(target, sources[0], repair);
      assert DeepMergeWith(target, sources, repair) == DeepMergeWith(next, sources[1..], repair);
      if sources[0].Obj? {
        MergePerKey(target, sources[0], repair, k);
      }
      assert Lookup(next.fields, k) == Lookup(target.fields, k);
      assert forall i :: 0 <= i < |sources[1..]| ==> sources[1..][i] == sources[i + 1];
      UntouchedKeyKept(next, sources[1..], repair, k);
    }
  }

  /**
   * As written, a nested source object is dropped when the target holds a
   * truthy non-object under that key: `deepMerge({a: 1}, {a: {b: 2}})` keeps
   * `a: 1`.
   */
  lemma NestedObjectDropped()
    ensures var source := Obj([("a", Obj([("b", Num(2))]))]);
      Lookup(DeepMerge(Obj([("a", Num(1))]), [source]).fields, "a") == Some(Num(1))
  {
    var target := Obj([("a", Num(1))]);
    var source := Obj([("a", Obj([("b", Num(2))]))]);
    assert Lookup(target.fields, "a") == Some(Num(1));
    assert Lookup(source.fields, "a") == Some(Obj([("b", Num(2))]));
    ScalarBlocksNestedObject(target, source, "a");
  }

  /** As written, a truthy non-object under a key keeps a source object under that key out. */
  lemma ScalarBlocksNestedObject(target: Json, source: Json, k: string)
    requires target.Obj? && source.Obj?
    requires Lookup(target.fields, k).Some? && Truthy(Lookup(target.fields, k).value) && !IsObject(Lookup(target.fields, k).value)
    requires Lookup(source.fields, k).Some? && IsObject(Lookup(source.fields, k).value)
    ensures Lookup(DeepMerge(target, [source]).fields, k) == Lookup(target.fields, k)
  {
    MergePerKey(target, source, false, k);
    assert [source][1..] == [];
    assert DeepMergeWith(target, [source], false) == DeepMergeWith(Merge(target, source, false), [], false);
  }

  /** With the repair, an object in the last source always leaves an object under its key. */
  lemma RepairedKeepsNestedObjects(target: Json, sources: seq<Json>, last: Json, k: string, v: Json)
    requires target.Obj? && last.Obj?
    requires Lookup(last.fields, k) == Some(v) && IsObject(v)
    ensures var r := DeepMergeRepaired(target, sources + [last]);
      Lookup(r.fields, k).Some? && IsObject(Lookup(r.fields, k).value)
  {
    DeepMergeSnoc(target, sources, last, true);
    MergePerKey(DeepMergeWith(target, sources, true), last, true, k);
  }

  // ---------------------------------------------------------------------------
  // retry
  // ---------------------------------------------------------------------------

  const DefaultRetries := 3
  const DefaultDelay := 1000

  function Pow2(n: nat): (p: nat)
    ensures p >= 1
  {
    if n == 0 then 1 else 2 * Pow2(n - 1)
  }

  /** The j-th wait: the delay doubled j times. */
  function Backoff(delay: int, j: nat): (r: int)
    ensures delay >= 0 ==> delay <= r
  {
    if j == 0 then delay else 2 * Backoff(delay, j - 1)
  }

  /** Starting from twice the delay is one doubling ahead. */
  lemma {:induction false} BackoffDoubled(delay: int, j: nat)
    ensures Backoff(delay * 2, j) == Backoff(delay, j + 1)
  {
    if j > 0 {
      BackoffDoubled(delay, j - 1);
    }
  }

  /** The waits are d, 2d, 4d, ...: the j-th is `delay * 2^j`. */
  lemma {:induction false} BackoffIsPower(delay: int, j: nat)
    ensures Backoff(delay, j) == delay * Pow2(j)
  {
    if j > 0 {
      BackoffIsPower(delay, j - 1);
      assert delay * Pow2(j) == delay * (2 * Pow2(j - 1)) == 2 * (delay * Pow2(j - 1));
    }
  }

  /** How a `retry` ends: its outcome, how many times `fn` ran, and the waits between the runs. */
  datatype RetryRun = RetryRun(result: Settled, calls: nat, waits: seq<int>)

  function Budget(retries: int): nat
  {
    if retries > 0 then retries else 0
  }

  /**
   * `retry(fn, retries, delay)`: `outcome(n)` is how the n-th call of `fn`
   * settles, counting from `first`. A success is returned at once; a failure
   * with retries left waits `delay` and retries with the delay doubled; with
   * none left the failure is rethrown.
   */
  function Retry(outcome: nat -> Settled, retries: int, delay: int, first: nat): (run: RetryRun)
    ensures 1 <= run.calls <= Budget(retries) + 1
    ensures |run.waits| == run.calls - 1
    ensures forall j :: 0 <= j < |run.waits| ==> run.waits[j] == Backoff(delay, j)
    ensures run.result == outcome(first + run.calls - 1)
    ensures forall n :: first <= n < first + run.calls - 1 ==> outcome(n).Rejected?
    ensures run.result.Rejected? ==> run.calls == Budget(retries) + 1
    decreases Budget(retries)
  {
    if outcome(first).Resolved? || retries <= 0 then RetryRun(outcome(first), 1, [])
    else
      var rest := Retry(outcome, retries - 1, delay * 2, first + 1);
      var waits := [delay] + rest.waits;
      assert forall j :: 1 <= j < |waits| ==> waits[j] == Backoff(delay, j) by {
        forall j | 1 <= j < |waits| ensures waits[j] == Backoff(delay, j) {
          BackoffDoubled(delay, j - 1);
        }
      }
      RetryRun(rest.result, rest.calls + 1, waits)
  }

  /** With m ≤ retries failures before the first success, the success is returned after m + 1 calls. */
  lemma RetryAfterFailures(outcome: nat -> Settled, retries: int, delay: int, first: nat, m: nat)
    requires m <= Budget(retries)
    requires forall n :: first <= n < first + m ==> outcome(n).Rejected?
    requires outcome(first + m).Resolved?
    ensures Retry(outcome, retries, delay, first).result == outcome(first + m)
    ensures Retry(outcome, retries, delay, first).calls == m + 1
  {
    var run := Retry(outcome, retries, delay, first);
    // More calls would have rejected outcome(first + m); fewer would have ended on a rejection with budget left.
    assert run.calls - 1 <= m;
    assert run.calls - 1 >= m;
  }

  // ---------------------------------------------------------------------------
  // File validators
  // ---------------------------------------------------------------------------

  /** The fields of a browser `File` the application reads: name, MIME type and size in bytes. */
  datatype FileInfo = FileInfo(name: string, mime: string, size: int)

  /** `validateFileType(file, allowedTypes)`; a missing file is None. */
  function ValidateFileType(file: Option<FileInfo>, allowedTypes: Option<Json>): (ok: bool)
    ensures ok ==> file.Some? && allowedTypes.Some? && allowedTypes.value.Arr?
    ensures file.Some? && allowedTypes.Some? && allowedTypes.value.Arr? ==>
      (ok <==> exists i :: 0 <= i < |allowedTypes.value.items| && allowedTypes.value.items[i] == Str(file.value.mime))
  {
    file.Some? && allowedTypes.Some? && allowedTypes.value.Arr? && Str(file.value.mime) in allowedTypes.value.items
  }

  /** `validateFileSize(file, maxSize)`: only a numeric limit counts, and the limit itself passes. */
  function ValidateFileSize(file: Option<FileInfo>, maxSize: Option<Json>): (ok: bool)
    ensures ok <==> file.Some? && maxSize.Some? && maxSize.value.Num? && file.value.size <= maxSize.value.n
  {
    if file.None? || !(maxSize.Some? && maxSize.value.Num?) then false
    else file.value.size <= maxSize.value.n
  }

  // ---------------------------------------------------------------------------
  // getFileExtension
  // ---------------------------------------------------------------------------

  const TwoTo32 := 0x1_0000_0000

  /**
   * `getFileExtension(filename)`: `filename.slice((lastIndexOf('.') - 1 >>> 0) + 2)`,
   * with the unsigned shift written out as the remainder modulo 2^32.
   * Empty and non-string names give ''.
   */
  function GetFileExtension(filename: Option<Json>): (ext: string)
    ensures !(filename.Some? && filename.value.Str? && filename.value.s != "") ==> ext == ""
    ensures filename.Some? && filename.value.Str? ==>
      |ext| <= |filename.value.s| && ext == filename.value.s[|filename.value.s| - |ext|..]
  {
    if filename.Some? && filename.value.Str? && filename.value.s != "" then NameExtension(filename.value.s)
    else ""
  }

  /** The slice `getFileExtension` takes of a non-empty string name. */
  function NameExtension(s: string): (ext: string)
    ensures |ext| <= |s| && ext == s[|s| - |ext|..]
  {
    var start := StartAfter(LastIndexOf(s, '.'));
    if start >= |s| then "" else s[start..]
  }

  /** Where that slice starts for the index of the last '.': `(dot - 1 >>> 0) + 2`. */
  function StartAfter(dot: int): nat
  {
    Uint32(dot - 1) + 2
  }

  /** No dot (-1) or a leading one (0): `dot - 1` wraps around, and the start is past any name. */
  lemma StartAfterWraps(dot: int)
    requires -1 <= dot <= 0
    ensures StartAfter(dot) == dot + 1 + TwoTo32
  {
    assert dot - 1 == TwoTo32 * -1 + (dot - 1 + TwoTo32);
  }

  /** A dot inside the name: the start is just after it. */
  lemma StartAfterDot(dot: int)
    requires 0 < dot <= TwoTo32
    ensures StartAfter(dot) == dot + 1
  {
  }

  /**
   * For every name a string can hold, the extension is the text after the
   * last '.', and '' when there is no '.' or the only one opens the name.
   */
  lemma ExtensionAfterLastDot(s: string)
    requires 0 < |s| < TwoTo32
    ensures var dot := LastIndexOf(s, '.');
      GetFileExtension(Some(Str(s))) == if dot <= 0 then "" else s[dot + 1..]
  {
    var dot := LastIndexOf(s, '.');
    assert GetFileExtension(Some(Str(s))) == NameExtension(s);
    if dot <= 0 {
      StartAfterWraps(dot);
    } else {
      StartAfterDot(dot);
    }
  }

  /** The unsigned right shift `x >>> 0`: x taken modulo 2^32. */
  function Uint32(x: int): (r: int)
    ensures 0 <= r < TwoTo32
  {
    x % TwoTo32
  }



  // ---------------------------------------------------------------------------
  // getRelativeTime
  // ---------------------------------------------------------------------------

  const MinuteMs := 60 * 1000
  const HourMs := MinuteMs * 60
  const DayMs := HourMs * 24
  const WeekMs := DayMs * 7
  const MonthMs := DayMs * 30
  const YearMs := DayMs * 365

  datatype Unit = Minutes | Hours | Days | Weeks | Months | Years

  function UnitMs(u: Unit): int
  {
    match u
    case Minutes => MinuteMs
    case Hours => HourMs
    case Days => DayMs
    case Weeks => WeekMs
    case Months => MonthMs
    case Years => YearMs
  }

  function UnitSuffix(u: Unit): string
  {
    match u
    case Minutes => "分钟前"
    case Hours => "小时前"
    case Days => "天前"
    case Weeks => "周前"
    case Months => "个月前"
    case Years => "年前"
  }

  /** The largest count a bucket can show before the next unit takes over. */
  function MaxCount(u: Unit): int
  {
    match u
    case Minutes => 59
    case Hours => 23
    case Days => 6
    case Weeks => 4
    case Months => 12
    case Years => -1
  }

  datatype Ago = JustNow | UnitsAgo(count: int, unit: Unit)

  /**
   * The bucket for `diff` elapsed milliseconds: under a minute (future dates
   * included) is "just now"; otherwise the largest unit not above `diff`,
   * counted by floor division, with 30-day months and 365-day years.
   */
  function Bucket(diff: int): (a: Ago)
    ensures a.JustNow? <==> diff < MinuteMs
    ensures a.UnitsAgo? ==> a.count * UnitMs(a.unit) <= diff < (a.count + 1) * UnitMs(a.unit)
    ensures a.UnitsAgo? ==> 1 <= a.count && (a.unit != Years ==> a.count <= MaxCount(a.unit))
  {
    if diff < MinuteMs then JustNow
    else if diff < HourMs then UnitsAgo(diff / MinuteMs, Minutes)
    else if diff < DayMs then UnitsAgo(diff / HourMs, Hours)
    else if diff < WeekMs then UnitsAgo(diff / DayMs, Days)
    else if diff < MonthMs then UnitsAgo(diff / WeekMs, Weeks)
    else if diff < YearMs then UnitsAgo(diff / MonthMs, Months)
    else UnitsAgo(diff / YearMs, Years)
  }

  /** Each bucket is chosen by the unit thresholds: a unit is used exactly when `diff` lies between it and the next. */
  lemma BucketUnit(diff: int, u: Unit)
    requires Bucket(diff).UnitsAgo?
    ensures Bucket(diff).unit == u <==>
      UnitMs(u) <= diff && (u == Years || diff < UnitMs(NextUnit(u)))
  {
  }

  function NextUnit(u: Unit): Unit
    requires u != Years
  {
    match u
    case Minutes => Hours
    case Hours => Days
    case Days => Weeks
    case Weeks => Months
    case Months => Years
  }

  /**
   * `getRelativeTime(date)` at time `now` (both in milliseconds); an
   * invalid date is None, for which every comparison with NaN fails and the
   * text is 'NaN年前'.
   */
  function GetRelativeTime(now: int, date: Option<int>): (text: string)
    ensures date.None? ==> text == "NaN年前"
    ensures date.Some? && now - date.value < MinuteMs ==> text == "刚刚"
    ensures date.Some? && Bucket(now - date.value).UnitsAgo? ==>
      var a := Bucket(now - date.value);
      text == IntToDecimal(a.count) + UnitSuffix(a.unit)
  {
    if date.None? then "NaN年前"
    else
      match Bucket(now - date.value)
      case JustNow => "刚刚"
      case UnitsAgo(n, u) => IntToDecimal(n) + UnitSuffix(u)
  }
}
