/**
 * The file service (`FileService`): the gates `uploadFile` applies before it
 * sends a file, the sequential batch upload with its summary, and the
 * overall progress the batch reports while a file is uploading.
 */
module Files {
  import opened Text
  import opened Json
  import opened Results
  import opened Http

  /** `API_CONFIG.UPLOAD_MAX_SIZE`: 10 MiB. */
  const UploadMaxSize := 10 * 1024 * 1024
  const FileTooLarge := "文件大小不能超过 10MB"
  const UnsupportedType := "不支持的文件类型"
  const FileUploaded := "文件上传成功"
  const FileUploadFailed := "文件上传失败"
  const BatchFailedMessage := "批量上传失败"

  /**
   * `options.allowedTypes && !options.allowedTypes.includes(file.type)`: a
   * falsy list lets every type through; an array is searched for the type, a
   * string for it as a substring, and any other truthy value has no
   * `includes` to call, which throws.
   */
  function TypeRejection(allowed: Json, mime: string): (e: Option<string>)
    ensures !Truthy(allowed) ==> e.None?
    ensures allowed.Arr? ==> (e.None? <==> Str(mime) in allowed.items)
    ensures allowed.Arr? && e.Some? ==> e.value == UnsupportedType
    ensures allowed.Str? && allowed.s != "" ==> (e.None? <==> Contains(allowed.s, mime))
    ensures Truthy(allowed) && !allowed.Arr? && !allowed.Str? ==> e == Some(EngineTypeError)
  {
    if !Truthy(allowed) then None
    else match allowed
      case Arr(items) => if Str(mime) in items then None else Some(UnsupportedType)
      case Str(s) => if Contains(s, mime) then None else Some(UnsupportedType)
      case _ => Some(EngineTypeError)
  }

  /**
   * Why `uploadFile` does not send the file, in the order the code checks:
   * reading `size` of a missing file throws; then the size limit (the limit
   * itself passes); then reading `allowedTypes` of null options throws; then
   * the type, only when `allowedTypes` is given. None means it is sent.
   */
  function UploadRejection(file: Option<FileInfo>, options: Json): (e: Option<string>)
    ensures file.Some? && file.value.size > UploadMaxSize ==> e == Some(FileTooLarge)
    ensures file.Some? && file.value.size <= UploadMaxSize && options != Null && Field(options, "allowedTypes").None? ==> e.None?
    ensures file.Some? && file.value.size <= UploadMaxSize && options != Null && Field(options, "allowedTypes").Some? ==>
      e == TypeRejection(Field(options, "allowedTypes").value, file.value.mime)
  {
    if file.None? then Some(EngineTypeError)
    else if file.value.size > UploadMaxSize then Some(FileTooLarge)
    else if options == Null then Some(EngineTypeError)
    else match Field(options, "allowedTypes")
      case None => None
      case Some(allowed) => TypeRejection(allowed, file.value.mime)
  }

  /**
   * `uploadFile(file, options)`; `outcome` is how the upload request settles
   * when the file is sent. It never throws: every path gives a result.
   */
  function UploadFile(file: Option<FileInfo>, options: Json, outcome: Settled): (r: ServiceResult)
    ensures UploadRejection(file, options).Some? ==> r == Failed(UploadRejection(file, options).value, FileUploadFailed)
    ensures UploadRejection(file, options).None? ==> r == Invoke(outcome, FileUploaded, FileUploadFailed)
  {
    match UploadRejection(file, options)
    case Some(e) => Failed(e, FileUploadFailed)
    case None => Invoke(outcome, FileUploaded, FileUploadFailed)
  }

  /** The size is checked first: a file over the limit is refused whatever the options, even null ones. */
  lemma SizeCheckedFirst(file: FileInfo, options: Json, outcome: Settled)
    requires file.size > UploadMaxSize
    ensures UploadFile(Some(file), options, outcome) == Failed(FileTooLarge, FileUploadFailed)
  {
  }

  /** Without `allowedTypes` any type within the limit is sent, and exactly 10 MiB is within it. */
  lemma NoTypeCheckWithoutList(name: string, mime: string, outcome: Settled)
    ensures UploadFile(Some(FileInfo(name, mime, 10485760)), Obj([]), outcome)
      == Invoke(outcome, FileUploaded, FileUploadFailed)
  {
  }

  /** With a list of allowed types, a file within the limit is sent exactly when its type is listed. */
  lemma ListedTypeSent(file: FileInfo, types: seq<Json>, outcome: Settled)
    requires file.size <= UploadMaxSize
    ensures UploadRejection(Some(file), Obj([("allowedTypes", Arr(types))])).None? <==> Str(file.mime) in types
  {
  }

  // ---------------------------------------------------------------------------
  // uploadMultipleFiles
  // ---------------------------------------------------------------------------

  datatype Summary = Summary(total: nat, success: nat, failed: nat)

  /** `{success, data: {results, summary}, message}`, or the failure when the file list cannot be read. */
  datatype Batch =
    | BatchDone(success: bool, results: seq<ServiceResult>, summary: Summary, message: string)
    | BatchError(error: string, message: string)

  /** The options each file is uploaded with: `{...options, onProgress}` (the callback itself is not modelled). */
  function FileOptions(options: Json): (r: Json)
    ensures r.Obj?
    ensures forall k :: Lookup(r.fields, k) == Lookup(SpreadFields(options), k)
  {
    Spread(options, Obj([]))
  }

  /** `results.filter(r => r.success).length`. */
  function SuccessCount(results: seq<ServiceResult>): (n: nat)
    ensures n <= |results|
  {
    if results == [] then 0
    else (if results[0].Succeeded? then 1 else 0) + SuccessCount(results[1..])
  }

  /** Every result succeeded exactly when the count of successes is the number of results. */
  lemma {:induction false} AllSucceeded(results: seq<ServiceResult>)
    ensures SuccessCount(results) == |results| <==> forall i :: 0 <= i < |results| ==> results[i].Succeeded?
  {
    if results != [] {
      AllSucceeded(results[1..]);
      assert forall i :: 1 <= i < |results| ==> results[i] == results[1..][i - 1];
    }
  }

  function BatchMessage(success: nat, failed: nat): string
  {
    "批量上传完成：成功 " + IntToDecimal(success) + " 个，失败 " + IntToDecimal(failed) + " 个"
  }

  /** What `uploadMultipleFiles(files, options)` returns; the i-th upload sent settles as `outcome(i)`. */
  function BatchSpec(files: Option<seq<Option<FileInfo>>>, options: Json, outcome: nat -> Settled): Batch
  {
    if files.None? then BatchError(EngineTypeError, BatchFailedMessage)
    else
      var results := seq(|files.value|, i requires 0 <= i < |files.value| =>
        UploadFile(files.value[i], FileOptions(options), outcome(i)));
      var ok := SuccessCount(results);
      var failed := |results| - ok;
      BatchDone(failed == 0, results, Summary(|results|, ok, failed), BatchMessage(ok, failed))
  }

  /**
   * `uploadMultipleFiles(files, options)`: one file at a time, in order,
   * pushing each result; a null or undefined list makes `Array.from` throw.
   */
  method UploadMultipleFiles(files: Option<seq<Option<FileInfo>>>, options: Json, outcome: nat -> Settled)
    returns (r: Batch)
    ensures r == BatchSpec(files, options, outcome)
  {
    if files.None? {
      return BatchError(EngineTypeError, BatchFailedMessage);
    }
    var fileArray := files.value;
    var results: seq<ServiceResult> := [];
    var completedCount := 0;
    for i := 0 to |fileArray|
      invariant completedCount == i == |results|
      invariant forall k :: 0 <= k < i ==> results[k] == UploadFile(fileArray[k], FileOptions(options), outcome(k))
    {
      var result := UploadFile(fileArray[i], FileOptions(options), outcome(i));
      results := results + [result];
      completedCount := completedCount + 1;
    }
    assert results == seq(|fileArray|, i requires 0 <= i < |fileArray| =>
      UploadFile(fileArray[i], FileOptions(options), outcome(i)));
    var successCount := SuccessCount(results);
    var failCount := |results| - successCount;
    r := BatchDone(failCount == 0, results, Summary(|results|, successCount, failCount), BatchMessage(successCount, failCount));
  }

  /**
   * The summary of a batch: one result per file, in file order, each the
   * upload of that file alone (a failure does not stop the batch); the
   * counts add up; the batch succeeds exactly when every file did.
   */
  lemma BatchSummary(files: seq<Option<FileInfo>>, options: Json, outcome: nat -> Settled)
    ensures var b := BatchSpec(Some(files), options, outcome);
      && b.BatchDone?
      && |b.results| == |files| == b.summary.total
      && (forall i :: 0 <= i < |files| ==> b.results[i] == UploadFile(files[i], FileOptions(options), outcome(i)))
      && b.summary.success + b.summary.failed == b.summary.total
      && (b.success <==> b.summary.failed == 0)
      && (b.success <==> forall i :: 0 <= i < |files| ==> b.results[i].Succeeded?)
      && b.message == BatchMessage(b.summary.success, b.summary.failed)
  {
    AllSucceeded(BatchSpec(Some(files), options, outcome).results);
  }

  /** An empty list is a successful batch with all counts zero. */
  lemma EmptyBatch(options: Json, outcome: nat -> Settled)
    ensures BatchSpec(Some([]), options, outcome) == BatchDone(true, [], Summary(0, 0, 0), BatchMessage(0, 0))
  {
  }

  /** A null file list is reported as a failed batch and uploads nothing. */
  lemma MissingListFails(options: Json, outcome: nat -> Settled)
    ensures BatchSpec(None, options, outcome) == BatchError(EngineTypeError, BatchFailedMessage)
  {
  }

  /**
   * Three acceptable files whose second upload is rejected: the other two
   * still go through, and the batch reports two successes and one failure.
   */
  lemma SecondOfThreeFails(f0: FileInfo, f1: FileInfo, f2: FileInfo, outcome: nat -> Settled)
    requires f0.size <= UploadMaxSize && f1.size <= UploadMaxSize && f2.size <= UploadMaxSize
    requires outcome(0).Resolved? && outcome(1).Rejected? && outcome(2).Resolved?
    ensures var b := BatchSpec(Some([Some(f0), Some(f1), Some(f2)]), Obj([]), outcome);
      && b.BatchDone? && !b.success
      && b.summary == Summary(3, 2, 1)
      && b.results[1] == Failed(outcome(1).message, FileUploadFailed)
      && b.message == "批量上传完成：成功 2 个，失败 1 个"
  {
    var b := BatchSpec(Some([Some(f0), Some(f1), Some(f2)]), Obj([]), outcome);
    var rs := b.results;
    assert rs[0].Succeeded? && rs[1].Failed? && rs[2].Succeeded?;
    assert rs[1..][1..] == [rs[2]];
    assert [rs[2]][1..] == [];
    assert SuccessCount([rs[2]]) == 1;
    assert SuccessCount(rs[1..]) == 1;
    assert SuccessCount(rs) == 2;
    assert IntToDecimal(2) == "2" && IntToDecimal(1) == "1";
  }

  // ---------------------------------------------------------------------------
  // Overall progress
  // ---------------------------------------------------------------------------

  /**
   * `Math.round(((completedCount + progress / 100) / n) * 100)`, computed
   * exactly: the nearest integer to (100 * completed + progress) / n, halves
   * rounded up.
   */
  function TotalProgress(completed: int, progress: int, n: int): (r: int)
    requires n > 0
    ensures 2 * n * r <= 2 * (100 * completed + progress) + n < 2 * n * r + 2 * n
  {
    (2 * (100 * completed + progress) + n) / (2 * n)
  }

  lemma DivMonotone(a: int, b: int, d: int)
    requires a <= b && d > 0
    ensures a / d <= b / d
  {
    var qa, qb := a / d, b / d;
    assert d * qa <= a;
    assert b < d * qb + d;
    if qa > qb {
      MulLe(d, qb + 1, qa);
      assert false;
    }
  }

  lemma MulLe(d: int, x: int, y: int)
    requires d >= 0 && x <= y
    ensures d * x <= d * y
  {
    assert d * y - d * x == d * (y - x);
  }

  lemma DivBelow(a: int, d: int, q: int)
    requires 0 <= a < q * d && d > 0
    ensures a / d < q
  {
    if a / d >= q {
      assert false;
    }
  }

  /** While file `completed` of `n` is at `progress` percent, the overall progress is a percentage. */
  lemma ProgressBounds(completed: int, progress: int, n: int)
    requires 0 <= completed < n && 0 <= progress <= 100
    ensures 0 <= TotalProgress(completed, progress, n) <= 100
  {
    var x := 2 * (100 * completed + progress) + n;
    assert 100 * completed <= 100 * (n - 1);
    assert x < 101 * (2 * n);
    DivBelow(x, 2 * n, 101);
  }

  /** The overall progress never goes back as files complete and each file's progress grows. */
  lemma ProgressMonotone(c1: int, p1: int, c2: int, p2: int, n: int)
    requires n > 0 && 0 <= p1 <= 100 && 0 <= p2 <= 100
    requires c1 < c2 || (c1 == c2 && p1 <= p2)
    ensures TotalProgress(c1, p1, n) <= TotalProgress(c2, p2, n)
  {
    if c1 < c2 {
      assert 100 * c1 + 100 <= 100 * c2;
    }
    DivMonotone(2 * (100 * c1 + p1) + n, 2 * (100 * c2 + p2) + n, 2 * n);
  }

  /** The last file at 100 percent shows 100 overall. */
  lemma ProgressFull(n: int)
    requires n > 0
    ensures TotalProgress(n - 1, 100, n) == 100
  {
    DivIs(2 * (100 * (n - 1) + 100) + n, 2 * n, 100);
  }

  /** Floor division is the quotient that brackets the dividend. */
  lemma DivIs(a: int, d: int, q: int)
    requires d > 0 && q >= 0 && d * q <= a < d * q + d
    ensures a / d == q
  {
    assert (q + 1) * d == d * q + d;
    DivBelow(a, d, q + 1);
    var r := a / d;
    assert a < d * r + d;
    if r < q {
      MulLe(d, r + 1, q);
      assert false;
    }
  }

  /** The first file at 0 percent shows 0 overall. */
  lemma ProgressStart(n: int)
    requires n > 0
    ensures TotalProgress(0, 0, n) == 0
  {
    DivBelow(n, 2 * n, 1);
  }
}
