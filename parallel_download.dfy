/** The current chunked downloader, `ChunksDownload` of model.ts: a probe of chunk 0, a plan
    of contiguous ranges, and a bounded pool in which every completion starts at most one
    replacement fetch. The network, abort controllers, the event emitter and the browser
    download are modelled by the fields `nextToken`, `aborted`, `events`, `requests` and
    `deliveries`: the network answers through `OnCompletion`. */
module ParallelDownload {
  import opened Basics
  import opened HttpRange

  /** An `AbortController`, by identity. */
  type Token = nat

  /** An `ArrayBuffer`. */
  type Bytes = seq<bv8>

  datatype Status = NotStart | Fetching | Success | Fail

  datatype ChunkInfo = ChunkInfo(
    token: Token,             // the controller created with the chunk (`abortController`)
    range: ByteRange,
    chunkData: Option<Bytes>,
    index: nat,
    fetchCount: nat,
    status: Status)

  /** The response headers the downloader reads. `fileName` is the `filename=` capture of
      `content-disposition`, already percent-decoded. */
  datatype Headers = Headers(
    fileName: Option<string>,
    contentType: Option<string>,
    fileHash: Option<string>,
    contentRange: Option<string>)

  /** What `getChunk` resolves to. */
  datatype ChunkRet = Fulfilled(chunkData: Bytes, chunkHeaders: Headers) | Rejected(reason: string)

  /** What the transport delivers for one request; `text` is the body as `TextDecoder` reads it. */
  datatype Response = NetworkError(message: string) | Response(body: Bytes, text: string, headers: Headers)

  /** The body sent with a request: the configured `data` for the probe, chunk metadata after. */
  datatype RequestBody = OptionData | ChunkMeta(fetchCount: nat, chunkIndex: nat, chunkRange: ByteRange)

  /** One `getChunk` call: `range` goes out as the header `RangeHeader(range)`. */
  datatype Request = Request(chunkIndex: nat, range: ByteRange, fileHash: Option<string>, token: Token, body: RequestBody)

  datatype DownloadStatus = ChunkProgress | DownloadSuccess | DownloadFail | Terminate

  /** One emitted event (`ChunksDownloadRet` without the percent fields). */
  datatype DownloadEvent = DownloadEvent(
    status: DownloadStatus,
    totalChunks: nat,
    successChunks: nat,
    fileName: string,
    fileTotalBytes: nat)

  /** One `downloadBlobParts` call: the artifact handed to the browser. */
  datatype Delivery = Delivery(fileName: string, fileContentType: string, blobParts: seq<Bytes>)

  /** The configurable numbers of `updateOption`; `url` and `data` are opaque to the logic. */
  datatype Config = Config(chunkSizeByte: nat, maxParallel: nat, maxChunkAutoRetry: nat, firstChunkProgress: int)

  /** The optional fields passed to `updateOption`. */
  datatype DownloadChunksOption = DownloadChunksOption(
    chunkSizeByte: Option<nat>,
    maxParallel: Option<nat>,
    maxChunkAutoRetry: Option<nat>,
    firstChunkProgress: Option<int>)

  datatype DownloadError =
    | NotInitialised        // '先调用updateOption初始化!'
    | ContentRangeNotFound  // 'content-range not found'
    | ProtocolError         // 'chunk protocol error!'
    | InvalidArrayLength    // RangeError of Array.from when the chunk size is 0
    | OptionUndefined       // TypeError reading `this.option.firstChunkProgress` before updateOption

  const UnknownName: string := "未知名称"
  const DefaultContentType: string := "text/plain"
  const ErrorEnvelope: string := "{\"code\""
  const ParseErrorMessage: string := "content json parse error"

  /** `updateOption`: every missing field takes its default (3 MiB, 10, 3 and 10 percent). */
  function MergeOption(o: DownloadChunksOption): (c: Config)
    ensures c.chunkSizeByte == (if o.chunkSizeByte.Some? then o.chunkSizeByte.value else 3 * 1024 * 1024)
    ensures c.maxParallel == (if o.maxParallel.Some? then o.maxParallel.value else 10)
    ensures c.maxChunkAutoRetry == (if o.maxChunkAutoRetry.Some? then o.maxChunkAutoRetry.value else 3)
    ensures c.firstChunkProgress == (if o.firstChunkProgress.Some? then o.firstChunkProgress.value else 10)
  {
    Config(o.chunkSizeByte.GetOr(3 * 1024 * 1024), o.maxParallel.GetOr(10),
           o.maxChunkAutoRetry.GetOr(3), o.firstChunkProgress.GetOr(10))
  }

  /** `checkChunkValid` on the decoded text: a body containing `{"code"` is an error envelope.
      The message is always the parse-error one, because the inner `throw` is caught. */
  function CheckChunkValid(respTxt: string): (r: Outcome<string>)
    ensures r.Raise? <==> exists i :: OccursAt(ErrorEnvelope, respTxt, i)
    ensures r.Raise? ==> r.error == ParseErrorMessage
  {
    if Contains(respTxt, ErrorEnvelope) then Raise(ParseErrorMessage) else Pass
  }

  /** `getChunk` after the transport answered: never throws, every failure is a value. */
  function GetChunkResult(resp: Response): (r: ChunkRet)
    ensures r.Fulfilled? <==> resp.Response? && CheckChunkValid(resp.text).Pass?
    ensures r.Fulfilled? ==> r.chunkData == resp.body && r.chunkHeaders == resp.headers
    ensures resp.NetworkError? ==> r == Rejected(resp.message)
    ensures resp.Response? && r.Rejected? ==> r.reason == ParseErrorMessage
  {
    match resp
    case NetworkError(m) => Rejected(m)
    case Response(body, text, headers) =>
      match CheckChunkValid(text)
      case Raise(e) => Rejected(e)
      case Pass => Fulfilled(body, headers)
  }

  // ---------------------------------------------------------------------------------------
  // The chunk list as a value

  predicate Eligible(c: ChunkInfo) {
    c.status == NotStart || c.status == Fail
  }

  /** The chunks the source keeps consistent: positions are indices, data is held exactly by
      successful chunks. */
  ghost predicate WellFormed(l: seq<ChunkInfo>) {
    && (forall i :: 0 <= i < |l| ==> l[i].index == i)
    && (forall i :: 0 <= i < |l| ==> (l[i].status == Success <==> l[i].chunkData.Some?))
  }

  function CountStatus(l: seq<ChunkInfo>, st: Status): (n: nat)
    ensures n <= |l|
  {
    if l == [] then 0 else CountStatus(l[..|l| - 1], st) + (if l[|l| - 1].status == st then 1 else 0)
  }

  lemma {:induction false} CountStatusUpdate(l: seq<ChunkInfo>, i: nat, c: ChunkInfo, st: Status)
    requires i < |l|
    ensures CountStatus(l[i := c], st)
            == CountStatus(l, st) - (if l[i].status == st then 1 else 0) + (if c.status == st then 1 else 0)
    decreases |l|
  {
    var l' := l[i := c];
    if i == |l| - 1 {
      assert l'[..|l'| - 1] == l[..|l| - 1];
    } else {
      assert l'[..|l'| - 1] == l[..|l| - 1][i := c];
      CountStatusUpdate(l[..|l| - 1], i, c, st);
    }
  }

  lemma {:induction false} CountStatusNone(l: seq<ChunkInfo>, st: Status)
    requires forall i :: 0 <= i < |l| ==> l[i].status != st
    ensures CountStatus(l, st) == 0
    decreases |l|
  {
    if l != [] {
      CountStatusNone(l[..|l| - 1], st);
    }
  }

  lemma {:induction false} CountStatusAll(l: seq<ChunkInfo>, st: Status)
    requires forall i :: 0 <= i < |l| ==> l[i].status == st
    ensures CountStatus(l, st) == |l|
    decreases |l|
  {
    if l != [] {
      CountStatusAll(l[..|l| - 1], st);
    }
  }

  /** The event `emitDownloadRet(status)` sends for the list `l`. */
  function EventOf(status: DownloadStatus, l: seq<ChunkInfo>, fileName: string, fileTotalBytes: nat): DownloadEvent {
    DownloadEvent(status, |l|, CountStatus(l, Success), fileName, fileTotalBytes)
  }

  /** The positions `k..` of the chunks `getNeedChunkInfoList` keeps (`not-start` or `fail`). */
  function NeedFrom(l: seq<ChunkInfo>, k: nat): (r: seq<nat>)
    requires k <= |l|
    ensures forall j :: 0 <= j < |r| ==> k <= r[j] < |l| && Eligible(l[r[j]])
    ensures forall i :: k <= i < |l| && Eligible(l[i]) ==> i in r
    ensures forall j, j' :: 0 <= j < j' < |r| ==> r[j] < r[j']
    decreases |l| - k
  {
    if k == |l| then []
    else if Eligible(l[k]) then [k] + NeedFrom(l, k + 1)
    else NeedFrom(l, k + 1)
  }

  /** `getNeedChunkInfoList()`, as positions. */
  function NeedChunks(l: seq<ChunkInfo>): seq<nat> {
    NeedFrom(l, 0)
  }

  /** `getNeedChunkInfoList().slice(0, maxParallel)`. */
  function Selected(l: seq<ChunkInfo>, maxParallel: nat): seq<nat> {
    var need := NeedChunks(l);
    need[..Min(maxParallel, |need|)]
  }

  /** The selection is the first `maxParallel` eligible chunks in index order: exactly the
      eligible ones, increasing, as many as the pool and the need allow, and no eligible chunk
      is passed over for a later one. */
  lemma SelectedIsFirstEligible(l: seq<ChunkInfo>, maxParallel: nat)
    ensures forall j :: 0 <= j < |Selected(l, maxParallel)| ==>
              Selected(l, maxParallel)[j] < |l| && Eligible(l[Selected(l, maxParallel)[j]])
    ensures forall j, j' :: 0 <= j < j' < |Selected(l, maxParallel)| ==>
              Selected(l, maxParallel)[j] < Selected(l, maxParallel)[j']
    ensures |Selected(l, maxParallel)| == Min(maxParallel, |NeedChunks(l)|)
    ensures |Selected(l, maxParallel)| <= maxParallel
    ensures forall i, j :: 0 <= j < |Selected(l, maxParallel)| && 0 <= i < Selected(l, maxParallel)[j] && Eligible(l[i])
              ==> i in Selected(l, maxParallel)
    ensures |Selected(l, maxParallel)| < maxParallel ==>
              forall i :: 0 <= i < |l| && Eligible(l[i]) ==> i in Selected(l, maxParallel)
  {
    var need := NeedChunks(l);
    var sel := Selected(l, maxParallel);
    forall i, j | 0 <= j < |sel| && 0 <= i < sel[j] && Eligible(l[i])
      ensures i in sel
    {
      var m :| 0 <= m < |need| && need[m] == i;
      assert sel[m] == i;
    }
  }

  /** A chunk picked for a fetch: one more attempt, now in flight. */
  function Start(c: ChunkInfo): ChunkInfo {
    c.(fetchCount := c.fetchCount + 1, status := Fetching)
  }

  /** `l` with every chunk at a position in `sel` started. */
  function StartAll(l: seq<ChunkInfo>, sel: seq<nat>): (r: seq<ChunkInfo>)
    ensures |r| == |l|
  {
    seq(|l|, i requires 0 <= i < |l| => if i in sel then Start(l[i]) else l[i])
  }

  /** Every chunk's controller was created before `n`. */
  ghost predicate TokensBelow(l: seq<ChunkInfo>, n: Token) {
    forall i :: 0 <= i < |l| ==> l[i].token < n
  }

  /** Starting chunks keeps the list well formed, keeps every controller, and counts one more
      attempt on exactly the started chunks. */
  lemma StartAllKeeps(l: seq<ChunkInfo>, sel: seq<nat>, n: Token)
    requires WellFormed(l) && TokensBelow(l, n)
    requires forall j :: 0 <= j < |sel| ==> sel[j] < |l| && Eligible(l[sel[j]])
    ensures WellFormed(StartAll(l, sel)) && TokensBelow(StartAll(l, sel), n)
    ensures forall i :: 0 <= i < |l| ==> StartAll(l, sel)[i].token == l[i].token
  {
    var r := StartAll(l, sel);
    forall i | 0 <= i < |l|
      ensures r[i].index == i && (r[i].status == Success <==> r[i].chunkData.Some?) && r[i].token < n
    {
      if i in sel {
        var j :| 0 <= j < |sel| && sel[j] == i;
        assert Eligible(l[i]);
      }
    }
  }

  /** The request `getChunk` sends for a chunk that goes in flight with the controller `token`:
      the range header, the file hash and the attempt number in the body. */
  function RequestFor(c: ChunkInfo, fileHash: Option<string>, token: Token): Request {
    Request(c.index, c.range, fileHash, token, ChunkMeta(c.fetchCount + 1, c.index, c.range))
  }

  /** The requests `getChunksParallel` sends for the chunks at `sel`, in that order, each with
      the controller the chunk was created with. */
  function RequestsFor(l: seq<ChunkInfo>, sel: seq<nat>, fileHash: Option<string>): (r: seq<Request>)
    requires forall j :: 0 <= j < |sel| ==> sel[j] < |l|
  {
    seq(|sel|, j requires 0 <= j < |sel| => RequestFor(l[sel[j]], fileHash, l[sel[j]].token))
  }

  /** Every request went out with a controller created before `n`. */
  ghost predicate RequestTokensBelow(reqs: seq<Request>, n: Token) {
    forall j :: 0 <= j < |reqs| ==> reqs[j].token < n
  }

  /** The tokens of the chunks that are in flight: what an abort loop cancels. */
  function FetchingTokens(l: seq<ChunkInfo>): (r: set<Token>)
    ensures forall t :: t in r <==> exists i :: 0 <= i < |l| && l[i].status == Fetching && l[i].token == t
  {
    if l == [] then {}
    else
      var last := l[|l| - 1];
      assert forall i :: 0 <= i < |l| - 1 ==> l[..|l| - 1][i] == l[i];
      FetchingTokens(l[..|l| - 1]) + (if last.status == Fetching then {last.token} else {})
  }

  /** What the scan of `chunkParallel` decides: fail the download (a chunk past the retry
      budget comes first), start the chunk at `index` (an eligible chunk comes first), or
      neither. */
  datatype Decision = AbortAll(index: nat) | StartAt(index: nat) | Settled

  predicate Stops(c: ChunkInfo, maxChunkAutoRetry: nat) {
    c.fetchCount > maxChunkAutoRetry || Eligible(c)
  }

  /** The `for (const item of this.chunkInfoList)` scan from position `k` on. */
  function ScanFrom(l: seq<ChunkInfo>, maxChunkAutoRetry: nat, k: nat): (d: Decision)
    requires k <= |l|
    ensures d.AbortAll? ==> k <= d.index < |l| && l[d.index].fetchCount > maxChunkAutoRetry
    ensures d.StartAt? ==> k <= d.index < |l| && Eligible(l[d.index]) && l[d.index].fetchCount <= maxChunkAutoRetry
    ensures !d.Settled? ==> forall j :: k <= j < d.index ==> !Stops(l[j], maxChunkAutoRetry)
    ensures d.Settled? <==> forall j :: k <= j < |l| ==> !Stops(l[j], maxChunkAutoRetry)
    decreases |l| - k
  {
    if k == |l| then Settled
    else if l[k].fetchCount > maxChunkAutoRetry then AbortAll(k)
    else if Eligible(l[k]) then StartAt(k)
    else ScanFrom(l, maxChunkAutoRetry, k + 1)
  }

  predicate AllSettled(l: seq<ChunkInfo>) {
    forall i :: 0 <= i < |l| ==> l[i].status == Success || l[i].status == Fail
  }

  predicate AllSuccess(l: seq<ChunkInfo>) {
    forall i :: 0 <= i < |l| ==> l[i].status == Success
  }

  predicate OverBudget(l: seq<ChunkInfo>, maxChunkAutoRetry: nat) {
    exists i :: 0 <= i < |l| && l[i].fetchCount > maxChunkAutoRetry
  }

  /** When the scan starts nothing, no chunk is `fail`, so "every chunk succeeded or failed"
      already means "every chunk succeeded": the closing `download-fail` is unreachable. */
  lemma SettledMeansNoFailure(l: seq<ChunkInfo>, maxChunkAutoRetry: nat)
    requires ScanFrom(l, maxChunkAutoRetry, 0) == Settled
    ensures AllSettled(l) <==> AllSuccess(l)
    ensures !OverBudget(l, maxChunkAutoRetry)
  {
    forall i | 0 <= i < |l| ensures !Stops(l[i], maxChunkAutoRetry) { }
  }

  /** Once a chunk is past the retry budget the scan never reports the list settled, so the
      transfer can no longer succeed without a new `download()`. */
  lemma OverBudgetNeverSettles(l: seq<ChunkInfo>, maxChunkAutoRetry: nat)
    requires OverBudget(l, maxChunkAutoRetry)
    ensures ScanFrom(l, maxChunkAutoRetry, 0) != Settled
  {
    var i :| 0 <= i < |l| && l[i].fetchCount > maxChunkAutoRetry;
    assert Stops(l[i], maxChunkAutoRetry);
  }

  /** `retry`: only the counts above the budget go back to 0. */
  function ResetOverBudget(l: seq<ChunkInfo>, maxChunkAutoRetry: nat): (r: seq<ChunkInfo>)
  {
    seq(|l|, i requires 0 <= i < |l| => if l[i].fetchCount > maxChunkAutoRetry then l[i].(fetchCount := 0) else l[i])
  }

  /** `retry` clears every broken budget and touches nothing else: a count past the budget
      goes back to 0, every other chunk stays as it was, and no status changes. */
  lemma ResetClearsBudget(l: seq<ChunkInfo>, maxChunkAutoRetry: nat)
    ensures var r := ResetOverBudget(l, maxChunkAutoRetry);
      && |r| == |l|
      && !OverBudget(r, maxChunkAutoRetry)
      && (forall i :: 0 <= i < |l| && l[i].fetchCount > maxChunkAutoRetry ==> r[i] == l[i].(fetchCount := 0))
      && (forall i :: 0 <= i < |l| && l[i].fetchCount <= maxChunkAutoRetry ==> r[i] == l[i])
      && (forall i :: 0 <= i < |l| ==> r[i].status == l[i].status)
  {
  }

  // ---------------------------------------------------------------------------------------
  // The plan

  /** `Math.ceil(total / chunkSize)` for a positive chunk size. */
  function Ceil(total: nat, chunkSize: nat): (n: nat)
    requires chunkSize > 0
  {
    (total + chunkSize - 1) / chunkSize
  }

  lemma CeilBounds(total: nat, chunkSize: nat)
    requires chunkSize > 0
    ensures (Ceil(total, chunkSize) - 1) * chunkSize < total || total == 0
    ensures total <= Ceil(total, chunkSize) * chunkSize
  {
    var n := Ceil(total, chunkSize);
    var q, r := (total + chunkSize - 1) / chunkSize, (total + chunkSize - 1) % chunkSize;
    assert total + chunkSize - 1 == q * chunkSize + r;
  }

  /** The probe chunk as `download` first stores it: `0-chunkSize`, in flight. */
  function ProbeChunk(token: Token, chunkSize: nat): ChunkInfo {
    ChunkInfo(token, ByteRange(0, chunkSize), None, 0, 0, Fetching)
  }

  function ProbeRequest(token: Token, chunkSize: nat): Request {
    Request(0, ByteRange(0, chunkSize), None, token, OptionData)
  }

  /** `Math.ceil(totalBytes / chunkSizeByte) - 1` as an array length: 0 when it is negative
      or not a number (a zero chunk size with nothing to download). */
  function BodyLength(chunkSize: nat, total: nat): nat {
    if chunkSize == 0 || Ceil(total, chunkSize) == 0 then 0 else Ceil(total, chunkSize) - 1
  }

  /** The range of chunk `k >= 1`: `k*cs+1` to `(k+1)*cs`, the last one cut at `total`. */
  function BodyRange(chunkSize: nat, total: nat, k: nat): ByteRange {
    ByteRange(k * chunkSize + 1, if (k + 1) * chunkSize >= total then total else (k + 1) * chunkSize)
  }

  /** The chunks `Array.from` builds after the probe, with fresh controllers `token..`. */
  function BodyChunks(chunkSize: nat, total: nat, token: Token): (r: seq<ChunkInfo>)
    ensures |r| == BodyLength(chunkSize, total)
  {
    seq(BodyLength(chunkSize, total), idx requires 0 <= idx =>
      ChunkInfo(token + idx, BodyRange(chunkSize, total, idx + 1), None, idx + 1, 0, NotStart))
  }

  /** The plan is well formed: chunk 0 is `0-cs`, chunk k covers `[k*cs+1, min((k+1)*cs, total)]`,
      there are `ceil(total/cs)` chunks, each at its own index, every range is non-empty, the
      ranges follow one another without gap or overlap, and the last one ends at `total`. */
  lemma {:induction false} PlanWellFormed(probe: ChunkInfo, chunkSize: nat, total: nat, token: Token)
    requires chunkSize > 0 && total > chunkSize
    requires probe.range == ByteRange(0, chunkSize) && probe.index == 0
    ensures var full := [probe] + BodyChunks(chunkSize, total, token);
      && |full| == Ceil(total, chunkSize)
      && (forall k :: 0 <= k < |full| ==> full[k].index == k)
      && (forall k :: 1 <= k < |full| ==> full[k].range == BodyRange(chunkSize, total, k))
      && (forall k :: 0 <= k < |full| ==> full[k].range.first <= full[k].range.last)
      && (forall k :: 0 < k < |full| ==> full[k].range.first == full[k - 1].range.last + 1)
      && full[|full| - 1].range.last == total
  {
    var full := [probe] + BodyChunks(chunkSize, total, token);
    var n := Ceil(total, chunkSize);
    CeilBounds(total, chunkSize);
    assert n >= 2;
    forall k | 1 <= k < |full|
      ensures full[k].range == BodyRange(chunkSize, total, k)
      ensures full[k].range.first <= full[k].range.last
      ensures full[k].range.first == full[k - 1].range.last + 1
    {
      assert full[k] == BodyChunks(chunkSize, total, token)[k - 1];
      assert k * chunkSize < total by {
        assert k <= n - 1;
        MulMono(k, n - 1, chunkSize);
      }
      if k > 1 {
        assert k * chunkSize < total;
      }
    }
    assert (n - 1 + 1) * chunkSize >= total;
  }

  lemma MulMono(a: nat, b: nat, c: nat)
    requires a <= b
    ensures a * c <= b * c
  {
  }

  /** Every position `b <= total` falls in exactly one range of the plan, that of chunk `k`.
      The file's bytes are `0..total-1`: position `total` is one past them, and a last range
      only ending there is clipped by the server, but see `PlanOverrunsFile`. */
  lemma {:induction false} PlanCovers(probe: ChunkInfo, chunkSize: nat, total: nat, token: Token, b: nat)
    returns (k: nat)
    requires chunkSize > 0 && total > chunkSize && b <= total
    requires probe.range == ByteRange(0, chunkSize) && probe.index == 0
    ensures var full := [probe] + BodyChunks(chunkSize, total, token);
      && k < |full| && full[k].range.first <= b <= full[k].range.last
      && forall k' :: 0 <= k' < |full| && k' != k ==> !(full[k'].range.first <= b <= full[k'].range.last)
  {
    var full := [probe] + BodyChunks(chunkSize, total, token);
    PlanWellFormed(probe, chunkSize, total, token);
    k := CoveringChunk(full, b, |full| - 1);
    forall k' | 0 <= k' < |full| && k' != k
      ensures !(full[k'].range.first <= b <= full[k'].range.last)
    {
      if k' < k {
        RangesIncrease(full, k', k);
      } else {
        RangesIncrease(full, k, k');
      }
    }
  }

  lemma {:induction false} RangesIncrease(l: seq<ChunkInfo>, i: nat, j: nat)
    requires i < j < |l|
    requires forall k :: 0 <= k < |l| ==> l[k].range.first <= l[k].range.last
    requires forall k :: 0 < k < |l| ==> l[k].range.first == l[k - 1].range.last + 1
    ensures l[i].range.last < l[j].range.first
    decreases j - i
  {
    if j > i + 1 {
      RangesIncrease(l, i, j - 1);
    }
  }

  lemma {:induction false} CoveringChunk(l: seq<ChunkInfo>, b: nat, top: nat) returns (k: nat)
    requires top < |l| && l[0].range.first == 0 && b <= l[top].range.last
    requires forall k :: 0 < k < |l| ==> l[k].range.first == l[k - 1].range.last + 1
    ensures k <= top && l[k].range.first <= b <= l[k].range.last
    decreases top
  {
    if top == 0 || l[top].range.first <= b {
      k := top;
    } else {
      k := CoveringChunk(l, b, top - 1);
    }
  }

  /** As written, when `total` is one more than a multiple `q * chunkSize` of the chunk size
      (2049 bytes in 1 KiB chunks, say), the last range is `total-total`: it starts past the
      file's last byte `total - 1`, so section 14.1.2 of RFC 9110 makes it unsatisfiable. */
  lemma {:induction false} PlanOverrunsFile(chunkSize: nat, q: nat, token: Token)
    requires chunkSize > 0 && q >= 1
    ensures var total := q * chunkSize + 1;
      var body := BodyChunks(chunkSize, total, token);
      && |body| == q
      && body[q - 1].range == ByteRange(total, total)
  {
    var total := q * chunkSize + 1;
    assert total + chunkSize - 1 == (q + 1) * chunkSize;
    DivExact(q + 1, chunkSize);
    assert Ceil(total, chunkSize) == q + 1;
    assert (q + 1) * chunkSize >= total;
  }

  lemma DivExact(a: nat, c: nat)
    requires c > 0
    ensures (a * c) / c == a
  {
    var d, m := (a * c) / c, (a * c) % c;
    assert a * c == d * c + m && 0 <= m < c;
    assert (a - d) * c == m;
    MulAwayFromZero(a - d, c);
  }

  /** A non-zero multiple of `c` is at least `c` away from zero. */
  lemma MulAwayFromZero(x: int, c: nat)
    ensures x >= 1 ==> x * c >= c
    ensures x <= -1 ==> x * c + c <= 0
  {
    if x >= 1 {
      MulMono(1, x, c);
    }
    if x <= -1 {
      MulMono(1, -x, c);
    }
  }

  /** The corrected body: the same ranges, but the count taken over the file's last byte
      `total - 1` and every range cut there. */
  function FixedBodyLength(chunkSize: nat, total: nat): nat {
    if chunkSize == 0 || total <= 1 || Ceil(total - 1, chunkSize) == 0 then 0 else Ceil(total - 1, chunkSize) - 1
  }

  function FixedRange(chunkSize: nat, total: nat, k: nat): ByteRange
    requires total > 0
  {
    ByteRange(k * chunkSize + 1, if (k + 1) * chunkSize >= total - 1 then total - 1 else (k + 1) * chunkSize)
  }

  function FixedBodyChunks(chunkSize: nat, total: nat, token: Token): (r: seq<ChunkInfo>)
    requires total > 0
    ensures |r| == FixedBodyLength(chunkSize, total)
  {
    seq(FixedBodyLength(chunkSize, total), idx requires 0 <= idx =>
      ChunkInfo(token + idx, FixedRange(chunkSize, total, idx + 1), None, idx + 1, 0, NotStart))
  }

  /** The corrected plan asks for every byte of the file once and for nothing past it: the
      ranges are non-empty, each starts one after the previous one ends, all lie below
      `total`, and the last ends at `total - 1`. */
  lemma {:induction false} FixedPlanExact(probe: ChunkInfo, chunkSize: nat, total: nat, token: Token)
    requires 0 < chunkSize < total
    requires probe.range == ByteRange(0, chunkSize) && probe.index == 0
    ensures var full := [probe] + FixedBodyChunks(chunkSize, total, token);
      && |full| == Ceil(total - 1, chunkSize)
      && (forall k :: 0 <= k < |full| ==> full[k].index == k)
      && (forall k :: 0 <= k < |full| ==> full[k].range.first <= full[k].range.last < total)
      && (forall k :: 0 < k < |full| ==> full[k].range.first == full[k - 1].range.last + 1)
      && full[|full| - 1].range.last == total - 1
  {
    var full := [probe] + FixedBodyChunks(chunkSize, total, token);
    var n := Ceil(total - 1, chunkSize);
    CeilBounds(total - 1, chunkSize);
    assert |full| == n;
    forall k | 1 <= k < |full|
      ensures full[k].range == FixedRange(chunkSize, total, k)
    {
      assert full[k] == FixedBodyChunks(chunkSize, total, token)[k - 1];
    }
    forall k | 1 <= k < |full|
      ensures full[k].range.first <= full[k].range.last < total
      ensures full[k].range.first == full[k - 1].range.last + 1
    {
      FixedRangeAt(chunkSize, total, k);
      if k > 1 {
        FixedRangeAt(chunkSize, total, k - 1);
      }
    }
    if n > 1 {
      FixedRangeAt(chunkSize, total, n - 1);
    }
  }

  /** Range `k >= 1` of the corrected plan starts right after byte `k * chunkSize`, lies
      below `total`, and ends either where range `k + 1` starts or at `total - 1`. */
  lemma FixedRangeAt(chunkSize: nat, total: nat, k: nat)
    requires 0 < chunkSize < total && 1 <= k < Ceil(total - 1, chunkSize)
    ensures var r := FixedRange(chunkSize, total, k);
      && r.first == k * chunkSize + 1
      && r.first <= r.last < total
      && (k + 1 < Ceil(total - 1, chunkSize) ==> r.last == (k + 1) * chunkSize)
      && (k + 1 == Ceil(total - 1, chunkSize) ==> r.last == total - 1)
  {
    var n := Ceil(total - 1, chunkSize);
    CeilBounds(total - 1, chunkSize);
    MulMono(k, n - 1, chunkSize);
    assert (k + 1) * chunkSize == k * chunkSize + chunkSize;
    if k + 1 < n {
      MulMono(k + 1, n - 1, chunkSize);
    }
  }

  /** Every byte `b < total` of the file falls in exactly one range of the corrected plan. */
  lemma {:induction false} FixedPlanCovers(probe: ChunkInfo, chunkSize: nat, total: nat, token: Token, b: nat)
    returns (k: nat)
    requires 0 < chunkSize < total && b < total
    requires probe.range == ByteRange(0, chunkSize) && probe.index == 0
    ensures var full := [probe] + FixedBodyChunks(chunkSize, total, token);
      && k < |full| && full[k].range.first <= b <= full[k].range.last
      && forall k' :: 0 <= k' < |full| && k' != k ==> !(full[k'].range.first <= b <= full[k'].range.last)
  {
    var full := [probe] + FixedBodyChunks(chunkSize, total, token);
    FixedPlanExact(probe, chunkSize, total, token);
    k := CoveringChunk(full, b, |full| - 1);
    forall k' | 0 <= k' < |full| && k' != k
      ensures !(full[k'].range.first <= b <= full[k'].range.last)
    {
      if k' < k {
        RangesIncrease(full, k', k);
      } else {
        RangesIncrease(full, k, k');
      }
    }
  }

  // ---------------------------------------------------------------------------------------
  // The collection of the parts in index order

  /** The `for` loop of `chunkParallel` that collects `blobParts`, with its "not reach" guard. */
  method CollectParts(l: seq<ChunkInfo>) returns (r: Result<seq<Bytes>, string>)
    ensures r.Ok? <==> forall i :: 0 <= i < |l| ==> l[i].chunkData.Some?
    ensures r.Ok? ==> |r.value| == |l| && forall i :: 0 <= i < |l| ==> r.value[i] == l[i].chunkData.value
  {
    var parts: seq<Bytes> := [];
    var k := 0;
    while k < |l|
      invariant 0 <= k <= |l|
      invariant forall i :: 0 <= i < k ==> l[i].chunkData.Some?
      invariant |parts| == k && forall i :: 0 <= i < k ==> parts[i] == l[i].chunkData.value
    {
      if l[k].chunkData.None? {
        return Err("服务异常：not reach");
      }
      parts := parts + [l[k].chunkData.value];
      k := k + 1;
    }
    r := Ok(parts);
  }

  /** The `forEach` of `getChunksParallel` over the selected chunks: each one gets one more
      attempt, goes in flight and is requested with the controller it was created with. */
  method StartChunks(l: seq<ChunkInfo>, sel: seq<nat>, fileHash: Option<string>)
    returns (r: seq<ChunkInfo>, reqs: seq<Request>)
    requires forall i :: 0 <= i < |l| ==> l[i].index == i
    requires forall j :: 0 <= j < |sel| ==> sel[j] < |l| && Eligible(l[sel[j]])
    requires forall j, j' :: 0 <= j < j' < |sel| ==> sel[j] < sel[j']
    ensures r == StartAll(l, sel)
    ensures reqs == RequestsFor(l, sel, fileHash)
    ensures CountStatus(r, Fetching) == CountStatus(l, Fetching) + |sel|
    ensures CountStatus(r, Success) == CountStatus(l, Success)
  {
    r, reqs := l, [];
    var j := 0;
    while j < |sel|
      invariant 0 <= j <= |sel|
      invariant StartedPrefix(l, sel, fileHash, j, r, reqs)
    {
      var i := sel[j];
      var item := r[i];
      StartStep(l, sel, fileHash, j, r, reqs);
      r := r[i := Start(item)];
      reqs := reqs + [RequestFor(item, fileHash, item.token)];
      j := j + 1;
    }
    StartedAll(l, sel, fileHash, r, reqs);
  }

  /** What the `forEach` of `StartChunks` has done after the first `j` selected chunks. */
  ghost predicate StartedPrefix(l: seq<ChunkInfo>, sel: seq<nat>, fileHash: Option<string>, j: nat, r: seq<ChunkInfo>, reqs: seq<Request>)
    requires j <= |sel| && forall k :: 0 <= k < |sel| ==> sel[k] < |l|
  {
    && |r| == |l|
    && (forall i :: 0 <= i < |l| ==> r[i] == if i in sel[..j] then Start(l[i]) else l[i])
    && |reqs| == j && (forall m :: 0 <= m < j ==> reqs[m] == RequestFor(l[sel[m]], fileHash, l[sel[m]].token))
    && CountStatus(r, Fetching) == CountStatus(l, Fetching) + j
    && CountStatus(r, Success) == CountStatus(l, Success)
  }

  lemma StartStep(l: seq<ChunkInfo>, sel: seq<nat>, fileHash: Option<string>, j: nat, r: seq<ChunkInfo>, reqs: seq<Request>)
    requires forall j :: 0 <= j < |sel| ==> sel[j] < |l| && Eligible(l[sel[j]])
    requires forall j, j' :: 0 <= j < j' < |sel| ==> sel[j] < sel[j']
    requires j < |sel| && StartedPrefix(l, sel, fileHash, j, r, reqs)
    ensures var i := sel[j];
      && r[i] == l[i]
      && StartedPrefix(l, sel, fileHash, j + 1, r[i := Start(r[i])], reqs + [RequestFor(r[i], fileHash, r[i].token)])
  {
    var i := sel[j];
    assert i !in sel[..j];
    var item := r[i];
    assert item == l[i];
    CountStatusUpdate(r, i, Start(item), Fetching);
    CountStatusUpdate(r, i, Start(item), Success);
    assert sel[..j + 1] == sel[..j] + [i];
  }

  lemma StartedAll(l: seq<ChunkInfo>, sel: seq<nat>, fileHash: Option<string>, r: seq<ChunkInfo>, reqs: seq<Request>)
    requires forall j :: 0 <= j < |sel| ==> sel[j] < |l|
    requires StartedPrefix(l, sel, fileHash, |sel|, r, reqs)
    ensures r == StartAll(l, sel) && reqs == RequestsFor(l, sel, fileHash)
    ensures CountStatus(r, Fetching) == CountStatus(l, Fetching) + |sel|
    ensures CountStatus(r, Success) == CountStatus(l, Success)
  {
    assert sel[..|sel|] == sel;
  }

  /** The scan of `chunkParallel`, which stops at the first chunk past the retry budget or
      eligible for a fetch. */
  method Scan(l: seq<ChunkInfo>, maxChunkAutoRetry: nat) returns (d: Decision)
    ensures d == ScanFrom(l, maxChunkAutoRetry, 0)
  {
    var k := 0;
    while k < |l|
      invariant 0 <= k <= |l|
      invariant ScanFrom(l, maxChunkAutoRetry, k) == ScanFrom(l, maxChunkAutoRetry, 0)
    {
      var item := l[k];
      if item.fetchCount > maxChunkAutoRetry {
        return AbortAll(k);
      }
      if item.status == NotStart || item.status == Fail {
        return StartAt(k);
      }
      k := k + 1;
    }
    d := Settled;
  }

  /** The chunk after its completion: the data of a fulfilled fetch, `fail` otherwise. */
  function Completed(c: ChunkInfo, ret: ChunkRet): (r: ChunkInfo)
    ensures r.status == (if ret.Fulfilled? then Success else Fail)
    ensures r.chunkData == (if ret.Fulfilled? then Some(ret.chunkData) else c.chunkData)
    ensures r.token == c.token && r.range == c.range && r.index == c.index && r.fetchCount == c.fetchCount
  {
    if ret.Fulfilled? then c.(chunkData := Some(ret.chunkData), status := Success) else c.(status := Fail)
  }

  /** Recording a completion keeps the list well formed and every controller, moves one chunk
      out of `fetching`, never loses a success, and keeps a broken retry budget broken. */
  lemma CompletedKeeps(l: seq<ChunkInfo>, i: nat, ret: ChunkRet, n: Token, max: nat)
    requires WellFormed(l) && TokensBelow(l, n) && i < |l| && l[i].status == Fetching
    ensures var m := l[i := Completed(l[i], ret)];
      && WellFormed(m) && TokensBelow(m, n)
      && CountStatus(m, Fetching) + 1 == CountStatus(l, Fetching)
      && CountStatus(m, Success) >= CountStatus(l, Success)
      && (OverBudget(l, max) ==> OverBudget(m, max))
  {
    var m := l[i := Completed(l[i], ret)];
    CountStatusUpdate(l, i, m[i], Fetching);
    CountStatusUpdate(l, i, m[i], Success);
    if OverBudget(l, max) {
      var j :| 0 <= j < |l| && l[j].fetchCount > max;
      assert m[j].fetchCount > max;
    }
  }

  /** The data of every chunk, in index order. */
  function PartsOf(l: seq<ChunkInfo>): (r: seq<Bytes>)
    requires forall i :: 0 <= i < |l| ==> l[i].chunkData.Some?
  {
    seq(|l|, k requires 0 <= k < |l| => l[k].chunkData.value)
  }

  // ---------------------------------------------------------------------------------------
  // The downloader as a value: every method of the class is one of these transitions

  /** Everything a `ChunksDownload` holds, together with what it has sent out so far. */
  datatype Snapshot = Snapshot(
    terminated: bool,
    chunkInfoList: seq<ChunkInfo>,
    fileName: string,
    fileContentType: Option<string>,
    fileHash: Option<string>,
    fileTotalBytes: nat,
    option: Option<Config>,
    nextToken: Token,            // controllers created so far
    aborted: set<Token>,         // controllers aborted so far
    events: seq<DownloadEvent>,  // events emitted so far
    requests: seq<Request>,      // `getChunk` calls so far
    deliveries: seq<Delivery>)   // `downloadBlobParts` calls so far

  /** What every reachable state satisfies. */
  ghost predicate Consistent(s: Snapshot) {
    && WellFormed(s.chunkInfoList)
    && TokensBelow(s.chunkInfoList, s.nextToken)
    && RequestTokensBelow(s.requests, s.nextToken)
    && (s.chunkInfoList != [] ==> s.option.Some?)
    && (!s.terminated ==> s.option.Some?)
  }

  /** `emitDownloadRet`: an event with the counts of the current list; every status but
      `chunk-progress` ends the transfer. */
  function Emit(s: Snapshot, status: DownloadStatus): Snapshot {
    s.(events := s.events + [EventOf(status, s.chunkInfoList, s.fileName, s.fileTotalBytes)],
       terminated := s.terminated || status != ChunkProgress)
  }

  /** `getChunksParallel`. */
  function Launched(s: Snapshot): Snapshot
    requires !s.terminated ==> s.option.Some?
  {
    if s.terminated then s
    else
      var l := s.chunkInfoList;
      var sel := Selected(l, s.option.value.maxParallel);
      SelectedIsFirstEligible(l, s.option.value.maxParallel);
      s.(chunkInfoList := StartAll(l, sel), requests := s.requests + RequestsFor(l, sel, s.fileHash))
  }

  /** The first half of `chunkParallel`: the chunk records its outcome, then a progress event. */
  function Recorded(s: Snapshot, chunkIndex: nat, ret: ChunkRet): Snapshot
    requires chunkIndex < |s.chunkInfoList|
  {
    var l := s.chunkInfoList;
    Emit(s.(chunkInfoList := l[chunkIndex := Completed(l[chunkIndex], ret)]), ChunkProgress)
  }

  /** The scan of `chunkParallel`: abort everything once a chunk is past the budget, else start
      the first eligible chunk (a retry with a fresh controller the chunk does not keep), else,
      when every chunk has settled, deliver or fail. */
  function Scanned(s: Snapshot): Snapshot
    requires s.option.Some? && WellFormed(s.chunkInfoList)
  {
    var l := s.chunkInfoList;
    match ScanFrom(l, s.option.value.maxChunkAutoRetry, 0)
    case AbortAll(_) => Emit(s.(aborted := s.aborted + FetchingTokens(l)), DownloadFail)
    case StartAt(i) =>
      var c := l[i];
      var retry := c.status != NotStart;
      s.(chunkInfoList := l[i := Start(c)],
         requests := s.requests + [RequestFor(c, s.fileHash, if retry then s.nextToken else c.token)],
         nextToken := s.nextToken + (if retry then 1 else 0))
    case Settled =>
      if !AllSettled(l) then s
      else if AllSuccess(l) then
        Emit(s.(deliveries := s.deliveries + [Delivery(s.fileName, s.fileContentType.GetOr(DefaultContentType), PartsOf(l))]),
             DownloadSuccess)
      else Emit(s, DownloadFail)
  }

  /** `chunkParallel`: ignored once the transfer has ended. */
  function Completion(s: Snapshot, chunkIndex: nat, ret: ChunkRet): Snapshot
    requires Consistent(s)
    requires !s.terminated ==> chunkIndex < |s.chunkInfoList| && s.chunkInfoList[chunkIndex].status == Fetching
  {
    if s.terminated then s
    else
      CompletedKeeps(s.chunkInfoList, chunkIndex, ret, s.nextToken, s.option.value.maxChunkAutoRetry);
      Scanned(Recorded(s, chunkIndex, ret))
  }

  /** `retry`: after the transfer ended, the counts above the budget go back to 0 and the pool
      is asked to start again. */
  function Retried(s: Snapshot): Snapshot
    requires Consistent(s)
  {
    if !s.terminated then s
    else
      // An empty list (the only one possible before `updateOption`) never reads the option.
      var max := if s.option.Some? then s.option.value.maxChunkAutoRetry else 0;
      Launched(s.(chunkInfoList := ResetOverBudget(s.chunkInfoList, max)))
  }

  /** `terminate`: the names are cleared and the controllers of the chunks in flight aborted;
      the event then needs the option, without which the call throws. */
  function Stopped(s: Snapshot): (Snapshot, Outcome<DownloadError>) {
    var s1 := s.(fileName := "", fileContentType := Some(""), aborted := s.aborted + FetchingTokens(s.chunkInfoList));
    if s1.option.None? then (s1, Raise(OptionUndefined)) else (Emit(s1, Terminate), Pass)
  }

  /** The synchronous start of `download`: a progress event with the old list, then chunk 0
      `0-chunkSize` in flight with a fresh controller, and its request. */
  function ProbeSent(s: Snapshot): Snapshot
    requires s.option.Some?
  {
    var cs := s.option.value.chunkSizeByte;
    var t0 := s.nextToken;
    var s1 := Emit(s.(terminated := false, nextToken := t0 + 1), ChunkProgress);
    s1.(chunkInfoList := [ProbeChunk(t0, cs)], requests := s1.requests + [ProbeRequest(t0, cs)])
  }

  /** The probe succeeded: chunk 0 holds the data, and the headers give the name (with its
      default), the type and the hash. */
  function ProbeAnswered(s: Snapshot, data: Bytes, h: Headers): Snapshot
    requires |s.chunkInfoList| == 1
  {
    s.(chunkInfoList := [s.chunkInfoList[0].(chunkData := Some(data), status := Success)],
       fileName := h.fileName.GetOr(UnknownName), fileContentType := h.contentType, fileHash := h.fileHash)
  }

  /** The size is known: a file that fits the probe is delivered at once (the branch does not
      return, the plan below is then empty), a zero chunk size with data left is an invalid
      array length, and otherwise the plan is appended and the pool started. */
  function Planned(s: Snapshot, data: Bytes, total: nat): (Snapshot, Outcome<DownloadError>)
    requires s.option.Some?
  {
    var cs := s.option.value.chunkSizeByte;
    var s4 := s.(fileTotalBytes := total);
    var s5 := if total <= cs then
                Emit(s4.(deliveries := s4.deliveries + [Delivery(s4.fileName, s4.fileContentType.GetOr(DefaultContentType), [data])]),
                     DownloadSuccess)
              else s4;
    if cs == 0 && total > 0 then (s5, Raise(InvalidArrayLength))
    else
      (Launched(WithBody(s5, cs, total)), Pass)
  }

  /** The body chunks appended to the list, with the tokens of their controllers. */
  function WithBody(s: Snapshot, cs: nat, total: nat): Snapshot {
    s.(chunkInfoList := s.chunkInfoList + BodyChunks(cs, total, s.nextToken),
       nextToken := s.nextToken + BodyLength(cs, total))
  }

  /** `download`, with the answer to the probe given. */
  function Downloaded(s: Snapshot, probe: ChunkRet): (Snapshot, Outcome<DownloadError>) {
    if s.option.None? then (s, Raise(NotInitialised))
    else if !s.terminated then (s, Pass)
    else
      var s2 := ProbeSent(s);
      match probe
      case Rejected(_) => (Emit(s2, DownloadFail), Pass)
      case Fulfilled(data, h) =>
        var s3 := ProbeAnswered(s2, data, h);
        if h.contentRange.None? || h.contentRange.value == "" then (s3, Raise(ContentRangeNotFound))
        else
          match ParseContentRange(h.contentRange.value)
          case None => (s3, Raise(ProtocolError))
          case Some(cr) => Planned(s3, data, cr.total)
  }

  // ---------------------------------------------------------------------------------------
  // What the transitions promise

  lemma BodyChunksKeep(cs: nat, total: nat, t: Token)
    ensures var b := BodyChunks(cs, total, t);
      && TokensBelow(b, t + |b|)
      && (forall k :: 0 <= k < |b| ==> b[k].index == k + 1 && b[k].status == NotStart && b[k].chunkData.None?)
  {
  }

  lemma LaunchedConsistent(s: Snapshot)
    requires Consistent(s)
    ensures Consistent(Launched(s))
  {
    if !s.terminated {
      var l := s.chunkInfoList;
      var sel := Selected(l, s.option.value.maxParallel);
      SelectedIsFirstEligible(l, s.option.value.maxParallel);
      StartAllKeeps(l, sel, s.nextToken);
      RequestsForBelow(l, sel, s.fileHash, s.nextToken);
      RequestTokensBelowConcat(s.requests, RequestsFor(l, sel, s.fileHash), s.nextToken);
    }
  }

  lemma RequestsForBelow(l: seq<ChunkInfo>, sel: seq<nat>, fileHash: Option<string>, n: Token)
    requires TokensBelow(l, n) && forall j :: 0 <= j < |sel| ==> sel[j] < |l|
    ensures RequestTokensBelow(RequestsFor(l, sel, fileHash), n)
  {
  }

  lemma RequestTokensBelowConcat(a: seq<Request>, b: seq<Request>, n: Token)
    requires RequestTokensBelow(a, n) && RequestTokensBelow(b, n)
    ensures RequestTokensBelow(a + b, n)
  {
    forall j | 0 <= j < |a + b| ensures (a + b)[j].token < n {
      if j >= |a| {
        assert (a + b)[j] == b[j - |a|];
      }
    }
  }

  /** Appending the plan to a well-formed one-chunk list keeps the state consistent. */
  lemma AppendPlanConsistent(s: Snapshot, cs: nat, total: nat)
    requires Consistent(s) && |s.chunkInfoList| == 1 && s.chunkInfoList[0].index == 0
    ensures Consistent(s.(chunkInfoList := s.chunkInfoList + BodyChunks(cs, total, s.nextToken),
                          nextToken := s.nextToken + BodyLength(cs, total)))
  {
    var b := BodyChunks(cs, total, s.nextToken);
    BodyChunksKeep(cs, total, s.nextToken);
    var s6 := s.(chunkInfoList := s.chunkInfoList + b, nextToken := s.nextToken + |b|);
    forall i | 0 <= i < |s6.chunkInfoList|
      ensures s6.chunkInfoList[i].index == i && s6.chunkInfoList[i].token < s6.nextToken
      ensures s6.chunkInfoList[i].status == Success <==> s6.chunkInfoList[i].chunkData.Some?
    {
      if i > 0 {
        assert s6.chunkInfoList[i] == b[i - 1];
      }
    }
  }

  lemma PlannedConsistent(s: Snapshot, data: Bytes, total: nat)
    requires Consistent(s) && s.option.Some? && !s.terminated
    requires |s.chunkInfoList| == 1 && s.chunkInfoList[0].index == 0
    ensures Consistent(Planned(s, data, total).0)
  {
    var cs := s.option.value.chunkSizeByte;
    if !(cs == 0 && total > 0) {
      var s4 := s.(fileTotalBytes := total);
      var s5 := if total <= cs then
                  Emit(s4.(deliveries := s4.deliveries + [Delivery(s4.fileName, s4.fileContentType.GetOr(DefaultContentType), [data])]),
                       DownloadSuccess)
                else s4;
      AppendPlanConsistent(s5, cs, total);
      LaunchedConsistent(s5.(chunkInfoList := s5.chunkInfoList + BodyChunks(cs, total, s5.nextToken),
                             nextToken := s5.nextToken + BodyLength(cs, total)));
    }
  }

  /** `download` keeps the state consistent. */
  lemma DownloadedConsistent(s: Snapshot, probe: ChunkRet)
    requires Consistent(s)
    ensures Consistent(Downloaded(s, probe).0)
  {
    if s.option.Some? && s.terminated && probe.Fulfilled? {
      var s3 := ProbeAnswered(ProbeSent(s), probe.chunkData, probe.chunkHeaders);
      var h := probe.chunkHeaders;
      if h.contentRange.Some? && h.contentRange.value != "" && ParseContentRange(h.contentRange.value).Some? {
        PlannedConsistent(s3, probe.chunkData, ParseContentRange(h.contentRange.value).value.total);
      }
    }
  }

  /** Starting the selected chunks puts exactly `|sel|` more chunks in flight. */
  lemma {:induction false} StartAllCount(l: seq<ChunkInfo>, sel: seq<nat>)
    requires forall j :: 0 <= j < |sel| ==> sel[j] < |l| && Eligible(l[sel[j]])
    requires forall j, j' :: 0 <= j < j' < |sel| ==> sel[j] < sel[j']
    ensures CountStatus(StartAll(l, sel), Fetching) == CountStatus(l, Fetching) + |sel|
    ensures CountStatus(StartAll(l, sel), Success) == CountStatus(l, Success)
    decreases |sel|
  {
    if sel != [] {
      var m := |sel| - 1;
      var front := sel[..m];
      var i := sel[m];
      StartAllCount(l, front);
      var before := StartAll(l, front);
      assert i !in front by {
        forall j | 0 <= j < m ensures front[j] != i { assert sel[j] < sel[m]; }
      }
      assert before[i] == l[i];
      assert StartAll(l, sel) == before[i := Start(l[i])] by {
        forall k | 0 <= k < |l| ensures StartAll(l, sel)[k] == before[i := Start(l[i])][k] {
          assert (k in sel) <==> (k in front || k == i) by {
            assert sel == front + [i];
          }
        }
      }
      CountStatusUpdate(before, i, Start(l[i]), Fetching);
      CountStatusUpdate(before, i, Start(l[i]), Success);
    } else {
      assert StartAll(l, sel) == l;
    }
  }

  lemma ScannedConsistent(s: Snapshot)
    requires Consistent(s) && s.option.Some?
    ensures Consistent(Scanned(s))
  {
    var l := s.chunkInfoList;
    var d := ScanFrom(l, s.option.value.maxChunkAutoRetry, 0);
    if d.StartAt? {
      StartAllKeeps(l, [d.index], s.nextToken + 1);
      assert StartAll(l, [d.index]) == l[d.index := Start(l[d.index])];
    }
  }

  /** `chunkParallel` keeps the state consistent. */
  lemma CompletionConsistent(s: Snapshot, chunkIndex: nat, ret: ChunkRet)
    requires Consistent(s)
    requires !s.terminated ==> chunkIndex < |s.chunkInfoList| && s.chunkInfoList[chunkIndex].status == Fetching
    ensures Consistent(Completion(s, chunkIndex, ret))
  {
    if !s.terminated {
      CompletedKeeps(s.chunkInfoList, chunkIndex, ret, s.nextToken, s.option.value.maxChunkAutoRetry);
      ScannedConsistent(Recorded(s, chunkIndex, ret));
    }
  }

  /** The scan starts at most one chunk, sends at most one request and only appends events. */
  lemma ScannedBounds(m: Snapshot)
    requires m.option.Some? && WellFormed(m.chunkInfoList)
    ensures var r := Scanned(m);
      && |r.chunkInfoList| == |m.chunkInfoList|
      && CountStatus(r.chunkInfoList, Fetching) <= CountStatus(m.chunkInfoList, Fetching) + 1
      && CountStatus(r.chunkInfoList, Success) == CountStatus(m.chunkInfoList, Success)
      && |m.requests| <= |r.requests| <= |m.requests| + 1 && r.requests[..|m.requests|] == m.requests
      && |m.events| <= |r.events| && r.events[..|m.events|] == m.events
  {
    var l := m.chunkInfoList;
    var d := ScanFrom(l, m.option.value.maxChunkAutoRetry, 0);
    if d.StartAt? {
      CountStatusUpdate(l, d.index, Start(l[d.index]), Fetching);
      CountStatusUpdate(l, d.index, Start(l[d.index]), Success);
    }
  }

  /** Every completion starts at most one replacement: the pool never grows, no success is
      lost, at most one request goes out, and events are only appended. */
  lemma CompletionBoundsPool(s: Snapshot, chunkIndex: nat, ret: ChunkRet)
    requires Consistent(s)
    requires !s.terminated ==> chunkIndex < |s.chunkInfoList| && s.chunkInfoList[chunkIndex].status == Fetching
    ensures var r := Completion(s, chunkIndex, ret);
      && |r.chunkInfoList| == |s.chunkInfoList|
      && CountStatus(r.chunkInfoList, Fetching) <= CountStatus(s.chunkInfoList, Fetching)
      && CountStatus(r.chunkInfoList, Success) >= CountStatus(s.chunkInfoList, Success)
      && |s.requests| <= |r.requests| <= |s.requests| + 1 && r.requests[..|s.requests|] == s.requests
      && |s.events| <= |r.events| && r.events[..|s.events|] == s.events
  {
    if !s.terminated {
      CompletedKeeps(s.chunkInfoList, chunkIndex, ret, s.nextToken, s.option.value.maxChunkAutoRetry);
      var m := Recorded(s, chunkIndex, ret);
      ScannedBounds(m);
      var r := Scanned(m);
      assert r.events[..|s.events|] == r.events[..|m.events|][..|s.events|];
    }
  }

  /** Starting the pool never lowers an attempt count: each started chunk counts one more. */
  lemma LaunchedCountsGrow(s: Snapshot)
    requires !s.terminated ==> s.option.Some?
    ensures var r := Launched(s);
      && |r.chunkInfoList| == |s.chunkInfoList|
      && forall j :: 0 <= j < |s.chunkInfoList| ==> r.chunkInfoList[j].fetchCount >= s.chunkInfoList[j].fetchCount
  {
  }

  /** The scan never lowers an attempt count: at most the chunk it starts counts one more. */
  lemma ScannedCountsGrow(m: Snapshot)
    requires m.option.Some? && WellFormed(m.chunkInfoList)
    ensures var r := Scanned(m);
      && |r.chunkInfoList| == |m.chunkInfoList|
      && forall j :: 0 <= j < |m.chunkInfoList| ==> r.chunkInfoList[j].fetchCount >= m.chunkInfoList[j].fetchCount
  {
  }

  /** A completion never lowers an attempt count: only `retry` sets one back (to 0, and only
      past the budget, as `ResetClearsBudget` says). */
  lemma CompletionCountsGrow(s: Snapshot, chunkIndex: nat, ret: ChunkRet)
    requires Consistent(s)
    requires !s.terminated ==> chunkIndex < |s.chunkInfoList| && s.chunkInfoList[chunkIndex].status == Fetching
    ensures var r := Completion(s, chunkIndex, ret);
      && |r.chunkInfoList| == |s.chunkInfoList|
      && forall j :: 0 <= j < |s.chunkInfoList| ==> r.chunkInfoList[j].fetchCount >= s.chunkInfoList[j].fetchCount
  {
    if !s.terminated {
      CompletedKeeps(s.chunkInfoList, chunkIndex, ret, s.nextToken, s.option.value.maxChunkAutoRetry);
      ScannedCountsGrow(Recorded(s, chunkIndex, ret));
    }
  }

  /** The closing `download-fail` of `chunkParallel` is never reached: a completion ends the
      transfer with a failure only when some chunk is past its retry budget. */
  lemma FailOnlyOverBudget(s: Snapshot, chunkIndex: nat, ret: ChunkRet)
    requires Consistent(s) && !s.terminated
    requires chunkIndex < |s.chunkInfoList| && s.chunkInfoList[chunkIndex].status == Fetching
    ensures var r := Completion(s, chunkIndex, ret);
      |s.events| <= |r.events| &&
      ((exists e :: e in r.events[|s.events|..] && e.status == DownloadFail) ==>
         OverBudget(r.chunkInfoList, s.option.value.maxChunkAutoRetry) && r.terminated)
  {
    var max := s.option.value.maxChunkAutoRetry;
    CompletedKeeps(s.chunkInfoList, chunkIndex, ret, s.nextToken, max);
    var m := Recorded(s, chunkIndex, ret);
    var r := Completion(s, chunkIndex, ret);
    var progress := EventOf(ChunkProgress, m.chunkInfoList, m.fileName, m.fileTotalBytes);
    assert m.events == s.events + [progress];
    match ScanFrom(m.chunkInfoList, max, 0)
    case AbortAll(i) =>
      assert m.chunkInfoList[i].fetchCount > max;
    case StartAt(_) =>
      assert r.events[|s.events|..] == [progress];
    case Settled =>
      SettledMeansNoFailure(m.chunkInfoList, max);
      if AllSettled(m.chunkInfoList) {
        assert r.events[|s.events|..] == [progress, EventOf(DownloadSuccess, m.chunkInfoList, m.fileName, m.fileTotalBytes)];
      } else {
        assert r.events[|s.events|..] == [progress];
      }
  }

  /** Once a chunk is past its retry budget no completion emits `download-success`, and the
      budget stays broken. */
  lemma OverBudgetNoSuccess(s: Snapshot, chunkIndex: nat, ret: ChunkRet)
    requires Consistent(s) && !s.terminated
    requires chunkIndex < |s.chunkInfoList| && s.chunkInfoList[chunkIndex].status == Fetching
    requires OverBudget(s.chunkInfoList, s.option.value.maxChunkAutoRetry)
    ensures var r := Completion(s, chunkIndex, ret);
      && |s.events| <= |r.events|
      && (forall e :: e in r.events[|s.events|..] ==> e.status != DownloadSuccess)
      && r.deliveries == s.deliveries
      && OverBudget(r.chunkInfoList, s.option.value.maxChunkAutoRetry)
  {
    var max := s.option.value.maxChunkAutoRetry;
    CompletedKeeps(s.chunkInfoList, chunkIndex, ret, s.nextToken, max);
    var m := Recorded(s, chunkIndex, ret);
    var r := Completion(s, chunkIndex, ret);
    var progress := EventOf(ChunkProgress, m.chunkInfoList, m.fileName, m.fileTotalBytes);
    assert m.events == s.events + [progress];
    OverBudgetNeverSettles(m.chunkInfoList, max);
    match ScanFrom(m.chunkInfoList, max, 0)
    case AbortAll(_) =>
      assert r.events[|s.events|..] == [progress, EventOf(DownloadFail, m.chunkInfoList, m.fileName, m.fileTotalBytes)];
    case StartAt(i) =>
      assert r.events[|s.events|..] == [progress];
      var j :| 0 <= j < |m.chunkInfoList| && m.chunkInfoList[j].fetchCount > max;
      assert r.chunkInfoList[j].fetchCount >= m.chunkInfoList[j].fetchCount;
  }

  /** A completion that emits `download-success` delivers the data of every chunk, all of them
      successful, in index order, and ends the transfer. */
  lemma SuccessDeliversAll(s: Snapshot, chunkIndex: nat, ret: ChunkRet)
    requires Consistent(s) && !s.terminated
    requires chunkIndex < |s.chunkInfoList| && s.chunkInfoList[chunkIndex].status == Fetching
    ensures var r := Completion(s, chunkIndex, ret);
      && |s.events| <= |r.events|
      && ((exists e :: e in r.events[|s.events|..] && e.status == DownloadSuccess) ==>
            && AllSuccess(r.chunkInfoList) && r.terminated
            && r.deliveries == s.deliveries + [Delivery(s.fileName, s.fileContentType.GetOr(DefaultContentType), PartsOf(r.chunkInfoList))])
      && ((forall e :: e in r.events[|s.events|..] ==> e.status != DownloadSuccess) ==> r.deliveries == s.deliveries)
  {
    var max := s.option.value.maxChunkAutoRetry;
    CompletedKeeps(s.chunkInfoList, chunkIndex, ret, s.nextToken, max);
    var m := Recorded(s, chunkIndex, ret);
    var r := Completion(s, chunkIndex, ret);
    var progress := EventOf(ChunkProgress, m.chunkInfoList, m.fileName, m.fileTotalBytes);
    assert m.events == s.events + [progress];
    match ScanFrom(m.chunkInfoList, max, 0)
    case AbortAll(_) =>
      assert r.events[|s.events|..] == [progress, EventOf(DownloadFail, m.chunkInfoList, m.fileName, m.fileTotalBytes)];
    case StartAt(_) =>
      assert r.events[|s.events|..] == [progress];
    case Settled =>
      SettledMeansNoFailure(m.chunkInfoList, max);
      if AllSettled(m.chunkInfoList) {
        assert r.events[|s.events|..] == [progress, EventOf(DownloadSuccess, m.chunkInfoList, m.fileName, m.fileTotalBytes)];
      } else {
        assert r.events[|s.events|..] == [progress];
      }
  }

  lemma RetryKeeps(s: Snapshot)
    requires Consistent(s) && s.terminated
    ensures var max := if s.option.Some? then s.option.value.maxChunkAutoRetry else 0;
      Consistent(s.(chunkInfoList := ResetOverBudget(s.chunkInfoList, max)))
  {
    var max := if s.option.Some? then s.option.value.maxChunkAutoRetry else 0;
    var l := ResetOverBudget(s.chunkInfoList, max);
    forall i | 0 <= i < |l|
      ensures l[i].index == i && l[i].token < s.nextToken
      ensures l[i].status == Success <==> l[i].chunkData.Some?
    {
      assert s.chunkInfoList[i].index == i;
    }
  }

  /** `retry` sends nothing: it only acts after the transfer ended, and then the pool refuses
      to start, so a manual retry only clears the broken budgets. */
  lemma RetrySendsNothing(s: Snapshot)
    requires Consistent(s) && s.option.Some?
    ensures var r := Retried(s);
      && Consistent(r)
      && r.requests == s.requests && r.events == s.events && r.deliveries == s.deliveries
      && r.terminated == s.terminated && r.aborted == s.aborted && r.nextToken == s.nextToken
      && |r.chunkInfoList| == |s.chunkInfoList|
      && (forall i :: 0 <= i < |s.chunkInfoList| ==> r.chunkInfoList[i].status == s.chunkInfoList[i].status)
      && (s.terminated ==> !OverBudget(r.chunkInfoList, s.option.value.maxChunkAutoRetry))
      && (!s.terminated ==> r == s)
  {
    if s.terminated {
      var max := s.option.value.maxChunkAutoRetry;
      var l := ResetOverBudget(s.chunkInfoList, max);
      assert !OverBudget(l, max) by {
        forall i | 0 <= i < |l| ensures l[i].fetchCount <= max { }
      }
      assert WellFormed(l) && TokensBelow(l, s.nextToken) by {
        forall i | 0 <= i < |l|
          ensures l[i].index == i && l[i].token < s.nextToken
          ensures l[i].status == Success <==> l[i].chunkData.Some?
        {
          assert s.chunkInfoList[i].index == i;
        }
      }
    }
  }

  /** `terminate` aborts the controller of every chunk in flight and no other, clears the name
      and the content type, and ends the transfer with a `terminate` event; without an option
      it throws after the aborts. Nothing else changes. A retried chunk keeps the token of its
      first attempt, so the controller its retry request runs on is not aborted. Afterwards a
      completion changes nothing. */
  lemma StoppedAbortsInFlight(s: Snapshot, chunkIndex: nat, ret: ChunkRet)
    requires Consistent(s)
    ensures var (r, o) := Stopped(s);
      && Consistent(r)
      && (forall i :: 0 <= i < |s.chunkInfoList| && s.chunkInfoList[i].status == Fetching ==>
            s.chunkInfoList[i].token in r.aborted)
      && (forall t :: t in r.aborted && t !in s.aborted ==>
            exists i :: 0 <= i < |s.chunkInfoList| && s.chunkInfoList[i].status == Fetching && s.chunkInfoList[i].token == t)
      && r.fileName == "" && r.fileContentType == Some("")
      && r.chunkInfoList == s.chunkInfoList && r.requests == s.requests && r.deliveries == s.deliveries
      && r.fileHash == s.fileHash && r.fileTotalBytes == s.fileTotalBytes
      && r.option == s.option && r.nextToken == s.nextToken
      && (o.Pass? <==> s.option.Some?)
      && (o.Raise? ==> r.terminated == s.terminated)
      && (o.Pass? ==> r.terminated && r.events == s.events + [EventOf(Terminate, s.chunkInfoList, "", s.fileTotalBytes)])
      && (o.Raise? ==> r.events == s.events && o.error == OptionUndefined)
      && (o.Pass? ==> Completion(r, chunkIndex, ret) == r)
  {
    var (r, o) := Stopped(s);
    forall i | 0 <= i < |s.chunkInfoList| && s.chunkInfoList[i].status == Fetching
      ensures s.chunkInfoList[i].token in r.aborted
    {
      assert s.chunkInfoList[i].token in FetchingTokens(s.chunkInfoList);
    }
  }

  /** The outcome of `download`, case by case: each error exactly in its situation, the busy
      guard, and a probe failure ending the transfer. */
  lemma DownloadOutcomes(s: Snapshot, probe: ChunkRet)
    requires Consistent(s)
    ensures var (r, o) := Downloaded(s, probe);
      var started := s.option.Some? && s.terminated;
      var h := if probe.Fulfilled? then probe.chunkHeaders else Headers(None, None, None, None);
      var headerMissing := h.contentRange.None? || h.contentRange.value == "";
      && (o == Raise(NotInitialised) <==> s.option.None?)
      && (o == Raise(NotInitialised) ==> r == s)
      && (o.Raise? && o.error != NotInitialised ==>
            && r.events == s.events + [EventOf(ChunkProgress, s.chunkInfoList, s.fileName, s.fileTotalBytes)]
            && r.deliveries == s.deliveries)
      && (s.option.Some? && !s.terminated ==> r == s && o == Pass)
      && (o == Raise(ContentRangeNotFound) <==> started && probe.Fulfilled? && headerMissing)
      && (o == Raise(ProtocolError) <==>
            started && probe.Fulfilled? && !headerMissing && ParseContentRange(h.contentRange.value).None?)
      && (o == Raise(InvalidArrayLength) <==>
            && started && probe.Fulfilled? && !headerMissing && ParseContentRange(h.contentRange.value).Some?
            && s.option.value.chunkSizeByte == 0 && ParseContentRange(h.contentRange.value).value.total > 0)
      && (o.Raise? ==> o.error in {NotInitialised, ContentRangeNotFound, ProtocolError, InvalidArrayLength})
      && (started && probe.Rejected? ==>
            && o == Pass && r.terminated && r.chunkInfoList == [ProbeChunk(s.nextToken, s.option.value.chunkSizeByte)]
            && r.requests == s.requests + [ProbeRequest(s.nextToken, s.option.value.chunkSizeByte)]
            && r.events == s.events + [EventOf(ChunkProgress, s.chunkInfoList, s.fileName, s.fileTotalBytes),
                                       EventOf(DownloadFail, r.chunkInfoList, s.fileName, s.fileTotalBytes)])
  {
  }

  /** A failed `download` (other than before `updateOption`) emits no terminal event: the
      `chunk-progress` sent before the probe is all it adds to the log, and it delivers nothing.
      It also leaves the downloader marked busy: every later `download` returns at once
      without a request. */
  lemma DownloadErrorLeavesBusy(s: Snapshot, probe: ChunkRet, again: ChunkRet)
    requires Consistent(s)
    requires Downloaded(s, probe).1.Raise? && Downloaded(s, probe).1.error != NotInitialised
    ensures var r := Downloaded(s, probe).0;
      && Consistent(r) && !r.terminated
      && r.requests == s.requests + [ProbeRequest(s.nextToken, s.option.value.chunkSizeByte)]
      && r.events == s.events + [EventOf(ChunkProgress, s.chunkInfoList, s.fileName, s.fileTotalBytes)]
      && r.deliveries == s.deliveries
      && Downloaded(r, again) == (r, Pass)
  {
    DownloadedConsistent(s, probe);
  }

  lemma PlannedSmall(s: Snapshot, data: Bytes, total: nat)
    requires s.option.Some? && total <= s.option.value.chunkSizeByte
    ensures Planned(s, data, total) ==
      (Emit(s.(fileTotalBytes := total,
               deliveries := s.deliveries + [Delivery(s.fileName, s.fileContentType.GetOr(DefaultContentType), [data])]),
            DownloadSuccess), Pass)
  {
    var cs := s.option.value.chunkSizeByte;
    assert BodyLength(cs, total) == 0 by {
      if cs > 0 {
        assert Ceil(total, cs) <= 1 by {
          assert total + cs - 1 < 2 * cs;
        }
      }
    }
    var s5 := Emit(s.(fileTotalBytes := total,
                      deliveries := s.deliveries + [Delivery(s.fileName, s.fileContentType.GetOr(DefaultContentType), [data])]),
                   DownloadSuccess);
    assert BodyChunks(cs, total, s5.nextToken) == [];
    assert s5.chunkInfoList + [] == s5.chunkInfoList;
  }

  /** A file that fits the probe is delivered whole, from the probe's data, and the transfer ends
      with one `download-success` and no further request. */
  lemma DownloadSmallFile(s: Snapshot, data: Bytes, h: Headers)
    requires Consistent(s) && s.option.Some? && s.terminated
    requires h.contentRange.Some? && h.contentRange.value != ""
    requires ParseContentRange(h.contentRange.value).Some?
    requires ParseContentRange(h.contentRange.value).value.total <= s.option.value.chunkSizeByte
    ensures var (r, o) := Downloaded(s, Fulfilled(data, h));
      var name := h.fileName.GetOr(UnknownName);
      var c0 := ProbeChunk(s.nextToken, s.option.value.chunkSizeByte).(chunkData := Some(data), status := Success);
      && o == Pass && r.terminated
      && r.chunkInfoList == [c0]
      && r.deliveries == s.deliveries + [Delivery(name, h.contentType.GetOr(DefaultContentType), [data])]
      && r.requests == s.requests + [ProbeRequest(s.nextToken, s.option.value.chunkSizeByte)]
      && r.events == s.events + [EventOf(ChunkProgress, s.chunkInfoList, s.fileName, s.fileTotalBytes),
                                 EventOf(DownloadSuccess, [c0], name, ParseContentRange(h.contentRange.value).value.total)]
  {
    var s3 := ProbeAnswered(ProbeSent(s), data, h);
    PlannedSmall(s3, data, ParseContentRange(h.contentRange.value).value.total);
  }

  /** The state `download` of a larger file hands to the pool. */
  function PoolPlanned(s: Snapshot, data: Bytes, h: Headers, total: nat): Snapshot
    requires s.option.Some?
  {
    var cs := s.option.value.chunkSizeByte;
    WithBody(ProbeAnswered(ProbeSent(s), data, h).(fileTotalBytes := total), cs, total)
  }

  lemma DownloadReachesPool(s: Snapshot, data: Bytes, h: Headers, total: nat)
    requires s.option.Some? && s.terminated
    requires h.contentRange.Some? && h.contentRange.value != ""
    requires ParseContentRange(h.contentRange.value).Some? && total == ParseContentRange(h.contentRange.value).value.total
    requires 0 < s.option.value.chunkSizeByte < total
    ensures Downloaded(s, Fulfilled(data, h)) == (Launched(PoolPlanned(s, data, h, total)), Pass)
  {
    var s3 := ProbeAnswered(ProbeSent(s), data, h);
    DownloadReachesPlan(s, data, h, total);
    PlanReachesPool(s3, data, total);
  }

  lemma DownloadReachesPlan(s: Snapshot, data: Bytes, h: Headers, total: nat)
    requires s.option.Some? && s.terminated
    requires h.contentRange.Some? && h.contentRange.value != ""
    requires ParseContentRange(h.contentRange.value).Some? && total == ParseContentRange(h.contentRange.value).value.total
    ensures Downloaded(s, Fulfilled(data, h)) == Planned(ProbeAnswered(ProbeSent(s), data, h), data, total)
  {
  }

  lemma PlanReachesPool(s3: Snapshot, data: Bytes, total: nat)
    requires s3.option.Some? && 0 < s3.option.value.chunkSizeByte < total
    ensures Planned(s3, data, total) == (Launched(WithBody(s3.(fileTotalBytes := total), s3.option.value.chunkSizeByte, total)), Pass)
  {
  }

  lemma PoolPlannedFields(s: Snapshot, data: Bytes, h: Headers, total: nat)
    requires s.option.Some?
    ensures var t := PoolPlanned(s, data, h, total);
      var cs := s.option.value.chunkSizeByte;
      && !t.terminated && t.option == s.option && t.fileHash == h.fileHash
      && t.chunkInfoList == [ProbeChunk(s.nextToken, cs).(chunkData := Some(data), status := Success)] + BodyChunks(cs, total, s.nextToken + 1)
      && t.requests == s.requests + [ProbeRequest(s.nextToken, cs)]
      && t.events == s.events + [EventOf(ChunkProgress, s.chunkInfoList, s.fileName, s.fileTotalBytes)]
      && t.deliveries == s.deliveries
      && t.fileTotalBytes == total
  {
  }

  /** A file larger than the probe is planned as chunk 0 (already held) and the body chunks,
      and the first `maxParallel` others go in flight, each requested once; the transfer stays
      open. */
  lemma DownloadStartsPool(s: Snapshot, data: Bytes, h: Headers)
    requires Consistent(s) && s.option.Some? && s.terminated
    requires h.contentRange.Some? && h.contentRange.value != ""
    requires ParseContentRange(h.contentRange.value).Some?
    requires 0 < s.option.value.chunkSizeByte < ParseContentRange(h.contentRange.value).value.total
    ensures var (r, o) := Downloaded(s, Fulfilled(data, h));
      var cs := s.option.value.chunkSizeByte;
      var total := ParseContentRange(h.contentRange.value).value.total;
      var full := [ProbeChunk(s.nextToken, cs).(chunkData := Some(data), status := Success)]
                  + BodyChunks(cs, total, s.nextToken + 1);
      var sel := Selected(full, s.option.value.maxParallel);
      && o == Pass && !r.terminated
      && r.chunkInfoList == StartAll(full, sel)
      && r.requests == s.requests + [ProbeRequest(s.nextToken, cs)] + RequestsFor(full, sel, h.fileHash)
      && r.events == s.events + [EventOf(ChunkProgress, s.chunkInfoList, s.fileName, s.fileTotalBytes)]
      && r.deliveries == s.deliveries
      && r.fileTotalBytes == total
  {
    var total := ParseContentRange(h.contentRange.value).value.total;
    DownloadReachesPool(s, data, h, total);
    PoolPlannedFields(s, data, h, total);
  }

  /** Starting the plan of a file larger than the probe puts exactly the selected chunks, at
      most `maxParallel`, in flight. */
  lemma PlanStartsPool(c0: ChunkInfo, cs: nat, total: nat, t: Token, maxParallel: nat)
    requires 0 < cs < total
    requires c0.index == 0 && c0.range == ByteRange(0, cs) && c0.status == Success && c0.chunkData.Some?
    ensures var full := [c0] + BodyChunks(cs, total, t);
      var sel := Selected(full, maxParallel);
      CountStatus(StartAll(full, sel), Fetching) == |sel| <= maxParallel
  {
    var full := [c0] + BodyChunks(cs, total, t);
    PlanWellFormed(c0, cs, total, t);
    var sel := Selected(full, maxParallel);
    SelectedIsFirstEligible(full, maxParallel);
    forall k | 0 <= k < |full| ensures full[k].status != Fetching {
      if k > 0 {
        assert full[k] == BodyChunks(cs, total, t)[k - 1];
      }
    }
    CountStatusNone(full, Fetching);
    StartAllCount(full, sel);
  }

  // ---------------------------------------------------------------------------------------
  // The downloader

  class ChunksDownload {
    var terminated: bool
    var chunkInfoList: seq<ChunkInfo>
    var fileName: string
    var fileContentType: Option<string>
    var fileHash: Option<string>
    var fileTotalBytes: nat
    var option: Option<Config>

    // The environment: controllers created so far, aborted ones, and what was sent out.
    var nextToken: Token
    var aborted: set<Token>
    var events: seq<DownloadEvent>
    var requests: seq<Request>
    var deliveries: seq<Delivery>

    function State(): Snapshot
      reads this
    {
      Snapshot(terminated, chunkInfoList, fileName, fileContentType, fileHash, fileTotalBytes, option,
               nextToken, aborted, events, requests, deliveries)
    }

    ghost predicate Valid()
      reads this
    {
      Consistent(State())
    }

    constructor ()
      ensures Valid()
      ensures State() == Snapshot(true, [], "", Some(""), Some(""), 0, None, 0, {}, [], [], [])
    {
      terminated := true;
      chunkInfoList := [];
      fileName := "";
      fileContentType := Some("");
      fileHash := Some("");
      fileTotalBytes := 0;
      option := None;
      nextToken := 0;
      aborted := {};
      events := [];
      requests := [];
      deliveries := [];
    }

    /** `updateOption`: the merged configuration replaces the previous one. */
    method UpdateOption(o: DownloadChunksOption)
      requires Valid()
      modifies this`option
      ensures Valid()
      ensures State() == old(State()).(option := Some(MergeOption(o)))
    {
      option := Some(MergeOption(o));
    }

    /** `new AbortController()`. */
    method NewToken() returns (t: Token)
      requires Valid()
      modifies this`nextToken
      ensures Valid()
      ensures t == old(nextToken) && State() == old(State()).(nextToken := t + 1)
    {
      t := nextToken;
      nextToken := nextToken + 1;
    }

    method EmitDownloadRet(status: DownloadStatus)
      requires Valid() && option.Some?
      modifies this`events, this`terminated
      ensures Valid()
      ensures State() == Emit(old(State()), status)
    {
      events := events + [EventOf(status, chunkInfoList, fileName, fileTotalBytes)];
      if status != ChunkProgress {
        terminated := true;
      }
    }

    /** The `forEach` that aborts the controller of every chunk in flight. */
    method AbortFetching()
      requires Valid()
      modifies this`aborted
      ensures Valid()
      ensures State() == old(State()).(aborted := old(aborted) + FetchingTokens(chunkInfoList))
    {
      var k := 0;
      while k < |chunkInfoList|
        invariant 0 <= k <= |chunkInfoList|
        invariant aborted == old(aborted) + FetchingTokens(chunkInfoList[..k])
      {
        assert chunkInfoList[..k + 1][..k] == chunkInfoList[..k];
        if chunkInfoList[k].status == Fetching {
          aborted := aborted + {chunkInfoList[k].token};
        }
        k := k + 1;
      }
      assert chunkInfoList[..k] == chunkInfoList;
    }

    /** `getChunksParallel`. */
    method GetChunksParallel()
      requires Valid()
      modifies this`chunkInfoList, this`requests
      ensures Valid()
      ensures State() == Launched(old(State()))
    {
      if terminated {
        return;
      }
      ghost var s0 := State();
      var sel := Selected(chunkInfoList, option.value.maxParallel);
      SelectedIsFirstEligible(chunkInfoList, option.value.maxParallel);
      var started, reqs := StartChunks(chunkInfoList, sel, fileHash);
      chunkInfoList := started;
      requests := requests + reqs;
      LaunchedConsistent(s0);
    }

    /** The first half of `chunkParallel`. */
    method Record(chunkIndex: nat, ret: ChunkRet)
      requires Valid() && !terminated
      requires chunkIndex < |chunkInfoList| && chunkInfoList[chunkIndex].status == Fetching
      modifies this`chunkInfoList, this`events, this`terminated
      ensures Valid() && !terminated
      ensures State() == Recorded(old(State()), chunkIndex, ret)
    {
      CompletedKeeps(chunkInfoList, chunkIndex, ret, nextToken, option.value.maxChunkAutoRetry);
      chunkInfoList := chunkInfoList[chunkIndex := Completed(chunkInfoList[chunkIndex], ret)];
      EmitDownloadRet(ChunkProgress);
    }

    /** The start of the eligible chunk the scan found: a first attempt reuses the chunk's
        controller, a retry sends a fresh one that the chunk does not keep. */
    method StartOne(k: nat)
      requires Valid() && option.Some?
      requires ScanFrom(chunkInfoList, option.value.maxChunkAutoRetry, 0) == StartAt(k)
      modifies this`chunkInfoList, this`requests, this`nextToken
      ensures Valid()
      ensures State() == Scanned(old(State()))
    {
      ghost var s0 := State();
      var item := chunkInfoList[k];
      var token := item.token;
      if item.status != NotStart {
        token := NewToken();
      }
      chunkInfoList := chunkInfoList[k := Start(item)];
      requests := requests + [RequestFor(item, fileHash, token)];
      ScannedConsistent(s0);
    }

    /** The end of `chunkParallel` when the scan started nothing. */
    method FinishSettled()
      requires Valid() && option.Some?
      requires ScanFrom(chunkInfoList, option.value.maxChunkAutoRetry, 0) == Settled
      modifies this`deliveries, this`events, this`terminated
      ensures Valid()
      ensures State() == Scanned(old(State()))
    {
      SettledMeansNoFailure(chunkInfoList, option.value.maxChunkAutoRetry);
      var allChunksFulfilled := AllSettled(chunkInfoList);
      if allChunksFulfilled {
        if AllSuccess(chunkInfoList) {
          var parts := CollectParts(chunkInfoList);
          if parts.Err? {
            // `success` chunks always hold their data.
            assert false;
          }
          assert parts.value == PartsOf(chunkInfoList);
          deliveries := deliveries + [Delivery(fileName, fileContentType.GetOr(DefaultContentType), parts.value)];
          EmitDownloadRet(DownloadSuccess);
          return;
        }
        // The closing `emitDownloadRet('download-fail')` cannot be reached (SettledMeansNoFailure).
        assert false;
      }
    }

    /** The scan of `chunkParallel` after the progress event. */
    method ScanAndAct()
      requires Valid() && option.Some?
      modifies this`chunkInfoList, this`events, this`terminated, this`requests, this`nextToken,
               this`aborted, this`deliveries
      ensures Valid()
      ensures State() == Scanned(old(State()))
    {
      var decision := Scan(chunkInfoList, option.value.maxChunkAutoRetry);
      match decision
      case AbortAll(_) =>
        AbortFetching();
        EmitDownloadRet(DownloadFail);
      case StartAt(k) =>
        StartOne(k);
      case Settled =>
        FinishSettled();
    }

    /** `chunkParallel`: the network reports that the request for chunk `chunkIndex` completed.
        Only chunks in flight complete while the transfer is open. */
    method OnCompletion(chunkIndex: nat, ret: ChunkRet)
      requires Valid()
      requires !terminated ==> chunkIndex < |chunkInfoList| && chunkInfoList[chunkIndex].status == Fetching
      modifies this`chunkInfoList, this`events, this`terminated, this`requests, this`nextToken,
               this`aborted, this`deliveries
      ensures Valid()
      ensures State() == Completion(old(State()), chunkIndex, ret)
    {
      if terminated {
        return;
      }
      Record(chunkIndex, ret);
      ScanAndAct();
    }

    /** `retry`. */
    method Retry()
      requires Valid()
      modifies this`chunkInfoList, this`requests
      ensures Valid()
      ensures State() == Retried(old(State()))
    {
      if !terminated {
        return;
      }
      ghost var s0 := State();
      var max := if option.Some? then option.value.maxChunkAutoRetry else 0;
      var k := 0;
      while k < |chunkInfoList|
        invariant 0 <= k <= |chunkInfoList| == |s0.chunkInfoList|
        invariant forall i :: 0 <= i < k ==> chunkInfoList[i] == ResetOverBudget(s0.chunkInfoList, max)[i]
        invariant forall i :: k <= i < |chunkInfoList| ==> chunkInfoList[i] == s0.chunkInfoList[i]
        invariant State() == s0.(chunkInfoList := chunkInfoList)
      {
        if chunkInfoList[k].fetchCount > max {
          chunkInfoList := chunkInfoList[k := chunkInfoList[k].(fetchCount := 0)];
        }
        k := k + 1;
      }
      assert chunkInfoList == ResetOverBudget(s0.chunkInfoList, max);
      RetryKeeps(s0);
      GetChunksParallel();
    }

    /** `terminate`. */
    method Terminate() returns (r: Outcome<DownloadError>)
      requires Valid()
      modifies this`fileName, this`fileContentType, this`aborted, this`events, this`terminated
      ensures Valid()
      ensures (State(), r) == Stopped(old(State()))
    {
      fileName := "";
      fileContentType := Some("");
      AbortFetching();
      if option.None? {
        return Raise(OptionUndefined);
      }
      EmitDownloadRet(DownloadStatus.Terminate);
      r := Pass;
    }

    /** The small-file branch of `download`: the probe's data is the whole file. */
    method DeliverWhole(data: Bytes)
      requires Valid() && option.Some?
      modifies this`deliveries, this`events, this`terminated
      ensures Valid()
      ensures State() == Emit(old(State()).(deliveries := old(deliveries) + [Delivery(fileName, fileContentType.GetOr(DefaultContentType), [data])]),
                              DownloadSuccess)
    {
      deliveries := deliveries + [Delivery(fileName, fileContentType.GetOr(DefaultContentType), [data])];
      EmitDownloadRet(DownloadSuccess);
    }

    /** The known size decides: deliver a file that fits the probe, or plan and start the rest. */
    method Plan(data: Bytes, total: nat) returns (r: Outcome<DownloadError>)
      requires Valid() && option.Some? && !terminated
      requires |chunkInfoList| == 1 && chunkInfoList[0].index == 0
      modifies this`chunkInfoList, this`events, this`terminated, this`requests, this`nextToken,
               this`deliveries, this`fileTotalBytes
      ensures Valid()
      ensures (State(), r) == Planned(old(State()), data, total)
    {
      var chunkSizeByte := option.value.chunkSizeByte;
      fileTotalBytes := total;
      if total <= chunkSizeByte {
        DeliverWhole(data);
      }
      if chunkSizeByte == 0 && total > 0 {
        return Raise(InvalidArrayLength);
      }
      PlanBody(total);
      r := Pass;
    }

    /** The `Array.from` of the body chunks, then the start of the pool. */
    method PlanBody(total: nat)
      requires Valid() && option.Some? && |chunkInfoList| == 1 && chunkInfoList[0].index == 0
      modifies this`chunkInfoList, this`requests, this`nextToken
      ensures Valid()
      ensures var cs := option.value.chunkSizeByte;
        State() == Launched(old(State()).(chunkInfoList := old(chunkInfoList) + BodyChunks(cs, total, old(nextToken)),
                                          nextToken := old(nextToken) + BodyLength(cs, total)))
    {
      var chunkSizeByte := option.value.chunkSizeByte;
      AppendPlanConsistent(State(), chunkSizeByte, total);
      chunkInfoList := chunkInfoList + BodyChunks(chunkSizeByte, total, nextToken);
      nextToken := nextToken + BodyLength(chunkSizeByte, total);
      GetChunksParallel();
    }

    /** The synchronous start of `download`. */
    method SendProbe()
      requires Valid() && option.Some?
      modifies this`chunkInfoList, this`events, this`terminated, this`requests, this`nextToken
      ensures Valid() && !terminated
      ensures State() == ProbeSent(old(State()))
    {
      var chunkSizeByte := option.value.chunkSizeByte;
      terminated := false;
      var firstToken := NewToken();
      EmitDownloadRet(ChunkProgress);
      chunkInfoList := [ProbeChunk(firstToken, chunkSizeByte)];
      requests := requests + [ProbeRequest(firstToken, chunkSizeByte)];
    }

    /** The probe succeeded: chunk 0 takes the data, the headers the name, type and hash. */
    method AcceptProbe(chunkData: Bytes, chunkHeaders: Headers)
      requires Valid() && |chunkInfoList| == 1 && chunkInfoList[0].status == Fetching
      modifies this`chunkInfoList, this`fileName, this`fileContentType, this`fileHash
      ensures Valid() && |chunkInfoList| == 1 && chunkInfoList[0].index == old(chunkInfoList)[0].index
      ensures State() == ProbeAnswered(old(State()), chunkData, chunkHeaders)
    {
      chunkInfoList := [chunkInfoList[0].(chunkData := Some(chunkData), status := Success)];
      fileName := chunkHeaders.fileName.GetOr(UnknownName);
      fileContentType := chunkHeaders.contentType;
      fileHash := chunkHeaders.fileHash;
    }

    /** `download`, with the answer to the probe request given. */
    method Download(probe: ChunkRet) returns (r: Outcome<DownloadError>)
      requires Valid()
      modifies this`chunkInfoList, this`events, this`terminated, this`requests, this`nextToken,
               this`deliveries, this`fileTotalBytes, this`fileName, this`fileContentType, this`fileHash
      ensures Valid()
      ensures (State(), r) == Downloaded(old(State()), probe)
    {
      if option.None? {
        return Raise(NotInitialised);
      }
      if !terminated {
        return Pass;
      }
      SendProbe();
      match probe
      case Rejected(_) =>
        EmitDownloadRet(DownloadFail);
        r := Pass;
      case Fulfilled(chunkData, chunkHeaders) =>
        AcceptProbe(chunkData, chunkHeaders);
        var contentRange := chunkHeaders.contentRange;
        if contentRange.None? || contentRange.value == "" {
          return Raise(ContentRangeNotFound);
        }
        match ParseContentRange(contentRange.value)
        case None =>
          r := Raise(ProtocolError);
        case Some(cr) =>
          r := Plan(chunkData, cr.total);
    }
  }
}
