/** The earlier chunked downloader, `ChunksDownload` of util.ts: the same probe, a plan whose
    adjacent ranges share an endpoint, and fixed rounds. Each round requests the first
    `maxParallel` chunks without data, waits for all of them, records the results, and runs
    again while some chunk without data is still within its retry budget. A round's results
    are an input (`FinishRound`); the network, abort controllers and the browser download are
    the fields `nextToken`, `aborted`, `requests` and `deliveries`. */
module BatchDownload {
  import opened Basics
  import opened HttpRange
  import P = ParallelDownload

  /** A chunk of the batch downloader. Its `status` stays `'not_start'` for ever and is not kept. */
  datatype BatchChunk = BatchChunk(
    token: P.Token,
    range: ByteRange,
    chunkData: Option<P.Bytes>,
    index: nat,
    retryCount: nat)

  /** The options of the constructor; the chunk size is in KiB. */
  datatype BatchOption = BatchOption(chunkSize: Option<nat>, maxParallel: Option<nat>, maxChunkAutoRetry: Option<nat>)

  datatype BatchConfig = BatchConfig(chunkSize: nat, maxParallel: nat, maxChunkAutoRetry: nat)

  datatype RetStatus = Success | Fail | Terminate

  /** `ChunksDownloadRet` without the percent. */
  datatype Ret = Ret(status: RetStatus, totalChunks: nat, successChunks: nat)

  /** One `getChunk` call: only the probe carries the configured `data`. */
  datatype BatchRequest = BatchRequest(chunkIndex: nat, range: ByteRange, token: P.Token, withData: bool)

  /** One entry of the array `Promise.all` resolves to. */
  datatype RoundResult = RoundResult(chunkIndex: nat, ret: P.ChunkRet)

  /** What a call of `getChunksParallel` comes to before its first `await`. */
  datatype RoundOutcome =
    | Returned(ret: Ret)          // the promise resolves to this result
    | Awaiting(need: seq<nat>)    // the round's requests are out; `FinishRound` continues

  datatype BatchError =
    | ProbeRejected(reason: string)  // `throw new Error(firstChunk.reason)`
    | ContentRangeNotFound
    | ProtocolError
    | InvalidArrayLength             // RangeError of Array.from when the chunk size is 0
    | NotReach                       // the "服务异常：not reach" guard
    | UnknownChunk                   // TypeError: a result for an index outside the list

  /** The constructor: 3072 KiB, 10 and 3 unless given. */
  function MergeOption(o: BatchOption): (c: BatchConfig)
    ensures c.chunkSize == (if o.chunkSize.Some? then o.chunkSize.value else 3 * 1024)
    ensures c.maxParallel == (if o.maxParallel.Some? then o.maxParallel.value else 10)
    ensures c.maxChunkAutoRetry == (if o.maxChunkAutoRetry.Some? then o.maxChunkAutoRetry.value else 3)
  {
    BatchConfig(o.chunkSize.GetOr(3 * 1024), o.maxParallel.GetOr(10), o.maxChunkAutoRetry.GetOr(3))
  }

  /** `chunkSize * 1024`. */
  function ChunkSizeByte(c: BatchConfig): nat {
    c.chunkSize * 1024
  }

  // ---------------------------------------------------------------------------------------
  // The chunk list as a value

  ghost predicate WellFormed(l: seq<BatchChunk>) {
    forall i :: 0 <= i < |l| ==> l[i].index == i
  }

  ghost predicate TokensBelow(l: seq<BatchChunk>, n: P.Token) {
    forall i :: 0 <= i < |l| ==> l[i].token < n
  }

  ghost predicate RequestTokensBelow(reqs: seq<BatchRequest>, n: P.Token) {
    forall j :: 0 <= j < |reqs| ==> reqs[j].token < n
  }

  /** How many chunks hold data (`filter((item) => item.chunkData).length`). */
  function CountData(l: seq<BatchChunk>): (n: nat)
    ensures n <= |l|
  {
    if l == [] then 0 else CountData(l[..|l| - 1]) + (if l[|l| - 1].chunkData.Some? then 1 else 0)
  }

  lemma {:induction false} CountDataAll(l: seq<BatchChunk>)
    requires forall i :: 0 <= i < |l| ==> l[i].chunkData.Some?
    ensures CountData(l) == |l|
    decreases |l|
  {
    if l != [] {
      CountDataAll(l[..|l| - 1]);
    }
  }

  /** The positions from `k` on whose chunk has no data, in order. */
  function LackingFrom(l: seq<BatchChunk>, k: nat): (r: seq<nat>)
    requires k <= |l|
    ensures forall j :: 0 <= j < |r| ==> k <= r[j] < |l| && l[r[j]].chunkData.None?
    ensures forall i :: k <= i < |l| && l[i].chunkData.None? ==> i in r
    ensures forall j, j' :: 0 <= j < j' < |r| ==> r[j] < r[j']
    decreases |l| - k
  {
    if k == |l| then []
    else if l[k].chunkData.None? then [k] + LackingFrom(l, k + 1)
    else LackingFrom(l, k + 1)
  }

  /** `filter((item) => !item.chunkData).slice(0, maxParallel)`, as positions. */
  function RoundSelection(l: seq<BatchChunk>, maxParallel: nat): seq<nat> {
    var need := LackingFrom(l, 0);
    need[..Min(maxParallel, |need|)]
  }

  /** A round asks for the first `maxParallel` chunks without data, in index order, whatever
      their retry count; it is empty exactly when every chunk holds data (or the pool is 0). */
  lemma RoundSelectionIsFirstLacking(l: seq<BatchChunk>, maxParallel: nat)
    ensures var sel := RoundSelection(l, maxParallel);
      && (forall j :: 0 <= j < |sel| ==> sel[j] < |l| && l[sel[j]].chunkData.None?)
      && (forall j, j' :: 0 <= j < j' < |sel| ==> sel[j] < sel[j'])
      && |sel| == Min(maxParallel, |LackingFrom(l, 0)|)
      && (forall i, j :: 0 <= j < |sel| && 0 <= i < sel[j] && l[i].chunkData.None? ==> i in sel)
      && (|sel| < maxParallel ==> forall i :: 0 <= i < |l| && l[i].chunkData.None? ==> i in sel)
      && (sel == [] <==> maxParallel == 0 || forall i :: 0 <= i < |l| ==> l[i].chunkData.Some?)
  {
    SelectionSkipsNone(l, maxParallel);
    SelectionEmpty(l, maxParallel);
  }

  /** No chunk lacking data below a selected one is passed over. */
  lemma SelectionSkipsNone(l: seq<BatchChunk>, maxParallel: nat)
    ensures var sel := RoundSelection(l, maxParallel);
      forall i, j :: 0 <= j < |sel| && 0 <= i < sel[j] && l[i].chunkData.None? ==> i in sel
  {
    var need := LackingFrom(l, 0);
    var sel := RoundSelection(l, maxParallel);
    forall i, j | 0 <= j < |sel| && 0 <= i < sel[j] && l[i].chunkData.None?
      ensures i in sel
    {
      var m :| 0 <= m < |need| && need[m] == i;
      assert sel[m] == i;
    }
  }

  lemma SelectionEmpty(l: seq<BatchChunk>, maxParallel: nat)
    ensures var sel := RoundSelection(l, maxParallel);
      && (|sel| < maxParallel ==> forall i :: 0 <= i < |l| && l[i].chunkData.None? ==> i in sel)
      && (sel == [] <==> maxParallel == 0 || forall i :: 0 <= i < |l| ==> l[i].chunkData.Some?)
  {
    var need := LackingFrom(l, 0);
    var sel := RoundSelection(l, maxParallel);
    assert |need| > 0 ==> need[0] < |l| && l[need[0]].chunkData.None?;
    if maxParallel > 0 && sel == [] {
      assert |need| == 0;
    }
  }

  /** The requests of a round, one per selected chunk, with the chunk's own controller. */
  function RoundRequests(l: seq<BatchChunk>, sel: seq<nat>): (r: seq<BatchRequest>)
    requires forall j :: 0 <= j < |sel| ==> sel[j] < |l|
  {
    seq(|sel|, j requires 0 <= j < |sel| => BatchRequest(l[sel[j]].index, l[sel[j]].range, l[sel[j]].token, false))
  }

  /** One result applied to its chunk: the data when fulfilled, one more retry when rejected. */
  function ApplyResult(c: BatchChunk, ret: P.ChunkRet): BatchChunk {
    if ret.Fulfilled? then c.(chunkData := Some(ret.chunkData)) else c.(retryCount := c.retryCount + 1)
  }

  /** The `res.forEach` of a round: the results in order; a result for an index outside the
      list throws, after the earlier ones were applied. */
  function Applied(l: seq<BatchChunk>, results: seq<RoundResult>): (r: (seq<BatchChunk>, bool))
    ensures |r.0| == |l|
  {
    if results == [] then (l, true)
    else
      var (front, ok) := Applied(l, results[..|results| - 1]);
      var last := results[|results| - 1];
      if !ok || last.chunkIndex >= |front| then (front, false)
      else (front[last.chunkIndex := ApplyResult(front[last.chunkIndex], last.ret)], true)
  }

  /** The data of every chunk, in index order. */
  function PartsOf(l: seq<BatchChunk>): (r: seq<P.Bytes>)
    requires forall i :: 0 <= i < |l| ==> l[i].chunkData.Some?
  {
    seq(|l|, k requires 0 <= k < |l| => l[k].chunkData.value)
  }

  /** The `for` loop after a round: another round runs iff some chunk has no data and is still
      within its retry budget. */
  predicate Continues(l: seq<BatchChunk>, maxChunkAutoRetry: nat) {
    exists i :: 0 <= i < |l| && l[i].chunkData.None? && l[i].retryCount <= maxChunkAutoRetry
  }

  /** `manualRetry`: only the counts above the budget go back to 0. */
  function ResetOverBudget(l: seq<BatchChunk>, maxChunkAutoRetry: nat): (r: seq<BatchChunk>)
    ensures |r| == |l|
  {
    seq(|l|, i requires 0 <= i < |l| => if l[i].retryCount > maxChunkAutoRetry then l[i].(retryCount := 0) else l[i])
  }

  // ---------------------------------------------------------------------------------------
  // The plan

  /** The range of chunk `k >= 1`: `k*cs` to `(k+1)*cs`, the last one cut at `total`. */
  function BatchRange(chunkSize: nat, total: nat, k: nat): ByteRange {
    ByteRange(k * chunkSize, if (k + 1) * chunkSize >= total then total else (k + 1) * chunkSize)
  }

  /** The chunks `Array.from` builds after the probe, with fresh controllers `token..`. */
  function BatchBody(chunkSize: nat, total: nat, token: P.Token): (r: seq<BatchChunk>)
  {
    seq(P.BodyLength(chunkSize, total), idx requires 0 <= idx =>
      BatchChunk(token + idx, BatchRange(chunkSize, total, idx + 1), None, idx + 1, 0))
  }

  /** The plan of a large file: chunk 0 keeps the probe's data, there are `ceil(total/cs)`
      chunks, each at its own index, chunk k covering `BatchRange(k)`, every range non-empty,
      and each range starting where the previous one ends: the boundary byte is in both. */
  lemma {:induction false} BatchPlanShape(c0: BatchChunk, chunkSize: nat, total: nat, token: P.Token)
    requires chunkSize > 0 && total > chunkSize
    requires c0.range == ByteRange(0, chunkSize) && c0.index == 0
    ensures var full := [c0] + BatchBody(chunkSize, total, token);
      && |full| == P.Ceil(total, chunkSize)
      && (forall k :: 0 <= k < |full| ==> full[k].index == k)
      && (forall k :: 1 <= k < |full| ==> full[k].range == BatchRange(chunkSize, total, k))
      && (forall k :: 0 <= k < |full| ==> full[k].range.first <= full[k].range.last)
      && (forall k :: 0 < k < |full| ==> full[k].range.first == full[k - 1].range.last)
      && full[|full| - 1].range.last == total
  {
    var full := [c0] + BatchBody(chunkSize, total, token);
    var n := P.Ceil(total, chunkSize);
    P.CeilBounds(total, chunkSize);
    assert n >= 2;
    forall k | 1 <= k < |full|
      ensures full[k].range == BatchRange(chunkSize, total, k)
      ensures full[k].range.first <= full[k].range.last
      ensures full[k].range.first == full[k - 1].range.last
    {
      assert full[k] == BatchBody(chunkSize, total, token)[k - 1];
      assert k * chunkSize < total by {
        P.MulMono(k, n - 1, chunkSize);
      }
    }
    assert (n - 1 + 1) * chunkSize >= total;
  }

  /** An instance of the overlap: with a 1 KiB chunk size and a 2049-byte file the probe asks
      for bytes 0-1024 and chunk 1 for bytes 1024-2048, so byte 1024 is fetched, and
      delivered, twice. */
  lemma BatchPlanRepeatsBoundaryByte()
    ensures var full := [BatchChunk(0, ByteRange(0, 1024), None, 0, 0)] + BatchBody(1024, 2049, 1);
      && |full| == 3
      && full[0].range == ByteRange(0, 1024) && full[1].range == ByteRange(1024, 2048)
      && full[2].range == ByteRange(2048, 2049)
      && full[0].range.first <= 1024 <= full[0].range.last && full[1].range.first <= 1024 <= full[1].range.last
  {
    var body := BatchBody(1024, 2049, 1);
    assert P.Ceil(2049, 1024) == 3;
    assert body[0].range == BatchRange(1024, 2049, 1);
    assert body[1].range == BatchRange(1024, 2049, 2);
  }

  // ---------------------------------------------------------------------------------------
  // The downloader as a value

  /** Everything a batch `ChunksDownload` holds, together with what it has sent out so far. */
  datatype BatchState = BatchState(
    terminated: bool,
    chunkInfoList: seq<BatchChunk>,
    fileName: string,
    fileContentType: Option<string>,
    option: BatchConfig,
    nextToken: P.Token,
    aborted: set<P.Token>,
    requests: seq<BatchRequest>,
    deliveries: seq<P.Delivery>)

  ghost predicate Consistent(s: BatchState) {
    && WellFormed(s.chunkInfoList)
    && TokensBelow(s.chunkInfoList, s.nextToken)
    && RequestTokensBelow(s.requests, s.nextToken)
  }

  /** The controller of every chunk. */
  function AllTokens(l: seq<BatchChunk>): set<P.Token> {
    set i | 0 <= i < |l| :: l[i].token
  }

  /** `getChunksParallel` up to its `await`: once terminated it resolves to `terminate` with the
      chunks holding data; with nothing to fetch it delivers the parts (or hits the "not reach"
      guard, which only a pool of 0 leaves possible); otherwise it sends the round's requests. */
  function RoundStarted(s: BatchState): (BatchState, Result<RoundOutcome, BatchError>) {
    var l := s.chunkInfoList;
    if s.terminated then (s, Ok(Returned(Ret(Terminate, |l|, CountData(l)))))
    else
      var sel := RoundSelection(l, s.option.maxParallel);
      RoundSelectionIsFirstLacking(l, s.option.maxParallel);
      if sel == [] then
        if forall i :: 0 <= i < |l| ==> l[i].chunkData.Some? then
          (s.(deliveries := s.deliveries + [P.Delivery(s.fileName, s.fileContentType.GetOr(P.DefaultContentType), PartsOf(l))]),
           Ok(Returned(Ret(Success, |l|, |l|))))
        else (s, Err(NotReach))
      else (s.(requests := s.requests + RoundRequests(l, sel)), Ok(Awaiting(sel)))
  }

  /** The continuation after `Promise.all`: the results are applied in order, then another
      round runs while some chunk without data is within its budget, else the result is `fail`. */
  function RoundFinished(s: BatchState, results: seq<RoundResult>): (BatchState, Result<RoundOutcome, BatchError>) {
    var (l, ok) := Applied(s.chunkInfoList, results);
    var s1 := s.(chunkInfoList := l);
    if !ok then (s1, Err(UnknownChunk))
    else if Continues(l, s.option.maxChunkAutoRetry) then RoundStarted(s1)
    else (s1, Ok(Returned(Ret(Fail, |l|, CountData(l)))))
  }

  /** `manualRetry`. */
  function Retried(s: BatchState): (BatchState, Result<RoundOutcome, BatchError>) {
    RoundStarted(s.(chunkInfoList := ResetOverBudget(s.chunkInfoList, s.option.maxChunkAutoRetry)))
  }

  /** `terminate`: every chunk's controller is aborted, whatever its state. */
  function Stopped(s: BatchState): BatchState {
    s.(fileName := "", fileContentType := Some(""), terminated := true,
       aborted := s.aborted + AllTokens(s.chunkInfoList))
  }

  /** `download`, with the answer to the probe given. There is no guard against a second call. */
  function Downloaded(s: BatchState, probe: P.ChunkRet): (BatchState, Result<RoundOutcome, BatchError>) {
    var cs := ChunkSizeByte(s.option);
    var t0 := s.nextToken;
    var s1 := s.(terminated := false, nextToken := t0 + 1,
                 requests := s.requests + [BatchRequest(0, ByteRange(0, cs), t0, true)]);
    match probe
    case Rejected(reason) => (s1, Err(ProbeRejected(reason)))
    case Fulfilled(data, h) => Answered(s1, t0, data, h)
  }

  /** The rest of `download` once the probe (sent with controller `t0`) was answered. */
  function Answered(s1: BatchState, t0: P.Token, data: P.Bytes, h: P.Headers): (BatchState, Result<RoundOutcome, BatchError>) {
    var cs := ChunkSizeByte(s1.option);
    var s2 := s1.(fileName := h.fileName.GetOr(P.UnknownName), fileContentType := h.contentType);
    if h.contentRange.None? || h.contentRange.value == "" then (s2, Err(ContentRangeNotFound))
    else
      match ParseContentRange(h.contentRange.value)
      case None => (s2, Err(ProtocolError))
      case Some(cr) => SizeKnown(s2, t0, data, cr.total)
  }

  /** With the total size known: a file that fits the probe is delivered from it, otherwise the
      probe's chunk and the body chunks make the list and the first round starts. */
  function SizeKnown(s2: BatchState, t0: P.Token, data: P.Bytes, total: nat): (BatchState, Result<RoundOutcome, BatchError>) {
    var cs := ChunkSizeByte(s2.option);
    if total <= cs then
      (s2.(deliveries := s2.deliveries + [P.Delivery(s2.fileName, s2.fileContentType.GetOr(P.DefaultContentType), [data])]),
       Ok(Returned(Ret(Success, 1, 1))))
    else
      if cs == 0 then (s2.(chunkInfoList := [BatchChunk(t0, ByteRange(0, cs), Some(data), 0, 0)]), Err(InvalidArrayLength))
      else RoundStarted(Grown(s2, t0, data, total))
  }

  /** The list of a larger file: the probe's chunk, keeping its data, then the body chunks. */
  function Grown(s2: BatchState, t0: P.Token, data: P.Bytes, total: nat): BatchState {
    var cs := ChunkSizeByte(s2.option);
    s2.(chunkInfoList := [BatchChunk(t0, ByteRange(0, cs), Some(data), 0, 0)] + BatchBody(cs, total, s2.nextToken),
        nextToken := s2.nextToken + P.BodyLength(cs, total))
  }

  // ---------------------------------------------------------------------------------------
  // What the transitions promise

  /** A round asked for exactly the chunks at `sel` (increasing), and `results` answers them in
      that order, as `Promise.all` does. */
  ghost predicate Answers(l: seq<BatchChunk>, sel: seq<nat>, results: seq<RoundResult>) {
    && |results| == |sel|
    && (forall j :: 0 <= j < |sel| ==> sel[j] < |l| && results[j].chunkIndex == sel[j])
    && (forall j, j' :: 0 <= j < j' < |sel| ==> sel[j] < sel[j'])
  }

  /** What a chunk still owes the transfer: the attempts left to a chunk without data. */
  function Term(c: BatchChunk, maxChunkAutoRetry: nat): nat {
    if c.chunkData.None? && c.retryCount <= maxChunkAutoRetry then maxChunkAutoRetry + 1 - c.retryCount else 0
  }

  /** The attempts left over the whole list. */
  function Budget(l: seq<BatchChunk>, maxChunkAutoRetry: nat): nat {
    if l == [] then 0 else Budget(l[..|l| - 1], maxChunkAutoRetry) + Term(l[|l| - 1], maxChunkAutoRetry)
  }

  lemma {:induction false} BudgetUpdate(l: seq<BatchChunk>, i: nat, c: BatchChunk, max: nat)
    requires i < |l|
    ensures Budget(l[i := c], max) == Budget(l, max) - Term(l[i], max) + Term(c, max)
    decreases |l|
  {
    var l' := l[i := c];
    if i == |l| - 1 {
      assert l'[..|l'| - 1] == l[..|l| - 1];
    } else {
      assert l'[..|l'| - 1] == l[..|l| - 1][i := c];
      BudgetUpdate(l[..|l| - 1], i, c, max);
    }
  }

  lemma {:induction false} BudgetBound(l: seq<BatchChunk>, max: nat)
    ensures Budget(l, max) <= |l| * (max + 1)
    decreases |l|
  {
    if l != [] {
      BudgetBound(l[..|l| - 1], max);
    }
  }

  /** Applying the answers of a round changes exactly the chunks asked for, each by its own
      result, and never throws. */
  lemma {:induction false} AppliedSelection(l: seq<BatchChunk>, sel: seq<nat>, results: seq<RoundResult>)
    requires Answers(l, sel, results)
    ensures var (l', ok) := Applied(l, results);
      && ok
      && (forall j :: 0 <= j < |sel| ==> l'[sel[j]] == ApplyResult(l[sel[j]], results[j].ret))
      && (forall i :: 0 <= i < |l| && i !in sel ==> l'[i] == l[i])
    decreases |sel|
  {
    if sel != [] {
      var m := |sel| - 1;
      var front, i := sel[..m], sel[m];
      assert Answers(l, front, results[..m]);
      AppliedSelection(l, front, results[..m]);
      var l1 := Applied(l, results[..m]).0;
      LastNotInFront(sel);
      assert l1[i] == l[i];
      var l' := l1[i := ApplyResult(l1[i], results[m].ret)];
      assert Applied(l, results) == (l', true);
      forall j | 0 <= j < |sel| ensures l'[sel[j]] == ApplyResult(l[sel[j]], results[j].ret) {
        if j < m {
          assert sel[j] < i;
        }
      }
      forall k | 0 <= k < |l| && k !in sel ensures l'[k] == l[k] {
        assert k !in front && k != i;
      }
    } else {
      assert Applied(l, results) == (l, true);
    }
  }

  /** In a strictly increasing selection the last position is not among the earlier ones. */
  lemma LastNotInFront(sel: seq<nat>)
    requires sel != [] && forall j, j' :: 0 <= j < j' < |sel| ==> sel[j] < sel[j']
    ensures sel[|sel| - 1] !in sel[..|sel| - 1]
  {
    var m := |sel| - 1;
    forall j | 0 <= j < m ensures sel[..m][j] != sel[m] {
      assert sel[j] < sel[m];
    }
  }

  /** A round whose chunks were all lacking data and within the budget spends at least one
      attempt of the budget per chunk asked for. */
  lemma {:induction false} AppliedSpends(l: seq<BatchChunk>, sel: seq<nat>, results: seq<RoundResult>, max: nat)
    requires Answers(l, sel, results)
    requires forall j :: 0 <= j < |sel| ==> l[sel[j]].chunkData.None? && l[sel[j]].retryCount <= max
    ensures Budget(Applied(l, results).0, max) + |sel| <= Budget(l, max)
    decreases |sel|
  {
    if sel != [] {
      var m := |sel| - 1;
      var front, i := sel[..m], sel[m];
      assert Answers(l, front, results[..m]);
      AppliedSpends(l, front, results[..m], max);
      AppliedSelection(l, front, results[..m]);
      var l1 := Applied(l, results[..m]).0;
      LastNotInFront(sel);
      assert l1[i] == l[i];
      var c := ApplyResult(l1[i], results[m].ret);
      assert Applied(l, results) == (l1[i := c], true);
      BudgetUpdate(l1, i, c, max);
    } else {
      assert Applied(l, results) == (l, true);
    }
  }

  /** The rounds as the comments of util.ts intend them ("chunks without data whose retry count
      has not passed the maximum"): the first `maxParallel` chunks without data within budget. */
  function BudgetedFrom(l: seq<BatchChunk>, max: nat, k: nat): (r: seq<nat>)
    requires k <= |l|
    ensures forall j :: 0 <= j < |r| ==> k <= r[j] < |l| && l[r[j]].chunkData.None? && l[r[j]].retryCount <= max
    ensures forall i :: k <= i < |l| && l[i].chunkData.None? && l[i].retryCount <= max ==> i in r
    ensures forall j, j' :: 0 <= j < j' < |r| ==> r[j] < r[j']
    decreases |l| - k
  {
    if k == |l| then []
    else if l[k].chunkData.None? && l[k].retryCount <= max then [k] + BudgetedFrom(l, max, k + 1)
    else BudgetedFrom(l, max, k + 1)
  }

  function BudgetedSelection(l: seq<BatchChunk>, maxParallel: nat, max: nat): seq<nat> {
    var need := BudgetedFrom(l, max, 0);
    need[..Min(maxParallel, |need|)]
  }

  /** With the budgeted selection every further round spends at least one attempt, so a transfer
      runs at most `|l| * (maxChunkAutoRetry + 1)` rounds whatever the server answers. */
  lemma BudgetedRoundsTerminate(l: seq<BatchChunk>, maxParallel: nat, max: nat, results: seq<RoundResult>)
    requires maxParallel > 0 && Continues(l, max)
    requires Answers(l, BudgetedSelection(l, maxParallel, max), results)
    ensures BudgetedSelection(l, maxParallel, max) != []
    ensures Applied(l, results).1
    ensures Budget(Applied(l, results).0, max) < Budget(l, max) <= |l| * (max + 1)
  {
    BudgetedNonEmpty(l, maxParallel, max);
    var sel := BudgetedSelection(l, maxParallel, max);
    AppliedSelection(l, sel, results);
    AppliedSpends(l, sel, results, max);
    BudgetBound(l, max);
  }

  lemma BudgetedNonEmpty(l: seq<BatchChunk>, maxParallel: nat, max: nat)
    requires maxParallel > 0 && Continues(l, max)
    ensures var sel := BudgetedSelection(l, maxParallel, max);
      && sel != []
      && forall j :: 0 <= j < |sel| ==> sel[j] < |l| && l[sel[j]].chunkData.None? && l[sel[j]].retryCount <= max
  {
    var i :| 0 <= i < |l| && l[i].chunkData.None? && l[i].retryCount <= max;
    var need := BudgetedFrom(l, max, 0);
    assert i in need;
  }

  /** The state of the starvation example, as `download` leaves it for a 2049-byte file with a
      1 KiB chunk size, a pool of one and no automatic retry (the probe's `0-1024` answered),
      after chunk 1 has failed `k` times; chunk 2 was never asked for. */
  function StarveState(k: nat, requests: seq<BatchRequest>): BatchState {
    BatchState(false,
               [BatchChunk(0, ByteRange(0, 1024), Some([]), 0, 0),
                BatchChunk(1, ByteRange(1024, 2048), None, 1, k),
                BatchChunk(2, ByteRange(2048, 2049), None, 2, 0)],
               "f", None, BatchConfig(1, 1, 0), 3, {}, requests, [])
  }

  lemma StarveRoundStarts(k: nat, requests: seq<BatchRequest>)
    ensures RoundStarted(StarveState(k, requests)) ==
              (StarveState(k, requests + [BatchRequest(1, ByteRange(1024, 2048), 1, false)]), Ok(Awaiting([1])))
  {
    var l := StarveState(k, requests).chunkInfoList;
    StarveSelection(l, k);
    assert RoundRequests(l, [1]) == [BatchRequest(1, ByteRange(1024, 2048), 1, false)];
  }

  lemma StarveSelection(l: seq<BatchChunk>, k: nat)
    requires l == StarveState(k, []).chunkInfoList
    ensures RoundSelection(l, 1) == [1]
  {
    assert LackingFrom(l, 2) == [2] + LackingFrom(l, 3);
    assert LackingFrom(l, 0) == LackingFrom(l, 1) == [1, 2];
  }

  lemma StarveApplied(k: nat)
    ensures Applied(StarveState(k, []).chunkInfoList, [RoundResult(1, P.Rejected("e"))]) ==
              (StarveState(k + 1, []).chunkInfoList, true)
    ensures Continues(StarveState(k + 1, []).chunkInfoList, 0)
  {
    var l := StarveState(k, []).chunkInfoList;
    var l' := StarveState(k + 1, []).chunkInfoList;
    var rs := [RoundResult(1, P.Rejected("e"))];
    assert rs[..0] == [];
    assert l[1 := ApplyResult(l[1], rs[0].ret)] == l';
    assert l'[2].chunkData.None? && l'[2].retryCount <= 0;
  }

  lemma StarveBudget(k: nat)
    requires k >= 1
    ensures Budget(StarveState(k, []).chunkInfoList, 0) == 1
  {
    var a := StarveState(k, []).chunkInfoList;
    assert a[..2][..1] == [a[0]];
    assert a[..2][..1][..0] == [];
    assert Budget(a[..2][..1], 0) == 0;
    assert Budget(a[..2], 0) == 0;
    assert Term(a[2], 0) == 1;
  }

  /** As written, a round also asks again for chunks past their budget: while chunk 1 keeps
      failing, every round asks for chunk 1 only and the next round always runs, because
      chunk 2 is within its budget. Chunk 2 is never requested and the budget never shrinks. */
  lemma RoundsCanStarve(k: nat, requests: seq<BatchRequest>)
    ensures RoundStarted(StarveState(0, requests)) ==
              (StarveState(0, requests + [BatchRequest(1, ByteRange(1024, 2048), 1, false)]), Ok(Awaiting([1])))
    ensures RoundFinished(StarveState(k, requests), [RoundResult(1, P.Rejected("e"))]) ==
              (StarveState(k + 1, requests + [BatchRequest(1, ByteRange(1024, 2048), 1, false)]), Ok(Awaiting([1])))
    ensures k >= 1 ==> Budget(StarveState(k + 1, []).chunkInfoList, 0) == Budget(StarveState(k, []).chunkInfoList, 0) == 1
  {
    StarveRoundStarts(0, requests);
    StarveApplied(k);
    StarveRoundStarts(k + 1, requests);
    assert StarveState(k, requests).(chunkInfoList := StarveState(k + 1, []).chunkInfoList) == StarveState(k + 1, requests);
    if k >= 1 {
      StarveBudget(k);
      StarveBudget(k + 1);
    }
  }

  /** A round's results apply without error exactly when every index is in the list. */
  lemma {:induction false} AppliedOk(l: seq<BatchChunk>, results: seq<RoundResult>)
    ensures Applied(l, results).1 <==> forall j :: 0 <= j < |results| ==> results[j].chunkIndex < |l|
    decreases |results|
  {
    if results != [] {
      var m := |results| - 1;
      AppliedOk(l, results[..m]);
      assert forall j :: 0 <= j < m ==> results[..m][j] == results[j];
    }
  }

  lemma RoundStartedOutcomes(s: BatchState)
    ensures var (r, o) := RoundStarted(s);
      var l := s.chunkInfoList;
      && r.chunkInfoList == l && r.terminated == s.terminated && r.nextToken == s.nextToken && r.aborted == s.aborted
      && (s.terminated ==> r == s && o == Ok(Returned(Ret(Terminate, |l|, CountData(l)))))
      && (o == Ok(Returned(Ret(Success, |l|, |l|))) <==> !s.terminated && forall i :: 0 <= i < |l| ==> l[i].chunkData.Some?)
      && (o == Ok(Returned(Ret(Success, |l|, |l|))) ==>
            && CountData(l) == |l|
            && r == s.(deliveries := s.deliveries + [P.Delivery(s.fileName, s.fileContentType.GetOr(P.DefaultContentType), PartsOf(l))]))
      && (o == Err(NotReach) <==>
            !s.terminated && s.option.maxParallel == 0 && exists i :: 0 <= i < |l| && l[i].chunkData.None?)
      && (o.Ok? && o.value.Awaiting? ==>
            && !s.terminated
            && o.value.need == RoundSelection(l, s.option.maxParallel) != []
            && r == s.(requests := s.requests + RoundRequests(l, o.value.need)))
      && (!s.terminated && o.Ok? ==> o == Ok(Returned(Ret(Success, |l|, |l|))) || o.value.Awaiting?)
  {
    var l := s.chunkInfoList;
    RoundSelectionIsFirstLacking(l, s.option.maxParallel);
    if forall i :: 0 <= i < |l| ==> l[i].chunkData.Some? {
      CountDataAll(l);
    }
  }

  /** The results of a round whose requests were answered: no error, the asked-for chunks take
      their results, and every other chunk (so every chunk holding data) is unchanged. */
  lemma RoundAnswered(l: seq<BatchChunk>, maxParallel: nat, results: seq<RoundResult>)
    requires Answers(l, RoundSelection(l, maxParallel), results)
    ensures var sel := RoundSelection(l, maxParallel);
      var l' := Applied(l, results).0;
      && Applied(l, results).1
      && (forall j :: 0 <= j < |sel| ==> l'[sel[j]] == ApplyResult(l[sel[j]], results[j].ret))
      && (forall i :: 0 <= i < |l| && i !in sel ==> l'[i] == l[i])
      && (forall i :: 0 <= i < |l| && l[i].chunkData.Some? ==> l'[i] == l[i])
  {
    var sel := RoundSelection(l, maxParallel);
    RoundSelectionIsFirstLacking(l, maxParallel);
    AppliedSelection(l, sel, results);
    var l' := Applied(l, results).0;
    forall i | 0 <= i < |l| && l[i].chunkData.Some? ensures l'[i] == l[i] {
      assert i !in sel;
    }
  }

  /** After the results are applied, the next step is another round exactly while `Continues`,
      else `fail` with the chunks holding data; an unknown index throws. */
  lemma RoundFinishedOutcomes(s: BatchState, results: seq<RoundResult>)
    ensures var l' := Applied(s.chunkInfoList, results).0;
      var (r, o) := RoundFinished(s, results);
      && (o == Err(UnknownChunk) <==> exists j :: 0 <= j < |results| && results[j].chunkIndex >= |s.chunkInfoList|)
      && (o != Err(UnknownChunk) && Continues(l', s.option.maxChunkAutoRetry) ==> (r, o) == RoundStarted(s.(chunkInfoList := l')))
      && (o != Err(UnknownChunk) && !Continues(l', s.option.maxChunkAutoRetry) ==>
            r == s.(chunkInfoList := l') && o == Ok(Returned(Ret(Fail, |l'|, CountData(l')))))
  {
    AppliedOk(s.chunkInfoList, results);
    var l' := Applied(s.chunkInfoList, results).0;
    RoundStartedOutcomes(s.(chunkInfoList := l'));
  }

  /** `manualRetry` only clears the counts above the budget; data and everything else stay. */
  lemma {:induction false} RetryResets(l: seq<BatchChunk>, max: nat)
    ensures var r := ResetOverBudget(l, max);
      && (forall i :: 0 <= i < |l| ==> r[i].retryCount == (if l[i].retryCount > max then 0 else l[i].retryCount))
      && (forall i :: 0 <= i < |l| ==> r[i] == l[i].(retryCount := r[i].retryCount))
      && CountData(r) == CountData(l)
      && (forall i :: 0 <= i < |l| ==> r[i].retryCount <= max)
    decreases |l|
  {
    if l != [] {
      var m := |l| - 1;
      RetryResets(l[..m], max);
      assert ResetOverBudget(l, max)[..m] == ResetOverBudget(l[..m], max);
    }
  }

  /** After `terminate` every chunk's controller is aborted; the next round and a manual retry
      resolve to `terminate` with the chunks holding data. A round in flight, whose aborted
      requests come back rejected, resolves to `terminate` while some chunk lacking data is
      still within its budget and to `fail` otherwise (or throws on an unknown chunk). None of
      them sends anything. */
  lemma StoppedEnds(s: BatchState, results: seq<RoundResult>)
    ensures var t := Stopped(s);
      var l := s.chunkInfoList;
      && t.terminated && t.fileName == "" && t.fileContentType == Some("") && t.chunkInfoList == l
      && t.aborted == s.aborted + AllTokens(l)
      && (forall i :: 0 <= i < |l| ==> l[i].token in t.aborted)
      && RoundStarted(t) == (t, Ok(Returned(Ret(Terminate, |l|, CountData(l)))))
      && Retried(t).0.requests == t.requests
      && Retried(t).1 == Ok(Returned(Ret(Terminate, |l|, CountData(l))))
      && RoundFinished(t, results).0.requests == t.requests
      && !(RoundFinished(t, results).1.Ok? && RoundFinished(t, results).1.value.Awaiting?)
      && var (l', ok) := Applied(l, results);
         RoundFinished(t, results).1 ==
           if !ok then Err(UnknownChunk)
           else if Continues(l', s.option.maxChunkAutoRetry) then Ok(Returned(Ret(Terminate, |l'|, CountData(l'))))
           else Ok(Returned(Ret(Fail, |l'|, CountData(l'))))
  {
    RetryResets(s.chunkInfoList, s.option.maxChunkAutoRetry);
  }

  lemma RoundStartedConsistent(s: BatchState)
    requires Consistent(s)
    ensures Consistent(RoundStarted(s).0)
  {
    var l := s.chunkInfoList;
    RoundSelectionIsFirstLacking(l, s.option.maxParallel);
  }

  lemma RoundFinishedConsistent(s: BatchState, results: seq<RoundResult>)
    requires Consistent(s)
    ensures Consistent(RoundFinished(s, results).0)
  {
    AppliedKeeps(s.chunkInfoList, results, s.nextToken);
    RoundStartedConsistent(s.(chunkInfoList := Applied(s.chunkInfoList, results).0));
  }

  /** Applying results changes neither indices nor controllers. */
  lemma {:induction false} AppliedKeeps(l: seq<BatchChunk>, results: seq<RoundResult>, n: P.Token)
    ensures var l' := Applied(l, results).0;
      forall i :: 0 <= i < |l| ==> l'[i].index == l[i].index && l'[i].token == l[i].token && l'[i].range == l[i].range
    decreases |results|
  {
    if results != [] {
      AppliedKeeps(l, results[..|results| - 1], n);
    }
  }

  lemma RetriedConsistent(s: BatchState)
    requires Consistent(s)
    ensures Consistent(Retried(s).0)
  {
    RetryResets(s.chunkInfoList, s.option.maxChunkAutoRetry);
    RoundStartedConsistent(s.(chunkInfoList := ResetOverBudget(s.chunkInfoList, s.option.maxChunkAutoRetry)));
  }


  /** The header of the probe's answer, or no header at all for a rejected probe. */
  function ProbeHeaders(probe: P.ChunkRet): P.Headers {
    if probe.Fulfilled? then probe.chunkHeaders else P.Headers(None, None, None, None)
  }

  /** `download` always clears `terminated` and sends the probe with the configured data before
      anything else; each error is raised in exactly its own situation. */
  lemma DownloadFailures(s: BatchState, probe: P.ChunkRet)
    ensures var (r, o) := Downloaded(s, probe);
      var cs := ChunkSizeByte(s.option);
      var h := ProbeHeaders(probe);
      && !r.terminated
      && |r.requests| > |s.requests| && r.requests[..|s.requests|] == s.requests
      && r.requests[|s.requests|] == BatchRequest(0, ByteRange(0, cs), s.nextToken, true)
      && (probe.Rejected? ==> r.chunkInfoList == s.chunkInfoList && o == Err(ProbeRejected(probe.reason)))
      && (o == Err(ContentRangeNotFound) <==> probe.Fulfilled? && (h.contentRange.None? || h.contentRange.value == ""))
      && (o == Err(ProtocolError) <==>
            probe.Fulfilled? && h.contentRange.Some? && h.contentRange.value != "" && ParseContentRange(h.contentRange.value).None?)
      && (o == Err(InvalidArrayLength) <==>
            probe.Fulfilled? && h.contentRange.Some? && h.contentRange.value != "" && ParseContentRange(h.contentRange.value).Some?
            && cs == 0 && ParseContentRange(h.contentRange.value).value.total > 0)
  {
    var cs := ChunkSizeByte(s.option);
    var t0 := s.nextToken;
    var s1 := s.(terminated := false, nextToken := t0 + 1,
                 requests := s.requests + [BatchRequest(0, ByteRange(0, cs), t0, true)]);
    if probe.Fulfilled? {
      var h := probe.chunkHeaders;
      if h.contentRange.Some? && h.contentRange.value != "" && ParseContentRange(h.contentRange.value).Some? {
        var total := ParseContentRange(h.contentRange.value).value.total;
        var s2 := s1.(fileName := h.fileName.GetOr(P.UnknownName), fileContentType := h.contentType);
        if total > cs && cs > 0 {
          RoundStartedOutcomes(Grown(s2, t0, probe.chunkData, total));
        }
      }
    }
  }

  /** A file no larger than one chunk is delivered from the probe alone: the result is
      `success` with one chunk of one, and no chunk list is built. */
  lemma DownloadSmallFile(s: BatchState, data: P.Bytes, h: P.Headers, cr: ContentRange)
    requires h.contentRange.Some? && h.contentRange.value != "" && ParseContentRange(h.contentRange.value) == Some(cr)
    requires cr.total <= ChunkSizeByte(s.option)
    ensures var (r, o) := Downloaded(s, P.Fulfilled(data, h));
      var name := h.fileName.GetOr(P.UnknownName);
      && o == Ok(Returned(Ret(Success, 1, 1)))
      && r.chunkInfoList == s.chunkInfoList
      && r.deliveries == s.deliveries + [P.Delivery(name, h.contentType.GetOr(P.DefaultContentType), [data])]
  {
  }

  /** The state in which `download` of a larger file starts its first round. */
  function LargePlanned(s: BatchState, data: P.Bytes, h: P.Headers, total: nat): BatchState {
    var cs := ChunkSizeByte(s.option);
    var t0 := s.nextToken;
    var s1 := s.(terminated := false, nextToken := t0 + 1,
                 requests := s.requests + [BatchRequest(0, ByteRange(0, cs), t0, true)]);
    Grown(s1.(fileName := h.fileName.GetOr(P.UnknownName), fileContentType := h.contentType), t0, data, total)
  }

  lemma DownloadLargeReachesRound(s: BatchState, data: P.Bytes, h: P.Headers, cr: ContentRange)
    requires h.contentRange.Some? && h.contentRange.value != "" && ParseContentRange(h.contentRange.value) == Some(cr)
    requires cr.total > ChunkSizeByte(s.option) > 0
    ensures Downloaded(s, P.Fulfilled(data, h)) == RoundStarted(LargePlanned(s, data, h, cr.total))
  {
    var cs := ChunkSizeByte(s.option);
    var t0 := s.nextToken;
    var s1 := s.(terminated := false, nextToken := t0 + 1,
                 requests := s.requests + [BatchRequest(0, ByteRange(0, cs), t0, true)]);
    var s2 := s1.(fileName := h.fileName.GetOr(P.UnknownName), fileContentType := h.contentType);
    assert Downloaded(s, P.Fulfilled(data, h)) == Answered(s1, t0, data, h) == SizeKnown(s2, t0, data, cr.total);
  }

  /** A larger file is planned as the probe's chunk, keeping its data, followed by the body
      chunks with fresh controllers. */
  lemma DownloadLargeFile(s: BatchState, data: P.Bytes, h: P.Headers, cr: ContentRange)
    requires h.contentRange.Some? && h.contentRange.value != "" && ParseContentRange(h.contentRange.value) == Some(cr)
    requires cr.total > ChunkSizeByte(s.option) > 0
    ensures var r := Downloaded(s, P.Fulfilled(data, h)).0;
      var cs := ChunkSizeByte(s.option);
      var full := [BatchChunk(s.nextToken, ByteRange(0, cs), Some(data), 0, 0)] + BatchBody(cs, cr.total, s.nextToken + 1);
      && r.chunkInfoList == full
      && |full| == P.Ceil(cr.total, cs)
      && r.nextToken == s.nextToken + |full|
  {
    var cs := ChunkSizeByte(s.option);
    var t := LargePlanned(s, data, h, cr.total);
    DownloadLargeReachesRound(s, data, h, cr);
    BatchPlanShape(t.chunkInfoList[0], cs, cr.total, s.nextToken + 1);
    RoundStartedOutcomes(t);
  }

  /** The first round of a larger file asks for the first `maxParallel` body chunks, starting
      at chunk 1, or hits the "not reach" guard when the pool is 0. */
  lemma DownloadLargeFirstRound(s: BatchState, data: P.Bytes, h: P.Headers, cr: ContentRange)
    requires h.contentRange.Some? && h.contentRange.value != "" && ParseContentRange(h.contentRange.value) == Some(cr)
    requires cr.total > ChunkSizeByte(s.option) > 0
    ensures var o := Downloaded(s, P.Fulfilled(data, h)).1;
      var l := LargePlanned(s, data, h, cr.total).chunkInfoList;
      && (s.option.maxParallel == 0 ==> o == Err(NotReach))
      && (s.option.maxParallel > 0 ==>
            o == Ok(Awaiting(RoundSelection(l, s.option.maxParallel))) && RoundSelection(l, s.option.maxParallel)[0] == 1)
  {
    var cs := ChunkSizeByte(s.option);
    var t := LargePlanned(s, data, h, cr.total);
    DownloadLargeReachesRound(s, data, h, cr);
    P.CeilBounds(cr.total, cs);
    FirstRoundAsksChunkOne(t);
  }

  /** With the probe's chunk holding data and chunk 1 lacking it, the first round starts at 1. */
  lemma FirstRoundAsksChunkOne(t: BatchState)
    requires !t.terminated && |t.chunkInfoList| >= 2
    requires t.chunkInfoList[0].chunkData.Some? && t.chunkInfoList[1].chunkData.None?
    ensures var l := t.chunkInfoList;
      var mp := t.option.maxParallel;
      && (mp == 0 ==> RoundStarted(t).1 == Err(NotReach))
      && (mp > 0 ==> RoundStarted(t).1 == Ok(Awaiting(RoundSelection(l, mp))) && RoundSelection(l, mp)[0] == 1)
  {
    var l := t.chunkInfoList;
    assert LackingFrom(l, 0) == LackingFrom(l, 1) == [1] + LackingFrom(l, 2);
    RoundStartedOutcomes(t);
  }

  lemma DownloadedConsistent(s: BatchState, probe: P.ChunkRet)
    requires Consistent(s)
    ensures Consistent(Downloaded(s, probe).0)
  {
    var cs := ChunkSizeByte(s.option);
    var t0 := s.nextToken;
    var s1 := s.(terminated := false, nextToken := t0 + 1,
                 requests := s.requests + [BatchRequest(0, ByteRange(0, cs), t0, true)]);
    assert Consistent(s1);
    if probe.Fulfilled? {
      assert Downloaded(s, probe) == Answered(s1, t0, probe.chunkData, probe.chunkHeaders);
      AnsweredConsistent(s1, t0, probe.chunkData, probe.chunkHeaders);
    } else {
      assert Downloaded(s, probe).0 == s1;
    }
  }

  lemma AnsweredConsistent(s1: BatchState, t0: P.Token, data: P.Bytes, h: P.Headers)
    requires Consistent(s1) && t0 < s1.nextToken
    ensures Consistent(Answered(s1, t0, data, h).0)
  {
    var cs := ChunkSizeByte(s1.option);
    if h.contentRange.Some? && h.contentRange.value != "" && ParseContentRange(h.contentRange.value).Some? {
      var total := ParseContentRange(h.contentRange.value).value.total;
      if total > cs && cs > 0 {
        var s3 := s1.(fileName := h.fileName.GetOr(P.UnknownName), fileContentType := h.contentType,
                      chunkInfoList := [BatchChunk(t0, ByteRange(0, cs), Some(data), 0, 0)]);
        assert Consistent(s3);
        BodyConsistent(s3, total);
        var s4 := Grown(s3, t0, data, total);
        assert Answered(s1, t0, data, h) == RoundStarted(s4);
        RoundStartedConsistent(s4);
      }
    }
  }


  /** Once a result throws, the later ones are never applied. */
  lemma {:induction false} AppliedStaysFailed(l: seq<BatchChunk>, results: seq<RoundResult>, j: nat)
    requires j <= |results| && !Applied(l, results[..j]).1
    ensures Applied(l, results) == Applied(l, results[..j])
    decreases |results| - j
  {
    if j < |results| {
      assert results[..j + 1][..j] == results[..j];
      AppliedStaysFailed(l, results, j + 1);
    } else {
      assert results[..j] == results;
    }
  }

  lemma AllTokensSnoc(l: seq<BatchChunk>, k: nat)
    requires k < |l|
    ensures AllTokens(l[..k + 1]) == AllTokens(l[..k]) + {l[k].token}
  {
    var a, b := l[..k + 1], l[..k];
    forall t | t in AllTokens(a) ensures t in AllTokens(b) + {l[k].token} {
      var i :| 0 <= i < |a| && a[i].token == t;
      if i < k { assert b[i] == a[i]; }
    }
    forall t | t in AllTokens(b) + {l[k].token} ensures t in AllTokens(a) {
      if t == l[k].token { assert a[k] == l[k]; }
      else { var i :| 0 <= i < |b| && b[i].token == t; assert a[i] == b[i]; }
    }
  }

  /** Appending the body chunks to the probe's chunk keeps the state consistent. */
  lemma BodyConsistent(s: BatchState, total: nat)
    requires Consistent(s) && |s.chunkInfoList| == 1
    ensures var cs := ChunkSizeByte(s.option);
      Consistent(s.(chunkInfoList := s.chunkInfoList + BatchBody(cs, total, s.nextToken),
                    nextToken := s.nextToken + P.BodyLength(cs, total)))
  {
    var cs := ChunkSizeByte(s.option);
    var l := s.chunkInfoList + BatchBody(cs, total, s.nextToken);
    assert forall i :: 1 <= i < |l| ==> l[i] == BatchBody(cs, total, s.nextToken)[i - 1];
  }

  // ---------------------------------------------------------------------------------------
  // The class

  class ChunksDownload {
    var terminated: bool
    var chunkInfoList: seq<BatchChunk>
    var fileName: string
    var fileContentType: Option<string>
    var option: BatchConfig

    // The environment: controllers created so far, aborted ones, and what was sent out.
    var nextToken: P.Token
    var aborted: set<P.Token>
    var requests: seq<BatchRequest>
    var deliveries: seq<P.Delivery>

    function State(): BatchState
      reads this
    {
      BatchState(terminated, chunkInfoList, fileName, fileContentType, option, nextToken, aborted, requests, deliveries)
    }

    ghost predicate Valid()
      reads this
    {
      Consistent(State())
    }

    /** The constructor: the options with their defaults, and nothing downloaded yet. */
    constructor (o: BatchOption)
      ensures Valid()
      ensures State() == BatchState(false, [], "", Some(""), MergeOption(o), 0, {}, [], [])
    {
      terminated := false;
      chunkInfoList := [];
      fileName := "";
      fileContentType := Some("");
      option := MergeOption(o);
      nextToken := 0;
      aborted := {};
      requests := [];
      deliveries := [];
    }

    /** `filter((item) => !item.chunkData)`, walked from the end, then `slice(0, maxParallel)`. */
    static method SelectRound(l: seq<BatchChunk>, maxParallel: nat) returns (sel: seq<nat>)
      ensures sel == RoundSelection(l, maxParallel)
    {
      var need: seq<nat> := [];
      var k := |l|;
      while k > 0
        invariant 0 <= k <= |l|
        invariant need == LackingFrom(l, k)
      {
        k := k - 1;
        if l[k].chunkData.None? {
          need := [k] + need;
        }
      }
      sel := need[..Min(maxParallel, |need|)];
    }

    /** The `for` loop that gathers the parts, with its "not reach" guard. */
    static method GatherParts(l: seq<BatchChunk>) returns (r: Result<seq<P.Bytes>, BatchError>)
      ensures (forall i :: 0 <= i < |l| ==> l[i].chunkData.Some?) ==> r == Ok(PartsOf(l))
      ensures !(forall i :: 0 <= i < |l| ==> l[i].chunkData.Some?) ==> r == Err(NotReach)
    {
      var parts: seq<P.Bytes> := [];
      var k := 0;
      while k < |l|
        invariant 0 <= k <= |l|
        invariant forall i :: 0 <= i < k ==> l[i].chunkData.Some?
        invariant |parts| == k && forall i :: 0 <= i < k ==> parts[i] == l[i].chunkData.value
      {
        if l[k].chunkData.None? {
          return Err(NotReach);
        }
        parts := parts + [l[k].chunkData.value];
        k := k + 1;
      }
      assert parts == PartsOf(l);
      return Ok(parts);
    }

    /** The `for` loop after a round: is some chunk without data still within its budget? */
    static method AnyWithinBudget(l: seq<BatchChunk>, maxChunkAutoRetry: nat) returns (b: bool)
      ensures b == Continues(l, maxChunkAutoRetry)
    {
      var k := 0;
      while k < |l|
        invariant 0 <= k <= |l|
        invariant forall i :: 0 <= i < k ==> !(l[i].chunkData.None? && l[i].retryCount <= maxChunkAutoRetry)
      {
        if l[k].chunkData.None? && l[k].retryCount <= maxChunkAutoRetry {
          return true;
        }
        k := k + 1;
      }
      return false;
    }

    /** `getChunksParallel` up to its `await`. */
    method GetChunksParallel() returns (r: Result<RoundOutcome, BatchError>)
      requires Valid()
      modifies this`requests, this`deliveries
      ensures Valid()
      ensures (State(), r) == RoundStarted(old(State()))
    {
      ghost var s0 := State();
      RoundStartedConsistent(s0);
      if terminated {
        return Ok(Returned(Ret(RetStatus.Terminate, |chunkInfoList|, CountData(chunkInfoList))));
      }
      var sel := SelectRound(chunkInfoList, option.maxParallel);
      if sel == [] {
        var parts := GatherParts(chunkInfoList);
        if parts.Err? {
          return Err(parts.error);
        }
        deliveries := deliveries + [P.Delivery(fileName, fileContentType.GetOr(P.DefaultContentType), parts.value)];
        return Ok(Returned(Ret(Success, |chunkInfoList|, |chunkInfoList|)));
      }
      RoundSelectionIsFirstLacking(chunkInfoList, option.maxParallel);
      requests := requests + RoundRequests(chunkInfoList, sel);
      return Ok(Awaiting(sel));
    }

    /** The `res.forEach` of a round, in place. */
    method ApplyResults(results: seq<RoundResult>) returns (ok: bool)
      requires Valid()
      modifies this`chunkInfoList
      ensures Valid()
      ensures (chunkInfoList, ok) == Applied(old(chunkInfoList), results)
    {
      ghost var l0 := chunkInfoList;
      AppliedKeeps(l0, results, nextToken);
      var j := 0;
      while j < |results|
        invariant 0 <= j <= |results|
        invariant (chunkInfoList, true) == Applied(l0, results[..j])
      {
        assert results[..j + 1][..j] == results[..j];
        var item := results[j];
        if item.chunkIndex >= |chunkInfoList| {
          assert Applied(l0, results[..j + 1]).1 == false;
          AppliedStaysFailed(l0, results, j + 1);
          return false;
        }
        chunkInfoList := chunkInfoList[item.chunkIndex := ApplyResult(chunkInfoList[item.chunkIndex], item.ret)];
        j := j + 1;
      }
      assert results[..j] == results;
      return true;
    }

    /** The continuation of a round once `Promise.all` has the results. */
    method FinishRound(results: seq<RoundResult>) returns (r: Result<RoundOutcome, BatchError>)
      requires Valid()
      modifies this`chunkInfoList, this`requests, this`deliveries
      ensures Valid()
      ensures (State(), r) == RoundFinished(old(State()), results)
    {
      var ok := ApplyResults(results);
      if !ok {
        return Err(UnknownChunk);
      }
      var again := AnyWithinBudget(chunkInfoList, option.maxChunkAutoRetry);
      if again {
        r := GetChunksParallel();
        return;
      }
      return Ok(Returned(Ret(Fail, |chunkInfoList|, CountData(chunkInfoList))));
    }

    /** The `for` loop of `manualRetry`, in place. */
    method ResetRetries()
      requires Valid()
      modifies this`chunkInfoList
      ensures Valid()
      ensures State() == old(State()).(chunkInfoList := ResetOverBudget(old(chunkInfoList), option.maxChunkAutoRetry))
    {
      ghost var l0 := chunkInfoList;
      var max := option.maxChunkAutoRetry;
      var k := 0;
      while k < |chunkInfoList|
        invariant 0 <= k <= |chunkInfoList| == |l0|
        invariant forall i :: 0 <= i < k ==> chunkInfoList[i] == ResetOverBudget(l0, max)[i]
        invariant forall i :: k <= i < |l0| ==> chunkInfoList[i] == l0[i]
      {
        if chunkInfoList[k].retryCount > max {
          chunkInfoList := chunkInfoList[k := chunkInfoList[k].(retryCount := 0)];
        }
        k := k + 1;
      }
      assert chunkInfoList == ResetOverBudget(l0, max);
      RetryResets(l0, max);
    }

    /** `manualRetry`. */
    method ManualRetry() returns (r: Result<RoundOutcome, BatchError>)
      requires Valid()
      modifies this`chunkInfoList, this`requests, this`deliveries
      ensures Valid()
      ensures (State(), r) == Retried(old(State()))
    {
      ResetRetries();
      r := GetChunksParallel();
    }

    /** The `forEach` that aborts every chunk's controller. */
    method AbortAll()
      requires Valid()
      modifies this`aborted
      ensures Valid()
      ensures State() == old(State()).(aborted := old(aborted) + AllTokens(chunkInfoList))
    {
      var k := 0;
      while k < |chunkInfoList|
        invariant 0 <= k <= |chunkInfoList|
        invariant aborted == old(aborted) + AllTokens(chunkInfoList[..k])
      {
        AllTokensSnoc(chunkInfoList, k);
        aborted := aborted + {chunkInfoList[k].token};
        k := k + 1;
      }
      assert chunkInfoList[..k] == chunkInfoList;
    }

    /** `terminate`. */
    method Terminate()
      requires Valid()
      modifies this`fileName, this`fileContentType, this`terminated, this`aborted
      ensures Valid()
      ensures State() == Stopped(old(State()))
    {
      fileName := "";
      fileContentType := Some("");
      terminated := true;
      AbortAll();
    }

    /** The probe's request: `terminated` cleared, a fresh controller, the configured data. */
    method SendProbe() returns (t0: P.Token)
      requires Valid()
      modifies this`terminated, this`nextToken, this`requests
      ensures Valid()
      ensures t0 == old(nextToken)
      ensures State() == old(State()).(terminated := false, nextToken := t0 + 1,
                                      requests := old(requests) + [BatchRequest(0, ByteRange(0, ChunkSizeByte(option)), t0, true)])
    {
      terminated := false;
      t0 := nextToken;
      nextToken := nextToken + 1;
      requests := requests + [BatchRequest(0, ByteRange(0, ChunkSizeByte(option)), t0, true)];
    }

    /** The plan of a larger file after the probe's chunk, and the first round. */
    method PlanBody(total: nat) returns (r: Result<RoundOutcome, BatchError>)
      requires Valid() && total > ChunkSizeByte(option) > 0 && |chunkInfoList| == 1
      modifies this`chunkInfoList, this`nextToken, this`requests, this`deliveries
      ensures Valid()
      ensures (State(), r) == RoundStarted(old(State()).(
                chunkInfoList := old(chunkInfoList) + BatchBody(ChunkSizeByte(option), total, old(nextToken)),
                nextToken := old(nextToken) + P.BodyLength(ChunkSizeByte(option), total)))
    {
      var cs := ChunkSizeByte(option);
      BodyConsistent(State(), total);
      chunkInfoList := chunkInfoList + BatchBody(cs, total, nextToken);
      nextToken := nextToken + P.BodyLength(cs, total);
      r := GetChunksParallel();
    }

    /** `download`, with the answer to the probe given. */
    method Download(probe: P.ChunkRet) returns (r: Result<RoundOutcome, BatchError>)
      requires Valid()
      modifies this
      ensures Valid()
      ensures (State(), r) == Downloaded(old(State()), probe)
    {
      var t0 := SendProbe();
      if probe.Rejected? {
        return Err(ProbeRejected(probe.reason));
      }
      r := AcceptAnswer(t0, probe.chunkData, probe.chunkHeaders);
    }

    /** The answered probe: name and type, then the size from the `Content-Range` header. */
    method AcceptAnswer(t0: P.Token, data: P.Bytes, h: P.Headers) returns (r: Result<RoundOutcome, BatchError>)
      requires Valid() && t0 < nextToken
      modifies this
      ensures Valid()
      ensures (State(), r) == Answered(old(State()), t0, data, h)
    {
      fileName := h.fileName.GetOr(P.UnknownName);
      fileContentType := h.contentType;
      if h.contentRange.None? || h.contentRange.value == "" {
        return Err(ContentRangeNotFound);
      }
      var cr := ParseContentRange(h.contentRange.value);
      if cr.None? {
        return Err(ProtocolError);
      }
      r := AcceptSize(t0, data, cr.value.total);
    }

    /** Delivery of a file that fits the probe, or the plan and the first round. */
    method AcceptSize(t0: P.Token, data: P.Bytes, total: nat) returns (r: Result<RoundOutcome, BatchError>)
      requires Valid() && t0 < nextToken
      modifies this
      ensures Valid()
      ensures (State(), r) == SizeKnown(old(State()), t0, data, total)
    {
      var cs := ChunkSizeByte(option);
      if total <= cs {
        deliveries := deliveries + [P.Delivery(fileName, fileContentType.GetOr(P.DefaultContentType), [data])];
        return Ok(Returned(Ret(Success, 1, 1)));
      }
      chunkInfoList := [BatchChunk(t0, ByteRange(0, cs), Some(data), 0, 0)];
      if cs == 0 {
        return Err(InvalidArrayLength);
      }
      r := PlanBody(total);
    }
  }
}
