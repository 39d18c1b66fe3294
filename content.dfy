/** The page-side script (content.js): find the item id in the page URL, probe
    image indices 1..40 in batches of five, ask the background script to
    download every image whose probe succeeds, and stop after the first batch
    in which at least three probes failed. */
module Content {
  import opened Wrappers
  import opened Naming

  // ---------------------------------------------------------------------------
  // Item id: the first capture group of /\/item\/([^/?]+)/ (content.js:64)
  // ---------------------------------------------------------------------------

  const ItemMarker := "/item/"

  /** A character of the class `[^/?]`. */
  predicate IsIdChar(c: char) { c != '/' && c != '?' }

  /** The regular expression matches at position `p`: `/item/` is there and is
      followed by at least one character of the id class. */
  predicate MatchesAt(url: string, p: nat)
  {
    p + |ItemMarker| < |url| && url[p..p + |ItemMarker|] == ItemMarker
    && IsIdChar(url[p + |ItemMarker|])
  }

  /** End of the greedy run of id characters that starts at `k`. */
  function IdRunEnd(url: string, k: nat): (e: nat)
    requires k <= |url|
    ensures k <= e <= |url|
    ensures forall t :: k <= t < e ==> IsIdChar(url[t])
    ensures e == |url| || !IsIdChar(url[e])
    decreases |url| - k
  {
    if k == |url| || !IsIdChar(url[k]) then k else IdRunEnd(url, k + 1)
  }

  /** Leftmost position at or after `p` where the expression matches. */
  function FindMatch(url: string, p: nat): (r: Option<nat>)
    ensures r.None? <==> forall q: nat :: p <= q ==> !MatchesAt(url, q)
    ensures r.Some? ==>
      && p <= r.value && MatchesAt(url, r.value)
      && forall q: nat :: p <= q < r.value ==> !MatchesAt(url, q)
    decreases |url| - p
  {
    if p + |ItemMarker| >= |url| then None
    else if MatchesAt(url, p) then Some(p)
    else FindMatch(url, p + 1)
  }

  /** The item id of the page at `url`, or None when the expression does not
      match (the caller then gives up, content.js:66-69). */
  function ExtractItemId(url: string): (r: Option<string>)
    ensures r.None? <==> forall q: nat :: !MatchesAt(url, q)
    ensures r.Some? ==> |r.value| > 0 && forall k :: 0 <= k < |r.value| ==> IsIdChar(r.value[k])
  {
    match FindMatch(url, 0)
    case None => None
    case Some(q) => Some(url[q + |ItemMarker|..IdRunEnd(url, q + |ItemMarker|)])
  }

  /** At the leftmost position `q` where the expression matches, the id is the
      whole run of id characters right after `/item/`: in the URL it is
      preceded by `/item/` and followed by the end of the URL, a `/` or a `?`. */
  lemma ExtractItemIdLeftmost(url: string, q: nat)
    requires MatchesAt(url, q)
    requires forall q': nat :: q' < q ==> !MatchesAt(url, q')
    ensures var e := IdRunEnd(url, q + |ItemMarker|);
      && ExtractItemId(url) == Some(url[q + |ItemMarker|..e])
      && url[q..e] == ItemMarker + url[q + |ItemMarker|..e]
      && (e == |url| || url[e] in "/?")
  {
    var r := FindMatch(url, 0);
    assert r.Some? && r.value == q;
    var e := IdRunEnd(url, q + |ItemMarker|);
    assert url[q..e] == url[q..q + |ItemMarker|] + url[q + |ItemMarker|..e];
    if e < |url| {
      assert url[e] == "/?"[0] || url[e] == "/?"[1];
    }
  }

  // ---------------------------------------------------------------------------
  // Probe URL and save path templates (content.js:128, 141)
  // ---------------------------------------------------------------------------

  const PhotoDirectory := "https://static.mercdn.net/item/detail/orig/photos"

  /** Remote address probed for image `index`: the file `<itemId>_<index>.jpg`
      in the photo directory. */
  function ProbeUrl(itemId: string, index: nat): string
  {
    FormatImagePath(ImagePath(PhotoDirectory, itemId, index))
  }

  /** Download destination for image `index`: the same file name in a folder
      named after the item. */
  function SavePath(itemId: string, index: nat): string
  {
    FormatImagePath(ImagePath(itemId, itemId, index))
  }

  /** For an id the page URL can yield, the probe URL is the photo directory
      followed by `<itemId>_<index>.jpg`, the save path is the same file name
      in a folder called `<itemId>`, and both read back to id and index. */
  lemma ProbeAndSavePathsReadBack(url: string, index: nat)
    requires ExtractItemId(url).Some?
    ensures var id := ExtractItemId(url).value;
      && ParseImagePath(ProbeUrl(id, index)) == Some(ImagePath(PhotoDirectory, id, index))
      && ParseImagePath(SavePath(id, index)) == Some(ImagePath(id, id, index))
  {
    var id := ExtractItemId(url).value;
    assert '/' !in id by {
      forall k | 0 <= k < |id| ensures id[k] != '/' { assert IsIdChar(id[k]); }
    }
    FormatParseRoundTrip(ImagePath(PhotoDirectory, id, index));
    FormatParseRoundTrip(ImagePath(id, id, index));
  }

  /** Different indices of one item are probed at different addresses and
      saved under different paths. */
  lemma DistinctIndicesDistinctPaths(url: string, i: nat, j: nat)
    requires ExtractItemId(url).Some? && i != j
    ensures var id := ExtractItemId(url).value;
      ProbeUrl(id, i) != ProbeUrl(id, j) && SavePath(id, i) != SavePath(id, j)
  {
    ProbeAndSavePathsReadBack(url, i);
    ProbeAndSavePathsReadBack(url, j);
  }

  // ---------------------------------------------------------------------------
  // processImage (content.js:127-149)
  // ---------------------------------------------------------------------------

  /** How the HEAD request for an image turned out: a response (with its `ok`
      flag) or a rejected fetch with the error's message. */
  datatype Probe = Responded(ok: bool) | NetworkError(message: string)

  /** The object processImage resolves to. */
  datatype ImageResult = ImageResult(success: bool, index: nat, error: Option<string>)

  /** The `downloadImage` message sent to the background script. */
  datatype DownloadRequest = DownloadImage(url: string, filename: string)

  /** The result together with the request processImage sent, if any. */
  datatype Processed = Processed(result: ImageResult, request: Option<DownloadRequest>)

  function ProcessImage(itemId: string, index: nat, probe: Probe): (p: Processed)
    ensures p.result.index == index
    ensures p.result.success <==> probe == Responded(true)
    ensures p.request.Some? <==> p.result.success
    ensures p.request.Some? ==>
      p.request.value == DownloadImage(ProbeUrl(itemId, index), SavePath(itemId, index))
    ensures p.result.error.Some? <==> probe.NetworkError?
    ensures probe.NetworkError? ==> p.result.error == Some(probe.message)
  {
    match probe
    case Responded(ok) =>
      if !ok then Processed(ImageResult(false, index, None), None)
      else Processed(ImageResult(true, index, None),
                     Some(DownloadImage(ProbeUrl(itemId, index), SavePath(itemId, index))))
    case NetworkError(message) => Processed(ImageResult(false, index, Some(message)), None)
  }

  // ---------------------------------------------------------------------------
  // downloadAllImages (content.js:60-124)
  // ---------------------------------------------------------------------------

  const MaxImages := 40
  const BatchSize := 5
  const FailuresToStop := 3

  /** Number of results that report success. */
  function Successes(ps: seq<Processed>): (n: nat)
    ensures n <= |ps|
  {
    if ps == [] then 0
    else Successes(ps[..|ps| - 1]) + (if ps[|ps| - 1].result.success then 1 else 0)
  }

  /** Number of results that report failure. */
  function Failures(ps: seq<Processed>): (n: nat)
  {
    if ps == [] then 0
    else Failures(ps[..|ps| - 1]) + (if ps[|ps| - 1].result.success then 0 else 1)
  }

  /** Every result is either a success or a failure. */
  lemma {:induction false} CountsPartition(ps: seq<Processed>)
    ensures Successes(ps) + Failures(ps) == |ps|
  {
    if ps != [] {
      CountsPartition(ps[..|ps| - 1]);
    }
  }

  lemma {:induction false} CountsAppend(a: seq<Processed>, b: seq<Processed>)
    ensures Successes(a + b) == Successes(a) + Successes(b)
    ensures Failures(a + b) == Failures(a) + Failures(b)
  {
    if b == [] {
      assert a + b == a;
    } else {
      CountsAppend(a, b[..|b| - 1]);
      assert (a + b)[..|a + b| - 1] == a + b[..|b| - 1];
      assert (a + b)[|a + b| - 1] == b[|b| - 1];
    }
  }

  /** All results of several batches, in order. */
  function Flatten(bs: seq<seq<Processed>>): seq<Processed>
  {
    if bs == [] then [] else Flatten(bs[..|bs| - 1]) + bs[|bs| - 1]
  }

  /** Number of indices in the batch starting at `start` (`j < i + BATCH_SIZE && j <= MAX_IMAGES`). */
  function BatchLength(start: nat): nat
  {
    if start > MaxImages then 0
    else if start + BatchSize <= MaxImages + 1 then BatchSize
    else MaxImages + 1 - start
  }

  /** Results of the batch that starts at index `start`; `probes[j - 1]` is how
      the probe of index `j` turns out. A batch starting at or before index 40
      holds one to five results, for consecutive indices from `start` up to 40
      at most, each a success exactly when its probe answered `ok`. */
  function ProcessBatch(itemId: string, probes: seq<Probe>, start: nat): (b: seq<Processed>)
    requires 1 <= start && |probes| == MaxImages
    ensures start > MaxImages <==> b == []
    ensures |b| <= BatchSize && (b != [] ==> start + |b| <= MaxImages + 1)
  {
    seq(BatchLength(start), k requires 0 <= k < BatchLength(start) =>
      ProcessImage(itemId, start + k, probes[start + k - 1]))
  }

  /** Entry `k` of a batch is index `start + k`, a success exactly when its
      probe answered `ok`. */
  lemma ProcessBatchIndices(itemId: string, probes: seq<Probe>, start: nat)
    requires 1 <= start && |probes| == MaxImages
    ensures var b := ProcessBatch(itemId, probes, start);
      forall k :: 0 <= k < |b| ==>
        b[k].result.index == start + k && (b[k].result.success <==> probes[start + k - 1] == Responded(true))
  {
    var b := ProcessBatch(itemId, probes, start);
    forall k | 0 <= k < |b|
      ensures b[k].result.index == start + k && (b[k].result.success <==> probes[start + k - 1] == Responded(true))
    {
      assert b[k] == ProcessImage(itemId, start + k, probes[start + k - 1]);
    }
  }

  /** The batches run from `start` on: each batch is processed, and the loop
      ends after the first batch with at least three failures or after index 40. */
  function RunBatches(itemId: string, probes: seq<Probe>, start: nat): (bs: seq<seq<Processed>>)
    requires 1 <= start && |probes| == MaxImages
    ensures start <= MaxImages <==> bs != []
    decreases MaxImages + 1 - start
  {
    if start > MaxImages then []
    else
      var b := ProcessBatch(itemId, probes, start);
      if Failures(b) >= FailuresToStop then [b]
      else
        [b] + RunBatches(itemId, probes, start + BatchSize)
  }

  /** Batch `t` of a run covers indices `start + 5t` onwards. */
  lemma {:induction false} RunBatchesAt(itemId: string, probes: seq<Probe>, start: nat, t: nat)
    requires 1 <= start && |probes| == MaxImages
    requires t < |RunBatches(itemId, probes, start)|
    ensures RunBatches(itemId, probes, start)[t] == ProcessBatch(itemId, probes, start + BatchSize * t)
    decreases t
  {
    if t > 0 {
      RunBatchesAt(itemId, probes, start + BatchSize, t - 1);
    }
  }

  lemma RunBatchesUnfold(itemId: string, probes: seq<Probe>, start: nat)
    requires 1 <= start <= MaxImages && |probes| == MaxImages
    ensures var b := ProcessBatch(itemId, probes, start);
      RunBatches(itemId, probes, start)
      == [b] + (if Failures(b) >= FailuresToStop then [] else RunBatches(itemId, probes, start + BatchSize))
  {
  }

  /** A run from `start` is empty only when `start` is past index 40; every
      batch but the last had fewer than three failures, and the last one had
      three or more or reached past index 40. */
  lemma {:induction false} RunBatchesStops(itemId: string, probes: seq<Probe>, start: nat)
    requires 1 <= start && |probes| == MaxImages
    ensures var bs := RunBatches(itemId, probes, start);
      && (start <= MaxImages <==> bs != [])
      && (forall t :: 0 <= t < |bs| - 1 ==> Failures(bs[t]) < FailuresToStop)
      && (bs != [] ==> Failures(bs[|bs| - 1]) >= FailuresToStop || start + BatchSize * |bs| > MaxImages)
    decreases MaxImages + 1 - start
  {
    if start <= MaxImages {
      RunBatchesUnfold(itemId, probes, start);
      var b := ProcessBatch(itemId, probes, start);
      if Failures(b) < FailuresToStop {
        RunBatchesStops(itemId, probes, start + BatchSize);
        var rest := RunBatches(itemId, probes, start + BatchSize);
        var bs := RunBatches(itemId, probes, start);
        assert bs == [b] + rest;
        forall t | 0 <= t < |bs| - 1 ensures Failures(bs[t]) < FailuresToStop {
          if t > 0 { assert bs[t] == rest[t - 1]; }
        }
      }
    }
  }

  /** No batch of a run starts beyond index 40. */
  lemma {:induction false} RunBatchesBound(itemId: string, probes: seq<Probe>, start: nat)
    requires 1 <= start && |probes| == MaxImages
    ensures var bs := RunBatches(itemId, probes, start);
      bs != [] ==> start + BatchSize * (|bs| - 1) <= MaxImages
    decreases MaxImages + 1 - start
  {
    if start <= MaxImages {
      RunBatchesUnfold(itemId, probes, start);
      RunBatchesBound(itemId, probes, start + BatchSize);
    }
  }

  /** Adding a batch to the finished ones extends the flattened results by
      that batch and, unless the batch stops the loop, adds one progress line
      with the new success total. */
  lemma AppendBatch(done: seq<seq<Processed>>, batch: seq<Processed>)
    ensures Flatten(done + [batch]) == Flatten(done) + batch
    ensures Failures(batch) >= FailuresToStop ==> StatusLines(done + [batch]) == StatusLines(done)
    ensures Failures(batch) < FailuresToStop ==>
      StatusLines(done + [batch]) == StatusLines(done) + [Downloading(Successes(Flatten(done) + batch))]
  {
    var bs := done + [batch];
    assert bs[..|bs| - 1] == done;
    assert StatusLines(done) + [] == StatusLines(done);
  }

  /** The status lines shown once the batches `bs` have run: the opening
      line, then after each batch that did not stop the loop the number of
      images found so far. */
  function StatusLines(bs: seq<seq<Processed>>): (lines: seq<Status>)
    ensures 1 <= |lines| <= |bs| + 1 && lines[0] == Starting
    ensures forall k :: 1 <= k < |lines| ==> lines[k].Downloading?
  {
    if bs == [] then [Starting]
    else
      StatusLines(bs[..|bs| - 1])
      + (if Failures(bs[|bs| - 1]) < FailuresToStop then [Downloading(Successes(Flatten(bs)))] else [])
  }

  /** The batches the loop has run once it reaches `start` with `done` behind it. */
  function RunFrom(itemId: string, probes: seq<Probe>, start: nat, done: seq<seq<Processed>>): seq<seq<Processed>>
    requires 1 <= start && |probes| == MaxImages
    decreases MaxImages + 1 - start
  {
    if start > MaxImages then done
    else
      var b := ProcessBatch(itemId, probes, start);
      if Failures(b) >= FailuresToStop then done + [b]
      else RunFrom(itemId, probes, start + BatchSize, done + [b])
  }

  lemma {:induction false} RunFromAppends(itemId: string, probes: seq<Probe>, start: nat, done: seq<seq<Processed>>)
    requires 1 <= start && |probes| == MaxImages
    ensures RunFrom(itemId, probes, start, done) == done + RunBatches(itemId, probes, start)
    decreases MaxImages + 1 - start
  {
    if start <= MaxImages {
      var b := ProcessBatch(itemId, probes, start);
      if Failures(b) < FailuresToStop {
        var rest := RunBatches(itemId, probes, start + BatchSize);
        RunFromAppends(itemId, probes, start + BatchSize, done + [b]);
        assert RunBatches(itemId, probes, start) == [b] + rest by {
          RunBatchesUnfold(itemId, probes, start);
        }
        assert (done + [b]) + rest == done + ([b] + rest);
      }
    }
  }

  /** What the status element shows, in order. */
  datatype Status = Starting | Downloading(found: nat) | Complete(saved: nat) | NotFound

  /** The closing status (content.js:112-119). */
  function FinalStatus(successCount: nat): (s: Status)
    ensures s.Complete? <==> successCount > 0
    ensures s.Complete? ==> s.saved == successCount
    ensures successCount == 0 ==> s == NotFound
  {
    if successCount > 0 then Complete(successCount) else NotFound
  }

  /** Outcome of one click: no item id (nothing else happens), or the batches
      that ran, the tallies, and the status lines shown. */
  datatype Run =
    | NoItemId
    | Finished(itemId: string, batches: seq<seq<Processed>>,
               successCount: nat, errorCount: nat, status: seq<Status>)

  /** The inner loop: processImage for indices `start`, `start + 1`, ... up to
      four further indices, never beyond 40. */
  method ProbeBatch(itemId: string, probes: seq<Probe>, start: nat) returns (batch: seq<Processed>)
    requires 1 <= start <= MaxImages && |probes| == MaxImages
    ensures batch == ProcessBatch(itemId, probes, start)
  {
    batch := [];
    var j := start;
    while j < start + BatchSize && j <= MaxImages
      invariant start <= j <= start + BatchSize && j <= MaxImages + 1
      invariant |batch| == j - start
      invariant forall k :: 0 <= k < |batch| ==> batch[k] == ProcessImage(itemId, start + k, probes[start + k - 1])
    {
      batch := batch + [ProcessImage(itemId, j, probes[j - 1])];
      j := j + 1;
    }
    assert |batch| == BatchLength(start);
    assert forall k :: 0 <= k < |batch| ==> batch[k] == ProcessBatch(itemId, probes, start)[k];
  }

  /** `results.forEach(...)`: adds a batch's successes and failures to the tallies. */
  method Tally(batch: seq<Processed>, successCount: nat, errorCount: nat) returns (successes: nat, errors: nat)
    ensures successes == successCount + Successes(batch)
    ensures errors == errorCount + Failures(batch)
  {
    successes, errors := successCount, errorCount;
    var k := 0;
    while k < |batch|
      invariant 0 <= k <= |batch|
      invariant successes == successCount + Successes(batch[..k])
      invariant errors == errorCount + Failures(batch[..k])
    {
      assert batch[..k + 1][..k] == batch[..k];
      if batch[k].result.success {
        successes := successes + 1;
      } else {
        errors := errors + 1;
      }
      k := k + 1;
    }
    assert batch[..k] == batch;
  }

  /** When the loop leaves with `done` behind it, either past index 40 or
      right after a batch with at least three failures, `done` are all the
      batches of the run. */
  lemma {:induction false} LoopExit(itemId: string, probes: seq<Probe>, i: nat, done: seq<seq<Processed>>)
    requires 1 <= i && |probes| == MaxImages
    requires RunFrom(itemId, probes, i, done) == RunFrom(itemId, probes, 1, [])
    requires i > MaxImages
    ensures done == RunBatches(itemId, probes, 1)
  {
    RunFromAppends(itemId, probes, 1, []);
    assert [] + RunBatches(itemId, probes, 1) == RunBatches(itemId, probes, 1);
  }

  lemma {:induction false} LoopBreak(itemId: string, probes: seq<Probe>, i: nat, done: seq<seq<Processed>>)
    requires 1 <= i <= MaxImages && |probes| == MaxImages
    requires RunFrom(itemId, probes, i, done) == RunFrom(itemId, probes, 1, [])
    requires Failures(ProcessBatch(itemId, probes, i)) >= FailuresToStop
    ensures done + [ProcessBatch(itemId, probes, i)] == RunBatches(itemId, probes, 1)
  {
    RunFromAppends(itemId, probes, 1, []);
    assert [] + RunBatches(itemId, probes, 1) == RunBatches(itemId, probes, 1);
  }

  /** The batch loop of the click handler, once the item id is known. The
      probes of a batch, run concurrently in the source, are issued here in
      index order; their results are collected in that order too. */
  method DownloadBatches(itemId: string, probes: seq<Probe>)
    returns (batches: seq<seq<Processed>>, successCount: nat, errorCount: nat, status: seq<Status>)
    requires |probes| == MaxImages
    ensures batches == RunBatches(itemId, probes, 1)
    ensures successCount == Successes(Flatten(batches))
    ensures errorCount == Failures(Flatten(batches))
    ensures status == StatusLines(batches) + [FinalStatus(successCount)]
  {
    status := [Starting];
    successCount, errorCount := 0, 0;
    batches := [];
    var i := 1;
    while i <= MaxImages
      invariant 1 <= i <= MaxImages + BatchSize
      invariant RunFrom(itemId, probes, i, batches) == RunFrom(itemId, probes, 1, [])
      invariant successCount == Successes(Flatten(batches))
      invariant errorCount == Failures(Flatten(batches))
      invariant status == StatusLines(batches)
      decreases MaxImages + 1 - i
    {
      var batch := ProbeBatch(itemId, probes, i);

      successCount, errorCount := Tally(batch, successCount, errorCount);

      CountsAppend(Flatten(batches), batch);
      AppendBatch(batches, batch);
      if Failures(batch) >= FailuresToStop {
        LoopBreak(itemId, probes, i, batches);
        batches := batches + [batch];
        status := status + [FinalStatus(successCount)];
        return;
      }
      batches := batches + [batch];
      status := status + [Downloading(successCount)];
      i := i + BatchSize;
    }
    LoopExit(itemId, probes, i, batches);
    status := status + [FinalStatus(successCount)];
  }

  /** The click handler: without an item id in the page URL nothing happens;
      otherwise the batches run. */
  method DownloadAllImages(url: string, probes: seq<Probe>) returns (run: Run)
    requires |probes| == MaxImages
    ensures run.NoItemId? <==> ExtractItemId(url).None?
    ensures run.Finished? ==>
      && run.itemId == ExtractItemId(url).value
      && run.batches == RunBatches(run.itemId, probes, 1)
      && run.successCount == Successes(Flatten(run.batches))
      && run.errorCount == Failures(Flatten(run.batches))
      && run.status == StatusLines(run.batches) + [FinalStatus(run.successCount)]
  {
    var found := ExtractItemId(url);
    if found.None? {
      return NoItemId;
    }
    var batches, successCount, errorCount, status := DownloadBatches(found.value, probes);
    run := Finished(found.value, batches, successCount, errorCount, status);
  }

  // ---------------------------------------------------------------------------
  // What a run means
  // ---------------------------------------------------------------------------

  /** The batches cover indices 1..5k for some k between 1 and 8, in ascending
      order, each exactly once: position `t` of the flattened results is
      index `t + 1`, processed with the probe outcome of that index. */
  lemma RunCoversPrefix(itemId: string, probes: seq<Probe>)
    requires |probes| == MaxImages
    ensures var bs := RunBatches(itemId, probes, 1);
      && 1 <= |bs| <= MaxImages / BatchSize
      && |Flatten(bs)| == BatchSize * |bs|
      && forall t :: 0 <= t < |Flatten(bs)| ==>
           Flatten(bs)[t] == ProcessImage(itemId, t + 1, probes[t])
  {
    var bs := RunBatches(itemId, probes, 1);
    RunBatchesShape(itemId, probes);
    FlattenFullBatches(itemId, probes, bs, |bs|);
    assert bs[..|bs|] == bs;
  }

  /** A run is one to eight batches, batch `t` covering indices `5t + 1` onwards. */
  lemma RunBatchesShape(itemId: string, probes: seq<Probe>)
    requires |probes| == MaxImages
    ensures var bs := RunBatches(itemId, probes, 1);
      && 1 <= |bs| <= MaxImages / BatchSize
      && forall t :: 0 <= t < |bs| ==> bs[t] == ProcessBatch(itemId, probes, 1 + BatchSize * t)
  {
    var bs := RunBatches(itemId, probes, 1);
    assert 1 <= |bs| <= MaxImages / BatchSize by {
      RunBatchesBound(itemId, probes, 1);
      RunBatchesStops(itemId, probes, 1);
    }
    forall t | 0 <= t < |RunBatches(itemId, probes, 1)|
      ensures RunBatches(itemId, probes, 1)[t] == ProcessBatch(itemId, probes, 1 + BatchSize * t)
    {
      RunBatchesAt(itemId, probes, 1, t);
    }
  }

  lemma {:induction false} FlattenFullBatches(itemId: string, probes: seq<Probe>,
                                              bs: seq<seq<Processed>>, u: nat)
    requires |probes| == MaxImages && u <= |bs|
    requires forall t :: 0 <= t < |bs| ==> bs[t] == ProcessBatch(itemId, probes, 1 + BatchSize * t)
    requires BatchSize * |bs| <= MaxImages
    ensures |Flatten(bs[..u])| == BatchSize * u
    ensures forall t :: 0 <= t < |Flatten(bs[..u])| ==>
      Flatten(bs[..u])[t] == ProcessImage(itemId, t + 1, probes[t])
  {
    if u > 0 {
      FlattenFullBatches(itemId, probes, bs, u - 1);
      assert bs[..u][..u - 1] == bs[..u - 1];
      var prev := Flatten(bs[..u - 1]);
      var last := bs[u - 1];
      assert Flatten(bs[..u]) == prev + last;
      assert |last| == BatchSize;
      forall t | 0 <= t < BatchSize * u
        ensures Flatten(bs[..u])[t] == ProcessImage(itemId, t + 1, probes[t])
      {
        if t >= |prev| {
          assert Flatten(bs[..u])[t] == last[t - |prev|];
        }
      }
    }
  }

  /** The loop stops right after the first batch with at least three failed
      probes: every earlier batch had at most two, and the last batch either
      had three or more or ended at index 40. Failures are counted per batch,
      so they need not be consecutive. */
  lemma RunStopsAfterFirstFailingBatch(itemId: string, probes: seq<Probe>)
    requires |probes| == MaxImages
    ensures var bs := RunBatches(itemId, probes, 1);
      && (forall t :: 0 <= t < |bs| - 1 ==> Failures(bs[t]) < FailuresToStop)
      && (Failures(bs[|bs| - 1]) >= FailuresToStop || |bs| == MaxImages / BatchSize)
  {
    RunCoversPrefix(itemId, probes);
    RunBatchesStops(itemId, probes, 1);
  }

  /** The success and error tallies add up to the number of processed
      indices, five per batch run. */
  lemma TalliesCoverProcessed(itemId: string, probes: seq<Probe>)
    requires |probes| == MaxImages
    ensures var bs := RunBatches(itemId, probes, 1);
      Successes(Flatten(bs)) + Failures(Flatten(bs)) == BatchSize * |bs|
  {
    RunCoversPrefix(itemId, probes);
    CountsPartition(Flatten(RunBatches(itemId, probes, 1)));
  }

  /** Exactly the indices whose probe responded `ok` were requested for
      download, each with its probe URL and its save path. */
  lemma RequestsMatchSuccessfulProbes(itemId: string, probes: seq<Probe>, t: nat)
    requires |probes| == MaxImages
    requires t < |probes| && t < |Flatten(RunBatches(itemId, probes, 1))|
    ensures var p := Flatten(RunBatches(itemId, probes, 1))[t];
      && (p.request.Some? <==> probes[t] == Responded(true))
      && (p.request.Some? ==> p.request.value == DownloadImage(ProbeUrl(itemId, t + 1), SavePath(itemId, t + 1)))
  {
    RunCoversPrefix(itemId, probes);
  }
}
