/** The `directDownload` request of the background script (background.js
    lines 119-203): fetch and save a list of image URLs one after another,
    report progress and errors to the requesting tab, wait between images,
    and announce the end of the list. */
module DirectDownload {
  import opened Wrappers
  import opened Naming
  import opened Deltas
  import opened Fetch

  /** `DOWNLOAD_DELAY`, in milliseconds (background.js:9). */
  const DownloadDelay := 5000

  /** How the handling of one URL turns out, as far as the host reports it. */
  datatype Attempt =
    /** `fetchImageAsBinary` threw: a rejected fetch, or a response that was not `ok`. */
    | FetchFailed(fetchError: FetchError)
    /** The blob was fetched but `downloads.download` rejected with this message. */
    | StartRejected(message: string)
    /** The download started under `downloadId`; `deltas` are the change
        notifications delivered to the listener afterwards, in order. */
    | Started(downloadId: int, deltas: seq<Delta>)

  /** The text before the error of an interrupted download. */
  const InterruptedPrefix := "ダウンロード中断: "

  /** The message of the rejection raised by an `interrupted` delta
      (background.js:170). */
  function InterruptedMessage(error: Option<string>): string
  {
    InterruptedPrefix + ErrorText(error)
  }

  /** The interruption message is the fixed text followed by the delta's
      error, or by the "unknown error" text when the delta has no error or an
      empty one. */
  lemma InterruptedMessageParts(error: Option<string>)
    ensures var m := InterruptedMessage(error);
      && |InterruptedPrefix| < |m| && m[..|InterruptedPrefix|] == InterruptedPrefix
      && (error.Some? && error.value != [] ==> m[|InterruptedPrefix|..] == error.value)
      && (error.None? || error.value == [] ==> m[|InterruptedPrefix|..] == UnknownError)
  {
    var m := InterruptedMessage(error);
    assert m[..|InterruptedPrefix|] == InterruptedPrefix && m[|InterruptedPrefix|..] == ErrorText(error);
  }

  /** What the requesting tab and the timer observe. */
  datatype Event =
    | Progress(current: nat, total: nat)
    | DownloadRequested(filename: string)
    /** The listener of iteration `index` saw a terminal delta: it removed
        itself from `downloads.onChanged` and revoked the object URL, both at
        once (background.js:163-169), so one event stands for the two. */
    | ObjectUrlRevoked(index: nat)
    | DownloadError(index: nat, error: string)
    | Wait(ms: nat)
    | AllDownloadsComplete(success: bool)

  /** `folderName || itemId`: an absent or empty folder name falls back to the item id. */
  function SaveFolder(folderName: Option<string>, itemId: string): (f: string)
    ensures folderName.Some? && folderName.value != [] ==> f == folderName.value
    ensures folderName.None? || folderName.value == [] ==> f == itemId
  {
    if folderName.Some? && folderName.value != [] then folderName.value else itemId
  }

  /** Destination of the `i`-th URL (0-based): `<folder>/<itemId>_<i+1>.jpg`. */
  function DirectFileName(folderName: Option<string>, itemId: string, i: nat): string
  {
    FormatImagePath(ImagePath(SaveFolder(folderName, itemId), itemId, i + 1))
  }

  /** The file of the `i`-th URL reads back as the chosen folder, the item id and
      the 1-based position `i + 1`: folder name if non-empty, else the item id. */
  lemma DirectFileNameReadsBack(folderName: Option<string>, itemId: string, i: nat)
    requires '/' !in itemId
    ensures ParseImagePath(DirectFileName(folderName, itemId, i)) == Some(ImagePath(
      if folderName.Some? && folderName.value != [] then folderName.value else itemId, itemId, i + 1))
  {
    FormatParseRoundTrip(ImagePath(SaveFolder(folderName, itemId), itemId, i + 1));
  }

  /** Two URLs of one request never share a destination. */
  lemma DirectFileNamesDistinct(folderName: Option<string>, itemId: string, i: nat, j: nat)
    requires i != j
    ensures DirectFileName(folderName, itemId, i) != DirectFileName(folderName, itemId, j)
  {
    IndexDeterminesPath(SaveFolder(folderName, itemId), itemId, i + 1, j + 1);
  }

  /** Whether the awaited promise of an attempt ever settles: it does unless the
      download started and no delta for it ever reports `complete` or `interrupted`. */
  predicate Settles(a: Attempt)
  {
    !a.Started? || FirstTerminal(a.deltas, a.downloadId).Some?
  }

  /** The error an attempt ends with, or None when the image was saved. */
  function AttemptError(a: Attempt): Option<string>
    requires Settles(a)
  {
    match a
    case FetchFailed(e) => Some(FetchErrorMessage(e))
    case StartRejected(message) => Some(message)
    case Started(downloadId, deltas) =>
      match FirstTerminal(deltas, downloadId).value.1
      case Completed => None
      case InterruptedWith(error) => Some(InterruptedMessage(error))
  }

  /** Events of the `i`-th iteration of the loop, up to the point where it
      hangs if the attempt never settles: progress first, then the download
      request once the blob was fetched, the revocation of the object URL once
      the listener saw a terminal delta, and last the error report, if any,
      and the delay. */
  function StepEvents(i: nat, total: nat, folderName: Option<string>, itemId: string, a: Attempt): seq<Event>
  {
    var file := DirectFileName(folderName, itemId, i);
    match a
    case FetchFailed(e) =>
      [Progress(i + 1, total), DownloadError(i, FetchErrorMessage(e)), Wait(2 * DownloadDelay)]
    case StartRejected(message) =>
      [Progress(i + 1, total), DownloadRequested(file), DownloadError(i, message), Wait(2 * DownloadDelay)]
    case Started(downloadId, deltas) =>
      match FirstTerminal(deltas, downloadId)
      case None => [Progress(i + 1, total), DownloadRequested(file)]
      case Some((_, Completed)) =>
        [Progress(i + 1, total), DownloadRequested(file), ObjectUrlRevoked(i), Wait(DownloadDelay)]
      case Some((_, InterruptedWith(error))) =>
        [Progress(i + 1, total), DownloadRequested(file), ObjectUrlRevoked(i),
         DownloadError(i, InterruptedMessage(error)), Wait(2 * DownloadDelay)]
  }

  /** Events from iteration `i` on. */
  function TraceFrom(i: nat, folderName: Option<string>, itemId: string, attempts: seq<Attempt>): seq<Event>
    requires i <= |attempts|
    decreases |attempts| - i
  {
    if i == |attempts| then [AllDownloadsComplete(true)]
    else
      StepEvents(i, |attempts|, folderName, itemId, attempts[i])
      + (if Settles(attempts[i]) then TraceFrom(i + 1, folderName, itemId, attempts) else [])
  }

  /** Every iteration reports its progress first. Unless the fetch failed, it
      then requests the download under the URL's file name. It ends with a
      delay exactly when its attempt settles. */
  lemma StepEventsShape(i: nat, total: nat, folderName: Option<string>, itemId: string, a: Attempt)
    ensures var evs := StepEvents(i, total, folderName, itemId, a);
      && |evs| >= 2 && evs[0] == Progress(i + 1, total)
      && (evs[1].DownloadRequested? <==> !a.FetchFailed?)
      && (evs[1].DownloadRequested? ==> evs[1].filename == DirectFileName(folderName, itemId, i))
      && (evs[|evs| - 1].Wait? <==> Settles(a))
  {
  }

  /** The events from iteration `i` on begin with the progress report of
      iteration `i`, or with the final report when no URL is left. */
  lemma TraceFromStart(i: nat, folderName: Option<string>, itemId: string, attempts: seq<Attempt>)
    requires i <= |attempts|
    ensures var tr := TraceFrom(i, folderName, itemId, attempts);
      tr != [] && tr[0] == if i < |attempts| then Progress(i + 1, |attempts|) else AllDownloadsComplete(true)
  {
    if i < |attempts| {
      StepEventsShape(i, |attempts|, folderName, itemId, attempts[i]);
    }
  }

  /** Regrouping observed events, kept apart from the unfolding of the loop. */
  lemma EventsRegroup(a: seq<Event>, b: seq<Event>, c: seq<Event>)
    ensures (a + b) + c == a + (b + c)
  {
  }

  /** The events observed once iteration `i` is reached with `acc` already observed. */
  function TraceAfter(i: nat, acc: seq<Event>, folderName: Option<string>, itemId: string, attempts: seq<Attempt>)
    : seq<Event>
    requires i <= |attempts|
    decreases |attempts| - i
  {
    if i == |attempts| then acc + [AllDownloadsComplete(true)]
    else
      var acc' := acc + StepEvents(i, |attempts|, folderName, itemId, attempts[i]);
      if Settles(attempts[i]) then TraceAfter(i + 1, acc', folderName, itemId, attempts) else acc'
  }

  lemma {:induction false} TraceAfterAppends(i: nat, acc: seq<Event>, folderName: Option<string>, itemId: string,
                                             attempts: seq<Attempt>)
    requires i <= |attempts|
    ensures TraceAfter(i, acc, folderName, itemId, attempts) == acc + TraceFrom(i, folderName, itemId, attempts)
    decreases |attempts| - i
  {
    if i < |attempts| {
      var step := StepEvents(i, |attempts|, folderName, itemId, attempts[i]);
      if Settles(attempts[i]) {
        var rest := TraceFrom(i + 1, folderName, itemId, attempts);
        assert TraceAfter(i, acc, folderName, itemId, attempts)
            == TraceAfter(i + 1, acc + step, folderName, itemId, attempts);
        assert TraceFrom(i, folderName, itemId, attempts) == step + rest;
        TraceAfterAppends(i + 1, acc + step, folderName, itemId, attempts);
        EventsRegroup(acc, step, rest);
      } else {
        assert acc + step + [] == acc + step;
      }
    }
  }

  /** The loop over the URLs. `attempts[i]` is how the `i`-th URL turns out.
      Every iteration reports progress first; a failure anywhere in it is
      caught, reported with the URL's index and followed by the longer delay,
      and the loop goes on with the next URL. When an attempt never settles
      the source awaits forever; the model stops there and returns what was
      observable until then. */
  method DirectDownload(urls: seq<string>, itemId: string, folderName: Option<string>, attempts: seq<Attempt>)
    returns (trace: seq<Event>)
    requires |attempts| == |urls|
    ensures trace == TraceFrom(0, folderName, itemId, attempts)
  {
    TraceAfterAppends(0, [], folderName, itemId, attempts);
    assert [] + TraceFrom(0, folderName, itemId, attempts) == TraceFrom(0, folderName, itemId, attempts);
    trace := [];
    for i := 0 to |urls|
      invariant TraceAfter(i, trace, folderName, itemId, attempts) == TraceFrom(0, folderName, itemId, attempts)
    {
      trace := trace + StepEvents(i, |urls|, folderName, itemId, attempts[i]);
      if !Settles(attempts[i]) {
        return;
      }
    }
    trace := trace + [AllDownloadsComplete(true)];
  }
}

/** What the trace of a `directDownload` request says, projected on each kind of event. */
module DirectDownloadProperties {
  import opened Wrappers
  import opened Deltas
  import opened Fetch
  import opened DirectDownload

  /** The components picked out of the events `pick` accepts, in order. */
  function Select<U>(trace: seq<Event>, pick: Event -> Option<U>): seq<U>
  {
    if trace == [] then []
    else (if pick(trace[0]).Some? then [pick(trace[0]).value] else []) + Select(trace[1..], pick)
  }

  lemma {:induction false} SelectAppend<U>(a: seq<Event>, b: seq<Event>, pick: Event -> Option<U>)
    ensures Select(a + b, pick) == Select(a, pick) + Select(b, pick)
  {
    if a != [] {
      SelectAppend(a[1..], b, pick);
      assert (a + b)[1..] == a[1..] + b;
    } else {
      assert a + b == b;
    }
  }

  function ProgressPick(e: Event): Option<(nat, nat)> { if e.Progress? then Some((e.current, e.total)) else None }
  function ErrorPick(e: Event): Option<(nat, string)> { if e.DownloadError? then Some((e.index, e.error)) else None }
  function WaitPick(e: Event): Option<nat> { if e.Wait? then Some(e.ms) else None }
  function CompletionPick(e: Event): Option<bool> { if e.AllDownloadsComplete? then Some(e.success) else None }
  function RevokePick(e: Event): Option<nat> { if e.ObjectUrlRevoked? then Some(e.index) else None }
  function RequestPick(e: Event): Option<string> { if e.DownloadRequested? then Some(e.filename) else None }

  /** Number of leading attempts, from `i` on, whose promise settles. */
  function SettledFrom(attempts: seq<Attempt>, i: nat): (s: nat)
    requires i <= |attempts|
    ensures i + s <= |attempts|
    decreases |attempts| - i
  {
    if i == |attempts| || !Settles(attempts[i]) then 0 else 1 + SettledFrom(attempts, i + 1)
  }

  /** Delay after an iteration that settled: `DOWNLOAD_DELAY` after a saved
      image, twice that after a failure. */
  function DelayAfter(a: Attempt): (ms: nat)
    requires Settles(a)
    ensures ms == DownloadDelay <==> AttemptError(a).None?
    ensures ms == 2 * DownloadDelay <==> AttemptError(a).Some?
  {
    if AttemptError(a).None? then DownloadDelay else 2 * DownloadDelay
  }

  /** The picks of an event, as a sequence of zero or one elements. */
  function Picked<U>(e: Event, pick: Event -> Option<U>): seq<U>
  {
    if pick(e).Some? then [pick(e).value] else []
  }

  lemma Select2<U>(a: Event, b: Event, pick: Event -> Option<U>)
    ensures Select([a, b], pick) == Picked(a, pick) + Picked(b, pick)
  {
    assert [a, b][1..] == [b];
    assert Select([b], pick) == Picked(b, pick) by { assert [b][1..] == []; }
  }

  lemma Select3<U>(a: Event, b: Event, c: Event, pick: Event -> Option<U>)
    ensures Select([a, b, c], pick) == Picked(a, pick) + Picked(b, pick) + Picked(c, pick)
  {
    assert [a, b, c][1..] == [b, c];
    Select2(b, c, pick);
  }

  lemma Select4<U>(a: Event, b: Event, c: Event, d: Event, pick: Event -> Option<U>)
    ensures Select([a, b, c, d], pick) == Picked(a, pick) + Picked(b, pick) + Picked(c, pick) + Picked(d, pick)
  {
    assert [a, b, c, d][1..] == [b, c, d];
    Select3(b, c, d, pick);
  }

  lemma Select5<U>(a: Event, b: Event, c: Event, d: Event, e: Event, pick: Event -> Option<U>)
    ensures Select([a, b, c, d, e], pick)
      == Picked(a, pick) + Picked(b, pick) + Picked(c, pick) + Picked(d, pick) + Picked(e, pick)
  {
    var s := [a, b, c, d, e];
    assert s[1..] == [b, c, d, e];
    Select4(b, c, d, e, pick);
  }

  /** The picks of the events of one iteration, event by event. */
  lemma StepSelect<U>(i: nat, total: nat, folderName: Option<string>, itemId: string, a: Attempt,
                      pick: Event -> Option<U>)
    ensures var file := DirectFileName(folderName, itemId, i);
      Select(StepEvents(i, total, folderName, itemId, a), pick)
      == match a
         case FetchFailed(e) =>
           Picked(Progress(i + 1, total), pick) + Picked(DownloadError(i, FetchErrorMessage(e)), pick)
           + Picked(Wait(2 * DownloadDelay), pick)
         case StartRejected(message) =>
           Picked(Progress(i + 1, total), pick) + Picked(DownloadRequested(file), pick)
           + Picked(DownloadError(i, message), pick) + Picked(Wait(2 * DownloadDelay), pick)
         case Started(downloadId, deltas) =>
           match FirstTerminal(deltas, downloadId)
           case None => Picked(Progress(i + 1, total), pick) + Picked(DownloadRequested(file), pick)
           case Some((_, Completed)) =>
             Picked(Progress(i + 1, total), pick) + Picked(DownloadRequested(file), pick)
             + Picked(ObjectUrlRevoked(i), pick) + Picked(Wait(DownloadDelay), pick)
           case Some((_, InterruptedWith(error))) =>
             Picked(Progress(i + 1, total), pick) + Picked(DownloadRequested(file), pick)
             + Picked(ObjectUrlRevoked(i), pick) + Picked(DownloadError(i, InterruptedMessage(error)), pick)
             + Picked(Wait(2 * DownloadDelay), pick)
  {
    var file := DirectFileName(folderName, itemId, i);
    match a
    case FetchFailed(e) =>
      Select3(Progress(i + 1, total), DownloadError(i, FetchErrorMessage(e)), Wait(2 * DownloadDelay), pick);
    case StartRejected(message) =>
      Select4(Progress(i + 1, total), DownloadRequested(file), DownloadError(i, message), Wait(2 * DownloadDelay), pick);
    case Started(downloadId, deltas) =>
      match FirstTerminal(deltas, downloadId)
      case None =>
        Select2(Progress(i + 1, total), DownloadRequested(file), pick);
      case Some((_, Completed)) =>
        Select4(Progress(i + 1, total), DownloadRequested(file), ObjectUrlRevoked(i), Wait(DownloadDelay), pick);
      case Some((_, InterruptedWith(error))) =>
        Select5(Progress(i + 1, total), DownloadRequested(file), ObjectUrlRevoked(i),
                DownloadError(i, InterruptedMessage(error)), Wait(2 * DownloadDelay), pick);
  }

  lemma StepProgress(i: nat, total: nat, folderName: Option<string>, itemId: string, a: Attempt)
    ensures Select(StepEvents(i, total, folderName, itemId, a), ProgressPick) == [(i + 1, total)]
  {
    StepSelect(i, total, folderName, itemId, a, ProgressPick);
  }

  lemma StepErrors(i: nat, total: nat, folderName: Option<string>, itemId: string, a: Attempt)
    ensures Select(StepEvents(i, total, folderName, itemId, a), ErrorPick)
      == (if Failed(a) then [(i, AttemptError(a).value)] else [])
  {
    StepSelect(i, total, folderName, itemId, a, ErrorPick);
  }

  lemma StepWaits(i: nat, total: nat, folderName: Option<string>, itemId: string, a: Attempt)
    ensures Select(StepEvents(i, total, folderName, itemId, a), WaitPick)
      == (if Settles(a) then [DelayAfter(a)] else [])
  {
    StepSelect(i, total, folderName, itemId, a, WaitPick);
  }

  lemma StepCompletions(i: nat, total: nat, folderName: Option<string>, itemId: string, a: Attempt)
    ensures Select(StepEvents(i, total, folderName, itemId, a), CompletionPick) == []
  {
    StepSelect(i, total, folderName, itemId, a, CompletionPick);
  }

  lemma StepRequests(i: nat, total: nat, folderName: Option<string>, itemId: string, a: Attempt)
    ensures Select(StepEvents(i, total, folderName, itemId, a), RequestPick)
      == (if a.FetchFailed? then [] else [DirectFileName(folderName, itemId, i)])
  {
    StepSelect(i, total, folderName, itemId, a, RequestPick);
  }

  lemma StepRevokes(i: nat, total: nat, folderName: Option<string>, itemId: string, a: Attempt)
    ensures Select(StepEvents(i, total, folderName, itemId, a), RevokePick)
      == (if a.Started? && Settles(a) then [i] else [])
  {
    StepSelect(i, total, folderName, itemId, a, RevokePick);
  }

  /** Iterations begun from `i` on: the settled ones and, if the loop hangs,
      the one it hangs in. */
  function IterationsFrom(attempts: seq<Attempt>, i: nat): nat
    requires i <= |attempts|
  {
    SettledFrom(attempts, i) + (if i + SettledFrom(attempts, i) < |attempts| then 1 else 0)
  }

  /** SettledFrom counts the attempts that settle before the first one that
      does not: all of them settle, and the next one, if any, hangs. */
  lemma {:induction false} SettledPrefix(attempts: seq<Attempt>, i: nat)
    requires i <= |attempts|
    ensures forall j :: i <= j < i + SettledFrom(attempts, i) ==> Settles(attempts[j])
    ensures i + SettledFrom(attempts, i) < |attempts| ==> !Settles(attempts[i + SettledFrom(attempts, i)])
    decreases |attempts| - i
  {
    if i < |attempts| && Settles(attempts[i]) {
      SettledPrefix(attempts, i + 1);
    }
  }

  /** The loop gets through the whole list exactly when every attempt from `i` on settles. */
  lemma SettledAll(attempts: seq<Attempt>, i: nat)
    requires i <= |attempts|
    ensures i + SettledFrom(attempts, i) == |attempts| <==> forall j :: i <= j < |attempts| ==> Settles(attempts[j])
  {
    SettledPrefix(attempts, i);
  }

  /** The traces from each iteration on, the events of each iteration and
      whether its attempt settles, one row per iteration. */
  function TraceRows(folderName: Option<string>, itemId: string, attempts: seq<Attempt>): seq<seq<Event>>
  {
    seq(|attempts| + 1, j requires 0 <= j <= |attempts| => TraceFrom(j, folderName, itemId, attempts))
  }

  function StepRows(folderName: Option<string>, itemId: string, attempts: seq<Attempt>): seq<seq<Event>>
  {
    seq(|attempts|, j requires 0 <= j < |attempts| => StepEvents(j, |attempts|, folderName, itemId, attempts[j]))
  }

  function SettleRows(attempts: seq<Attempt>): seq<bool>
  {
    seq(|attempts|, j requires 0 <= j < |attempts| => Settles(attempts[j]))
  }

  /** Row `j` of `traces` is row `j` of `steps` followed, when `settles[j]`
      holds, by row `j + 1`. */
  predicate TraceRowLinked(j: nat, traces: seq<seq<Event>>, steps: seq<seq<Event>>, settles: seq<bool>)
    requires j < |steps| == |settles| && |traces| == |steps| + 1
  {
    traces[j] == steps[j] + (if settles[j] then traces[j + 1] else [])
  }

  /** Row `j` of `spec` is what `pick` accepts from row `j` of `steps`
      followed, when `settles[j]` holds, by row `j + 1`. */
  ghost predicate SpecRowLinked<U>(j: nat, steps: seq<seq<Event>>, settles: seq<bool>,
                                   pick: Event -> Option<U>, spec: seq<seq<U>>)
    requires j < |steps| == |settles| && |spec| == |steps| + 1
  {
    spec[j] == Select(steps[j], pick) + (if settles[j] then spec[j + 1] else [])
  }

  /** Each row of the trace table is its iteration's events followed, when
      the attempt settles, by the next row; the last row is the final report. */
  lemma RowsUnfold(folderName: Option<string>, itemId: string, attempts: seq<Attempt>)
    ensures var traces := TraceRows(folderName, itemId, attempts);
      && |traces| == |attempts| + 1
      && |StepRows(folderName, itemId, attempts)| == |SettleRows(attempts)| == |attempts|
      && traces[|attempts|] == [AllDownloadsComplete(true)]
      && forall j: nat :: j < |attempts| ==>
           TraceRowLinked(j, traces, StepRows(folderName, itemId, attempts), SettleRows(attempts))
  {
  }

  /** The induction over the loop's iterations that every projection lemma
      below shares. It works on tables, one row per iteration: when `spec`
      obeys, row by row, the equations that the events `pick` accepts from
      the traces obey, then it is what `pick` selects from each trace. */
  lemma {:induction false} SelectRows<U>(i: nat, traces: seq<seq<Event>>, steps: seq<seq<Event>>, settles: seq<bool>,
                                         pick: Event -> Option<U>, spec: seq<seq<U>>)
    requires i < |traces| == |spec| && |steps| == |settles| == |traces| - 1
    requires traces[|steps|] == [AllDownloadsComplete(true)] && spec[|steps|] == Picked(AllDownloadsComplete(true), pick)
    requires forall j: nat :: i <= j < |steps| ==> TraceRowLinked(j, traces, steps, settles)
    requires forall j: nat :: i <= j < |steps| ==> SpecRowLinked(j, steps, settles, pick, spec)
    ensures Select(traces[i], pick) == spec[i]
    decreases |steps| - i
  {
    if i < |steps| {
      assert TraceRowLinked(i, traces, steps, settles) && SpecRowLinked(i, steps, settles, pick, spec);
      SelectAppend(steps[i], if settles[i] then traces[i + 1] else [], pick);
      if settles[i] {
        SelectRows(i + 1, traces, steps, settles, pick, spec);
      } else {
        assert Select(steps[i], pick) + [] == Select(steps[i], pick);
      }
    } else {
      assert [AllDownloadsComplete(true)][1..] == [];
    }
  }

  // Progress reports.

  /** The progress reports of iterations `i` onwards, read off the attempts. */
  function ProgressOf(attempts: seq<Attempt>, i: nat): seq<(nat, nat)>
    requires i <= |attempts|
    decreases |attempts| - i
  {
    if i == |attempts| then []
    else [(i + 1, |attempts|)] + (if Settles(attempts[i]) then ProgressOf(attempts, i + 1) else [])
  }

  lemma ProgressTrace(i: nat, folderName: Option<string>, itemId: string, attempts: seq<Attempt>)
    requires i <= |attempts|
    ensures Select(TraceFrom(i, folderName, itemId, attempts), ProgressPick) == ProgressOf(attempts, i)
  {
    var spec := seq(|attempts| + 1, j requires 0 <= j <= |attempts| => ProgressOf(attempts, j));
    var steps := StepRows(folderName, itemId, attempts);
    var settles := SettleRows(attempts);
    RowsUnfold(folderName, itemId, attempts);
    forall j: nat | i <= j < |attempts|
      ensures SpecRowLinked(j, steps, settles, ProgressPick, spec)
    {
      StepProgress(j, |attempts|, folderName, itemId, attempts[j]);
    }
    SelectRows(i, TraceRows(folderName, itemId, attempts), steps, settles, ProgressPick, spec);
  }

  lemma {:induction false} ProgressOfCounts(attempts: seq<Attempt>, i: nat)
    requires i <= |attempts|
    ensures var ps := ProgressOf(attempts, i);
      && |ps| == IterationsFrom(attempts, i)
      && forall t :: 0 <= t < |ps| ==> ps[t] == (i + t + 1, |attempts|)
    decreases |attempts| - i
  {
    if i < |attempts| && Settles(attempts[i]) {
      ProgressOfCounts(attempts, i + 1);
      var rest := ProgressOf(attempts, i + 1);
      var ps := ProgressOf(attempts, i);
      assert ps == [(i + 1, |attempts|)] + rest;
      forall t | 0 <= t < |ps| ensures ps[t] == (i + t + 1, |attempts|) {
        if t > 0 { assert ps[t] == rest[t - 1]; }
      }
    }
  }

  /** Progress is reported once per iteration begun, as (1, n), (2, n), ...
      in order; when every download settles that is exactly (1, n) ... (n, n),
      whether or not the downloads failed. */
  lemma ProgressReports(folderName: Option<string>, itemId: string, attempts: seq<Attempt>)
    ensures var ps := Select(TraceFrom(0, folderName, itemId, attempts), ProgressPick);
      && |ps| == IterationsFrom(attempts, 0)
      && (forall t :: 0 <= t < |ps| ==> ps[t] == (t + 1, |attempts|))
      && ((forall j :: 0 <= j < |attempts| ==> Settles(attempts[j])) ==> |ps| == |attempts|)
  {
    ProgressTrace(0, folderName, itemId, attempts);
    ProgressOfCounts(attempts, 0);
    SettledAll(attempts, 0);
  }

  // Error reports.

  /** An attempt that settled with an error. */
  predicate Failed(a: Attempt)
  {
    Settles(a) && AttemptError(a).Some?
  }

  /** The `downloadError` reports from iteration `i` on: index and message. */
  function ErrorsOf(attempts: seq<Attempt>, i: nat): seq<(nat, string)>
    requires i <= |attempts|
    decreases |attempts| - i
  {
    if i == |attempts| then []
    else (if Failed(attempts[i]) then [(i, AttemptError(attempts[i]).value)] else [])
         + (if Settles(attempts[i]) then ErrorsOf(attempts, i + 1) else [])
  }

  /** The indices of those reports. */
  function ErrorIndicesOf(attempts: seq<Attempt>, i: nat): seq<nat>
    requires i <= |attempts|
    decreases |attempts| - i
  {
    if i == |attempts| then []
    else (if Failed(attempts[i]) then [i] else [])
         + (if Settles(attempts[i]) then ErrorIndicesOf(attempts, i + 1) else [])
  }

  lemma ErrorsTrace(i: nat, folderName: Option<string>, itemId: string, attempts: seq<Attempt>)
    requires i <= |attempts|
    ensures Select(TraceFrom(i, folderName, itemId, attempts), ErrorPick) == ErrorsOf(attempts, i)
  {
    var spec := seq(|attempts| + 1, j requires 0 <= j <= |attempts| => ErrorsOf(attempts, j));
    var steps := StepRows(folderName, itemId, attempts);
    var settles := SettleRows(attempts);
    RowsUnfold(folderName, itemId, attempts);
    forall j: nat | i <= j < |attempts|
      ensures SpecRowLinked(j, steps, settles, ErrorPick, spec)
    {
      StepErrors(j, |attempts|, folderName, itemId, attempts[j]);
    }
    SelectRows(i, TraceRows(folderName, itemId, attempts), steps, settles, ErrorPick, spec);
  }

  /** Reports `es` carry the indices `js`, each with the message its failed
      attempt ends with; all indices are at least `lo`. */
  predicate ReportsCarryErrors(attempts: seq<Attempt>, lo: nat, es: seq<(nat, string)>, js: seq<nat>)
  {
    && |es| == |js|
    && forall t :: 0 <= t < |js| ==>
         && lo <= js[t] < |attempts| && Failed(attempts[js[t]])
         && es[t] == (js[t], AttemptError(attempts[js[t]]).value)
  }

  lemma ConsReport(attempts: seq<Attempt>, j: nat, lo: nat, es: seq<(nat, string)>, js: seq<nat>)
    requires j < lo && j < |attempts| && Failed(attempts[j])
    requires ReportsCarryErrors(attempts, lo, es, js)
    ensures ReportsCarryErrors(attempts, j, [(j, AttemptError(attempts[j]).value)] + es, [j] + js)
  {
    var es', js' := [(j, AttemptError(attempts[j]).value)] + es, [j] + js;
    forall t | 0 <= t < |js'|
      ensures j <= js'[t] < |attempts| && Failed(attempts[js'[t]]) && es'[t] == (js'[t], AttemptError(attempts[js'[t]]).value)
    {
      if t > 0 {
        assert es'[t] == es[t - 1] && js'[t] == js[t - 1];
      }
    }
  }

  /** Report `t` carries index `t` of ErrorIndicesOf and the message of that attempt. */
  lemma {:induction false} ErrorsOfCarry(attempts: seq<Attempt>, i: nat)
    requires i <= |attempts|
    ensures ReportsCarryErrors(attempts, i, ErrorsOf(attempts, i), ErrorIndicesOf(attempts, i))
    decreases |attempts| - i
  {
    if i < |attempts| {
      var settles := Settles(attempts[i]);
      var es := if settles then ErrorsOf(attempts, i + 1) else [];
      var js := if settles then ErrorIndicesOf(attempts, i + 1) else [];
      if settles {
        ErrorsOfCarry(attempts, i + 1);
      }
      assert ReportsCarryErrors(attempts, i + 1, es, js);
      if Failed(attempts[i]) {
        ConsReport(attempts, i, i + 1, es, js);
        assert ErrorsOf(attempts, i) == [(i, AttemptError(attempts[i]).value)] + es;
        assert ErrorIndicesOf(attempts, i) == [i] + js;
      } else {
        assert ErrorsOf(attempts, i) == [] + es && ErrorIndicesOf(attempts, i) == [] + js;
      }
    }
  }

  lemma {:induction false} ErrorsOfExact(attempts: seq<Attempt>, i: nat)
    requires i <= |attempts|
    ensures forall j: int :: j in ErrorIndicesOf(attempts, i) <==>
      i <= j < i + SettledFrom(attempts, i) && Failed(attempts[j])
    decreases |attempts| - i
  {
    if i < |attempts| && Settles(attempts[i]) {
      ErrorsOfExact(attempts, i + 1);
    }
  }

  predicate Ascending(s: seq<nat>)
  {
    forall a, b :: 0 <= a < b < |s| ==> s[a] < s[b]
  }

  lemma ConsAscending(x: nat, r: seq<nat>)
    requires Ascending(r) && forall y :: y in r ==> x < y
    ensures Ascending([x] + r)
  {
    var s := [x] + r;
    forall a, b | 0 <= a < b < |s| ensures s[a] < s[b] {
      assert s[b] == r[b - 1] && r[b - 1] in r;
      if a > 0 { assert s[a] == r[a - 1]; }
    }
  }

  lemma {:induction false} ErrorsOfAscending(attempts: seq<Attempt>, i: nat)
    requires i <= |attempts|
    ensures Ascending(ErrorIndicesOf(attempts, i))
    decreases |attempts| - i
  {
    if i < |attempts| && Settles(attempts[i]) {
      ErrorsOfAscending(attempts, i + 1);
      var rest := ErrorIndicesOf(attempts, i + 1);
      if Failed(attempts[i]) {
        ErrorsOfExact(attempts, i + 1);
        assert ErrorIndicesOf(attempts, i) == [i] + rest;
        ConsAscending(i, rest);
      } else {
        assert ErrorIndicesOf(attempts, i) == [] + rest;
      }
    }
  }

  /** A `downloadError` is reported exactly for the URLs whose attempt settled
      with an error before the loop hung, if it did, once each, in ascending
      order of their 0-based index, each with the message of the error the
      attempt ended with: no failure ends the loop. */
  lemma ErrorReports(folderName: Option<string>, itemId: string, attempts: seq<Attempt>)
    ensures var es := Select(TraceFrom(0, folderName, itemId, attempts), ErrorPick);
      var js := ErrorIndicesOf(attempts, 0);
      && ReportsCarryErrors(attempts, 0, es, js)
      && (forall j: int :: j in js <==> 0 <= j < SettledFrom(attempts, 0) && Failed(attempts[j]))
      && Ascending(js)
  {
    ErrorsTrace(0, folderName, itemId, attempts);
    ErrorsOfCarry(attempts, 0);
    ErrorsOfExact(attempts, 0);
    ErrorsOfAscending(attempts, 0);
  }

  // Delays.

  /** The delays waited from iteration `i` on. */
  function WaitsOf(attempts: seq<Attempt>, i: nat): seq<nat>
    requires i <= |attempts|
    decreases |attempts| - i
  {
    if i == |attempts| || !Settles(attempts[i]) then []
    else [DelayAfter(attempts[i])] + WaitsOf(attempts, i + 1)
  }

  lemma WaitsTrace(i: nat, folderName: Option<string>, itemId: string, attempts: seq<Attempt>)
    requires i <= |attempts|
    ensures Select(TraceFrom(i, folderName, itemId, attempts), WaitPick) == WaitsOf(attempts, i)
  {
    var spec := seq(|attempts| + 1, j requires 0 <= j <= |attempts| => WaitsOf(attempts, j));
    var steps := StepRows(folderName, itemId, attempts);
    var settles := SettleRows(attempts);
    RowsUnfold(folderName, itemId, attempts);
    forall j: nat | i <= j < |attempts|
      ensures SpecRowLinked(j, steps, settles, WaitPick, spec)
    {
      StepWaits(j, |attempts|, folderName, itemId, attempts[j]);
    }
    SelectRows(i, TraceRows(folderName, itemId, attempts), steps, settles, WaitPick, spec);
  }

  lemma {:induction false} WaitsOfDelays(attempts: seq<Attempt>, i: nat)
    requires i <= |attempts|
    ensures |WaitsOf(attempts, i)| == SettledFrom(attempts, i)
    ensures forall j :: i <= j < i + |WaitsOf(attempts, i)| ==>
      Settles(attempts[j]) && WaitsOf(attempts, i)[j - i] == DelayAfter(attempts[j])
    decreases |attempts| - i
  {
    if i < |attempts| && Settles(attempts[i]) {
      WaitsOfDelays(attempts, i + 1);
      var rest := WaitsOf(attempts, i + 1);
      assert WaitsOf(attempts, i) == [DelayAfter(attempts[i])] + rest;
    }
  }

  /** Every settled iteration ends with exactly one delay: 5000 ms after a
      saved image, 10000 ms after a failure. */
  lemma DelayAfterEachUrl(folderName: Option<string>, itemId: string, attempts: seq<Attempt>)
    ensures var ws := Select(TraceFrom(0, folderName, itemId, attempts), WaitPick);
      && |ws| == SettledFrom(attempts, 0)
      && forall j :: 0 <= j < |ws| ==>
           && Settles(attempts[j])
           && ws[j] == (if AttemptError(attempts[j]).None? then DownloadDelay else 2 * DownloadDelay)
  {
    WaitsTrace(0, folderName, itemId, attempts);
    WaitsOfDelays(attempts, 0);
    var ws := WaitsOf(attempts, 0);
    forall j | 0 <= j < |ws|
      ensures ws[j] == (if AttemptError(attempts[j]).None? then DownloadDelay else 2 * DownloadDelay)
    {
      assert Settles(attempts[j]) && ws[j] == DelayAfter(attempts[j]);
    }
  }

  // Completion.

  /** The `allDownloadsComplete` reports from iteration `i` on. */
  function CompletionsOf(attempts: seq<Attempt>, i: nat): seq<bool>
    requires i <= |attempts|
    decreases |attempts| - i
  {
    if i == |attempts| then [true]
    else if Settles(attempts[i]) then CompletionsOf(attempts, i + 1)
    else []
  }

  lemma CompletionsTrace(i: nat, folderName: Option<string>, itemId: string, attempts: seq<Attempt>)
    requires i <= |attempts|
    ensures Select(TraceFrom(i, folderName, itemId, attempts), CompletionPick) == CompletionsOf(attempts, i)
  {
    var spec := seq(|attempts| + 1, j requires 0 <= j <= |attempts| => CompletionsOf(attempts, j));
    var steps := StepRows(folderName, itemId, attempts);
    var settles := SettleRows(attempts);
    RowsUnfold(folderName, itemId, attempts);
    forall j: nat | i <= j < |attempts|
      ensures SpecRowLinked(j, steps, settles, CompletionPick, spec)
    {
      StepCompletions(j, |attempts|, folderName, itemId, attempts[j]);
    }
    SelectRows(i, TraceRows(folderName, itemId, attempts), steps, settles, CompletionPick, spec);
  }

  lemma {:induction false} CompletionsOfEnd(attempts: seq<Attempt>, i: nat)
    requires i <= |attempts|
    ensures CompletionsOf(attempts, i) == if i + SettledFrom(attempts, i) == |attempts| then [true] else []
    decreases |attempts| - i
  {
    if i < |attempts| && Settles(attempts[i]) {
      CompletionsOfEnd(attempts, i + 1);
    }
  }

  lemma {:induction false} CompletionLast(i: nat, folderName: Option<string>, itemId: string, attempts: seq<Attempt>)
    requires i <= |attempts|
    requires i + SettledFrom(attempts, i) == |attempts|
    ensures var tr := TraceFrom(i, folderName, itemId, attempts); tr != [] && tr[|tr| - 1] == AllDownloadsComplete(true)
    decreases |attempts| - i
  {
    if i < |attempts| {
      CompletionLast(i + 1, folderName, itemId, attempts);
      var step := StepEvents(i, |attempts|, folderName, itemId, attempts[i]);
      var rest := TraceFrom(i + 1, folderName, itemId, attempts);
      assert TraceFrom(i, folderName, itemId, attempts) == step + rest;
    }
  }

  /** `allDownloadsComplete` with success = true is sent exactly once, as the
      last event, when every download settles, even if all of them failed;
      never when the loop hangs. */
  lemma CompletionReportedOnce(folderName: Option<string>, itemId: string, attempts: seq<Attempt>)
    ensures var tr := TraceFrom(0, folderName, itemId, attempts);
      && Select(tr, CompletionPick)
         == (if forall j :: 0 <= j < |attempts| ==> Settles(attempts[j]) then [true] else [])
      && ((forall j :: 0 <= j < |attempts| ==> Settles(attempts[j])) ==>
            tr != [] && tr[|tr| - 1] == AllDownloadsComplete(true))
  {
    CompletionsTrace(0, folderName, itemId, attempts);
    CompletionsOfEnd(attempts, 0);
    SettledAll(attempts, 0);
    if SettledFrom(attempts, 0) == |attempts| {
      CompletionLast(0, folderName, itemId, attempts);
    }
  }

  // Object URLs.

  /** The indices whose object URL is revoked from iteration `i` on. */
  function RevokesOf(attempts: seq<Attempt>, i: nat): seq<nat>
    requires i <= |attempts|
    decreases |attempts| - i
  {
    if i == |attempts| || !Settles(attempts[i]) then []
    else (if attempts[i].Started? then [i] else []) + RevokesOf(attempts, i + 1)
  }

  lemma RevokesTrace(i: nat, folderName: Option<string>, itemId: string, attempts: seq<Attempt>)
    requires i <= |attempts|
    ensures Select(TraceFrom(i, folderName, itemId, attempts), RevokePick) == RevokesOf(attempts, i)
  {
    var spec := seq(|attempts| + 1, j requires 0 <= j <= |attempts| => RevokesOf(attempts, j));
    var steps := StepRows(folderName, itemId, attempts);
    var settles := SettleRows(attempts);
    RowsUnfold(folderName, itemId, attempts);
    forall j: nat | i <= j < |attempts|
      ensures SpecRowLinked(j, steps, settles, RevokePick, spec)
    {
      StepRevokes(j, |attempts|, folderName, itemId, attempts[j]);
    }
    SelectRows(i, TraceRows(folderName, itemId, attempts), steps, settles, RevokePick, spec);
  }

  lemma {:induction false} RevokesOfExact(attempts: seq<Attempt>, i: nat)
    requires i <= |attempts|
    ensures forall j: int :: j in RevokesOf(attempts, i) <==>
      i <= j < i + SettledFrom(attempts, i) && attempts[j].Started?
    decreases |attempts| - i
  {
    if i < |attempts| && Settles(attempts[i]) {
      RevokesOfExact(attempts, i + 1);
    }
  }

  lemma {:induction false} RevokesOfAscending(attempts: seq<Attempt>, i: nat)
    requires i <= |attempts|
    ensures Ascending(RevokesOf(attempts, i))
    decreases |attempts| - i
  {
    if i < |attempts| && Settles(attempts[i]) {
      RevokesOfAscending(attempts, i + 1);
      var rest := RevokesOf(attempts, i + 1);
      if attempts[i].Started? {
        RevokesOfExact(attempts, i + 1);
        assert RevokesOf(attempts, i) == [i] + rest;
        ConsAscending(i, rest);
      } else {
        assert RevokesOf(attempts, i) == [] + rest;
      }
    }
  }

  /** The object URL of a URL is revoked exactly when its download started and
      a terminal delta arrived, once, in ascending order of the index; when
      `downloads.download` rejects it is never revoked. */
  lemma ObjectUrlRevocations(folderName: Option<string>, itemId: string, attempts: seq<Attempt>)
    ensures var rs := Select(TraceFrom(0, folderName, itemId, attempts), RevokePick);
      && (forall j: int :: j in rs <==> 0 <= j < SettledFrom(attempts, 0) && attempts[j].Started?)
      && Ascending(rs)
  {
    RevokesTrace(0, folderName, itemId, attempts);
    RevokesOfExact(attempts, 0);
    RevokesOfAscending(attempts, 0);
  }

  // Download requests.

  /** The indices whose download is requested from iteration `i` on: every
      iteration begun whose fetch succeeded. */
  function RequestsOf(attempts: seq<Attempt>, i: nat): seq<nat>
    requires i <= |attempts|
    decreases |attempts| - i
  {
    if i == |attempts| then []
    else (if attempts[i].FetchFailed? then [] else [i]) + (if Settles(attempts[i]) then RequestsOf(attempts, i + 1) else [])
  }

  /** The file names whose download is requested from iteration `i` on. */
  function RequestNamesOf(folderName: Option<string>, itemId: string, attempts: seq<Attempt>, i: nat): seq<string>
    requires i <= |attempts|
    decreases |attempts| - i
  {
    if i == |attempts| then []
    else (if attempts[i].FetchFailed? then [] else [DirectFileName(folderName, itemId, i)])
         + (if Settles(attempts[i]) then RequestNamesOf(folderName, itemId, attempts, i + 1) else [])
  }

  lemma RequestsTrace(i: nat, folderName: Option<string>, itemId: string, attempts: seq<Attempt>)
    requires i <= |attempts|
    ensures Select(TraceFrom(i, folderName, itemId, attempts), RequestPick)
      == RequestNamesOf(folderName, itemId, attempts, i)
  {
    var spec := seq(|attempts| + 1, j requires 0 <= j <= |attempts| => RequestNamesOf(folderName, itemId, attempts, j));
    var steps := StepRows(folderName, itemId, attempts);
    var settles := SettleRows(attempts);
    RowsUnfold(folderName, itemId, attempts);
    forall j: nat | i <= j < |attempts|
      ensures SpecRowLinked(j, steps, settles, RequestPick, spec)
    {
      StepRequests(j, |attempts|, folderName, itemId, attempts[j]);
    }
    SelectRows(i, TraceRows(folderName, itemId, attempts), steps, settles, RequestPick, spec);
  }

  /** The `t`-th requested name is the file name of the `t`-th requested index. */
  lemma {:induction false} RequestNamesAt(folderName: Option<string>, itemId: string, attempts: seq<Attempt>, i: nat)
    requires i <= |attempts|
    ensures var names := RequestNamesOf(folderName, itemId, attempts, i);
      var js := RequestsOf(attempts, i);
      |names| == |js| && forall t :: 0 <= t < |js| ==> names[t] == DirectFileName(folderName, itemId, js[t])
    decreases |attempts| - i
  {
    if i < |attempts| {
      var settles := Settles(attempts[i]);
      var file := DirectFileName(folderName, itemId, i);
      var restNames := if settles then RequestNamesOf(folderName, itemId, attempts, i + 1) else [];
      var restJs := if settles then RequestsOf(attempts, i + 1) else [];
      if settles {
        RequestNamesAt(folderName, itemId, attempts, i + 1);
      }
      assert |restNames| == |restJs| && forall t :: 0 <= t < |restJs| ==>
        restNames[t] == DirectFileName(folderName, itemId, restJs[t]);
      if !attempts[i].FetchFailed? {
        ConsFileNames(file, i, restNames, restJs, folderName, itemId);
      }
    }
  }

  /** Putting one more index and its file name in front keeps names and indices in step. */
  lemma ConsFileNames(file: string, j: nat, names: seq<string>, js: seq<nat>, folderName: Option<string>, itemId: string)
    requires file == DirectFileName(folderName, itemId, j)
    requires |names| == |js| && forall t :: 0 <= t < |js| ==> names[t] == DirectFileName(folderName, itemId, js[t])
    ensures var ns, ks := [file] + names, [j] + js;
      |ns| == |ks| && forall t :: 0 <= t < |ks| ==> ns[t] == DirectFileName(folderName, itemId, ks[t])
  {
    var ns, ks := [file] + names, [j] + js;
    forall t | 0 <= t < |ks| ensures ns[t] == DirectFileName(folderName, itemId, ks[t]) {
      if t > 0 {
        assert ns[t] == names[t - 1] && ks[t] == js[t - 1];
      }
    }
  }

  lemma {:induction false} RequestsOfExact(attempts: seq<Attempt>, i: nat)
    requires i <= |attempts|
    ensures forall j: int :: j in RequestsOf(attempts, i) <==>
      i <= j < i + IterationsFrom(attempts, i) && !attempts[j].FetchFailed?
    decreases |attempts| - i
  {
    if i < |attempts| {
      var settles := Settles(attempts[i]);
      var head: seq<nat> := if attempts[i].FetchFailed? then [] else [i];
      var rest := if settles then RequestsOf(attempts, i + 1) else [];
      assert RequestsOf(attempts, i) == head + rest;
      if settles {
        RequestsOfExact(attempts, i + 1);
        assert SettledFrom(attempts, i) == 1 + SettledFrom(attempts, i + 1);
        assert IterationsFrom(attempts, i) == 1 + IterationsFrom(attempts, i + 1);
      } else {
        assert SettledFrom(attempts, i) == 0;
        assert IterationsFrom(attempts, i) == 1;
      }
    }
  }

  lemma {:induction false} RequestsOfAscending(attempts: seq<Attempt>, i: nat)
    requires i <= |attempts|
    ensures Ascending(RequestsOf(attempts, i))
    decreases |attempts| - i
  {
    if i < |attempts| {
      var rest := if Settles(attempts[i]) then RequestsOf(attempts, i + 1) else [];
      if Settles(attempts[i]) {
        RequestsOfAscending(attempts, i + 1);
        RequestsOfExact(attempts, i + 1);
      }
      if attempts[i].FetchFailed? {
        assert RequestsOf(attempts, i) == [] + rest;
      } else {
        assert RequestsOf(attempts, i) == [i] + rest;
        ConsAscending(i, rest);
      }
    }
  }

  /** The download of a URL is requested under its own file name exactly when
      its iteration was begun and its fetch succeeded, once, in ascending
      order of the 0-based index; a failed fetch requests nothing. */
  lemma DownloadRequests(folderName: Option<string>, itemId: string, attempts: seq<Attempt>)
    ensures var rs := Select(TraceFrom(0, folderName, itemId, attempts), RequestPick);
      var js := RequestsOf(attempts, 0);
      && |rs| == |js|
      && (forall t :: 0 <= t < |js| ==> rs[t] == DirectFileName(folderName, itemId, js[t]))
      && (forall j: int :: j in js <==> 0 <= j < IterationsFrom(attempts, 0) && !attempts[j].FetchFailed?)
      && Ascending(js)
  {
    RequestsTrace(0, folderName, itemId, attempts);
    RequestNamesAt(folderName, itemId, attempts, 0);
    RequestsOfExact(attempts, 0);
    RequestsOfAscending(attempts, 0);
  }
}
