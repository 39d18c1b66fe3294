/** The `downloadImage` request of the background script (background.js
    lines 51-116): fetch one image, start its download, and listen for the
    download to finish, counting saved and failed downloads in the counters
    of the background page (lines 20-21), which installation resets
    (lines 207-212). */
module Completion {
  import opened Wrappers
  import opened Deltas
  import opened Fetch

  /** The `downloadComplete` message sent to the requesting tab. */
  datatype TabMessage = DownloadComplete(success: bool, filename: string, error: Option<string>)

  /** Everything a completion listener can change: whether it is still
      registered with `downloads.onChanged`, whether it revoked its object
      URL, the two counters of the background page and the messages sent to
      the tab so far. */
  datatype ListenerState = ListenerState(
    registered: bool, revoked: bool, successCount: nat, failureCount: nat, outbox: seq<TabMessage>)

  /** What a listener does on the terminal delta it reacts to: it removes
      itself, revokes the object URL, counts the outcome and tells the tab. */
  function Settle(s: ListenerState, t: Terminal, filename: string): (r: ListenerState)
    ensures !r.registered && r.revoked
    ensures |r.outbox| == |s.outbox| + 1 && r.outbox[..|s.outbox|] == s.outbox
    ensures t.Completed? ==>
      && r.successCount == s.successCount + 1 && r.failureCount == s.failureCount
      && r.outbox[|s.outbox|] == DownloadComplete(true, filename, None)
    ensures t.InterruptedWith? ==>
      && r.successCount == s.successCount && r.failureCount == s.failureCount + 1
      && r.outbox[|s.outbox|] == DownloadComplete(false, filename, Some(ErrorText(t.error)))
  {
    match t
    case Completed =>
      ListenerState(false, true, s.successCount + 1, s.failureCount,
                    s.outbox + [DownloadComplete(true, filename, None)])
    case InterruptedWith(error) =>
      ListenerState(false, true, s.successCount, s.failureCount + 1,
                    s.outbox + [DownloadComplete(false, filename, Some(ErrorText(error)))])
  }

  /** The effect of one `downloads.onChanged` delta on the listener for
      download `downloadId`: nothing once the listener is removed, nothing for
      a delta about another download, without a state, or still in progress. */
  function Step(s: ListenerState, delta: Delta, downloadId: int, filename: string): (r: ListenerState)
    ensures !s.registered || delta.id != downloadId || delta.state.None? || delta.state == Some(InProgress)
            ==> r == s
    ensures s.registered && delta.id == downloadId && delta.state == Some(Complete) ==>
      && !r.registered && r.revoked
      && r.successCount == s.successCount + 1 && r.failureCount == s.failureCount
    ensures s.registered && delta.id == downloadId && delta.state == Some(Interrupted) ==>
      && !r.registered && r.revoked
      && r.successCount == s.successCount && r.failureCount == s.failureCount + 1
  {
    if s.registered && Classify(delta, downloadId).Some? then Settle(s, Classify(delta, downloadId).value, filename)
    else s
  }

  /** The listener after the deltas `deltas` were delivered to it, in order.
      Counters never decrease and messages are only ever added. */
  function Run(s: ListenerState, deltas: seq<Delta>, downloadId: int, filename: string): (r: ListenerState)
    ensures s.successCount <= r.successCount && s.failureCount <= r.failureCount
    ensures |s.outbox| <= |r.outbox| && r.outbox[..|s.outbox|] == s.outbox
    decreases |deltas|
  {
    if deltas == [] then s else Run(Step(s, deltas[0], downloadId, filename), deltas[1..], downloadId, filename)
  }

  /** A removed listener is never called again: no delta changes anything. */
  lemma {:induction false} RunUnregistered(s: ListenerState, deltas: seq<Delta>, downloadId: int, filename: string)
    requires !s.registered
    ensures Run(s, deltas, downloadId, filename) == s
  {
    if deltas != [] {
      RunUnregistered(s, deltas[1..], downloadId, filename);
    }
  }

  /** A registered listener acts exactly once, on the first delta that reports
      its download `complete` or `interrupted`, and the deltas after that one
      have no effect; when there is no such delta it does nothing at all. */
  lemma {:induction false} RunActsOnFirstTerminal(s: ListenerState, deltas: seq<Delta>, downloadId: int, filename: string)
    requires s.registered
    ensures Run(s, deltas, downloadId, filename)
      == match FirstTerminal(deltas, downloadId)
         case None => s
         case Some((_, t)) => Settle(s, t, filename)
  {
    if deltas != [] {
      var s' := Step(s, deltas[0], downloadId, filename);
      if Classify(deltas[0], downloadId).Some? {
        RunUnregistered(s', deltas[1..], downloadId, filename);
      } else {
        RunActsOnFirstTerminal(s', deltas[1..], downloadId, filename);
      }
    }
  }

  /** Whatever deltas arrive, a freshly registered listener bumps at most one counter,
      by one, and sends at most one message; it does so exactly when a terminal
      delta for its download arrives, and then it has removed itself and
      revoked the object URL. Counters never decrease. */
  lemma CountersBumpedOnce(s: ListenerState, deltas: seq<Delta>, downloadId: int, filename: string)
    requires s.registered && !s.revoked
    ensures var r := Run(s, deltas, downloadId, filename);
      && s.successCount <= r.successCount && s.failureCount <= r.failureCount
      && r.successCount + r.failureCount <= s.successCount + s.failureCount + 1
      && |s.outbox| <= |r.outbox| <= |s.outbox| + 1 && r.outbox[..|s.outbox|] == s.outbox
      && (r.successCount + r.failureCount == s.successCount + s.failureCount + 1
          <==> (exists k :: 0 <= k < |deltas| && Classify(deltas[k], downloadId).Some?))
      && (r.revoked <==> !r.registered)
      && (r.successCount == s.successCount + 1 <==> exists k ::
            && 0 <= k < |deltas| && deltas[k].id == downloadId && deltas[k].state == Some(Complete)
            && forall m :: 0 <= m < k ==> Classify(deltas[m], downloadId).None?)
  {
    RunActsOnFirstTerminal(s, deltas, downloadId, filename);
    FirstTerminalIsFirst(deltas, downloadId);
    var r := Run(s, deltas, downloadId, filename);
    if r.successCount == s.successCount + 1 {
      var k := FirstTerminal(deltas, downloadId).value.0;
      assert deltas[k].id == downloadId && deltas[k].state == Some(Complete);
    }
  }

  /** How the start of a `downloadImage` request turns out. */
  datatype Launch =
    /** `fetchImageAsBinary` threw. */
    | FetchRejected(fetchError: FetchError)
    /** `downloads.download` rejected with this message. */
    | DownloadRejected(message: string)
    /** The download started under this id. */
    | DownloadStarted(downloadId: int)

  /** The background page: its two counters and the messages it sent to the tab. */
  class Background {
    var successCount: nat
    var failureCount: nat
    var outbox: seq<TabMessage>

    /** Script start: both counters are zero (background.js:20-21). */
    constructor()
      ensures successCount == 0 && failureCount == 0 && outbox == []
    {
      successCount := 0;
      failureCount := 0;
      outbox := [];
    }

    /** `runtime.onInstalled`: both counters go back to zero. */
    method OnInstalled()
      modifies this
      ensures successCount == 0 && failureCount == 0 && outbox == old(outbox)
    {
      successCount := 0;
      failureCount := 0;
    }

    /** A `downloadImage` request for `filename`. When fetching or starting the
        download fails the tab is told at once, with the error message, and the
        counters are left alone; otherwise a fresh, registered listener for the
        new download is returned and nothing is sent yet. */
    method DownloadImage(filename: string, launch: Launch) returns (listener: Listener?)
      modifies this
      ensures successCount == old(successCount) && failureCount == old(failureCount)
      ensures launch.FetchRejected? ==>
        listener == null
        && outbox == old(outbox) + [DownloadComplete(false, filename, Some(FetchErrorMessage(launch.fetchError)))]
      ensures launch.DownloadRejected? ==>
        listener == null && outbox == old(outbox) + [DownloadComplete(false, filename, Some(launch.message))]
      ensures launch.DownloadStarted? ==>
        && listener != null && fresh(listener) && outbox == old(outbox)
        && listener.bg == this && listener.downloadId == launch.downloadId && listener.filename == filename
        && listener.registered && !listener.revoked
    {
      match launch
      case FetchRejected(e) =>
        outbox := outbox + [DownloadComplete(false, filename, Some(FetchErrorMessage(e)))];
        listener := null;
      case DownloadRejected(message) =>
        outbox := outbox + [DownloadComplete(false, filename, Some(message))];
        listener := null;
      case DownloadStarted(downloadId) =>
        listener := new Listener(this, downloadId, filename);
    }
  }

  /** The `downloads.onChanged` listener of one `downloadImage` request. */
  class Listener {
    const bg: Background
    const downloadId: int
    const filename: string
    var registered: bool
    var revoked: bool

    constructor(bg: Background, downloadId: int, filename: string)
      ensures this.bg == bg && this.downloadId == downloadId && this.filename == filename
      ensures registered && !revoked
    {
      this.bg := bg;
      this.downloadId := downloadId;
      this.filename := filename;
      registered := true;
      revoked := false;
    }

    /** The listener's flags together with the background page's counters and messages. */
    function View(): ListenerState
      reads this, bg
    {
      ListenerState(registered, revoked, bg.successCount, bg.failureCount, bg.outbox)
    }

    /** Delivery of one delta; once the listener has removed itself the host
        no longer calls it, which is the same as calling it to no effect. */
    method OnChanged(delta: Delta)
      modifies this, bg
      ensures View() == Step(old(View()), delta, downloadId, filename)
    {
      if registered && delta.id == downloadId && delta.state.Some? {
        if delta.state.value == Complete {
          registered := false;
          revoked := true;
          bg.successCount := bg.successCount + 1;
          bg.outbox := bg.outbox + [DownloadComplete(true, filename, None)];
        } else if delta.state.value == Interrupted {
          registered := false;
          revoked := true;
          bg.failureCount := bg.failureCount + 1;
          bg.outbox := bg.outbox + [DownloadComplete(false, filename, Some(ErrorText(delta.error)))];
        }
      }
    }
  }
}
