/** Download-change notifications (`downloads.onChanged` deltas) and the test
    both completion listeners of the background script apply to them
    (background.js lines 73-74, 87 and 162-163, 167). */
module Deltas {
  import opened Wrappers

  /** The `current` value of a delta's `state` field. */
  datatype DownloadState = InProgress | Interrupted | Complete

  /** A delta: the download id, the state change if the delta has one, and the
      `current` value of its `error` field if it has one. */
  datatype Delta = Delta(id: int, state: Option<DownloadState>, error: Option<string>)

  /** What a listener reacts to. */
  datatype Terminal = Completed | InterruptedWith(error: Option<string>)

  /** The reaction a listener for download `downloadId` has to `delta`:
      none unless the ids agree and the delta carries a terminal state. */
  function Classify(delta: Delta, downloadId: int): (t: Option<Terminal>)
    ensures t.Some? <==>
      delta.id == downloadId && delta.state.Some? && delta.state.value != InProgress
    ensures t == Some(Completed) <==>
      delta.id == downloadId && delta.state == Some(Complete)
    ensures t.Some? && t.value.InterruptedWith? ==> t.value.error == delta.error
  {
    if delta.id == downloadId && delta.state.Some? then
      match delta.state.value
      case Complete => Some(Completed)
      case Interrupted => Some(InterruptedWith(delta.error))
      case InProgress => None
    else None
  }

  /** Position and kind of the first delta in `deltas` that a listener for
      `downloadId` reacts to. */
  function FirstTerminal(deltas: seq<Delta>, downloadId: int): Option<(nat, Terminal)>
  {
    if deltas == [] then None
    else match Classify(deltas[0], downloadId)
      case Some(t) => Some((0, t))
      case None =>
        match FirstTerminal(deltas[1..], downloadId)
        case None => None
        case Some((k, t)) => Some((k + 1, t))
  }

  /** FirstTerminal finds the first delta a listener reacts to: None when it
      reacts to none of them, otherwise the position of that delta, before
      which it reacts to nothing, and the kind of its terminal state. */
  lemma {:induction false} FirstTerminalIsFirst(deltas: seq<Delta>, downloadId: int)
    ensures var r := FirstTerminal(deltas, downloadId);
      && (r.None? <==> forall k :: 0 <= k < |deltas| ==> Classify(deltas[k], downloadId).None?)
      && (r.Some? ==>
            && r.value.0 < |deltas|
            && Classify(deltas[r.value.0], downloadId) == Some(r.value.1)
            && forall k :: 0 <= k < r.value.0 ==> Classify(deltas[k], downloadId).None?)
  {
    if deltas != [] {
      FirstTerminalIsFirst(deltas[1..], downloadId);
      if Classify(deltas[0], downloadId).None? {
        forall k | 1 <= k < |deltas| ensures deltas[k] == deltas[1..][k - 1] { }
      }
    }
  }

  const UnknownError := "不明なエラー"

  /** `delta.error?.current || '不明なエラー'`: an absent or empty error text
      is replaced by the fixed "unknown error" text. */
  function ErrorText(error: Option<string>): (s: string)
    ensures s != []
    ensures error.Some? && error.value != [] ==> s == error.value
    ensures error.None? || error.value == [] ==> s == UnknownError
  {
    if error.Some? && error.value != [] then error.value else UnknownError
  }
}
