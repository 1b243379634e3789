/**
 * The generation-queue panel
 * (src/pages/content-generation/components/GenerationQueue.jsx): what it
 * shows for each queue item of `ContentGeneration` — status icon and colour,
 * the estimate text, the action buttons and the error box — and the count of
 * active items in its header.
 */
module GenerationQueue {
  import opened Wrappers
  import Text
  import CG = ContentGeneration

  /** `!queue || queue.length === 0`: the panel renders nothing. */
  predicate RendersNothing(queue: Option<seq<CG.QueueItem>>) {
    queue.None? || |queue.value| == 0
  }

  /** The panel is drawn exactly for a non-empty queue, and cancel or retry never make it appear or vanish. */
  lemma RendersNothingOnlyWhenEmpty(queue: seq<CG.QueueItem>, id: string)
    ensures RendersNothing(None)
    ensures RendersNothing(Some(queue)) <==> |queue| == 0
    ensures RendersNothing(Some(CG.CancelItems(queue, id))) <==> RendersNothing(Some(queue))
    ensures RendersNothing(Some(CG.RetryItems(queue, id))) <==> RendersNothing(Some(queue))
  {
  }

  // ------------------------------------------------------- status styling

  /** `getStatusIcon`. */
  function StatusIcon(status: string): string {
    if status == "generating" then "Loader"
    else if status == "completed" then "CheckCircle"
    else if status == "failed" then "XCircle"
    else if status == "queued" then "Clock"
    else "Circle"
  }

  /** `getStatusColor`. */
  function StatusColor(status: string): string {
    if status == "generating" then "text-accent"
    else if status == "completed" then "text-success"
    else if status == "failed" then "text-error"
    else if status == "queued" then "text-warning"
    else "text-muted-foreground"
  }

  /** The four statuses the panel styles; every other one (e.g. `cancelled`) takes the default. */
  predicate IsKnownStatus(status: string) {
    status == "generating" || status == "completed" || status == "failed" || status == "queued"
  }

  /**
   * Icon and colour agree: an unknown status gets the default pair, a known one
   * a pair of its own, and equal icons always come with equal colours.
   */
  lemma StatusStyle(a: string, b: string)
    ensures !IsKnownStatus(a) <==> StatusIcon(a) == "Circle"
    ensures !IsKnownStatus(a) <==> StatusColor(a) == "text-muted-foreground"
    ensures StatusIcon(a) == StatusIcon(b) <==> StatusColor(a) == StatusColor(b)
    ensures IsKnownStatus(a) && StatusIcon(a) == StatusIcon(b) ==> a == b
  {
  }

  // ------------------------------------------------------------ estimates

  /** `formatTimeEstimate`: seconds below a minute, else whole minutes and the remaining seconds. */
  function FormatTimeEstimate(seconds: nat): string {
    if seconds < 60 then Text.NatToString(seconds) + "s"
    else Text.NatToString(seconds / 60) + "m " + Text.NatToString(seconds % 60) + "s"
  }

  predicate AllDigits(s: string) {
    forall i | 0 <= i < |s| :: Text.IsDigit(s[i])
  }

  /** Reads an estimate back: `<s>s` or `<m>m <r>s`. */
  function ParseTimeEstimate(t: string): Option<nat> {
    if |t| == 0 || t[|t| - 1] != 's' then None
    else if 'm' in t then
      var i := Text.FirstIndex(t, 'm');
      if i + 2 <= |t| - 1 && t[i + 1] == ' ' && AllDigits(t[..i]) && AllDigits(t[i + 2..|t| - 1])
      then Some(Text.ParseDigits(t[..i]) * 60 + Text.ParseDigits(t[i + 2..|t| - 1]))
      else None
    else if AllDigits(t[..|t| - 1]) then Some(Text.ParseDigits(t[..|t| - 1]))
    else None
  }

  /**
   * The estimate text loses nothing: reading it back gives the seconds, so
   * minutes and remaining seconds add up (60·m + r = s with r < 60) and
   * different estimates print differently.
   */
  lemma FormatTimeEstimateReadsBack(seconds: nat)
    ensures ParseTimeEstimate(FormatTimeEstimate(seconds)) == Some(seconds)
  {
    var t := FormatTimeEstimate(seconds);
    if seconds < 60 {
      var p := Text.NatToString(seconds);
      assert t[..|t| - 1] == p;
      assert 'm' !in t by {
        assert forall i | 0 <= i < |p| :: t[i] == p[i];
      }
      Text.ParseNatToString(seconds);
    } else {
      var p, q := Text.NatToString(seconds / 60), Text.NatToString(seconds % 60);
      assert t == p + "m " + q + "s";
      assert t[|p|] == 'm';
      assert t[..|p|] == p;
      assert 'm' !in p;
      var i := Text.FirstIndex(t, 'm');
      assert i == |p|;
      assert t[i + 2..|t| - 1] == q;
      Text.ParseNatToString(seconds / 60);
      Text.ParseNatToString(seconds % 60);
    }
  }

  /** Distinct estimates print differently. */
  lemma FormatTimeEstimateInjective(a: nat, b: nat)
    requires FormatTimeEstimate(a) == FormatTimeEstimate(b)
    ensures a == b
  {
    FormatTimeEstimateReadsBack(a);
    FormatTimeEstimateReadsBack(b);
  }

  // ---------------------------------------------------------- active count

  predicate IsActive(item: CG.QueueItem) {
    item.status == "queued" || item.status == "generating"
  }

  /** The header's `queue.filter(queued or generating).length`. */
  function ActiveCount(queue: seq<CG.QueueItem>): (n: nat)
    ensures n <= |queue|
    decreases |queue|
  {
    if |queue| == 0 then 0 else (if IsActive(queue[0]) then 1 else 0) + ActiveCount(queue[1..])
  }

  /**
   * Cancelling never adds active items, and changes the count only when an
   * active item carries the id.
   */
  lemma {:induction false} CancelNeverAddsActive(queue: seq<CG.QueueItem>, id: string)
    ensures ActiveCount(CG.CancelItems(queue, id)) <= ActiveCount(queue)
    ensures (forall k | 0 <= k < |queue| && queue[k].id == id :: !IsActive(queue[k])) ==>
            ActiveCount(CG.CancelItems(queue, id)) == ActiveCount(queue)
    decreases |queue|
  {
    if |queue| > 0 {
      CancelNeverAddsActive(queue[1..], id);
      assert CG.CancelItems(queue, id)[1..] == CG.CancelItems(queue[1..], id);
      if forall k | 0 <= k < |queue| && queue[k].id == id :: !IsActive(queue[k]) {
        assert forall k | 0 <= k < |queue[1..]| && queue[1..][k].id == id :: !IsActive(queue[1..][k]) by {
          forall k | 0 <= k < |queue[1..]| && queue[1..][k].id == id
            ensures !IsActive(queue[1..][k])
          {
            assert queue[1..][k] == queue[k + 1];
          }
        }
      }
    }
  }

  /** Retrying never removes active items, and makes every item with the id active. */
  lemma {:induction false} RetryMakesActive(queue: seq<CG.QueueItem>, id: string)
    ensures ActiveCount(CG.RetryItems(queue, id)) >= ActiveCount(queue)
    ensures forall k | 0 <= k < |queue| && queue[k].id == id :: IsActive(CG.RetryItems(queue, id)[k])
    decreases |queue|
  {
    if |queue| > 0 {
      RetryMakesActive(queue[1..], id);
      assert CG.RetryItems(queue, id)[1..] == CG.RetryItems(queue[1..], id);
    }
  }

  // --------------------------------------------------- actions and errors

  datatype Action = CancelAction | RetryAction | ViewAction

  /** The buttons of one item, in render order. */
  function Actions(item: CG.QueueItem): seq<Action> {
    (if item.status == "generating" then [CancelAction] else [])
    + (if item.status == "failed" then [RetryAction] else [])
    + (if item.status == "completed" then [ViewAction] else [])
  }

  /** Each button belongs to exactly one status, so an item offers at most one. */
  lemma ActionsByStatus(item: CG.QueueItem)
    ensures CancelAction in Actions(item) <==> item.status == "generating"
    ensures RetryAction in Actions(item) <==> item.status == "failed"
    ensures ViewAction in Actions(item) <==> item.status == "completed"
    ensures |Actions(item)| <= 1
  {
  }

  /** The error box: a failed item with a non-empty error. */
  predicate ShowsError(item: CG.QueueItem) {
    item.status == "failed" && item.error.Some? && item.error.value != ""
  }

  /**
   * The error box goes with a failed item, whose only button is then Retry; an
   * item just retried or cancelled never shows it, and other items keep theirs.
   */
  lemma ErrorBoxOnlyWhenFailed(queue: seq<CG.QueueItem>, id: string, k: nat)
    requires k < |queue|
    ensures ShowsError(queue[k]) ==> Actions(queue[k]) == [RetryAction]
    ensures queue[k].id == id ==> !ShowsError(CG.RetryItems(queue, id)[k]) && !ShowsError(CG.CancelItems(queue, id)[k])
    ensures queue[k].id != id ==>
      (ShowsError(CG.RetryItems(queue, id)[k]) <==> ShowsError(queue[k]))
      && (ShowsError(CG.CancelItems(queue, id)[k]) <==> ShowsError(queue[k]))
  {
  }

  /** The estimate line: shown only for a non-zero estimate, as `formatTimeEstimate` prints it. */
  function EtaText(item: CG.QueueItem): (r: Option<string>)
    ensures r.Some? <==> item.estimatedTime.Some? && item.estimatedTime.value > 0
  {
    if item.estimatedTime.Some? && item.estimatedTime.value > 0
    then Some("ETA: " + FormatTimeEstimate(item.estimatedTime.value))
    else None
  }
}
