/**
 * The arithmetic of `Worker.run` (UI/MyWindow.py): percent clamping, the
 * status a downloaded candidate ends with, the success quota, the loop over
 * the candidates, and the progress ratios that never fall back.
 */
module Worker {
  import opened Wrappers

  function Max(a: int, b: int): int { if a < b then b else a }
  function Min(a: int, b: int): int { if a < b then a else b }

  // ---- percentages ---------------------------------------------------------

  /** Python's `int(x)` on a float: truncation toward zero. */
  function Trunc(x: real): (r: int)
    ensures 0.0 <= x ==> r as real <= x < r as real + 1.0
    ensures x < 0.0 ==> r as real - 1.0 < x <= r as real
  {
    if x >= 0.0 then x.Floor else -((-x).Floor)
  }

  /** `Worker._clamp_percent`: the truncated value, held inside `[0, 100]`. */
  function ClampPercent(value: real): (r: int)
    ensures 0 <= r <= 100
    ensures 0 <= Trunc(value) <= 100 ==> r == Trunc(value)
    ensures Trunc(value) < 0 ==> r == 0
    ensures Trunc(value) > 100 ==> r == 100
  {
    Max(0, Min(100, Trunc(value)))
  }

  lemma {:induction false} TruncMonotone(a: real, b: real)
    requires a <= b
    ensures Trunc(a) <= Trunc(b)
  {
    if Trunc(a) > Trunc(b) {
      assert false;
    }
  }

  /** A larger value never gives a smaller percentage, and a percentage is its own clamp. */
  lemma ClampPercentMonotone(a: real, b: real)
    requires a <= b
    ensures ClampPercent(a) <= ClampPercent(b)
    ensures ClampPercent(ClampPercent(a) as real) == ClampPercent(a)
  {
    TruncMonotone(a, b);
    assert Trunc(ClampPercent(a) as real) == ClampPercent(a);
  }

  // ---- ratios --------------------------------------------------------------

  /** `max(0.0, min(1.0, float(value)))`. */
  function Clamp01(value: real): (r: real)
    ensures 0.0 <= r <= 1.0
    ensures 0.0 <= value <= 1.0 ==> r == value
    ensures value < 0.0 ==> r == 0.0
    ensures value > 1.0 ==> r == 1.0
  {
    if value < 0.0 then 0.0 else if value > 1.0 then 1.0 else value
  }

  /** A clamped ratio that is not allowed below the stored one. */
  function Raise(stored: real, value: real): (r: real)
    ensures r >= stored && r >= Clamp01(value)
    ensures r == stored || r == Clamp01(value)
  {
    var clamped := Clamp01(value);
    if clamped < stored then stored else clamped
  }

  function MaxReal(a: real, b: real): real { if a < b then b else a }

  /** The overall progress of a task: monitoring weighs a quarter, downloading three quarters. */
  function Combined(monitor: real, download: real): real {
    monitor * 0.25 + download * 0.75
  }

  predicate IsRatio(x: real) { 0.0 <= x <= 1.0 }

  /** The weighted progress is a ratio, and grows with either phase. */
  lemma CombinedBounds(m: real, d: real, mHigh: real, dHigh: real)
    requires IsRatio(m) && IsRatio(d) && m <= mHigh && d <= dHigh
    ensures IsRatio(Combined(m, d))
    ensures Combined(m, d) <= Combined(mHigh, dHigh)
  {
  }

  /** `task_phase`: the monitor ratio, the download ratio and the overall ratio shown. */
  datatype Phase = Phase(monitor: real, download: real, total: real)

  predicate PhaseValid(p: Phase) {
    IsRatio(p.monitor) && IsRatio(p.download) && IsRatio(p.total) && Combined(p.monitor, p.download) <= p.total
  }

  /** `refresh_task_progress`: the weighted progress, never below the total already shown. */
  function Refresh(p: Phase): (q: Phase)
    ensures q.monitor == p.monitor && q.download == p.download
    ensures q.total >= p.total && q.total >= Combined(p.monitor, p.download)
    ensures q.total == p.total || q.total == Combined(p.monitor, p.download)
  {
    p.(total := MaxReal(p.total, Combined(p.monitor, p.download)))
  }

  /** `set_monitor_ratio(value)`. */
  function WithMonitor(p: Phase, value: real): Phase {
    Refresh(p.(monitor := Raise(p.monitor, value)))
  }

  /** `set_download_ratio(value)`. */
  function WithDownload(p: Phase, value: real): Phase {
    Refresh(p.(download := Raise(p.download, value)))
  }

  /**
   * Setting either phase keeps every ratio inside `[0, 1]` and lowers none
   * of them; the new phase ratio is at least the clamped value given.
   */
  lemma PhaseSettersMonotone(p: Phase, value: real)
    requires PhaseValid(p)
    ensures PhaseValid(WithMonitor(p, value)) && PhaseValid(WithDownload(p, value))
    ensures WithMonitor(p, value).monitor >= MaxReal(p.monitor, Clamp01(value))
    ensures WithMonitor(p, value).download == p.download && WithMonitor(p, value).total >= p.total
    ensures WithDownload(p, value).download >= MaxReal(p.download, Clamp01(value))
    ensures WithDownload(p, value).monitor == p.monitor && WithDownload(p, value).total >= p.total
  {
    var m := p.(monitor := Raise(p.monitor, value));
    var d := p.(download := Raise(p.download, value));
    CombinedBounds(m.monitor, m.download, m.monitor, m.download);
    CombinedBounds(d.monitor, d.download, d.monitor, d.download);
  }

  predicate NonDecreasing(xs: seq<real>) {
    forall i, j :: 0 <= i < j < |xs| ==> xs[i] <= xs[j]
  }

  function Sum(xs: seq<real>): real {
    if xs == [] then 0.0 else Sum(xs[..|xs| - 1]) + xs[|xs| - 1]
  }

  predicate AllRatios(xs: seq<real>) {
    forall i :: 0 <= i < |xs| ==> IsRatio(xs[i])
  }

  /** The sum of `n` ratios lies in `[0, n]`. */
  lemma {:induction false} SumBounds(xs: seq<real>)
    requires AllRatios(xs)
    ensures 0.0 <= Sum(xs) <= |xs| as real
  {
    if xs != [] {
      SumBounds(xs[..|xs| - 1]);
    }
  }

  /** Replacing one entry changes the sum by exactly the difference. */
  lemma {:induction false} SumUpdate(xs: seq<real>, i: nat, v: real)
    requires i < |xs|
    ensures Sum(xs[i := v]) == Sum(xs) - xs[i] + v
  {
    var n := |xs| - 1;
    if i < n {
      assert xs[i := v][..n] == xs[..n][i := v];
      SumUpdate(xs[..n], i, v);
    } else {
      assert xs[i := v][..n] == xs[..n];
    }
  }

  /** `sum(candidate_progress) / candidate_count`. */
  function Mean(xs: seq<real>): (r: real)
    requires |xs| > 0
    ensures AllRatios(xs) ==> IsRatio(r)
  {
    assert AllRatios(xs) ==> 0.0 <= Sum(xs) <= |xs| as real by {
      if AllRatios(xs) {
        SumBounds(xs);
      }
    }
    Sum(xs) / (|xs| as real)
  }

  /** Raising one candidate's ratio never lowers the mean. */
  lemma MeanRaised(xs: seq<real>, i: nat, v: real)
    requires i < |xs| && xs[i] <= v
    ensures Mean(xs) <= Mean(xs[i := v])
  {
    SumUpdate(xs, i, v);
    DivMonotone(Sum(xs), Sum(xs[i := v]), |xs| as real);
  }

  lemma DivMonotone(a: real, b: real, n: real)
    requires a <= b && n > 0.0
    ensures a / n <= b / n
  {
  }

  /**
   * The progress closures of one `run_url` call: `task_phase`,
   * `candidate_progress` and `download_ratio_state`, with the overall values
   * `_emit_general_progress` has been given so far.
   */
  class RunProgress {
    var monitor: real
    var download: real
    var total: real
    var emitted: seq<real>
    var candidates: seq<real>
    var ratio: real

    function PhaseOf(): Phase
      reads this
    {
      Phase(monitor, download, total)
    }

    /**
     * Every ratio is inside `[0, 1]`, the overall value shown is never below
     * the weighted phases, never falls and is the last value emitted.
     */
    predicate Valid()
      reads this
    {
      && PhaseValid(PhaseOf()) && AllRatios(candidates) && IsRatio(ratio)
      && NonDecreasing(emitted) && (forall i :: 0 <= i < |emitted| ==> emitted[i] <= total)
      && (emitted != [] ==> emitted[|emitted| - 1] == total)
    }

    /** The state at the start of a task with `count` candidates. */
    constructor (count: nat)
      ensures Valid()
      ensures monitor == 0.0 && download == 0.0 && total == 0.0 && ratio == 0.0 && emitted == []
      ensures candidates == seq(count, _ => 0.0)
    {
      monitor, download, total, ratio := 0.0, 0.0, 0.0, 0.0;
      emitted := [];
      candidates := seq(count, _ => 0.0);
    }

    /** `refresh_task_progress`. */
    method RefreshTaskProgress()
      requires IsRatio(monitor) && IsRatio(download) && IsRatio(total) && AllRatios(candidates)
      requires IsRatio(ratio)
      requires NonDecreasing(emitted) && forall i :: 0 <= i < |emitted| ==> emitted[i] <= total
      modifies this
      ensures Valid()
      ensures PhaseOf() == Refresh(old(PhaseOf())) && emitted == old(emitted) + [total]
      ensures candidates == old(candidates) && ratio == old(ratio)
    {
      CombinedBounds(monitor, download, monitor, download);
      var combined := Combined(monitor, download);
      if combined < total {
        combined := total;
      }
      total := combined;
      emitted := emitted + [combined];
    }

    /** `set_monitor_ratio(value)`. */
    method SetMonitorRatio(value: real)
      requires Valid()
      modifies this
      ensures Valid()
      ensures PhaseOf() == WithMonitor(old(PhaseOf()), value) && emitted == old(emitted) + [total]
      ensures candidates == old(candidates) && ratio == old(ratio)
    {
      var clamped := Clamp01(value);
      if clamped < monitor {
        clamped := monitor;
      }
      monitor := clamped;
      RefreshTaskProgress();
    }

    /** `set_download_ratio(value)`. */
    method SetDownloadRatio(value: real)
      requires Valid()
      modifies this
      ensures Valid()
      ensures PhaseOf() == WithDownload(old(PhaseOf()), value) && emitted == old(emitted) + [total]
      ensures candidates == old(candidates) && ratio == old(ratio)
    {
      var clamped := Clamp01(value);
      if clamped < download {
        clamped := download;
      }
      download := clamped;
      RefreshTaskProgress();
    }

    /**
     * `push_download_ratio(value)`: the clamped value, never below the stored
     * ratio; the download phase is set only when the ratio moved.
     */
    method PushDownloadRatio(value: real)
      requires Valid()
      modifies this
      ensures Valid()
      ensures ratio == Raise(old(ratio), value) && candidates == old(candidates)
      ensures ratio == old(ratio) ==> PhaseOf() == old(PhaseOf()) && emitted == old(emitted)
      ensures ratio != old(ratio) ==>
        PhaseOf() == WithDownload(old(PhaseOf()), ratio) && emitted == old(emitted) + [total]
    {
      var clamped := Clamp01(value);
      if clamped < ratio {
        clamped := ratio;
      }
      if clamped == ratio {
        return;
      }
      ratio := clamped;
      SetDownloadRatio(clamped);
    }

    /**
     * `update_candidate_progress(index, value)`: an index outside the list
     * changes nothing; otherwise that candidate's ratio is raised and the
     * mean over all candidates is pushed.
     */
    method UpdateCandidateProgress(index: int, value: real)
      requires Valid()
      modifies this
      ensures Valid()
      ensures !(0 <= index < |old(candidates)|) ==>
        candidates == old(candidates) && ratio == old(ratio) && PhaseOf() == old(PhaseOf()) && emitted == old(emitted)
      ensures 0 <= index < |old(candidates)| ==>
        candidates == old(candidates)[index := Raise(old(candidates)[index], value)]
        && ratio == Raise(old(ratio), Mean(candidates))
      ensures ratio == old(ratio) ==> PhaseOf() == old(PhaseOf()) && emitted == old(emitted)
      ensures ratio != old(ratio) ==>
        PhaseOf() == WithDownload(old(PhaseOf()), ratio) && emitted == old(emitted) + [total]
    {
      if |candidates| <= 0 {
        return;
      }
      if index < 0 || index >= |candidates| {
        return;
      }
      var clamped := Clamp01(value);
      if clamped < candidates[index] {
        clamped := candidates[index];
      }
      candidates := candidates[index := clamped];
      var aggregate := Mean(candidates);
      PushDownloadRatio(aggregate);
    }

    /**
     * `update_quota_progress(value)`: with no success planned the download is
     * complete; otherwise the successes so far plus the clamped share of the
     * current candidate, over the planned successes.
     */
    method UpdateQuotaProgress(value: real, successes: nat, planned: int)
      requires Valid()
      modifies this
      ensures Valid()
      ensures candidates == old(candidates)
      ensures planned <= 0 ==> ratio == 1.0
      ensures planned > 0 ==> ratio == Raise(old(ratio), (successes as real + Clamp01(value)) / planned as real)
      ensures ratio == old(ratio) ==> PhaseOf() == old(PhaseOf()) && emitted == old(emitted)
      ensures ratio != old(ratio) ==>
        PhaseOf() == WithDownload(old(PhaseOf()), ratio) && emitted == old(emitted) + [total]
    {
      if planned <= 0 {
        PushDownloadRatio(1.0);
        return;
      }
      var clamped := Clamp01(value);
      var r := (successes as real + clamped) / planned as real;
      PushDownloadRatio(r);
    }
  }

  // ---- the status of a candidate -------------------------------------------

  /**
   * What a finished `DownloadM3U8` reports: the segments listed, the failed
   * ones, whether it was interrupted and whether ffmpeg merged the rest.
   */
  datatype DownloadReport = DownloadReport(total: nat, failed: nat, interrupted: bool, merged: bool)

  datatype Status =
    | Pending
    | SkippedNoDownload
    | InvalidM3u8
    | InterruptedDuringSegmentDownload
    | NoDownloadableSegments
    | FfmpegFailed
    | CompletedWithToleratedMissingSegments
    | MergedWithMissingSegments
    | Completed
    | SkippedTargetReached
    | SkippedInterrupted

  /** The log entry of a candidate: its status, flags and segment counts. */
  datatype CandidateResult = CandidateResult(
    status: Status, completed: bool, byTolerance: bool, mergeCompleted: bool,
    hasMissing: bool, total: nat, downloaded: nat, failed: nat)

  /** `completion_policy["maxMissingSegments"]`. */
  const MaxMissingSegments: nat := 2

  /**
   * The tolerance of `completion_policy`: at most two failed segments, or a
   * success ratio `downloaded / total` of at least 0.995 (cross-multiplied).
   */
  predicate Tolerable(failed: nat, downloaded: nat, total: nat) {
    failed <= MaxMissingSegments || (total > 0 && 1000 * downloaded >= 995 * total)
  }

  function Zeroed(status: Status): CandidateResult {
    CandidateResult(status, false, false, false, false, 0, 0, 0)
  }

  /**
   * The status one pass of the candidate loop records: `x` is the
   * downloader, or nothing when the playlist could not be read.
   */
  function CandidateOutcome(mode: int, x: Option<DownloadReport>): CandidateResult {
    if mode == 0 then Zeroed(SkippedNoDownload)
    else if x.None? then Zeroed(InvalidM3u8)
    else
      var d := x.value;
      var downloaded := if d.total >= d.failed then d.total - d.failed else 0;
      var missing := d.failed > 0;
      if d.interrupted then Zeroed(InterruptedDuringSegmentDownload)
      else if downloaded <= 0 then CandidateResult(NoDownloadableSegments, false, false, false, missing, d.total, downloaded, d.failed)
      else if !d.merged then CandidateResult(FfmpegFailed, false, false, false, missing, d.total, downloaded, d.failed)
      else if missing then
        if Tolerable(d.failed, downloaded, d.total) then
          CandidateResult(CompletedWithToleratedMissingSegments, true, true, true, true, d.total, downloaded, d.failed)
        else CandidateResult(MergedWithMissingSegments, false, false, true, true, d.total, downloaded, d.failed)
      else CandidateResult(Completed, true, false, true, false, d.total, downloaded, d.failed)
  }

  predicate IsSuccess(s: Status) {
    s == Completed || s == CompletedWithToleratedMissingSegments
  }

  /**
   * A candidate counts as completed exactly when it was downloaded without
   * interruption, at least one segment arrived, ffmpeg merged it, and any
   * missing segments are within the tolerance; it is completed by tolerance
   * exactly when it is completed with segments missing, and plainly
   * `completed` exactly when it is completed with none missing.
   */
  lemma OutcomeCompletion(mode: int, x: Option<DownloadReport>)
    ensures var o := CandidateOutcome(mode, x);
      && (o.completed <==>
            (mode != 0 && x.Some? && !x.value.interrupted && x.value.total > x.value.failed && x.value.merged
             && (x.value.failed == 0 || Tolerable(x.value.failed, x.value.total - x.value.failed, x.value.total))))
      && (o.completed <==> IsSuccess(o.status))
      && (o.byTolerance <==> o.completed && o.failed > 0)
      && (o.status == Completed <==> o.completed && o.failed == 0)
      && (o.hasMissing <==> o.failed > 0)
      && (o.mergeCompleted ==> o.downloaded + o.failed == o.total && o.downloaded > 0)
  {
  }

  /** With a hundred segments, three failures exceed the tolerance; two do not. */
  lemma HundredSegmentsTolerance()
    ensures CandidateOutcome(1, Some(DownloadReport(100, 3, false, true))).status == MergedWithMissingSegments
    ensures CandidateOutcome(1, Some(DownloadReport(100, 2, false, true))).status == CompletedWithToleratedMissingSegments
    ensures CandidateOutcome(1, Some(DownloadReport(1000, 5, false, true))).status == CompletedWithToleratedMissingSegments
    ensures CandidateOutcome(1, Some(DownloadReport(1000, 6, false, true))).status == MergedWithMissingSegments
  {
  }

  // ---- the success quota ---------------------------------------------------

  /** `success_target_map.get(download_mode)`: first one, first five, or no limit. */
  function SuccessTarget(mode: int): Option<nat> {
    if mode == 0 then Some(0)
    else if mode == 1 then Some(1)
    else if mode == 2 then Some(5)
    else None
  }

  /** `planned_successes`. */
  function PlannedSuccesses(mode: int, count: nat): nat {
    if mode == 0 then 0
    else match SuccessTarget(mode)
      case None => count
      case Some(t) => Max(1, Min(t, count))
  }

  /**
   * Mode 0 plans nothing; the other modes plan at least one success and no
   * more than there are candidates: one for "first", up to five for "first
   * five", and every candidate for "all".
   */
  lemma PlannedSuccessesBounds(mode: int, count: nat)
    requires count >= 1
    ensures mode == 0 <==> PlannedSuccesses(mode, count) == 0
    ensures mode != 0 ==> 1 <= PlannedSuccesses(mode, count) <= count
    ensures mode == 1 ==> PlannedSuccesses(mode, count) == 1
    ensures mode == 2 ==> PlannedSuccesses(mode, count) == Min(5, count)
    ensures SuccessTarget(mode).None? ==> PlannedSuccesses(mode, count) == count
  {
  }

  // ---- the candidate loop --------------------------------------------------

  function Repeat(s: Status, n: nat): (r: seq<Status>)
    ensures |r| == n && forall i :: 0 <= i < n ==> r[i] == s
  {
    seq(n, _ => s)
  }

  /** The check at the top of the loop: a limited mode has reached its planned successes. */
  predicate QuotaReached(mode: int, successes: nat, planned: nat) {
    SuccessTarget(mode).Some? && successes >= planned
  }

  /**
   * The statuses the candidate loop records for `downloads` (one entry per
   * remaining candidate) and the successes counted, starting from
   * `successes`: once the quota is reached the rest is skipped, and an
   * interrupted download skips the rest as interrupted.
   */
  function Run(mode: int, planned: nat, downloads: seq<Option<DownloadReport>>, successes: nat): (r: (seq<Status>, nat))
    ensures |r.0| == |downloads| && r.1 >= successes
  {
    if downloads == [] then ([], successes)
    else if QuotaReached(mode, successes, planned) then (Repeat(SkippedTargetReached, |downloads|), successes)
    else
      var o := CandidateOutcome(mode, downloads[0]);
      var next := if o.completed then successes + 1 else successes;
      if o.status == InterruptedDuringSegmentDownload then ([o.status] + Repeat(SkippedInterrupted, |downloads| - 1), next)
      else
        var rest := Run(mode, planned, downloads[1..], next);
        ([o.status] + rest.0, rest.1)
  }

  function CountSuccesses(statuses: seq<Status>): nat {
    if statuses == [] then 0
    else (if IsSuccess(statuses[0]) then 1 else 0) + CountSuccesses(statuses[1..])
  }

  lemma CountSuccessesAppend(a: seq<Status>, b: seq<Status>)
    ensures CountSuccesses(a + b) == CountSuccesses(a) + CountSuccesses(b)
  {
    if a != [] {
      assert (a + b)[0] == a[0] && (a + b)[1..] == a[1..] + b;
      CountSuccessesAppend(a[1..], b);
    } else {
      assert a + b == b;
    }
  }

  lemma {:induction false} CountNoSuccesses(s: Status, n: nat)
    requires !IsSuccess(s)
    ensures CountSuccesses(Repeat(s, n)) == 0
  {
    if n > 0 {
      assert Repeat(s, n)[1..] == Repeat(s, n - 1);
      CountNoSuccesses(s, n - 1);
    }
  }

  /**
   * The successes counted are the successful statuses recorded, and a
   * limited mode never counts more successes than it planned.
   */
  lemma {:induction false} RunCounts(mode: int, planned: nat, downloads: seq<Option<DownloadReport>>, successes: nat)
    ensures Run(mode, planned, downloads, successes).1 == successes + CountSuccesses(Run(mode, planned, downloads, successes).0)
    ensures SuccessTarget(mode).Some? && successes <= planned ==> Run(mode, planned, downloads, successes).1 <= planned
    decreases |downloads|
  {
    if downloads != [] {
      if QuotaReached(mode, successes, planned) {
        CountNoSuccesses(SkippedTargetReached, |downloads|);
      } else {
        var o := CandidateOutcome(mode, downloads[0]);
        OutcomeCompletion(mode, downloads[0]);
        var next := if o.completed then successes + 1 else successes;
        if o.status == InterruptedDuringSegmentDownload {
          CountNoSuccesses(SkippedInterrupted, |downloads| - 1);
          CountSuccessesAppend([o.status], Repeat(SkippedInterrupted, |downloads| - 1));
        } else {
          RunCounts(mode, planned, downloads[1..], next);
          CountSuccessesAppend([o.status], Run(mode, planned, downloads[1..], next).0);
        }
      }
    }
  }

  /**
   * In mode 0 the quota of zero is reached before the first candidate, so
   * every candidate is recorded as skipped for the target and none as
   * `skipped_no_download`.
   */
  lemma ModeZeroSkipsForTarget(downloads: seq<Option<DownloadReport>>)
    ensures Run(0, PlannedSuccesses(0, |downloads|), downloads, 0).0 == Repeat(SkippedTargetReached, |downloads|)
    ensures SkippedNoDownload !in Run(0, PlannedSuccesses(0, |downloads|), downloads, 0).0
  {
  }

  /** The quota check as evidently intended: a mode that plans no success never stops early. */
  predicate QuotaReachedIntended(mode: int, successes: nat, planned: nat) {
    SuccessTarget(mode).Some? && planned > 0 && successes >= planned
  }

  /** `Run` with the intended quota check. */
  function RunIntended(mode: int, planned: nat, downloads: seq<Option<DownloadReport>>, successes: nat): (r: (seq<Status>, nat))
    ensures |r.0| == |downloads| && r.1 >= successes
  {
    if downloads == [] then ([], successes)
    else if QuotaReachedIntended(mode, successes, planned) then (Repeat(SkippedTargetReached, |downloads|), successes)
    else
      var o := CandidateOutcome(mode, downloads[0]);
      var next := if o.completed then successes + 1 else successes;
      if o.status == InterruptedDuringSegmentDownload then ([o.status] + Repeat(SkippedInterrupted, |downloads| - 1), next)
      else
        var rest := RunIntended(mode, planned, downloads[1..], next);
        ([o.status] + rest.0, rest.1)
  }

  /** With the intended check, mode 0 records every candidate as `skipped_no_download`. */
  lemma {:induction false} ModeZeroIntended(downloads: seq<Option<DownloadReport>>, successes: nat)
    ensures RunIntended(0, 0, downloads, successes).0 == Repeat(SkippedNoDownload, |downloads|)
    ensures RunIntended(0, 0, downloads, successes).1 == successes
    decreases |downloads|
  {
    if downloads != [] {
      ModeZeroIntended(downloads[1..], successes);
    }
  }

  /** With the intended check, and a quota above zero, both checks agree. */
  lemma {:induction false} IntendedAgreesWithQuota(mode: int, planned: nat, downloads: seq<Option<DownloadReport>>, successes: nat)
    requires planned > 0
    ensures RunIntended(mode, planned, downloads, successes) == Run(mode, planned, downloads, successes)
    decreases |downloads|
  {
    if downloads != [] && !QuotaReached(mode, successes, planned) {
      var o := CandidateOutcome(mode, downloads[0]);
      var next := if o.completed then successes + 1 else successes;
      IntendedAgreesWithQuota(mode, planned, downloads[1..], next);
    }
  }

  /** The statuses before `i` and the run from `i` on make up the whole run. */
  predicate Tracks(mode: int, planned: nat, downloads: seq<Option<DownloadReport>>, goal: (seq<Status>, nat),
                   statuses: seq<Status>, i: nat, successes: nat)
    requires i <= |downloads| && |statuses| == |downloads|
  {
    statuses[..i] + Run(mode, planned, downloads[i..], successes).0 == goal.0
    && Run(mode, planned, downloads[i..], successes).1 == goal.1
  }

  lemma TracksStep(mode: int, planned: nat, downloads: seq<Option<DownloadReport>>, goal: (seq<Status>, nat),
                   statuses: seq<Status>, i: nat, successes: nat)
    requires i < |downloads| && |statuses| == |downloads|
    requires Tracks(mode, planned, downloads, goal, statuses, i, successes)
    requires !QuotaReached(mode, successes, planned)
    requires CandidateOutcome(mode, downloads[i]).status != InterruptedDuringSegmentDownload
    ensures var o := CandidateOutcome(mode, downloads[i]);
      Tracks(mode, planned, downloads, goal, statuses[i := o.status], i + 1,
        if o.completed then successes + 1 else successes)
  {
    var o := CandidateOutcome(mode, downloads[i]);
    var next := if o.completed then successes + 1 else successes;
    assert downloads[i..][0] == downloads[i];
    assert downloads[i..][1..] == downloads[i + 1..];
    RunRecords(mode, planned, downloads[i..], successes);
    var rest := Run(mode, planned, downloads[i + 1..], next);
    RecordShift(statuses, i, o.status, rest.0);
  }

  lemma RecordShift(statuses: seq<Status>, i: nat, s: Status, rest: seq<Status>)
    requires i < |statuses|
    ensures statuses[i := s][..i + 1] + rest == statuses[..i] + ([s] + rest)
  {
    assert statuses[i := s][..i + 1] == statuses[..i] + [s];
  }

  /** A candidate run before the quota is reached and not interrupted heads the statuses of the rest. */
  lemma RunRecords(mode: int, planned: nat, downloads: seq<Option<DownloadReport>>, successes: nat)
    requires downloads != [] && !QuotaReached(mode, successes, planned)
    requires CandidateOutcome(mode, downloads[0]).status != InterruptedDuringSegmentDownload
    ensures var o := CandidateOutcome(mode, downloads[0]);
      var rest := Run(mode, planned, downloads[1..], if o.completed then successes + 1 else successes);
      Run(mode, planned, downloads, successes) == ([o.status] + rest.0, rest.1)
  {
    var o := CandidateOutcome(mode, downloads[0]);
    assert o.status != InterruptedDuringSegmentDownload;
  }

  /** When the loop leaves early at `i`, the rest of the run is the given tail. */
  lemma TracksExit(mode: int, planned: nat, downloads: seq<Option<DownloadReport>>, goal: (seq<Status>, nat),
                   statuses: seq<Status>, i: nat, successes: nat, tail: seq<Status>, final: nat)
    requires i < |downloads| && |statuses| == |downloads|
    requires Tracks(mode, planned, downloads, goal, statuses, i, successes)
    requires Run(mode, planned, downloads[i..], successes) == (tail, final)
    ensures (statuses[..i] + tail, final) == goal
  {
  }

  /**
   * One turn of the loop of `run_url`: stop once the quota is reached or a
   * download is interrupted, otherwise record the candidate's status.
   */
  method RunCandidate(mode: int, planned: nat, downloads: seq<Option<DownloadReport>>, goal: (seq<Status>, nat),
                      statuses: seq<Status>, i: nat, successes: nat)
    returns (nextStatuses: seq<Status>, nextSuccesses: nat, stop: bool)
    requires i < |downloads| && |statuses| == |downloads|
    requires Tracks(mode, planned, downloads, goal, statuses, i, successes)
    ensures |nextStatuses| == |downloads|
    ensures stop ==> (nextStatuses, nextSuccesses) == goal
    ensures !stop ==> Tracks(mode, planned, downloads, goal, nextStatuses, i + 1, nextSuccesses)
  {
    assert downloads[i..][0] == downloads[i];
    if QuotaReached(mode, successes, planned) {
      TracksExit(mode, planned, downloads, goal, statuses, i, successes, Repeat(SkippedTargetReached, |downloads| - i), successes);
      return statuses[..i] + Repeat(SkippedTargetReached, |downloads| - i), successes, true;
    }
    var o := CandidateOutcome(mode, downloads[i]);
    var next := if o.completed then successes + 1 else successes;
    if o.status == InterruptedDuringSegmentDownload {
      TracksExit(mode, planned, downloads, goal, statuses, i, successes, [o.status] + Repeat(SkippedInterrupted, |downloads| - i - 1), next);
      return statuses[..i] + ([o.status] + Repeat(SkippedInterrupted, |downloads| - i - 1)), next, true;
    }
    TracksStep(mode, planned, downloads, goal, statuses, i, successes);
    return statuses[i := o.status], next, false;
  }

  /**
   * The loop of `run_url` over the candidates, with each download's report
   * given: the statuses it records and the successful videos it counts.
   */
  method RunCandidates(mode: int, downloads: seq<Option<DownloadReport>>) returns (statuses: seq<Status>, successes: nat)
    ensures (statuses, successes) == Run(mode, PlannedSuccesses(mode, |downloads|), downloads, 0)
    ensures mode != 0 ==> (statuses, successes) == RunIntended(mode, PlannedSuccesses(mode, |downloads|), downloads, 0)
  {
    var planned := PlannedSuccesses(mode, |downloads|);
    var goal := Run(mode, planned, downloads, 0);
    if planned > 0 {
      IntendedAgreesWithQuota(mode, planned, downloads, 0);
    }
    statuses := Repeat(Pending, |downloads|);
    successes := 0;
    var i := 0;
    while i < |downloads|
      invariant 0 <= i <= |downloads| && |statuses| == |downloads|
      invariant Tracks(mode, planned, downloads, goal, statuses, i, successes)
    {
      var stop;
      statuses, successes, stop := RunCandidate(mode, planned, downloads, goal, statuses, i, successes);
      if stop {
        return;
      }
      i := i + 1;
    }
    assert downloads[i..] == [] && statuses[..i] == statuses;
    assert Run(mode, planned, downloads[i..], successes) == ([], successes);
    assert statuses[..i] + [] == statuses;
  }
}
