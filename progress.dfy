/**
 * The progress and status of an engagement phase, derived from its
 * activities and deliverables. Items marked "not included" are out of the
 * engagement's scope and are dropped before anything is counted; a phase
 * with nothing left counts as complete.
 */
module PhaseProgress {
  import opened Types

  datatype Progress = Progress(progress: nat, status: PhaseStatus)

  function IncludedActivities(acts: seq<Activity>): (r: seq<Activity>)
    ensures |r| <= |acts|
    ensures forall a :: a in r <==> a in acts && a.status != PhaseStatus.NotIncluded
  {
    if acts == [] then []
    else if acts[0].status != PhaseStatus.NotIncluded then [acts[0]] + IncludedActivities(acts[1..])
    else IncludedActivities(acts[1..])
  }

  function IncludedDeliverables(dels: seq<Deliverable>): (r: seq<Deliverable>)
    ensures |r| <= |dels|
    ensures forall d :: d in r <==> d in dels && d.status != DeliverableStatus.NotIncluded
  {
    if dels == [] then []
    else if dels[0].status != DeliverableStatus.NotIncluded then [dels[0]] + IncludedDeliverables(dels[1..])
    else IncludedDeliverables(dels[1..])
  }

  /** How many of `acts` are completed. */
  function CompletedCount(acts: seq<Activity>): (n: nat)
    ensures n <= |acts|
    ensures n == 0 <==> forall a :: a in acts ==> a.status != PhaseStatus.Completed
  {
    if acts == [] then 0
    else (if acts[0].status == PhaseStatus.Completed then 1 else 0) + CompletedCount(acts[1..])
  }

  /** How many of `dels` are delivered. */
  function DeliveredCount(dels: seq<Deliverable>): (n: nat)
    ensures n <= |dels|
    ensures n == 0 <==> forall d :: d in dels ==> d.status != Delivered
  {
    if dels == [] then 0
    else (if dels[0].status == Delivered then 1 else 0) + DeliveredCount(dels[1..])
  }

  predicate AnyActivityInProgress(acts: seq<Activity>)
  {
    exists a :: a in acts && a.status == PhaseStatus.InProgress
  }

  predicate AnyDeliverableUnderway(dels: seq<Deliverable>)
  {
    exists d :: d in dels && (d.status == DeliverableStatus.InProgress || d.status == InReview)
  }

  /** The number of items of the phase that count: those not marked "not included". */
  function Total(phase: Phase): nat
  {
    |IncludedActivities(phase.activities)| + |IncludedDeliverables(phase.deliverables)|
  }

  /** The number of counted items that are finished: completed activities and delivered deliverables. */
  function Done(phase: Phase): (n: nat)
    ensures n <= Total(phase)
  {
    CompletedCount(IncludedActivities(phase.activities)) + DeliveredCount(IncludedDeliverables(phase.deliverables))
  }

  /** Whether some counted item has been started but not finished. */
  predicate Underway(phase: Phase)
  {
    AnyActivityInProgress(IncludedActivities(phase.activities))
    || AnyDeliverableUnderway(IncludedDeliverables(phase.deliverables))
  }

  /** For a positive divisor, the quotient reaches `k` exactly when `b * k` does not exceed `a`. */
  lemma DivAtLeast(a: nat, b: nat, k: nat)
    requires b > 0
    ensures a / b >= k <==> b * k <= a
  {
    var q := a / b;
    assert b * q + a % b == a;
    if q >= k {
      MulMonotone(b, k, q);
    } else {
      MulMonotone(b, q + 1, k);
      assert b * (q + 1) == b * q + b;
    }
  }

  lemma MulMonotone(x: nat, y: nat, z: nat)
    requires y <= z
    ensures x * y <= x * z
  {
    assert x * z == x * y + x * (z - y);
  }

  /**
   * `Math.round(done / total * 100)` on exact rationals: the percentage
   * rounded to the nearest integer, halves rounded up.
   */
  function RoundedPercent(done: nat, total: nat): (p: nat)
    requires 0 < total && done <= total
    ensures p <= 100
  {
    DivAtLeast(200 * done + total, 2 * total, 101);
    (200 * done + total) / (2 * total)
  }

  /** The rounded percentage is the integer nearest to `100 * done / total`, halves going up. */
  lemma RoundedPercentNearest(done: nat, total: nat)
    requires 0 < total && done <= total
    ensures var p := RoundedPercent(done, total);
      2 * total * p <= 200 * done + total < 2 * total * (p + 1)
  {
    var a, b := 200 * done + total, 2 * total;
    DivAtLeast(a, b, a / b);
    DivAtLeast(a, b, a / b + 1);
  }

  /** Rounded percentages reach a bound `k` exactly when `200 * done + total` reaches `2 * total * k`. */
  lemma RoundedPercentAtLeast(done: nat, total: nat, k: nat)
    requires 0 < total && done <= total
    ensures RoundedPercent(done, total) >= k <==> 2 * total * k <= 200 * done + total
  {
    DivAtLeast(200 * done + total, 2 * total, k);
  }

  /** The rounded percentage is the only value in its half-open bracket. */
  lemma RoundedPercentIs(done: nat, total: nat, p: nat)
    requires 0 < total && done <= total
    requires 2 * total * p <= 200 * done + total < 2 * total * (p + 1)
    ensures RoundedPercent(done, total) == p
  {
    RoundedPercentAtLeast(done, total, p);
    RoundedPercentAtLeast(done, total, p + 1);
  }

  /** The computed progress and status of a phase; the phase's stored status and progress are not read. */
  function ComputePhaseProgress(phase: Phase): (r: Progress)
    ensures r.progress <= 100
    ensures r.status == PhaseStatus.Completed <==> r.progress == 100
    ensures r.status == PhaseStatus.Completed || r.status == PhaseStatus.InProgress || r.status == PhaseStatus.NotStarted
  {
    ProgressOfIncluded(IncludedActivities(phase.activities), IncludedDeliverables(phase.deliverables))
  }

  /** The progress and status given the counted activities and deliverables. */
  function ProgressOfIncluded(acts: seq<Activity>, dels: seq<Deliverable>): (r: Progress)
    ensures r.progress <= 100
    ensures r.status == PhaseStatus.Completed <==> r.progress == 100
    ensures r.status == PhaseStatus.Completed || r.status == PhaseStatus.InProgress || r.status == PhaseStatus.NotStarted
  {
    var total := |acts| + |dels|;
    if total == 0 then Progress(100, PhaseStatus.Completed)
    else
      var done := CompletedCount(acts) + DeliveredCount(dels);
      var progress := RoundedPercent(done, total);
      if progress == 100 then Progress(progress, PhaseStatus.Completed)
      else if done > 0 || AnyActivityInProgress(acts) || AnyDeliverableUnderway(dels) then
        Progress(progress, PhaseStatus.InProgress)
      else Progress(progress, PhaseStatus.NotStarted)
  }

  // ---- Properties of the derived progress ----

  /** Progress is 100 exactly when nothing counts or at least 199 of every 200 counted items are finished. */
  lemma CompletedIff(phase: Phase)
    ensures ComputePhaseProgress(phase).status == PhaseStatus.Completed
        <==> Total(phase) == 0 || 200 * Done(phase) >= 199 * Total(phase)
  {
    var acts, dels := IncludedActivities(phase.activities), IncludedDeliverables(phase.deliverables);
    var t, d := Total(phase), Done(phase);
    assert ComputePhaseProgress(phase) == ProgressOfIncluded(acts, dels);
    if t > 0 {
      RoundedPercentAtLeast(d, t, 100);
      assert ProgressOfIncluded(acts, dels).progress == RoundedPercent(d, t);
    }
  }

  lemma {:induction false} NoIncludedActivities(acts: seq<Activity>)
    requires forall a :: a in acts ==> a.status == PhaseStatus.NotIncluded
    ensures IncludedActivities(acts) == []
  {
    if acts != [] {
      assert acts[0] in acts;
      NoIncludedActivities(acts[1..]);
    }
  }

  lemma {:induction false} NoIncludedDeliverables(dels: seq<Deliverable>)
    requires forall d :: d in dels ==> d.status == DeliverableStatus.NotIncluded
    ensures IncludedDeliverables(dels) == []
  {
    if dels != [] {
      assert dels[0] in dels;
      NoIncludedDeliverables(dels[1..]);
    }
  }

  /** A phase with nothing counted (empty, or every item "not included") is complete. */
  lemma EmptyPhaseIsComplete(phase: Phase)
    requires forall a :: a in phase.activities ==> a.status == PhaseStatus.NotIncluded
    requires forall d :: d in phase.deliverables ==> d.status == DeliverableStatus.NotIncluded
    ensures ComputePhaseProgress(phase) == Progress(100, PhaseStatus.Completed)
  {
    NoIncludedActivities(phase.activities);
    NoIncludedDeliverables(phase.deliverables);
  }

  /** With every counted item finished the phase is complete; with none finished its progress is 0. */
  lemma ProgressExtremes(phase: Phase)
    ensures Done(phase) == Total(phase) ==> ComputePhaseProgress(phase) == Progress(100, PhaseStatus.Completed)
    ensures Total(phase) > 0 && Done(phase) == 0 ==> ComputePhaseProgress(phase).progress == 0
  {
    var acts, dels := IncludedActivities(phase.activities), IncludedDeliverables(phase.deliverables);
    var t, d := Total(phase), Done(phase);
    assert ComputePhaseProgress(phase) == ProgressOfIncluded(acts, dels);
    if t > 0 {
      assert ProgressOfIncluded(acts, dels).progress == RoundedPercent(d, t);
      if d == t {
        RoundedPercentAtLeast(d, t, 100);
      }
      if d == 0 {
        RoundedPercentAtLeast(d, t, 1);
      }
    }
  }

  /**
   * Below 200 counted items a phase is complete only when every counted item
   * is finished; from 200 items on, rounding completes a phase with one item
   * still open.
   */
  lemma RoundingAndCompletion(done: nat, total: nat)
    requires 0 < total && done <= total
    ensures total < 200 ==> (RoundedPercent(done, total) == 100 <==> done == total)
    ensures total >= 200 ==> RoundedPercent(total - 1, total) == 100
  {
    RoundedPercentAtLeast(done, total, 100);
    if total >= 200 {
      RoundedPercentAtLeast(total - 1, total, 100);
    }
  }

  /** The phase has not started exactly when it is not complete, nothing is finished and nothing is underway. */
  lemma NotStartedIff(phase: Phase)
    ensures ComputePhaseProgress(phase).status == PhaseStatus.NotStarted
        <==> ComputePhaseProgress(phase).progress < 100 && Done(phase) == 0 && !Underway(phase)
  {
  }

  /** Every phase that is not complete and has something finished or underway is in progress. */
  lemma InProgressIff(phase: Phase)
    ensures ComputePhaseProgress(phase).status == PhaseStatus.InProgress
        <==> ComputePhaseProgress(phase).progress < 100 && (Done(phase) > 0 || Underway(phase))
  {
  }

  lemma {:induction false} IncludedActivitiesIdempotent(acts: seq<Activity>)
    ensures IncludedActivities(IncludedActivities(acts)) == IncludedActivities(acts)
  {
    if acts != [] {
      IncludedActivitiesIdempotent(acts[1..]);
      var rest := IncludedActivities(acts[1..]);
      if acts[0].status != PhaseStatus.NotIncluded {
        assert ([acts[0]] + rest)[1..] == rest;
      }
    }
  }

  lemma {:induction false} IncludedDeliverablesIdempotent(dels: seq<Deliverable>)
    ensures IncludedDeliverables(IncludedDeliverables(dels)) == IncludedDeliverables(dels)
  {
    if dels != [] {
      IncludedDeliverablesIdempotent(dels[1..]);
      var rest := IncludedDeliverables(dels[1..]);
      if dels[0].status != DeliverableStatus.NotIncluded {
        assert ([dels[0]] + rest)[1..] == rest;
      }
    }
  }

  /** The result depends only on the counted items: dropping the "not included" ones changes nothing. */
  lemma ExcludedItemsIgnored(phase: Phase)
    ensures ComputePhaseProgress(phase) == ComputePhaseProgress(phase.(
      activities := IncludedActivities(phase.activities),
      deliverables := IncludedDeliverables(phase.deliverables)))
  {
    IncludedActivitiesIdempotent(phase.activities);
    IncludedDeliverablesIdempotent(phase.deliverables);
  }

  lemma {:induction false} IncludedActivitiesAppend(acts: seq<Activity>, more: seq<Activity>)
    ensures IncludedActivities(acts + more) == IncludedActivities(acts) + IncludedActivities(more)
  {
    if acts == [] {
      assert acts + more == more;
    } else {
      assert (acts + more)[1..] == acts[1..] + more;
      IncludedActivitiesAppend(acts[1..], more);
    }
  }

  lemma {:induction false} IncludedDeliverablesAppend(dels: seq<Deliverable>, more: seq<Deliverable>)
    ensures IncludedDeliverables(dels + more) == IncludedDeliverables(dels) + IncludedDeliverables(more)
  {
    if dels == [] {
      assert dels + more == more;
    } else {
      assert (dels + more)[1..] == dels[1..] + more;
      IncludedDeliverablesAppend(dels[1..], more);
    }
  }

  /** Adding a "not included" activity to a phase changes neither its progress nor its status. */
  lemma AddingExcludedActivityChangesNothing(phase: Phase, a: Activity)
    requires a.status == PhaseStatus.NotIncluded
    ensures ComputePhaseProgress(phase.(activities := phase.activities + [a])) == ComputePhaseProgress(phase)
  {
    IncludedActivitiesAppend(phase.activities, [a]);
    assert IncludedActivities([a]) == [];
    assert IncludedActivities(phase.activities + [a]) == IncludedActivities(phase.activities);
  }

  /** Adding a "not included" deliverable to a phase changes neither its progress nor its status. */
  lemma AddingExcludedDeliverableChangesNothing(phase: Phase, d: Deliverable)
    requires d.status == DeliverableStatus.NotIncluded
    ensures ComputePhaseProgress(phase.(deliverables := phase.deliverables + [d])) == ComputePhaseProgress(phase)
  {
    IncludedDeliverablesAppend(phase.deliverables, [d]);
    assert IncludedDeliverables([d]) == [];
    assert IncludedDeliverables(phase.deliverables + [d]) == IncludedDeliverables(phase.deliverables);
  }
}
