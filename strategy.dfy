/**
 * The strategy page's engagement logic: status changes of activities,
 * deliverables, use cases and strategy documents, replacing one record by
 * id; the per-client aggregate figures; and the deliverable list with its
 * status filter.
 */
module Strategy {
  import opened Types
  import opened Text
  import opened PhaseProgress
  import ClientContext

  // ---- Status changes ----

  /**
   * An activity given a new status: the completion date is stamped with
   * today when the new status is "completed" and is otherwise kept, never
   * cleared. Nothing else about the activity changes.
   */
  function StampActivity(a: Activity, status: PhaseStatus, today: string): (r: Activity)
    ensures r.status == status
    ensures status == PhaseStatus.Completed ==> r.completedDate == Some(today)
    ensures status != PhaseStatus.Completed ==> r.completedDate == a.completedDate
    ensures r.(status := a.status, completedDate := a.completedDate) == a
  {
    a.(status := status, completedDate := if status == PhaseStatus.Completed then Some(today) else a.completedDate)
  }

  /** A deliverable given a new status, with the delivery date stamped on "delivered" and otherwise kept. */
  function StampDeliverable(d: Deliverable, status: DeliverableStatus, today: string): (r: Deliverable)
    ensures r.status == status
    ensures status == Delivered ==> r.deliveredDate == Some(today)
    ensures status != Delivered ==> r.deliveredDate == d.deliveredDate
    ensures r.(status := d.status, deliveredDate := d.deliveredDate) == d
  {
    d.(status := status, deliveredDate := if status == Delivered then Some(today) else d.deliveredDate)
  }

  /** Every activity with the id gets the new status; the others are kept, in place. */
  function WithActivityStamped(acts: seq<Activity>, activityId: string, status: PhaseStatus, today: string): (r: seq<Activity>)
    ensures |r| == |acts|
    ensures forall i :: 0 <= i < |acts| ==>
      r[i] == if acts[i].id == activityId then StampActivity(acts[i], status, today) else acts[i]
  {
    if acts == [] then []
    else
      [if acts[0].id == activityId then StampActivity(acts[0], status, today) else acts[0]]
      + WithActivityStamped(acts[1..], activityId, status, today)
  }

  function WithDeliverableStamped(dels: seq<Deliverable>, deliverableId: string, status: DeliverableStatus, today: string): (r: seq<Deliverable>)
    ensures |r| == |dels|
    ensures forall i :: 0 <= i < |dels| ==>
      r[i] == if dels[i].id == deliverableId then StampDeliverable(dels[i], status, today) else dels[i]
  {
    if dels == [] then []
    else
      [if dels[0].id == deliverableId then StampDeliverable(dels[0], status, today) else dels[0]]
      + WithDeliverableStamped(dels[1..], deliverableId, status, today)
  }

  /**
   * The phase collection after `updateActivityStatus`: in the phases with
   * the phase id, the activities with the activity id get the new status;
   * every other phase and activity is kept, and the order is kept.
   */
  function WithActivityStatus(phases: seq<Phase>, phaseId: string, activityId: string, status: PhaseStatus, today: string): (r: seq<Phase>)
    ensures |r| == |phases|
    ensures forall i :: 0 <= i < |phases| ==>
      r[i] == if phases[i].id == phaseId
              then phases[i].(activities := WithActivityStamped(phases[i].activities, activityId, status, today))
              else phases[i]
  {
    if phases == [] then []
    else
      var p := phases[0];
      [if p.id == phaseId then p.(activities := WithActivityStamped(p.activities, activityId, status, today)) else p]
      + WithActivityStatus(phases[1..], phaseId, activityId, status, today)
  }

  /** The phase collection after `updateDeliverableStatus`, keyed on the phase id and the deliverable id. */
  function WithDeliverableStatus(phases: seq<Phase>, phaseId: string, deliverableId: string, status: DeliverableStatus, today: string): (r: seq<Phase>)
    ensures |r| == |phases|
    ensures forall i :: 0 <= i < |phases| ==>
      r[i] == if phases[i].id == phaseId
              then phases[i].(deliverables := WithDeliverableStamped(phases[i].deliverables, deliverableId, status, today))
              else phases[i]
  {
    if phases == [] then []
    else
      var p := phases[0];
      [if p.id == phaseId then p.(deliverables := WithDeliverableStamped(p.deliverables, deliverableId, status, today)) else p]
      + WithDeliverableStatus(phases[1..], phaseId, deliverableId, status, today)
  }

  /** The use cases after `updateUseCaseStatus`: only the status of the records with the id changes. */
  function WithUseCaseStatus(useCases: seq<UseCase>, id: string, status: UseCaseStatus): (r: seq<UseCase>)
    ensures |r| == |useCases|
    ensures forall i :: 0 <= i < |useCases| ==>
      r[i] == if useCases[i].id == id then useCases[i].(status := status) else useCases[i]
  {
    if useCases == [] then []
    else
      [if useCases[0].id == id then useCases[0].(status := status) else useCases[0]]
      + WithUseCaseStatus(useCases[1..], id, status)
  }

  /**
   * The strategy documents after `updateDocumentStatus`: only the status of
   * the records with the id changes. The page's handler for documents has the
   * same shape as the one for use cases, so this mirrors `WithUseCaseStatus`.
   */
  function WithDocumentStatus(docs: seq<StrategyDocument>, id: string, status: DocumentStatus): (r: seq<StrategyDocument>)
    ensures |r| == |docs|
    ensures forall i :: 0 <= i < |docs| ==>
      r[i] == if docs[i].id == id then docs[i].(status := status) else docs[i]
  {
    if docs == [] then []
    else
      [if docs[0].id == id then docs[0].(status := status) else docs[0]]
      + WithDocumentStatus(docs[1..], id, status)
  }

  /** An activity update that matches nothing leaves the phase collection as it is. */
  lemma ActivityUpdateWithoutMatchIsNoOp(phases: seq<Phase>, phaseId: string, activityId: string, status: PhaseStatus, today: string)
    requires forall p :: p in phases && p.id == phaseId ==> forall a :: a in p.activities ==> a.id != activityId
    ensures WithActivityStatus(phases, phaseId, activityId, status, today) == phases
  {
    var r := WithActivityStatus(phases, phaseId, activityId, status, today);
    forall i | 0 <= i < |phases| ensures r[i] == phases[i] {
      var p := phases[i];
      if p.id == phaseId {
        assert p in phases;
        var acts := WithActivityStamped(p.activities, activityId, status, today);
        forall j | 0 <= j < |acts| ensures acts[j] == p.activities[j] {
          assert p.activities[j] in p.activities;
        }
        assert acts == p.activities;
      }
    }
  }

  /** A deliverable update that matches nothing leaves the phase collection as it is. */
  lemma DeliverableUpdateWithoutMatchIsNoOp(phases: seq<Phase>, phaseId: string, deliverableId: string, status: DeliverableStatus, today: string)
    requires forall p :: p in phases && p.id == phaseId ==> forall d :: d in p.deliverables ==> d.id != deliverableId
    ensures WithDeliverableStatus(phases, phaseId, deliverableId, status, today) == phases
  {
    var r := WithDeliverableStatus(phases, phaseId, deliverableId, status, today);
    forall i | 0 <= i < |phases| ensures r[i] == phases[i] {
      var p := phases[i];
      if p.id == phaseId {
        assert p in phases;
        var dels := WithDeliverableStamped(p.deliverables, deliverableId, status, today);
        forall j | 0 <= j < |dels| ensures dels[j] == p.deliverables[j] {
          assert p.deliverables[j] in p.deliverables;
        }
        assert dels == p.deliverables;
      }
    }
  }

  /** Issuing the same activity status change twice has the effect of issuing it once. */
  lemma ActivityUpdateIdempotent(phases: seq<Phase>, phaseId: string, activityId: string, status: PhaseStatus, today: string)
    ensures var once := WithActivityStatus(phases, phaseId, activityId, status, today);
            WithActivityStatus(once, phaseId, activityId, status, today) == once
  {
    var once := WithActivityStatus(phases, phaseId, activityId, status, today);
    var twice := WithActivityStatus(once, phaseId, activityId, status, today);
    forall i | 0 <= i < |phases| ensures twice[i] == once[i] {
      if phases[i].id == phaseId {
        var acts1 := once[i].activities;
        var acts2 := twice[i].activities;
        assert |acts2| == |acts1|;
        forall j | 0 <= j < |acts1| ensures acts2[j] == acts1[j] {
        }
        assert acts2 == acts1;
      }
    }
  }

  /** Issuing the same deliverable status change twice has the effect of issuing it once. */
  lemma DeliverableUpdateIdempotent(phases: seq<Phase>, phaseId: string, deliverableId: string, status: DeliverableStatus, today: string)
    ensures var once := WithDeliverableStatus(phases, phaseId, deliverableId, status, today);
            WithDeliverableStatus(once, phaseId, deliverableId, status, today) == once
  {
    var once := WithDeliverableStatus(phases, phaseId, deliverableId, status, today);
    var twice := WithDeliverableStatus(once, phaseId, deliverableId, status, today);
    forall i | 0 <= i < |phases| ensures twice[i] == once[i] {
      if phases[i].id == phaseId {
        var dels1 := once[i].deliverables;
        var dels2 := twice[i].deliverables;
        assert |dels2| == |dels1|;
        forall j | 0 <= j < |dels1| ensures dels2[j] == dels1[j] {
        }
        assert dels2 == dels1;
      }
    }
  }

  // ---- Per-client aggregates ----

  /** `allPhases.filter(p => p.clientId === clientId)`. */
  function ClientPhases(phases: seq<Phase>, clientId: string): (r: seq<Phase>)
    ensures |r| <= |phases|
    ensures forall p :: p in r <==> p in phases && p.clientId == clientId
  {
    if phases == [] then []
    else if phases[0].clientId == clientId then [phases[0]] + ClientPhases(phases[1..], clientId)
    else ClientPhases(phases[1..], clientId)
  }

  /** The client's phases keep their store order: filtering a concatenation filters each part. */
  lemma {:induction false} ClientPhasesAppend(phases: seq<Phase>, more: seq<Phase>, clientId: string)
    ensures ClientPhases(phases + more, clientId) == ClientPhases(phases, clientId) + ClientPhases(more, clientId)
  {
    if phases == [] {
      assert phases + more == more;
    } else {
      assert (phases + more)[1..] == phases[1..] + more;
      ClientPhasesAppend(phases[1..], more, clientId);
    }
  }

  /** A single phase is kept exactly when it belongs to the client. */
  lemma ClientPhasesSingle(p: Phase, clientId: string)
    ensures ClientPhases([p], clientId) == if p.clientId == clientId then [p] else []
  {
  }

  /** `phases.flatMap(p => p.deliverables)`. */
  function AllDeliverables(phases: seq<Phase>): seq<Deliverable>
  {
    if phases == [] then [] else phases[0].deliverables + AllDeliverables(phases[1..])
  }

  /** `phases.flatMap(p => p.activities)`. */
  function AllActivities(phases: seq<Phase>): seq<Activity>
  {
    if phases == [] then [] else phases[0].activities + AllActivities(phases[1..])
  }

  predicate HasTbd(investment: string) { Contains(investment, "TBD") }

  /** The sum of the amounts of the investment labels that do not mention "TBD". */
  function InvestmentTotal(phases: seq<Phase>): nat
  {
    if phases == [] then 0
    else (if HasTbd(phases[0].investment) then 0 else ParseAmount(phases[0].investment)) + InvestmentTotal(phases[1..])
  }

  predicate AnyTbd(phases: seq<Phase>)
  {
    exists p :: p in phases && HasTbd(p.investment)
  }

  /** "£N" with N grouped in thousands, followed by "+" when some label is "TBD"; "TBD" when the sum is 0. */
  function FormatInvestment(total: nat, anyTbd: bool): string
  {
    if total > 0 then "£" + FormatThousands(total) + (if anyTbd then "+" else "") else "TBD"
  }

  /**
   * The `phaseComputed` map: phase id to computed progress, in insertion
   * order. A later phase with an id already present replaces that entry's
   * value in place.
   */
  function PhaseComputed(phases: seq<Phase>): (m: seq<(string, Progress)>)
    ensures |m| <= |phases|
    ensures forall i :: 0 <= i < |m| ==> m[i].1.progress <= 100
  {
    if phases == [] then []
    else
      var last := phases[|phases| - 1];
      MapSet(PhaseComputed(phases[..|phases| - 1]), last.id, ComputePhaseProgress(last))
  }

  /** `Map.set` on an insertion-ordered map held as a list of entries. */
  function MapSet(m: seq<(string, Progress)>, key: string, value: Progress): (r: seq<(string, Progress)>)
    ensures (exists i :: 0 <= i < |m| && m[i].0 == key) ==> |r| == |m|
    ensures (forall i :: 0 <= i < |m| ==> m[i].0 != key) ==> r == m + [(key, value)]
    ensures |m| <= |r| && forall i :: 0 <= i < |r| ==> r[i] == (key, value) || (i < |m| && r[i] == m[i])
  {
    if m == [] then [(key, value)]
    else if m[0].0 == key then [(key, value)] + m[1..]
    else [m[0]] + MapSet(m[1..], key, value)
  }

  /**
   * `Map.set` stores the value: afterwards the entry `(key, value)` is
   * present, whether or not the key was there before, and every entry with
   * another key is where it was.
   */
  lemma MapSetStores(m: seq<(string, Progress)>, key: string, value: Progress)
    ensures var r := MapSet(m, key, value);
      (exists i :: 0 <= i < |r| && r[i] == (key, value))
      && forall i :: 0 <= i < |m| && m[i].0 != key ==> r[i] == m[i]
  {
    MapSetHasEntry(m, key, value);
    MapSetKeepsOthers(m, key, value);
  }

  lemma {:induction false} MapSetHasEntry(m: seq<(string, Progress)>, key: string, value: Progress)
    ensures exists i :: 0 <= i < |MapSet(m, key, value)| && MapSet(m, key, value)[i] == (key, value)
  {
    var r := MapSet(m, key, value);
    if m == [] || m[0].0 == key {
      assert r[0] == (key, value);
    } else {
      MapSetHasEntry(m[1..], key, value);
      var t := MapSet(m[1..], key, value);
      var j :| 0 <= j < |t| && t[j] == (key, value);
      assert r[j + 1] == t[j];
    }
  }

  lemma {:induction false} MapSetKeepsOthers(m: seq<(string, Progress)>, key: string, value: Progress)
    ensures forall i :: 0 <= i < |m| && m[i].0 != key ==> MapSet(m, key, value)[i] == m[i]
  {
    if m != [] && m[0].0 != key {
      MapSetKeepsOthers(m[1..], key, value);
      var r, t := MapSet(m, key, value), MapSet(m[1..], key, value);
      forall i | 1 <= i < |m| && m[i].0 != key ensures r[i] == m[i] {
        assert m[1..][i - 1] == m[i];
        assert r[i] == t[i - 1];
      }
    }
  }

  function SumProgress(m: seq<(string, Progress)>): nat
  {
    if m == [] then 0 else SumProgress(m[..|m| - 1]) + m[|m| - 1].1.progress
  }

  lemma {:induction false} SumProgressBound(m: seq<(string, Progress)>)
    requires forall i :: 0 <= i < |m| ==> m[i].1.progress <= 100
    ensures SumProgress(m) <= 100 * |m|
  {
    if m != [] {
      SumProgressBound(m[..|m| - 1]);
    }
  }

  /** `Math.round(sum / n)`, halves rounded up. */
  function RoundedMean(sum: nat, n: nat): (r: nat)
    requires n > 0
    ensures 2 * n * r <= 2 * sum + n < 2 * n * (r + 1)
  {
    DivAtLeast(2 * sum + n, 2 * n, (2 * sum + n) / (2 * n));
    DivAtLeast(2 * sum + n, 2 * n, (2 * sum + n) / (2 * n) + 1);
    (2 * sum + n) / (2 * n)
  }

  /** A sum of at most `k` percentages, `k <= n`, has a rounded mean over `n` of at most 100. */
  lemma RoundedMeanBound(sum: nat, k: nat, n: nat)
    requires 0 < n && k <= n && sum <= 100 * k
    ensures RoundedMean(sum, n) <= 100
  {
    MulMonotone(100, k, n);
    DivAtLeast(2 * sum + n, 2 * n, 101);
  }

  /** The rounded mean of the computed progresses, 0 without phases. */
  function OverallProgress(phases: seq<Phase>): (r: nat)
    ensures r <= 100
  {
    if |phases| > 0 then
      var m := PhaseComputed(phases);
      SumProgressBound(m);
      RoundedMeanBound(SumProgress(m), |m|, |phases|);
      RoundedMean(SumProgress(m), |phases|)
    else 0
  }

  datatype Stats = Stats(
    totalDeliverables: nat,
    deliveredCount: nat,
    totalActivities: nat,
    completedActivities: nat,
    totalInvestment: string,
    overallProgress: nat)

  /** The aggregate figures shown for the selected client's phases. */
  function ComputeStats(clientPhases: seq<Phase>): (s: Stats)
    ensures s.deliveredCount <= s.totalDeliverables
    ensures s.completedActivities <= s.totalActivities
    ensures s.overallProgress <= 100
    ensures s.totalInvestment == "TBD" <==> InvestmentTotal(clientPhases) == 0
  {
    var dels := IncludedDeliverables(AllDeliverables(clientPhases));
    var acts := IncludedActivities(AllActivities(clientPhases));
    FormatInvestmentCases(InvestmentTotal(clientPhases), AnyTbd(clientPhases));
    Stats(
      |dels|,
      DeliveredCount(dels),
      |acts|,
      CompletedCount(acts),
      FormatInvestment(InvestmentTotal(clientPhases), AnyTbd(clientPhases)),
      OverallProgress(clientPhases))
  }

  /**
   * The three forms of the investment figure: "TBD" exactly when the sum is
   * 0 (whether or not a label says "TBD"); otherwise "£" and the sum, which
   * reads back as the sum, with a trailing "+" exactly when a label says
   * "TBD".
   */
  lemma FormatInvestmentCases(total: nat, anyTbd: bool)
    ensures FormatInvestment(total, anyTbd) == "TBD" <==> total == 0
    ensures total > 0 ==> FormatInvestment(total, anyTbd)[0] == '£'
    ensures total > 0 ==> ParseAmount(FormatInvestment(total, anyTbd)) == total
    ensures var r := FormatInvestment(total, anyTbd);
            r[|r| - 1] == '+' <==> total > 0 && anyTbd
  {
    if total > 0 {
      var r := FormatInvestment(total, anyTbd);
      var g, suffix := FormatThousands(total), if anyTbd then "+" else "";
      assert |g| >= |NatToString(total)| > 0;
      assert r == "£" + "" + g + suffix;
      ParseFormatted(total, "£", "", suffix);
      FormattedEnd(r, g, suffix);
      GroupedLastIsDigit(NatToString(total));
    }
  }

  /** The last character of a figure is that of its suffix, or of the grouped digits when there is none. */
  lemma FormattedEnd(r: string, g: string, suffix: string)
    requires g != [] && r == "£" + "" + g + suffix
    ensures r[0] == '£'
    ensures r[|r| - 1] == if suffix == [] then g[|g| - 1] else suffix[|suffix| - 1]
  {
  }

  lemma GroupedLastIsDigit(d: string)
    requires AllDigits(d) && d != []
    ensures var g := Grouped(d); g != [] && IsDigit(g[|g| - 1])
  {
  }

  /** A phase whose label mentions "TBD" adds nothing to the sum; any other adds its amount. */
  lemma {:induction false} InvestmentTotalAppend(phases: seq<Phase>, p: Phase)
    ensures InvestmentTotal(phases + [p])
         == InvestmentTotal(phases) + (if HasTbd(p.investment) then 0 else ParseAmount(p.investment))
  {
    if phases == [] {
      assert phases + [p] == [p];
    } else {
      assert (phases + [p])[1..] == phases[1..] + [p];
      InvestmentTotalAppend(phases[1..], p);
    }
  }

  lemma {:induction false} CompletedCountAppend(a: seq<Activity>, b: seq<Activity>)
    ensures CompletedCount(a + b) == CompletedCount(a) + CompletedCount(b)
  {
    if a == [] {
      assert a + b == b;
    } else {
      assert (a + b)[1..] == a[1..] + b;
      CompletedCountAppend(a[1..], b);
    }
  }

  lemma {:induction false} DeliveredCountAppend(a: seq<Deliverable>, b: seq<Deliverable>)
    ensures DeliveredCount(a + b) == DeliveredCount(a) + DeliveredCount(b)
  {
    if a == [] {
      assert a + b == b;
    } else {
      assert (a + b)[1..] == a[1..] + b;
      DeliveredCountAppend(a[1..], b);
    }
  }

  function SumTotals(phases: seq<Phase>): nat
  {
    if phases == [] then 0 else Total(phases[0]) + SumTotals(phases[1..])
  }

  function SumDone(phases: seq<Phase>): nat
  {
    if phases == [] then 0 else Done(phases[0]) + SumDone(phases[1..])
  }

  /** Per-phase sums of the four counts the page shows. */
  function SumIncludedDeliverables(phases: seq<Phase>): nat
  {
    if phases == [] then 0 else |IncludedDeliverables(phases[0].deliverables)| + SumIncludedDeliverables(phases[1..])
  }

  function SumDelivered(phases: seq<Phase>): nat
  {
    if phases == [] then 0 else DeliveredCount(IncludedDeliverables(phases[0].deliverables)) + SumDelivered(phases[1..])
  }

  function SumIncludedActivities(phases: seq<Phase>): nat
  {
    if phases == [] then 0 else |IncludedActivities(phases[0].activities)| + SumIncludedActivities(phases[1..])
  }

  function SumCompleted(phases: seq<Phase>): nat
  {
    if phases == [] then 0 else CompletedCount(IncludedActivities(phases[0].activities)) + SumCompleted(phases[1..])
  }

  /**
   * Each client-wide count is the sum of the same count over the phases,
   * so together they are the sums of the per-phase totals and done counts
   * that the phase progress is computed from.
   */
  lemma {:induction false} StatsCountsArePhaseSums(phases: seq<Phase>)
    ensures ComputeStats(phases).totalDeliverables == SumIncludedDeliverables(phases)
    ensures ComputeStats(phases).deliveredCount == SumDelivered(phases)
    ensures ComputeStats(phases).totalActivities == SumIncludedActivities(phases)
    ensures ComputeStats(phases).completedActivities == SumCompleted(phases)
    ensures ComputeStats(phases).totalDeliverables + ComputeStats(phases).totalActivities == SumTotals(phases)
    ensures ComputeStats(phases).deliveredCount + ComputeStats(phases).completedActivities == SumDone(phases)
  {
    DeliverableCountsArePhaseSums(phases);
    ActivityCountsArePhaseSums(phases);
    SumsSplit(phases);
  }

  lemma {:induction false} DeliverableCountsArePhaseSums(phases: seq<Phase>)
    ensures |IncludedDeliverables(AllDeliverables(phases))| == SumIncludedDeliverables(phases)
    ensures DeliveredCount(IncludedDeliverables(AllDeliverables(phases))) == SumDelivered(phases)
  {
    if phases != [] {
      var p, rest := phases[0], phases[1..];
      DeliverableCountsArePhaseSums(rest);
      IncludedDeliverablesAppend(p.deliverables, AllDeliverables(rest));
      DeliveredCountAppend(IncludedDeliverables(p.deliverables), IncludedDeliverables(AllDeliverables(rest)));
    }
  }

  lemma {:induction false} ActivityCountsArePhaseSums(phases: seq<Phase>)
    ensures |IncludedActivities(AllActivities(phases))| == SumIncludedActivities(phases)
    ensures CompletedCount(IncludedActivities(AllActivities(phases))) == SumCompleted(phases)
  {
    if phases != [] {
      var p, rest := phases[0], phases[1..];
      ActivityCountsArePhaseSums(rest);
      IncludedActivitiesAppend(p.activities, AllActivities(rest));
      CompletedCountAppend(IncludedActivities(p.activities), IncludedActivities(AllActivities(rest)));
    }
  }

  /** The per-phase totals and done counts split into their deliverable and activity parts. */
  lemma {:induction false} SumsSplit(phases: seq<Phase>)
    ensures SumTotals(phases) == SumIncludedDeliverables(phases) + SumIncludedActivities(phases)
    ensures SumDone(phases) == SumDelivered(phases) + SumCompleted(phases)
  {
    if phases != [] {
      SumsSplit(phases[1..]);
    }
  }

  function ProgressSum(phases: seq<Phase>): nat
  {
    if phases == [] then 0 else ProgressSum(phases[..|phases| - 1]) + ComputePhaseProgress(phases[|phases| - 1]).progress
  }

  predicate DistinctIds(phases: seq<Phase>)
  {
    forall i, j :: 0 <= i < j < |phases| ==> phases[i].id != phases[j].id
  }

  /** Every key of the map is the id of a phase. */
  predicate KeysAreIds(m: seq<(string, Progress)>, phases: seq<Phase>)
  {
    forall i :: 0 <= i < |m| ==> exists j :: 0 <= j < |phases| && phases[j].id == m[i].0
  }

  /** Keys that are ids of a prefix of the phases are ids of the phases. */
  lemma KeysAreIdsWiden(m: seq<(string, Progress)>, init: seq<Phase>, phases: seq<Phase>)
    requires KeysAreIds(m, init) && |init| <= |phases| && init == phases[..|init|]
    ensures KeysAreIds(m, phases)
  {
    forall i | 0 <= i < |m| ensures exists j :: 0 <= j < |phases| && phases[j].id == m[i].0 {
      var j :| 0 <= j < |init| && init[j].id == m[i].0;
      assert phases[j] == init[j];
    }
    assert forall i :: 0 <= i < |m| ==> exists j :: 0 <= j < |phases| && phases[j].id == m[i].0;
  }

  lemma {:induction false} PhaseComputedKeys(phases: seq<Phase>)
    ensures KeysAreIds(PhaseComputed(phases), phases)
  {
    if phases != [] {
      var init := phases[..|phases| - 1];
      var last := phases[|phases| - 1];
      PhaseComputedKeys(init);
      var m0 := PhaseComputed(init);
      KeysAreIdsWiden(m0, init, phases);
      var m := MapSet(m0, last.id, ComputePhaseProgress(last));
      assert m == PhaseComputed(phases);
      forall i | 0 <= i < |m| ensures exists j :: 0 <= j < |phases| && phases[j].id == m[i].0 {
        if m[i] == (last.id, ComputePhaseProgress(last)) {
          assert phases[|phases| - 1].id == m[i].0;
        } else {
          assert m[i] == m0[i];
        }
      }
    }
  }

  /** With distinct phase ids the computed map has one entry per phase, so its sum is the sum of all progresses. */
  lemma {:induction false} PhaseComputedSum(phases: seq<Phase>)
    requires DistinctIds(phases)
    ensures SumProgress(PhaseComputed(phases)) == ProgressSum(phases)
    ensures |PhaseComputed(phases)| == |phases|
  {
    if phases != [] {
      var init := phases[..|phases| - 1];
      var last := phases[|phases| - 1];
      assert DistinctIds(init) by {
        forall i, j | 0 <= i < j < |init| ensures init[i].id != init[j].id {
          assert init[i] == phases[i] && init[j] == phases[j];
        }
      }
      PhaseComputedSum(init);
      PhaseComputedKeys(init);
      var m := PhaseComputed(init);
      assert KeysAreIds(m, init);
      forall i | 0 <= i < |m| ensures m[i].0 != last.id {
        var j :| 0 <= j < |init| && init[j].id == m[i].0;
        assert phases[j] == init[j];
      }
      var r := MapSet(m, last.id, ComputePhaseProgress(last));
      assert r == m + [(last.id, ComputePhaseProgress(last))];
      assert PhaseComputed(phases) == r;
      assert r[..|r| - 1] == m;
      assert SumProgress(r) == SumProgress(m) + ComputePhaseProgress(last).progress;
    }
  }

  /** With distinct phase ids the overall progress is the rounded mean of the phase progresses. */
  lemma OverallProgressIsMean(phases: seq<Phase>)
    requires DistinctIds(phases) && phases != []
    ensures OverallProgress(phases) == RoundedMean(ProgressSum(phases), |phases|)
  {
    PhaseComputedSum(phases);
  }

  // ---- The deliverable list and its filter ----

  datatype DeliverableRow = DeliverableRow(deliverable: Deliverable, phaseName: string, phaseNumber: nat)

  datatype DeliverableFilter = AnyStatus | OnlyStatus(status: DeliverableStatus)

  function PhaseRows(p: Phase, dels: seq<Deliverable>): (r: seq<DeliverableRow>)
    ensures |r| == |dels|
    ensures forall i :: 0 <= i < |dels| ==> r[i] == DeliverableRow(dels[i], p.title, p.phaseNumber)
  {
    if dels == [] then [] else [DeliverableRow(dels[0], p.title, p.phaseNumber)] + PhaseRows(p, dels[1..])
  }

  /** All deliverables of the phases, each with its phase's title and number. */
  function DeliverableRows(phases: seq<Phase>): seq<DeliverableRow>
  {
    if phases == [] then [] else PhaseRows(phases[0], phases[0].deliverables) + DeliverableRows(phases[1..])
  }

  /** The list lines up with the flattened deliverables, including the "not included" ones. */
  lemma {:induction false} RowsMatchDeliverables(phases: seq<Phase>)
    ensures |DeliverableRows(phases)| == |AllDeliverables(phases)|
    ensures forall i :: 0 <= i < |AllDeliverables(phases)| ==>
      DeliverableRows(phases)[i].deliverable == AllDeliverables(phases)[i]
  {
    if phases != [] {
      RowsMatchDeliverables(phases[1..]);
    }
  }

  function FilteredDeliverables(rows: seq<DeliverableRow>, filter: DeliverableFilter): (r: seq<DeliverableRow>)
    ensures filter == AnyStatus ==> r == rows
    ensures filter.OnlyStatus? ==> forall x :: x in r <==> x in rows && x.deliverable.status == filter.status
    ensures |r| <= |rows|
  {
    match filter
    case AnyStatus => rows
    case OnlyStatus(status) => RowsWithStatus(rows, status)
  }

  function RowsWithStatus(rows: seq<DeliverableRow>, status: DeliverableStatus): (r: seq<DeliverableRow>)
    ensures |r| <= |rows|
    ensures forall x :: x in r <==> x in rows && x.deliverable.status == status
  {
    if rows == [] then []
    else if rows[0].deliverable.status == status then [rows[0]] + RowsWithStatus(rows[1..], status)
    else RowsWithStatus(rows[1..], status)
  }

  /** The filtered rows keep their order: filtering a concatenation filters each part. */
  lemma {:induction false} RowsWithStatusAppend(rows: seq<DeliverableRow>, more: seq<DeliverableRow>, status: DeliverableStatus)
    ensures RowsWithStatus(rows + more, status) == RowsWithStatus(rows, status) + RowsWithStatus(more, status)
  {
    if rows == [] {
      assert rows + more == more;
    } else {
      assert (rows + more)[1..] == rows[1..] + more;
      RowsWithStatusAppend(rows[1..], more, status);
    }
  }

  /** A single row is kept exactly when its deliverable has the status. */
  lemma RowsWithStatusSingle(x: DeliverableRow, status: DeliverableStatus)
    ensures RowsWithStatus([x], status) == if x.deliverable.status == status then [x] else []
  {
  }

  /** Either filter keeps the rows' order. */
  lemma FilteredDeliverablesAppend(rows: seq<DeliverableRow>, more: seq<DeliverableRow>, filter: DeliverableFilter)
    ensures FilteredDeliverables(rows + more, filter) == FilteredDeliverables(rows, filter) + FilteredDeliverables(more, filter)
  {
    if filter.OnlyStatus? {
      RowsWithStatusAppend(rows, more, filter.status);
    }
  }

  // ---- The page's state ----

  /**
   * The strategy page: the selected client and deliverable filter, the
   * page-local use cases and strategy documents, and the shared store whose
   * phases the status changes replace.
   */
  class StrategyBoard {
    const store: ClientContext.ClientStore
    var selectedClientId: string
    var deliverableFilter: DeliverableFilter
    var allUseCases: seq<UseCase>
    var allDocuments: seq<StrategyDocument>

    constructor (store: ClientContext.ClientStore, useCases: seq<UseCase>, documents: seq<StrategyDocument>)
      ensures this.store == store
      ensures selectedClientId == (if store.allClients != [] then store.allClients[0].id else "")
      ensures deliverableFilter == AnyStatus
      ensures allUseCases == useCases && allDocuments == documents
    {
      this.store := store;
      selectedClientId := if store.allClients != [] then store.allClients[0].id else "";
      deliverableFilter := AnyStatus;
      allUseCases := useCases;
      allDocuments := documents;
    }

    /** Figures for the selected client. */
    function SelectedStats(): Stats
      reads this, store
    {
      ComputeStats(ClientPhases(store.allPhases, selectedClientId))
    }

    function VisibleDeliverables(): seq<DeliverableRow>
      reads this, store
    {
      FilteredDeliverables(DeliverableRows(ClientPhases(store.allPhases, selectedClientId)), deliverableFilter)
    }

    /**
     * Selects a client. The filter reset runs as an effect on the selected
     * id, so it fires only when the selection actually changes: choosing the
     * client already selected keeps the filter.
     */
    method SelectClient(clientId: string)
      modifies this
      ensures selectedClientId == clientId
      ensures deliverableFilter == if clientId == old(selectedClientId) then old(deliverableFilter) else AnyStatus
      ensures allUseCases == old(allUseCases) && allDocuments == old(allDocuments)
    {
      if clientId != selectedClientId {
        deliverableFilter := AnyStatus;
      }
      selectedClientId := clientId;
    }

    method SetDeliverableFilter(filter: DeliverableFilter)
      modifies this
      ensures deliverableFilter == filter
      ensures selectedClientId == old(selectedClientId)
      ensures allUseCases == old(allUseCases) && allDocuments == old(allDocuments)
    {
      deliverableFilter := filter;
    }

    /** Adds the new client with its phases to the store and selects it. */
    method HandleAddClient(client: Client, phases: seq<Phase>)
      requires store.Valid()
      modifies this, store
      ensures store.Valid()
      ensures store.allClients == old(store.allClients) + [client]
      ensures store.allPhases == old(store.allPhases) + phases
      ensures store.clientDocuments == old(store.clientDocuments) && store.storage == old(store.storage)
      ensures selectedClientId == client.id
      ensures deliverableFilter == if client.id == old(selectedClientId) then old(deliverableFilter) else AnyStatus
      ensures allUseCases == old(allUseCases) && allDocuments == old(allDocuments)
    {
      store.AddClient(client, phases);
      SelectClient(client.id);
    }

    method UpdateActivityStatus(phaseId: string, activityId: string, newStatus: PhaseStatus, today: string)
      requires store.Valid()
      modifies store
      ensures store.Valid()
      ensures store.allPhases == WithActivityStatus(old(store.allPhases), phaseId, activityId, newStatus, today)
      ensures store.allClients == old(store.allClients) && store.clientDocuments == old(store.clientDocuments)
      ensures store.storage == old(store.storage)
    {
      store.SetAllPhases(WithActivityStatus(store.allPhases, phaseId, activityId, newStatus, today));
    }

    method UpdateDeliverableStatus(phaseId: string, deliverableId: string, newStatus: DeliverableStatus, today: string)
      requires store.Valid()
      modifies store
      ensures store.Valid()
      ensures store.allPhases == WithDeliverableStatus(old(store.allPhases), phaseId, deliverableId, newStatus, today)
      ensures store.allClients == old(store.allClients) && store.clientDocuments == old(store.clientDocuments)
      ensures store.storage == old(store.storage)
    {
      store.SetAllPhases(WithDeliverableStatus(store.allPhases, phaseId, deliverableId, newStatus, today));
    }

    method UpdateUseCaseStatus(useCaseId: string, newStatus: UseCaseStatus)
      modifies this
      ensures allUseCases == WithUseCaseStatus(old(allUseCases), useCaseId, newStatus)
      ensures allDocuments == old(allDocuments)
      ensures selectedClientId == old(selectedClientId) && deliverableFilter == old(deliverableFilter)
    {
      allUseCases := WithUseCaseStatus(allUseCases, useCaseId, newStatus);
    }

    method UpdateDocumentStatus(docId: string, newStatus: DocumentStatus)
      modifies this
      ensures allDocuments == WithDocumentStatus(old(allDocuments), docId, newStatus)
      ensures allUseCases == old(allUseCases)
      ensures selectedClientId == old(selectedClientId) && deliverableFilter == old(deliverableFilter)
    {
      allDocuments := WithDocumentStatus(allDocuments, docId, newStatus);
    }
  }
}
