/**
 * Worked examples on the seed data: two seeded clients' phases and a
 * few small hand-made cases. Titles, descriptions and dates are
 * left empty where they do not affect what is computed.
 */
module Fixtures {
  import opened Types
  import opened Text
  import opened PhaseProgress
  import Strategy

  function Act(id: string, status: PhaseStatus): Activity
  {
    Activity(id, "", "", status, None)
  }

  function Del(id: string, phaseId: string, status: DeliverableStatus): Deliverable
  {
    Deliverable(id, "", "", phaseId, status, "", None, None)
  }

  function SeedPhase(id: string, clientId: string, n: nat, investment: string, status: PhaseStatus, progress: nat,
                     acts: seq<Activity>, dels: seq<Deliverable>): Phase
  {
    Phase(id, clientId, n, "", "", "", investment, status, progress, acts, dels, [])
  }

  lemma {:induction false} ActivitiesAllCounted(acts: seq<Activity>)
    requires forall i :: 0 <= i < |acts| ==> acts[i].status != PhaseStatus.NotIncluded
    ensures IncludedActivities(acts) == acts
  {
    if acts != [] {
      ActivitiesAllCounted(acts[1..]);
    }
  }

  lemma {:induction false} DeliverablesAllCounted(dels: seq<Deliverable>)
    requires forall i :: 0 <= i < |dels| ==> dels[i].status != DeliverableStatus.NotIncluded
    ensures IncludedDeliverables(dels) == dels
  {
    if dels != [] {
      DeliverablesAllCounted(dels[1..]);
    }
  }

  function Finished(a: Activity): nat
  {
    if a.status == PhaseStatus.Completed then 1 else 0
  }

  function Handed(d: Deliverable): nat
  {
    if d.status == Delivered then 1 else 0
  }

  lemma CountThreeActivities(a: Activity, b: Activity, c: Activity)
    ensures CompletedCount([a, b, c]) == Finished(a) + Finished(b) + Finished(c)
  {
    assert [c][1..] == [];
    assert CompletedCount([c]) == Finished(c);
    assert [b, c][1..] == [c];
    assert CompletedCount([b, c]) == Finished(b) + Finished(c);
    assert [a, b, c][1..] == [b, c];
  }

  lemma CountFourActivities(a: Activity, b: Activity, c: Activity, d: Activity)
    ensures CompletedCount([a, b, c, d]) == Finished(a) + Finished(b) + Finished(c) + Finished(d)
  {
    CountThreeActivities(b, c, d);
    assert [a, b, c, d][1..] == [b, c, d];
  }

  /** Four activities are counted one by one. */
  lemma CountedFourActivities(acts: seq<Activity>)
    requires |acts| == 4
    ensures CompletedCount(acts) == Finished(acts[0]) + Finished(acts[1]) + Finished(acts[2]) + Finished(acts[3])
  {
    CountFourActivities(acts[0], acts[1], acts[2], acts[3]);
    assert acts == [acts[0], acts[1], acts[2], acts[3]];
  }

  /** Four included activities: all of them count, and the finished ones are counted one by one. */
  lemma FourActivities(acts: seq<Activity>)
    requires |acts| == 4
    requires acts[0].status != PhaseStatus.NotIncluded && acts[1].status != PhaseStatus.NotIncluded
    requires acts[2].status != PhaseStatus.NotIncluded && acts[3].status != PhaseStatus.NotIncluded
    ensures IncludedActivities(acts) == acts
    ensures CompletedCount(acts) == Finished(acts[0]) + Finished(acts[1]) + Finished(acts[2]) + Finished(acts[3])
  {
    ActivitiesAllCounted(acts);
    CountedFourActivities(acts);
  }

  lemma CountTwoDeliverables(a: Deliverable, b: Deliverable)
    ensures DeliveredCount([a, b]) == Handed(a) + Handed(b)
  {
    assert [b][1..] == [];
    assert DeliveredCount([b]) == Handed(b);
    assert [a, b][1..] == [b];
  }

  lemma CountThreeDeliverables(a: Deliverable, b: Deliverable, c: Deliverable)
    ensures DeliveredCount([a, b, c]) == Handed(a) + Handed(b) + Handed(c)
  {
    CountTwoDeliverables(b, c);
    assert [a, b, c][1..] == [b, c];
  }

  /** Three deliverables are counted one by one. */
  lemma CountedThreeDeliverables(dels: seq<Deliverable>)
    requires |dels| == 3
    ensures DeliveredCount(dels) == Handed(dels[0]) + Handed(dels[1]) + Handed(dels[2])
  {
    CountThreeDeliverables(dels[0], dels[1], dels[2]);
    assert dels == [dels[0], dels[1], dels[2]];
  }

  /** Three included deliverables: all of them count, and the delivered ones are counted one by one. */
  lemma ThreeDeliverables(dels: seq<Deliverable>)
    requires |dels| == 3
    requires dels[0].status != DeliverableStatus.NotIncluded && dels[1].status != DeliverableStatus.NotIncluded
    requires dels[2].status != DeliverableStatus.NotIncluded
    ensures IncludedDeliverables(dels) == dels
    ensures DeliveredCount(dels) == Handed(dels[0]) + Handed(dels[1]) + Handed(dels[2])
  {
    DeliverablesAllCounted(dels);
    CountedThreeDeliverables(dels);
  }

  // ---- Client c1: two phases finished, one under way, one not started ----

  const C1Phase1: Phase := SeedPhase("ep-c1-1", "c1", 1, "£12,000", PhaseStatus.Completed, 100,
    [Act("a-c1-1-1", PhaseStatus.Completed), Act("a-c1-1-2", PhaseStatus.Completed),
     Act("a-c1-1-3", PhaseStatus.Completed), Act("a-c1-1-4", PhaseStatus.Completed)],
    [Del("d-c1-1-1", "ep-c1-1", Delivered), Del("d-c1-1-2", "ep-c1-1", Delivered), Del("d-c1-1-3", "ep-c1-1", Delivered)])

  const C1Phase2: Phase := SeedPhase("ep-c1-2", "c1", 2, "£8,000", PhaseStatus.Completed, 100,
    [Act("a-c1-2-1", PhaseStatus.Completed), Act("a-c1-2-2", PhaseStatus.Completed),
     Act("a-c1-2-3", PhaseStatus.Completed), Act("a-c1-2-4", PhaseStatus.Completed)],
    [Del("d-c1-2-1", "ep-c1-2", Delivered), Del("d-c1-2-2", "ep-c1-2", Delivered), Del("d-c1-2-3", "ep-c1-2", Delivered)])

  const C1Phase3Activities: seq<Activity> :=
    [Act("a-c1-3-1", PhaseStatus.InProgress), Act("a-c1-3-2", PhaseStatus.InProgress),
     Act("a-c1-3-3", PhaseStatus.Upcoming), Act("a-c1-3-4", PhaseStatus.Upcoming)]

  const C1Phase3Deliverables: seq<Deliverable> :=
    [Del("d-c1-3-1", "ep-c1-3", InReview), Del("d-c1-3-2", "ep-c1-3", DeliverableStatus.InProgress),
     Del("d-c1-3-3", "ep-c1-3", DeliverableStatus.NotStarted)]

  const C1Phase3: Phase := SeedPhase("ep-c1-3", "c1", 3, "£6,000", PhaseStatus.InProgress, 45,
    C1Phase3Activities, C1Phase3Deliverables)

  const C1Phase4: Phase := SeedPhase("ep-c1-4", "c1", 4, "£10,000", PhaseStatus.NotStarted, 0,
    [Act("a-c1-4-1", PhaseStatus.NotStarted), Act("a-c1-4-2", PhaseStatus.NotStarted),
     Act("a-c1-4-3", PhaseStatus.NotStarted), Act("a-c1-4-4", PhaseStatus.NotStarted)],
    [Del("d-c1-4-1", "ep-c1-4", DeliverableStatus.NotStarted), Del("d-c1-4-2", "ep-c1-4", DeliverableStatus.NotStarted),
     Del("d-c1-4-3", "ep-c1-4", DeliverableStatus.NotStarted)])

  // ---- Client c3: one phase under way, one with its investment to be decided ----

  const C3Phase1Activities: seq<Activity> :=
    [Act("a-c3-1-1", PhaseStatus.Completed), Act("a-c3-1-2", PhaseStatus.InProgress),
     Act("a-c3-1-3", PhaseStatus.Upcoming), Act("a-c3-1-4", PhaseStatus.NotStarted)]

  const C3Phase1Deliverables: seq<Deliverable> :=
    [Del("d-c3-1-1", "ep-c3-1", DeliverableStatus.InProgress), Del("d-c3-1-2", "ep-c3-1", DeliverableStatus.NotStarted),
     Del("d-c3-1-3", "ep-c3-1", DeliverableStatus.NotStarted)]

  const C3Phase1: Phase := SeedPhase("ep-c3-1", "c3", 1, "£15,000", PhaseStatus.InProgress, 25,
    C3Phase1Activities, C3Phase1Deliverables)

  const C3Phase2: Phase := SeedPhase("ep-c3-2", "c3", 2, "TBD", PhaseStatus.NotStarted, 0,
    [Act("a-c3-2-1", PhaseStatus.NotStarted), Act("a-c3-2-2", PhaseStatus.NotStarted), Act("a-c3-2-3", PhaseStatus.NotStarted)],
    [Del("d-c3-2-1", "ep-c3-2", DeliverableStatus.NotStarted), Del("d-c3-2-2", "ep-c3-2", DeliverableStatus.NotStarted)])

  lemma C3Phase1ActivitiesCounted()
    ensures IncludedActivities(C3Phase1Activities) == C3Phase1Activities
    ensures |C3Phase1Activities| == 4 && CompletedCount(C3Phase1Activities) == 1
  {
    var acts := C3Phase1Activities;
    FourActivities(acts);
  }

  lemma C3Phase1DeliverablesCounted()
    ensures IncludedDeliverables(C3Phase1Deliverables) == C3Phase1Deliverables
    ensures |C3Phase1Deliverables| == 3 && DeliveredCount(C3Phase1Deliverables) == 0
  {
    ThreeDeliverables(C3Phase1Deliverables);
  }

  /** ep-c3-1: 1 of 7 items finished gives 14%, under way; the stored 25% is not used. */
  lemma C3Phase1Progress()
    ensures ComputePhaseProgress(C3Phase1) == Progress(14, PhaseStatus.InProgress)
    ensures C3Phase1.progress == 25
  {
    C3Phase1ActivitiesCounted();
    C3Phase1DeliverablesCounted();
    assert ComputePhaseProgress(C3Phase1) == ProgressOfIncluded(C3Phase1Activities, C3Phase1Deliverables);
    RoundedPercentIs(1, 7, 14);
  }

  lemma C1Phase3ActivitiesCounted()
    ensures IncludedActivities(C1Phase3Activities) == C1Phase3Activities
    ensures |C1Phase3Activities| == 4 && CompletedCount(C1Phase3Activities) == 0
    ensures AnyActivityInProgress(C1Phase3Activities)
  {
    var acts := C1Phase3Activities;
    FourActivities(acts);
    assert acts[0] in acts;
  }

  lemma C1Phase3DeliverablesCounted()
    ensures IncludedDeliverables(C1Phase3Deliverables) == C1Phase3Deliverables
    ensures |C1Phase3Deliverables| == 3 && DeliveredCount(C1Phase3Deliverables) == 0
  {
    ThreeDeliverables(C1Phase3Deliverables);
  }

  /** ep-c1-3: nothing finished yet, but items are under way, so 0% and in progress. */
  lemma C1Phase3Progress()
    ensures ComputePhaseProgress(C1Phase3) == Progress(0, PhaseStatus.InProgress)
  {
    C1Phase3ActivitiesCounted();
    C1Phase3DeliverablesCounted();
    assert Total(C1Phase3) == 7 && Done(C1Phase3) == 0 && Underway(C1Phase3);
    ProgressExtremes(C1Phase3);
    InProgressIff(C1Phase3);
  }

  /** Writing ten times a positive number appends a zero. */
  lemma TimesTen(n: nat)
    requires n >= 1
    ensures NatToString(n * 10) == NatToString(n) + "0"
  {
    assert (n * 10) / 10 == n && (n * 10) % 10 == 0;
  }

  lemma ShortDigits(k: nat)
    requires k <= 99
    ensures |NatToString(k)| <= 2
  {
    if k >= 10 {
      assert |NatToString(k / 10)| == 1;
    }
  }

  lemma DigitsThenZeros(d: string)
    requires AllDigits(d)
    ensures AllDigits(d + "000")
  {
    var n := d + "000";
    forall i | 0 <= i < |n| ensures IsDigit(n[i]) {
      if i < |d| {
        assert n[i] == d[i];
      }
    }
  }

  lemma GroupedStep(n: string)
    requires AllDigits(n) && |n| > 3
    ensures AllDigits(n[..|n| - 3]) && Grouped(n) == Grouped(n[..|n| - 3]) + "," + n[|n| - 3..]
  {
  }

  lemma GroupedShort(d: string)
    requires AllDigits(d) && |d| <= 3
    ensures Grouped(d) == d
  {
  }

  /** At most three digits followed by "000" are grouped with one comma. */
  lemma GroupedThousands(d: string)
    requires AllDigits(d) && 1 <= |d| <= 3
    ensures AllDigits(d + "000") && Grouped(d + "000") == d + ",000"
  {
    DigitsThenZeros(d);
    var n := d + "000";
    GroupedStep(n);
    assert n[..|n| - 3] == d && n[|n| - 3..] == "000";
    GroupedShort(d);
    assert d + "," + "000" == d + ",000" by {
      assert "," + "000" == ",000";
    }
  }

  /** A whole number of thousands below 100,000 is grouped as its thousands followed by ",000". */
  lemma Thousands(k: nat)
    requires 1 <= k <= 99
    ensures FormatThousands(k * 1000) == NatToString(k) + ",000"
  {
    var d := NatToString(k);
    var k10, k100, k1000 := k * 10, k * 100, k * 1000;
    TimesTen(k);
    TimesTen(k10);
    assert k10 * 10 == k100;
    TimesTen(k100);
    assert k100 * 10 == k1000;
    assert NatToString(k1000) == d + "000";
    ShortDigits(k);
    GroupedThousands(d);
  }

  /** A label "£" + grouped amount reads back as the amount and does not mention "TBD". */
  lemma AmountLabel(k: nat, tag: string)
    requires 1 <= k <= 99 && 'T' !in tag
    requires tag == "£" + NatToString(k) + ",000"
    ensures ParseAmount(tag) == k * 1000 && !Strategy.HasTbd(tag)
  {
    Thousands(k);
    assert tag == "£" + "" + FormatThousands(k * 1000) + "";
    ParseFormatted(k * 1000, "£", "", "");
    if Strategy.HasTbd(tag) {
      ContainsFirstChar(tag, "TBD");
    }
  }

  lemma TbdLabel()
    ensures Strategy.HasTbd("TBD")
  {
    assert "TBD"[..3] == "TBD";
  }

  /** The total shown for a whole number of thousands, with or without a label to be decided. */
  lemma ShownThousands(k: nat, anyTbd: bool)
    requires 1 <= k <= 99
    ensures Strategy.FormatInvestment(k * 1000, anyTbd) == "£" + NatToString(k) + ",000" + (if anyTbd then "+" else "")
  {
    Thousands(k);
  }

  // Each seeded label, read on its own.

  /** White space after the currency sign is skipped, as `parseFloat` skips it. */
  lemma SpacedLabel()
    ensures ParseAmount("£ 5,000") == 5000
  {
    assert NatToString(5) == "5";
    Thousands(5);
    assert "£ 5,000" == "£" + " " + FormatThousands(5 * 1000) + "";
    ParseFormatted(5 * 1000, "£", " ", "");
  }

  lemma Label12000()
    ensures ParseAmount("£12,000") == 12000 && !Strategy.HasTbd("£12,000")
  {
    assert NatToString(12) == "12";
    AmountLabel(12, "£12,000");
  }

  lemma Label8000()
    ensures ParseAmount("£8,000") == 8000 && !Strategy.HasTbd("£8,000")
  {
    assert NatToString(8) == "8";
    AmountLabel(8, "£8,000");
  }

  lemma Label6000()
    ensures ParseAmount("£6,000") == 6000 && !Strategy.HasTbd("£6,000")
  {
    assert NatToString(6) == "6";
    AmountLabel(6, "£6,000");
  }

  lemma Label10000()
    ensures ParseAmount("£10,000") == 10000 && !Strategy.HasTbd("£10,000")
  {
    assert NatToString(10) == "10";
    AmountLabel(10, "£10,000");
  }

  lemma Label15000()
    ensures ParseAmount("£15,000") == 15000 && !Strategy.HasTbd("£15,000")
  {
    assert NatToString(15) == "15";
    AmountLabel(15, "£15,000");
  }

  lemma Shown36000()
    ensures Strategy.FormatInvestment(36000, false) == "£36,000"
  {
    ShownThousands(36, false);
    assert NatToString(36) == "36";
  }

  lemma Shown15000Plus()
    ensures Strategy.FormatInvestment(15000, true) == "£15,000+"
  {
    ShownThousands(15, true);
    assert NatToString(15) == "15";
  }

  lemma Shown20000Plus()
    ensures Strategy.FormatInvestment(20000, true) == "£20,000+"
  {
    ShownThousands(20, true);
    assert NatToString(20) == "20";
  }

  /** What one label adds to the total. */
  function Counted(p: Phase): nat
  {
    if Strategy.HasTbd(p.investment) then 0 else ParseAmount(p.investment)
  }

  lemma TotalOfTwo(a: Phase, b: Phase)
    ensures Strategy.InvestmentTotal([a, b]) == Counted(a) + Counted(b)
    ensures Strategy.AnyTbd([a, b]) <==> Strategy.HasTbd(a.investment) || Strategy.HasTbd(b.investment)
  {
    assert [b][1..] == [];
    assert Strategy.InvestmentTotal([b]) == Counted(b);
    assert [a, b][1..] == [b];
    assert a in [a, b] && b in [a, b];
  }

  lemma TotalOfThree(a: Phase, b: Phase, c: Phase)
    ensures Strategy.InvestmentTotal([a, b, c]) == Counted(a) + Counted(b) + Counted(c)
    ensures Strategy.AnyTbd([a, b, c]) <==> Strategy.HasTbd(a.investment) || Strategy.HasTbd(b.investment) || Strategy.HasTbd(c.investment)
  {
    TotalOfTwo(b, c);
    assert [a, b, c][1..] == [b, c];
    assert a in [a, b, c] && b in [a, b, c] && c in [a, b, c];
  }

  lemma TotalOfFour(a: Phase, b: Phase, c: Phase, d: Phase)
    ensures Strategy.InvestmentTotal([a, b, c, d]) == Counted(a) + Counted(b) + Counted(c) + Counted(d)
    ensures Strategy.AnyTbd([a, b, c, d])
        <==> Strategy.HasTbd(a.investment) || Strategy.HasTbd(b.investment) || Strategy.HasTbd(c.investment) || Strategy.HasTbd(d.investment)
  {
    TotalOfThree(b, c, d);
    assert [a, b, c, d][1..] == [b, c, d];
    assert a in [a, b, c, d] && b in [a, b, c, d] && c in [a, b, c, d] && d in [a, b, c, d];
  }

  /** Labels "£12,000", "£8,000", "£6,000" and "£10,000" add up to 36,000, none to be decided. */
  lemma FourLabelsSum(a: Phase, b: Phase, c: Phase, d: Phase)
    requires a.investment == "£12,000" && b.investment == "£8,000" && c.investment == "£6,000" && d.investment == "£10,000"
    ensures Strategy.InvestmentTotal([a, b, c, d]) == 36000 && !Strategy.AnyTbd([a, b, c, d])
  {
    Label12000();
    Label8000();
    Label6000();
    Label10000();
    TotalOfFour(a, b, c, d);
  }

  /** Labels "£12,000", "£8,000", "£6,000" and "£10,000" give "£36,000". */
  lemma FourLabels(a: Phase, b: Phase, c: Phase, d: Phase)
    requires a.investment == "£12,000" && b.investment == "£8,000" && c.investment == "£6,000" && d.investment == "£10,000"
    ensures Strategy.FormatInvestment(Strategy.InvestmentTotal([a, b, c, d]), Strategy.AnyTbd([a, b, c, d])) == "£36,000"
  {
    FourLabelsSum(a, b, c, d);
    Shown36000();
  }

  /** c1's labels add up to 36,000 with none to be decided. */
  lemma C1Investment()
    ensures Strategy.FormatInvestment(Strategy.InvestmentTotal([C1Phase1, C1Phase2, C1Phase3, C1Phase4]),
                                      Strategy.AnyTbd([C1Phase1, C1Phase2, C1Phase3, C1Phase4])) == "£36,000"
  {
    FourLabels(C1Phase1, C1Phase2, C1Phase3, C1Phase4);
  }

  /** Labels "£15,000" and "TBD" give "£15,000+". */
  lemma AmountAndTbd(a: Phase, b: Phase)
    requires a.investment == "£15,000" && b.investment == "TBD"
    ensures Strategy.FormatInvestment(Strategy.InvestmentTotal([a, b]), Strategy.AnyTbd([a, b])) == "£15,000+"
  {
    Label15000();
    TbdLabel();
    TotalOfTwo(a, b);
    Shown15000Plus();
  }

  /** c3 has 15,000 plus a label to be decided, shown as "£15,000+". */
  lemma C3Investment()
    ensures Strategy.FormatInvestment(Strategy.InvestmentTotal([C3Phase1, C3Phase2]), Strategy.AnyTbd([C3Phase1, C3Phase2])) == "£15,000+"
  {
    AmountAndTbd(C3Phase1, C3Phase2);
  }

  /** Labels "£12,000", "£8,000" and "TBD" give "£20,000+". */
  lemma MixedInvestment(a: Phase, b: Phase, c: Phase)
    requires a.investment == "£12,000" && b.investment == "£8,000" && c.investment == "TBD"
    ensures Strategy.FormatInvestment(Strategy.InvestmentTotal([a, b, c]), Strategy.AnyTbd([a, b, c])) == "£20,000+"
  {
    Label12000();
    Label8000();
    TbdLabel();
    TotalOfThree(a, b, c);
    Shown20000Plus();
  }

  /** One completed and one excluded activity: the excluded one does not count, so the phase is complete. */
  lemma ExcludedActivityExample(p: Phase)
    requires p.activities == [Act("a1", PhaseStatus.Completed), Act("a2", PhaseStatus.NotIncluded)] && p.deliverables == []
    ensures ComputePhaseProgress(p) == Progress(100, PhaseStatus.Completed)
  {
    assert IncludedActivities(p.activities) == [Act("a1", PhaseStatus.Completed)];
    RoundedPercentIs(1, 1, 100);
  }

  /** Activities completed, in progress, not started and deliverables delivered, not started: 2 of 5, 40%, under way. */
  lemma MixedPhaseExample(p: Phase)
    requires p.activities == [Act("a1", PhaseStatus.Completed), Act("a2", PhaseStatus.InProgress), Act("a3", PhaseStatus.NotStarted)]
    requires p.deliverables == [Del("d1", p.id, Delivered), Del("d2", p.id, DeliverableStatus.NotStarted)]
    ensures Total(p) == 5 && Done(p) == 2
    ensures ComputePhaseProgress(p) == Progress(40, PhaseStatus.InProgress)
  {
    ActivitiesAllCounted(p.activities);
    DeliverablesAllCounted(p.deliverables);
    CountThreeActivities(p.activities[0], p.activities[1], p.activities[2]);
    CountTwoDeliverables(p.deliverables[0], p.deliverables[1]);
    assert ComputePhaseProgress(p) == ProgressOfIncluded(p.activities, p.deliverables);
    RoundedPercentIs(2, 5, 40);
  }
}
