/**
 * The two-step "New Client" intake: step one collects the client's details
 * and its primary contact, step two lets the user pick phase templates and,
 * within each, the services to include. Submitting builds the client record
 * and one engagement phase per picked template that still has an active
 * service, numbered 1, 2, ... without gaps.
 */
module AddClient {
  import opened Types
  import opened Text
  import PhaseProgress

  /** A phase template offered on step two. */
  datatype PhaseTemplate = PhaseTemplate(key: string, title: string, subtitle: string, services: seq<string>)

  /** The four templates, in the order they are offered and generated. */
  const PhaseTemplates: seq<PhaseTemplate> := [
    PhaseTemplate("discovery", "Discovery & Foundation",
      "Assess current AI readiness, gather stakeholder insights, and establish a baseline",
      ["Leadership Interviews", "AI Readiness Survey", "Stakeholder Discovery Workshops", "Technology & Data Landscape Review"]),
    PhaseTemplate("strategy", "Strategy & Roadmap Development",
      "Develop AI strategy, internal policy framework, and prioritised use case roadmap",
      ["AI Strategy Development", "Internal AI Usage Policy", "Use Case Prioritisation", "C-Suite Alignment Workshop"]),
    PhaseTemplate("pilot", "Pilot & Implementation Planning",
      "Define pilot projects, build change management plan, and design education programme",
      ["Pilot Scoping", "Change Management Planning", "Education Programme Design", "Leadership Workshops"]),
    PhaseTemplate("execution", "Execution & Governance",
      "Launch pilots, establish AI governance committee, and roll out education programme",
      ["Pilot Execution Support", "AI Governance Setup", "Training Delivery", "Performance Monitoring"])
  ]

  /** `templates.find(t => t.key === key)`: the first template with the key, if any. */
  function FindTemplate(templates: seq<PhaseTemplate>, key: string): (r: Option<PhaseTemplate>)
    ensures r.Some? ==> r.value in templates && r.value.key == key
    ensures r.None? <==> forall t :: t in templates ==> t.key != key
    ensures r.Some? ==> exists i :: 0 <= i < |templates| && templates[i] == r.value && forall j :: 0 <= j < i ==> templates[j].key != key
  {
    if templates == [] then None
    else if templates[0].key == key then Some(templates[0])
    else
      var r := FindTemplate(templates[1..], key);
      if r.Some? then
        var i :| 0 <= i < |templates| - 1 && templates[1..][i] == r.value && forall j :: 0 <= j < i ==> templates[1..][j].key != key;
        assert templates[i + 1] == r.value && forall j :: 0 <= j < i + 1 ==> templates[j].key != key;
        r
      else r
  }

  // ---------------------------------------------------------------------
  // Step one
  // ---------------------------------------------------------------------

  /** The text fields of step one and the list of goal inputs. */
  datatype Details = Details(
    clientName: string,
    industry: string,
    size: string,
    contactName: string,
    contactRole: string,
    contactEmail: string,
    goals: seq<string>)

  /** The size options; the form starts on the third. */
  const SizeOptions: seq<string> := ["1–50", "50–200", "200–1,000", "1,000–5,000", "5,000–10,000", "10,000+"]

  const BlankDetails: Details := Details("", "", SizeOptions[2], "", "", "", [""])

  /** The "Next" button is enabled when the five required fields trim to something. */
  predicate Step1Valid(d: Details)
  {
    Filled(d.clientName) && Filled(d.industry) && Filled(d.contactName)
    && Filled(d.contactRole) && Filled(d.contactEmail)
  }

  /** A required field counts as filled in when it trims to something. */
  predicate Filled(field: string)
  {
    Trim(field) != []
  }

  /** Step one is valid exactly when none of the five required fields is blank. */
  lemma Step1ValidIff(d: Details)
    ensures Step1Valid(d) <==>
      !IsBlank(d.clientName) && !IsBlank(d.industry) && !IsBlank(d.contactName)
      && !IsBlank(d.contactRole) && !IsBlank(d.contactEmail)
  {
    TrimEmptyIffBlank(d.clientName);
    TrimEmptyIffBlank(d.industry);
    TrimEmptyIffBlank(d.contactName);
    TrimEmptyIffBlank(d.contactRole);
    TrimEmptyIffBlank(d.contactEmail);
  }

  /** `goals.map(g => g.trim()).filter(Boolean)`. */
  function CleanGoals(goals: seq<string>): (r: seq<string>)
    ensures |r| <= |goals|
    ensures forall i :: 0 <= i < |r| ==> r[i] != []
  {
    if goals == [] then []
    else if Trim(goals[0]) != [] then [Trim(goals[0])] + CleanGoals(goals[1..])
    else CleanGoals(goals[1..])
  }

  /** The kept goals are exactly the non-empty trimmed inputs. */
  lemma {:induction false} CleanGoalsMembers(goals: seq<string>)
    ensures forall g :: g in CleanGoals(goals) <==> g != [] && exists goal :: goal in goals && Trim(goal) == g
  {
    if goals != [] {
      var rest := goals[1..];
      CleanGoalsMembers(rest);
      var t := Trim(goals[0]);
      assert CleanGoals(goals) == if t != [] then [t] + CleanGoals(rest) else CleanGoals(rest);
      forall g ensures g in CleanGoals(goals) <==> g != [] && exists goal :: goal in goals && Trim(goal) == g {
        if exists goal :: goal in goals && Trim(goal) == g {
          var goal :| goal in goals && Trim(goal) == g;
          if goal != goals[0] {
            assert goal in rest;
          }
        }
        if g in CleanGoals(rest) {
          var goal :| goal in rest && Trim(goal) == g;
          assert goal in goals;
        }
      }
    }
  }

  /** The goals keep their order: cleaning a concatenation cleans each part. */
  lemma {:induction false} CleanGoalsAppend(goals: seq<string>, more: seq<string>)
    ensures CleanGoals(goals + more) == CleanGoals(goals) + CleanGoals(more)
  {
    if goals == [] {
      assert goals + more == more;
    } else {
      assert (goals + more)[1..] == goals[1..] + more;
      CleanGoalsAppend(goals[1..], more);
    }
  }

  /** A single goal is kept, trimmed, exactly when it is not blank. */
  lemma CleanGoalsSingle(goal: string)
    ensures CleanGoals([goal]) == if Trim(goal) == [] then [] else [Trim(goal)]
  {
  }

  /** Every kept goal is trimmed, so cleaning twice is cleaning once. */
  lemma {:induction false} CleanGoalsIdempotent(goals: seq<string>)
    ensures CleanGoals(CleanGoals(goals)) == CleanGoals(goals)
  {
    if goals != [] {
      CleanGoalsIdempotent(goals[1..]);
      var rest := CleanGoals(goals[1..]);
      var t := Trim(goals[0]);
      if t != [] {
        assert CleanGoals(goals) == [t] + rest;
        TrimOfTrimmed(t, goals[0]);
        assert ([t] + rest)[1..] == rest;
        assert CleanGoals([t] + rest) == [t] + CleanGoals(rest);
      } else {
        assert CleanGoals(goals) == rest;
      }
    }
  }

  lemma TrimOfTrimmed(t: string, s: string)
    requires t == Trim(s)
    ensures Trim(t) == t
  {
    TrimIdempotent(s);
  }

  /**
   * The client record: ids from two separate readings of the clock, the
   * trimmed fields, the size with " employees" appended, one primary contact
   * and the cleaned goals.
   */
  function NewClient(d: Details, clientNow: nat, contactNow: nat, today: string): (c: Client)
    ensures |c.contacts| == 1 && c.contacts[0].isPrimary
    ensures c.strategicGoals == CleanGoals(d.goals)
    ensures Step1Valid(d) ==> c.name != [] && c.industry != [] && c.contacts[0].name != []
  {
    Client(
      "c" + NatToString(clientNow),
      Trim(d.clientName),
      Trim(d.industry),
      d.size + " employees",
      [Contact("ct" + NatToString(contactNow), Trim(d.contactName), Trim(d.contactRole), Trim(d.contactEmail), true)],
      CleanGoals(d.goals),
      today)
  }

  // ---------------------------------------------------------------------
  // Step two: selections
  // ---------------------------------------------------------------------

  /**
   * A record of service flags. Object keys keep their insertion order, and
   * that order becomes the order of a generated phase's activities, so the
   * record is an ordered list of (name, flag) pairs.
   */
  type Flags = seq<(string, bool)>

  function Names(flags: Flags): (r: seq<string>)
    ensures |r| == |flags| && forall i :: 0 <= i < |flags| ==> r[i] == flags[i].0
  {
    if flags == [] then [] else [flags[0].0] + Names(flags[1..])
  }

  predicate Distinct(s: seq<string>)
  {
    forall i, j :: 0 <= i < j < |s| ==> s[i] != s[j]
  }

  /** `flags[name]` read as a boolean: a missing entry is false. */
  function Flag(flags: Flags, name: string): bool
  {
    if flags == [] then false
    else if flags[0].0 == name then flags[0].1
    else Flag(flags[1..], name)
  }

  /** `{ ...flags, [name]: value }`: an existing entry keeps its place, a new one goes last. */
  function SetFlag(flags: Flags, name: string, value: bool): (r: Flags)
    ensures Flag(r, name) == value
    ensures forall n :: n != name ==> Flag(r, n) == Flag(flags, n)
    ensures name in Names(flags) ==> Names(r) == Names(flags)
    ensures name !in Names(flags) ==> r == flags + [(name, value)]
  {
    if flags == [] then [(name, value)]
    else if flags[0].0 == name then [(name, value)] + flags[1..]
    else
      assert Names(flags) == [flags[0].0] + Names(flags[1..]);
      [flags[0]] + SetFlag(flags[1..], name, value)
  }

  /** `Object.fromEntries(names.map(n => [n, true]))`. */
  function AllOn(names: seq<string>): (r: Flags)
    ensures forall n :: Flag(r, n) <==> n in names
  {
    if names == [] then [] else SetFlag(AllOn(names[..|names| - 1]), names[|names| - 1], true)
  }

  /** The names whose flag is true, in record order. */
  function ActiveServices(flags: Flags): (r: seq<string>)
    ensures |r| <= |flags|
    ensures r == [] <==> forall i :: 0 <= i < |flags| ==> !flags[i].1
  {
    if flags == [] then []
    else
      var rest := ActiveServices(flags[1..]);
      assert forall i :: 0 < i < |flags| ==> flags[i] == flags[1..][i - 1];
      if flags[0].1 then [flags[0].0] + rest else rest
  }

  lemma {:induction false} ActiveServicesAppend(flags: Flags, name: string, value: bool)
    ensures ActiveServices(flags + [(name, value)]) == ActiveServices(flags) + (if value then [name] else [])
  {
    if flags == [] {
      assert [] + [(name, value)] == [(name, value)];
    } else {
      assert (flags + [(name, value)])[1..] == flags[1..] + [(name, value)];
      ActiveServicesAppend(flags[1..], name, value);
    }
  }

  /** Turning a template on makes all of its services active, in template order. */
  lemma {:induction false} AllOnIsAllActive(names: seq<string>)
    requires Distinct(names)
    ensures Names(AllOn(names)) == names
    ensures ActiveServices(AllOn(names)) == names
  {
    if names != [] {
      var init := names[..|names| - 1];
      var last := names[|names| - 1];
      assert names == init + [last];
      assert Distinct(init);
      AllOnIsAllActive(init);
      var before := AllOn(init);
      assert last !in Names(before) by {
        assert forall k :: 0 <= k < |init| ==> init[k] == names[k];
      }
      assert AllOn(names) == before + [(last, true)];
      assert Names(before + [(last, true)]) == Names(before) + [last];
      ActiveServicesAppend(before, last, true);
    }
  }

  /** Every template lists each of its services once. */
  lemma TemplateServicesDistinct()
    ensures forall t :: t in PhaseTemplates ==> Distinct(t.services)
  {
  }

  /** `selectedPhases[key]` read as a boolean. */
  predicate Selected(selectedPhases: map<string, bool>, key: string)
  {
    key in selectedPhases && selectedPhases[key]
  }

  /** `selectedServices[key] || {}`. */
  function ServicesOf(selectedServices: map<string, Flags>, key: string): Flags
  {
    if key in selectedServices then selectedServices[key] else []
  }

  /** `Object.values(selectedPhases).some(Boolean)`: the "Create" button is enabled. */
  predicate HasSelectedPhases(selectedPhases: map<string, bool>)
  {
    exists key :: key in selectedPhases && selectedPhases[key]
  }

  // ---------------------------------------------------------------------
  // Phase generation
  // ---------------------------------------------------------------------

  /** The activity ids of a generated phase: `a-<clientId>-<n>-<i + 1>`. */
  function ActivityId(clientId: string, n: nat, i: nat): string
  {
    "a-" + clientId + "-" + NatToString(n) + "-" + NatToString(i + 1)
  }

  function PhaseId(clientId: string, n: nat): string
  {
    "ep-" + clientId + "-" + NatToString(n)
  }

  function NewActivities(clientId: string, n: nat, services: seq<string>, from: nat): (r: seq<Activity>)
    ensures |r| == |services|
    ensures forall i :: 0 <= i < |r| ==>
      r[i] == Activity(ActivityId(clientId, n, from + i), services[i], "", PhaseStatus.NotStarted, None)
    decreases |services|
  {
    if services == [] then []
    else
      [Activity(ActivityId(clientId, n, from), services[0], "", PhaseStatus.NotStarted, None)]
      + NewActivities(clientId, n, services[1..], from + 1)
  }

  /** The phase generated for template `t` as the `n`-th phase of the client. */
  function NewPhase(clientId: string, n: nat, t: PhaseTemplate, services: seq<string>): (p: Phase)
    ensures |p.activities| == |p.keyServices| == |services|
    ensures forall i :: 0 <= i < |services| ==>
      p.activities[i].title == p.keyServices[i] == services[i]
      && p.activities[i].status == PhaseStatus.NotStarted
      && p.activities[i].id == ActivityId(clientId, n, i)
  {
    Phase(PhaseId(clientId, n), clientId, n, t.title, t.subtitle, "TBD", "TBD",
      PhaseStatus.NotStarted, 0, NewActivities(clientId, n, services, 0), [], services)
  }

  /** A template is generated when it is picked and has at least one active service. */
  predicate Generates(t: PhaseTemplate, selectedPhases: map<string, bool>, selectedServices: map<string, Flags>)
  {
    Selected(selectedPhases, t.key) && ActiveServices(ServicesOf(selectedServices, t.key)) != []
  }

  /** The templates that produce a phase, in template order. */
  function GeneratingTemplates(ts: seq<PhaseTemplate>, selectedPhases: map<string, bool>, selectedServices: map<string, Flags>): (r: seq<PhaseTemplate>)
    ensures |r| <= |ts|
    ensures forall t :: t in r <==> t in ts && Generates(t, selectedPhases, selectedServices)
  {
    if ts == [] then []
    else
      var init := GeneratingTemplates(ts[..|ts| - 1], selectedPhases, selectedServices);
      var last := ts[|ts| - 1];
      assert ts == ts[..|ts| - 1] + [last];
      if Generates(last, selectedPhases, selectedServices) then init + [last] else init
  }

  /** The generating templates keep the template order: a concatenation contributes each part in turn. */
  lemma {:induction false} GeneratingTemplatesAppend(ts: seq<PhaseTemplate>, more: seq<PhaseTemplate>, selectedPhases: map<string, bool>, selectedServices: map<string, Flags>)
    ensures GeneratingTemplates(ts + more, selectedPhases, selectedServices)
      == GeneratingTemplates(ts, selectedPhases, selectedServices) + GeneratingTemplates(more, selectedPhases, selectedServices)
    decreases |more|
  {
    if more == [] {
      assert ts + more == ts;
    } else {
      var init, last := more[..|more| - 1], more[|more| - 1];
      assert (ts + more)[..|ts + more| - 1] == ts + init;
      assert (ts + more)[|ts + more| - 1] == last;
      GeneratingTemplatesAppend(ts, init, selectedPhases, selectedServices);
    }
  }

  /** A single template is kept exactly when it generates a phase. */
  lemma GeneratingTemplatesSingle(t: PhaseTemplate, selectedPhases: map<string, bool>, selectedServices: map<string, Flags>)
    ensures GeneratingTemplates([t], selectedPhases, selectedServices) == if Generates(t, selectedPhases, selectedServices) then [t] else []
  {
    assert [t][..0] == [];
  }

  /**
   * The phases the submit loop produces after visiting `ts`, step by step:
   * a visited template that generates appends one phase numbered one past
   * the phases so far.
   */
  function Generated(clientId: string, ts: seq<PhaseTemplate>, selectedPhases: map<string, bool>, selectedServices: map<string, Flags>): seq<Phase>
  {
    if ts == [] then []
    else
      var prev := Generated(clientId, ts[..|ts| - 1], selectedPhases, selectedServices);
      var t := ts[|ts| - 1];
      if Generates(t, selectedPhases, selectedServices) then
        prev + [NewPhase(clientId, |prev| + 1, t, ActiveServices(ServicesOf(selectedServices, t.key)))]
      else prev
  }

  /**
   * The generated phases are the generating templates in order, the `j`-th
   * numbered `j + 1` with id `ep-<clientId>-<j + 1>`, so the numbers have no
   * gaps even where a picked template is skipped.
   */
  lemma {:induction false} GeneratedPhasesShape(clientId: string, ts: seq<PhaseTemplate>, selectedPhases: map<string, bool>, selectedServices: map<string, Flags>)
    ensures var r := Generated(clientId, ts, selectedPhases, selectedServices);
      var g := GeneratingTemplates(ts, selectedPhases, selectedServices);
      |r| == |g| &&
      forall j :: 0 <= j < |r| ==>
        r[j] == NewPhase(clientId, j + 1, g[j], ActiveServices(ServicesOf(selectedServices, g[j].key)))
        && r[j].phaseNumber == j + 1 && r[j].id == PhaseId(clientId, j + 1)
  {
    if ts != [] {
      var init, t := ts[..|ts| - 1], ts[|ts| - 1];
      GeneratedPhasesShape(clientId, init, selectedPhases, selectedServices);
      var prev := Generated(clientId, init, selectedPhases, selectedServices);
      var g := GeneratingTemplates(init, selectedPhases, selectedServices);
      if Generates(t, selectedPhases, selectedServices) {
        var p := NewPhase(clientId, |prev| + 1, t, ActiveServices(ServicesOf(selectedServices, t.key)));
        assert Generated(clientId, ts, selectedPhases, selectedServices) == prev + [p];
        assert GeneratingTemplates(ts, selectedPhases, selectedServices) == g + [t];
      } else {
        assert Generated(clientId, ts, selectedPhases, selectedServices) == prev;
        assert GeneratingTemplates(ts, selectedPhases, selectedServices) == g;
      }
    }
  }

  /**
   * With the "Create" button's test failing, no template is picked, so the
   * submit loop generates no phase; the button therefore only disables a
   * submit that would add a client without phases.
   */
  lemma {:induction false} NoSelectionGeneratesNothing(clientId: string, ts: seq<PhaseTemplate>, selectedPhases: map<string, bool>, selectedServices: map<string, Flags>)
    requires !HasSelectedPhases(selectedPhases)
    ensures GeneratingTemplates(ts, selectedPhases, selectedServices) == []
    ensures Generated(clientId, ts, selectedPhases, selectedServices) == []
  {
    var g := GeneratingTemplates(ts, selectedPhases, selectedServices);
    if g != [] {
      assert g[0] in g;
    }
    GeneratedPhasesShape(clientId, ts, selectedPhases, selectedServices);
  }

  /** Every generated phase starts empty: TBD timeline and investment, nothing delivered, not started. */
  lemma GeneratedPhaseDefaults(clientId: string, ts: seq<PhaseTemplate>, selectedPhases: map<string, bool>, selectedServices: map<string, Flags>)
    ensures forall p :: p in Generated(clientId, ts, selectedPhases, selectedServices) ==>
      p.clientId == clientId && p.timeline == "TBD" && p.investment == "TBD"
      && p.status == PhaseStatus.NotStarted && p.progress == 0 && p.deliverables == []
      && p.keyServices != [] && |p.activities| == |p.keyServices|
      && forall i :: 0 <= i < |p.activities| ==>
        p.activities[i].title == p.keyServices[i] && p.activities[i].status == PhaseStatus.NotStarted
  {
    GeneratedPhasesShape(clientId, ts, selectedPhases, selectedServices);
    var r := Generated(clientId, ts, selectedPhases, selectedServices);
    var g := GeneratingTemplates(ts, selectedPhases, selectedServices);
    forall p | p in r
      ensures p.keyServices != []
    {
      var j :| 0 <= j < |r| && r[j] == p;
      assert g[j] in g;
    }
  }

  /** A freshly generated phase is derived as 0% and not started, like its stored values say. */
  lemma GeneratedPhaseComputesToZero(clientId: string, n: nat, t: PhaseTemplate, services: seq<string>)
    requires services != []
    ensures PhaseProgress.ComputePhaseProgress(NewPhase(clientId, n, t, services)) == PhaseProgress.Progress(0, PhaseStatus.NotStarted)
  {
    var acts := NewPhase(clientId, n, t, services).activities;
    AllIncluded(acts);
    assert PhaseProgress.IncludedDeliverables([]) == [];
    PhaseProgress.RoundedPercentAtLeast(0, |acts|, 1);
    assert PhaseProgress.RoundedPercent(0, |acts|) == 0;
  }

  lemma {:induction false} AllIncluded(acts: seq<Activity>)
    requires forall i :: 0 <= i < |acts| ==> acts[i].status == PhaseStatus.NotStarted
    ensures PhaseProgress.IncludedActivities(acts) == acts
    ensures PhaseProgress.CompletedCount(acts) == 0
    ensures !PhaseProgress.AnyActivityInProgress(acts)
  {
    if acts != [] {
      AllIncluded(acts[1..]);
    }
  }

  /** The submit loop: visits the templates in order and numbers the phases it pushes. */
  method BuildPhases(clientId: string, ts: seq<PhaseTemplate>, selectedPhases: map<string, bool>, selectedServices: map<string, Flags>)
    returns (phases: seq<Phase>)
    ensures phases == Generated(clientId, ts, selectedPhases, selectedServices)
  {
    phases := [];
    var phaseNum := 1;
    var i := 0;
    while i < |ts|
      invariant 0 <= i <= |ts|
      invariant phases == Generated(clientId, ts[..i], selectedPhases, selectedServices)
      invariant phaseNum == |phases| + 1
    {
      var template := ts[i];
      assert ts[..i + 1][..i] == ts[..i];
      if Selected(selectedPhases, template.key) {
        var activeServices := ActiveServices(ServicesOf(selectedServices, template.key));
        if activeServices != [] {
          phases := phases + [NewPhase(clientId, phaseNum, template, activeServices)];
          phaseNum := phaseNum + 1;
        }
      }
      i := i + 1;
    }
    assert ts[..|ts|] == ts;
  }

  // ---------------------------------------------------------------------
  // The modal's state
  // ---------------------------------------------------------------------

  class IntakeForm {
    var step: nat
    var details: Details
    var selectedPhases: map<string, bool>
    var selectedServices: map<string, Flags>

    /** The state `resetForm` restores. */
    predicate IsInitial()
      reads this
    {
      step == 1 && details == BlankDetails && selectedPhases == map[] && selectedServices == map[]
    }

    constructor ()
      ensures IsInitial()
    {
      step := 1;
      details := BlankDetails;
      selectedPhases := map[];
      selectedServices := map[];
    }

    method Reset()
      modifies this
      ensures IsInitial()
    {
      step := 1;
      details := BlankDetails;
      selectedPhases := map[];
      selectedServices := map[];
    }

    /** Editing a step-one field or the goal list replaces the details. */
    method EditDetails(d: Details)
      modifies this
      ensures details == d
      ensures step == old(step) && selectedPhases == old(selectedPhases) && selectedServices == old(selectedServices)
    {
      details := d;
    }

    /** `setStep`. */
    method SetStep(n: nat)
      modifies this
      ensures step == n
      ensures details == old(details) && selectedPhases == old(selectedPhases) && selectedServices == old(selectedServices)
    {
      step := n;
    }

    /** The "Next" button: disabled until step one is valid. */
    method Continue()
      modifies this
      ensures Step1Valid(details) ==> step == 2
      ensures !Step1Valid(details) ==> step == old(step)
      ensures details == old(details) && selectedPhases == old(selectedPhases) && selectedServices == old(selectedServices)
    {
      if Step1Valid(details) {
        SetStep(2);
      }
    }

    method Back()
      modifies this
      ensures step == 1
      ensures details == old(details) && selectedPhases == old(selectedPhases) && selectedServices == old(selectedServices)
    {
      step := 1;
    }

    /**
     * Flips the template's flag. Turning it on switches every service of
     * the template on; turning it off forgets the template's services. A
     * key with no template can only be turned off.
     */
    method TogglePhase(key: string)
      requires Selected(selectedPhases, key) || FindTemplate(PhaseTemplates, key).Some?
      modifies this
      ensures selectedPhases == old(selectedPhases)[key := !Selected(old(selectedPhases), key)]
      ensures Selected(old(selectedPhases), key) ==> selectedServices == old(selectedServices) - {key}
      ensures !Selected(old(selectedPhases), key) ==>
        selectedServices == old(selectedServices)[key := AllOn(FindTemplate(PhaseTemplates, key).value.services)]
      ensures step == old(step) && details == old(details)
    {
      var next := selectedPhases[key := !Selected(selectedPhases, key)];
      if !next[key] {
        selectedServices := selectedServices - {key};
      } else {
        var template := FindTemplate(PhaseTemplates, key).value;
        selectedServices := selectedServices[key := AllOn(template.services)];
      }
      selectedPhases := next;
    }

    /** Flips one service flag of one template, creating the template's record if needed. */
    method ToggleService(phaseKey: string, service: string)
      modifies this
      ensures selectedServices == old(selectedServices)[phaseKey :=
        SetFlag(ServicesOf(old(selectedServices), phaseKey), service, !Flag(ServicesOf(old(selectedServices), phaseKey), service))]
      ensures step == old(step) && details == old(details) && selectedPhases == old(selectedPhases)
    {
      var current := ServicesOf(selectedServices, phaseKey);
      selectedServices := selectedServices[phaseKey := SetFlag(current, service, !Flag(current, service))];
    }

    /**
     * `handleSubmit` followed by `handleClose`: builds the client and its
     * phases from the form, then resets the form.
     */
    method Submit(clientNow: nat, contactNow: nat, today: string) returns (client: Client, phases: seq<Phase>)
      modifies this
      ensures client == NewClient(old(details), clientNow, contactNow, today)
      ensures phases == Generated(client.id, PhaseTemplates, old(selectedPhases), old(selectedServices))
      ensures IsInitial()
    {
      client := NewClient(details, clientNow, contactNow, today);
      phases := BuildPhases(client.id, PhaseTemplates, selectedPhases, selectedServices);
      Reset();
    }
  }

  /** Toggling a template flips its own flag and leaves every other template's flag as it was. */
  lemma TogglePhaseFlagsOnly(selectedPhases: map<string, bool>, key: string, other: string)
    requires other != key
    ensures Selected(selectedPhases[key := !Selected(selectedPhases, key)], other) == Selected(selectedPhases, other)
    ensures Selected(selectedPhases[key := !Selected(selectedPhases, key)], key) == !Selected(selectedPhases, key)
  {
  }

  /** Toggling a service changes that one flag and no other, in any template. */
  lemma ToggleServiceLocal(selectedServices: map<string, Flags>, phaseKey: string, service: string, k: string, s: string)
    ensures var current := ServicesOf(selectedServices, phaseKey);
      var after := selectedServices[phaseKey := SetFlag(current, service, !Flag(current, service))];
      Flag(ServicesOf(after, k), s) == (if k == phaseKey && s == service then !Flag(ServicesOf(selectedServices, k), s)
                                        else Flag(ServicesOf(selectedServices, k), s))
  {
  }

  /** Right after a template is turned on, submitting generates it with all of its services. */
  lemma TurnedOnTemplateGenerates(templates: seq<PhaseTemplate>, selectedPhases: map<string, bool>, selectedServices: map<string, Flags>, t: PhaseTemplate)
    requires FindTemplate(templates, t.key) == Some(t) && Distinct(t.services) && t.services != []
    ensures var sp := selectedPhases[t.key := true];
      var ss := selectedServices[t.key := AllOn(FindTemplate(templates, t.key).value.services)];
      Generates(t, sp, ss) && ActiveServices(ServicesOf(ss, t.key)) == t.services
  {
    var ss := selectedServices[t.key := AllOn(FindTemplate(templates, t.key).value.services)];
    assert ServicesOf(ss, t.key) == AllOn(t.services);
    AllOnIsAllActive(t.services);
  }
}
