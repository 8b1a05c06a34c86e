/** The outcome tables of the three main actions (today-game.js:330-549) and
    the daily event table (today-game.js:1334-1365).

    Each table entry is a condition, a weight and an effect. The conditions
    and weights become a sequence of Selection candidates, in the source's
    order. An effect reads the state and some draws of the generator and
    returns the changes the handler merges into the state; since every
    change it names is a number, a whole citizens array or a full copy of
    `resources`, the merge is a plain record update (StateMerge's
    MergeReplacesNonObjects and MergeFullObjectReplaces), and the effect is
    modelled as the state it leaves. The draws it consumes are an explicit
    argument, one per `getRandomValue` call, in call order. */
module Outcomes {
  import opened Random
  import opened Selection
  import opened State

  /** lo <= x <= hi. */
  predicate Between(x: int, lo: int, hi: int)
  {
    lo <= x <= hi
  }

  /** The citizens after `citizens.map(c => c.id === id ? { ...c, trust:
      Math.min(100, c.trust + gain) } : c)`. */
  function RaiseTrust(cs: seq<Citizen>, id: string, gain: int): seq<Citizen>
  {
    seq(|cs|, i requires 0 <= i < |cs| =>
      if cs[i].id == id then cs[i].(trust := Min(100, cs[i].trust + gain)) else cs[i])
  }

  /** The citizens after the same map with `Math.max(0, c.trust - loss)`. */
  function LowerTrust(cs: seq<Citizen>, id: string, loss: int): seq<Citizen>
  {
    seq(|cs|, i requires 0 <= i < |cs| =>
      if cs[i].id == id then cs[i].(trust := Max(0, cs[i].trust - loss)) else cs[i])
  }

  /** `after` is `before` with the trust of every citizen carrying `id` raised
      by an amount in [lo, hi] and capped at 100; nobody else changes. */
  predicate TrustRaised(before: seq<Citizen>, after: seq<Citizen>, id: string, lo: int, hi: int)
  {
    && |after| == |before|
    && forall i :: 0 <= i < |before| ==>
         && after[i].(trust := before[i].trust) == before[i]
         && (before[i].id == id ==>
               Between(after[i].trust, Min(100, before[i].trust + lo), Min(100, before[i].trust + hi)))
         && (before[i].id != id ==> after[i].trust == before[i].trust)
  }

  /** `after` is `before` with the trust of every citizen carrying `id` lowered
      by an amount in [lo, hi] and floored at 0; nobody else changes. */
  predicate TrustLowered(before: seq<Citizen>, after: seq<Citizen>, id: string, lo: int, hi: int)
  {
    && |after| == |before|
    && forall i :: 0 <= i < |before| ==>
         && after[i].(trust := before[i].trust) == before[i]
         && (before[i].id == id ==>
               Between(after[i].trust, Max(0, before[i].trust - hi), Max(0, before[i].trust - lo)))
         && (before[i].id != id ==> after[i].trust == before[i].trust)
  }

  /** Raising by a gain in [lo, hi] is a TrustRaised change. */
  lemma RaiseTrustIsRaised(cs: seq<Citizen>, id: string, gain: int, lo: int, hi: int)
    requires lo <= gain <= hi
    ensures TrustRaised(cs, RaiseTrust(cs, id, gain), id, lo, hi)
  {}

  /** Lowering by a loss in [lo, hi] is a TrustLowered change. */
  lemma LowerTrustIsLowered(cs: seq<Citizen>, id: string, loss: int, lo: int, hi: int)
    requires lo <= loss <= hi
    ensures TrustLowered(cs, LowerTrust(cs, id, loss), id, lo, hi)
  {}

  // ----- inspect_city (today-game.js:411-471) -----

  /** The conditions and weights of `inspectCityOutcomes`. */
  function InspectCandidates(s: GameState): (r: seq<Candidate>)
    ensures |r| == |InspectDrawCounts| && forall k :: 0 <= k < |r| ==> r[k].weight > 0
    ensures r[0].applicable <==> s.resources.budget < 20
    ensures r[1].applicable <==> s.resources.materials < 20
    ensures forall k :: 2 <= k < |r| ==> r[k].applicable
  {
    [ Candidate(s.resources.budget < 20, 30),
      Candidate(s.resources.materials < 20, 25),
      Candidate(true, 20),
      Candidate(true, 25),
      Candidate(true, 15) ]
  }

  /** How many draws the effect of each entry takes. */
  const InspectDrawCounts: seq<nat> := [1, 1, 2, 3, 2]

  /** The state an inspection outcome leaves: found budget or materials, a
      gain of leadership and responsibility, a loss of action points,
      efficiency and order, or a loss of productivity and leadership. */
  function InspectEffect(s: GameState, k: nat, d: seq<Draw>): (r: GameState)
    requires k < 5 && |d| >= InspectDrawCounts[k]
    ensures r.day == s.day && |r.citizens| == |s.citizens| && r.minigame == s.minigame
    ensures k == 0 ==> (r == s.(resources := s.resources.(budget := r.resources.budget))
                        && Between(r.resources.budget, s.resources.budget + 5, s.resources.budget + 15))
    ensures k == 1 ==> (r == s.(resources := s.resources.(materials := r.resources.materials))
                        && Between(r.resources.materials, s.resources.materials + 5, s.resources.materials + 15))
    ensures k == 2 ==> (r == s.(leadership := r.leadership, responsibility := r.responsibility)
                        && Between(r.leadership, s.leadership + 3, s.leadership + 7)
                        && Between(r.responsibility, s.responsibility + 3, s.responsibility + 7))
    ensures k == 3 ==> (r == s.(actionPoints := r.actionPoints, efficiency := r.efficiency, order := r.order)
                        && Between(r.actionPoints, s.actionPoints - 3, s.actionPoints - 1)
                        && Between(r.efficiency, s.efficiency - 7, s.efficiency - 3)
                        && Between(r.order, s.order - 7, s.order - 3))
    ensures k == 4 ==> (r == s.(productivity := r.productivity, leadership := r.leadership)
                        && Between(r.productivity, s.productivity - 7, s.productivity - 3)
                        && Between(r.leadership, s.leadership - 7, s.leadership - 3))
  {
    if k == 0 then
      s.(resources := s.resources.(budget := s.resources.budget + RandomValueOf(10, 5, d[0])))
    else if k == 1 then
      s.(resources := s.resources.(materials := s.resources.materials + RandomValueOf(10, 5, d[0])))
    else if k == 2 then
      s.(leadership := s.leadership + RandomValueOf(5, 2, d[0]),
         responsibility := s.responsibility + RandomValueOf(5, 2, d[1]))
    else if k == 3 then
      s.(actionPoints := s.actionPoints - RandomValueOf(2, 1, d[0]),
         efficiency := s.efficiency - RandomValueOf(5, 2, d[1]),
         order := s.order - RandomValueOf(5, 2, d[2]))
    else
      s.(productivity := s.productivity - RandomValueOf(5, 2, d[0]),
         leadership := s.leadership - RandomValueOf(5, 2, d[1]))
  }

  /** Whatever the draw, the walk over the inspection table stops at an entry. */
  lemma InspectAlwaysChooses(s: GameState, u: Draw)
    ensures exists k: nat :: IsChoice(InspectCandidates(s), u, k)
  {
    PositiveEntryMakesChoice(InspectCandidates(s), u, 2);
  }

  /** An inspection finds budget (materials) only while the budget
      (materials) is below 20. */
  lemma InspectChoiceHolds(s: GameState, u: Draw, k: nat)
    requires IsChoice(InspectCandidates(s), u, k)
    ensures k < 5 && (k == 0 ==> s.resources.budget < 20) && (k == 1 ==> s.resources.materials < 20)
  {}

  // ----- report_to_citizens (today-game.js:473-549) -----

  /** The conditions and weights of `reportToCitizensOutcomes` for the citizen reported to. */
  function ReportCandidates(s: GameState, c: Citizen): (r: seq<Candidate>)
    ensures |r| == |ReportDrawCounts| && forall k :: 0 <= k < |r| ==> r[k].weight > 0
    ensures r[3].applicable
  {
    [ Candidate(c.trust < 60, 40),
      Candidate(c.personality == "성실한", 20),
      Candidate(c.skill == SkillAdministration, 15),
      Candidate(true, 25),
      Candidate(s.efficiency < 40 || c.trust < 40, 20),
      Candidate(s.efficiency < 30, 15) ]
  }

  /** How many draws the effect of each entry takes. */
  const ReportDrawCounts: seq<nat> := [3, 2, 1, 2, 3, 2]

  /** The state a report outcome leaves. */
  function ReportEffect(s: GameState, c: Citizen, k: nat, d: seq<Draw>): (r: GameState)
    requires k < 6 && |d| >= ReportDrawCounts[k]
    ensures r.day == s.day && |r.citizens| == |s.citizens| && r.minigame == s.minigame
    ensures k == 0 ==> (r == s.(citizens := r.citizens, responsibility := r.responsibility, leadership := r.leadership)
                        && TrustRaised(s.citizens, r.citizens, c.id, 5, 15)
                        && Between(r.responsibility, s.responsibility + 3, s.responsibility + 7)
                        && Between(r.leadership, s.leadership + 3, s.leadership + 7))
    ensures k == 1 ==> (r == s.(productivity := r.productivity, efficiency := r.efficiency)
                        && Between(r.productivity, s.productivity + 7, s.productivity + 13)
                        && Between(r.efficiency, s.efficiency + 3, s.efficiency + 7))
    ensures k == 2 ==> (r == s.(resources := s.resources.(administration := r.resources.administration))
                        && Between(r.resources.administration, s.resources.administration + 3, s.resources.administration + 7))
    ensures k == 3 ==> (r == s.(order := r.order, responsibility := r.responsibility)
                        && Between(r.order, s.order + 3, s.order + 7)
                        && Between(r.responsibility, s.responsibility + 2, s.responsibility + 4))
    ensures k == 4 ==> (r == s.(citizens := r.citizens, efficiency := r.efficiency, leadership := r.leadership)
                        && TrustLowered(s.citizens, r.citizens, c.id, 7, 13)
                        && Between(r.efficiency, s.efficiency - 7, s.efficiency - 3)
                        && Between(r.leadership, s.leadership - 7, s.leadership - 3))
    ensures k == 5 ==> (r == s.(actionPoints := s.actionPoints - 1, productivity := r.productivity)
                        && Between(r.productivity, s.productivity - 7, s.productivity - 3))
  {
    if k == 0 then
      var gain := RandomValueOf(10, 5, d[0]);
      RaiseTrustIsRaised(s.citizens, c.id, gain, 5, 15);
      s.(citizens := RaiseTrust(s.citizens, c.id, gain),
         responsibility := s.responsibility + RandomValueOf(5, 2, d[1]),
         leadership := s.leadership + RandomValueOf(5, 2, d[2]))
    else if k == 1 then
      s.(productivity := s.productivity + RandomValueOf(10, 3, d[0]),
         efficiency := s.efficiency + RandomValueOf(5, 2, d[1]))
    else if k == 2 then
      s.(resources := s.resources.(administration := s.resources.administration + RandomValueOf(5, 2, d[0])))
    else if k == 3 then
      s.(order := s.order + RandomValueOf(5, 2, d[0]),
         responsibility := s.responsibility + RandomValueOf(3, 1, d[1]))
    else if k == 4 then
      var loss := RandomValueOf(10, 3, d[0]);
      LowerTrustIsLowered(s.citizens, c.id, loss, 7, 13);
      s.(citizens := LowerTrust(s.citizens, c.id, loss),
         efficiency := s.efficiency - RandomValueOf(5, 2, d[1]),
         leadership := s.leadership - RandomValueOf(5, 2, d[2]))
    else
      s.(actionPoints := s.actionPoints - RandomValueOf(1, 0, d[0]),
         productivity := s.productivity - RandomValueOf(5, 2, d[1]))
  }

  /** Whatever the draw, the walk over the report table stops at an entry. */
  lemma ReportAlwaysChooses(s: GameState, c: Citizen, u: Draw)
    ensures exists k: nat :: IsChoice(ReportCandidates(s, c), u, k)
  {
    PositiveEntryMakesChoice(ReportCandidates(s, c), u, 3);
  }

  /** A report raises trust only for a citizen below 60, reaches the
      diligent outcome only for a diligent citizen and the administrative
      one only for an administrator, and lowers trust only when efficiency
      or that citizen's trust is below 40. */
  lemma ReportChoiceHolds(s: GameState, c: Citizen, u: Draw, k: nat)
    requires IsChoice(ReportCandidates(s, c), u, k)
    ensures
      && k < 6
      && (k == 0 ==> c.trust < 60)
      && (k == 1 ==> c.personality == "성실한")
      && (k == 2 ==> c.skill == SkillAdministration)
      && (k == 4 ==> s.efficiency < 40 || c.trust < 40)
      && (k == 5 ==> s.efficiency < 30)
  {}

  // ----- audit_budget (today-game.js:330-409) -----

  /** `citizens.find(c => c.trust < 50)`, as an index: the first citizen whose
      trust is below 50, or nothing when there is none (`some` is false). */
  function FindLowTrust(cs: seq<Citizen>): (r: Option<nat>)
    ensures r.Some? ==> (r.value < |cs| && cs[r.value].trust < 50
                         && forall j :: 0 <= j < r.value ==> cs[j].trust >= 50)
    ensures r.None? ==> forall j :: 0 <= j < |cs| ==> cs[j].trust >= 50
  {
    if |cs| == 0 then None
    else if cs[0].trust < 50 then Some(0)
    else
      match FindLowTrust(cs[1..])
      case None => None
      case Some(i) => Some(i + 1)
  }

  /** The conditions and weights of `auditBudgetOutcomes`. */
  function AuditCandidates(s: GameState): (r: seq<Candidate>)
    ensures |r| == |AuditDrawCounts| && forall k :: 0 <= k < |r| ==> r[k].weight > 0
    ensures r[4].applicable
    ensures r[3].applicable <==> exists i :: 0 <= i < |s.citizens| && s.citizens[i].trust < 50
  {
    [ Candidate(s.efficiency < 40, 40),
      Candidate(s.leadership > 70 && s.responsibility > 60, 30),
      Candidate(s.resources.budget < |s.citizens| * 4, 25),
      Candidate(FindLowTrust(s.citizens).Some?, 20),
      Candidate(true, 20),
      Candidate(s.order < 40 || s.productivity < 40, 25) ]
  }

  /** How many draws the effect of each entry takes. */
  const AuditDrawCounts: seq<nat> := [3, 3, 2, 3, 2, 3]

  /** The state an audit outcome leaves. Entry 3 reads the first citizen with
      trust below 50, so the source can only run it when there is one. */
  function AuditEffect(s: GameState, k: nat, d: seq<Draw>): (r: GameState)
    requires k < 6 && |d| >= AuditDrawCounts[k]
    requires k == 3 ==> FindLowTrust(s.citizens).Some?
    ensures r.day == s.day && |r.citizens| == |s.citizens| && r.minigame == s.minigame
    ensures k == 0 ==> (r == s.(efficiency := r.efficiency, order := r.order, productivity := r.productivity)
                        && Between(r.efficiency, s.efficiency - 14, s.efficiency - 6)
                        && Between(r.order, s.order - 7, s.order - 3)
                        && Between(r.productivity, s.productivity - 7, s.productivity - 3))
    ensures k == 1 ==> (r == s.(efficiency := r.efficiency, order := r.order, productivity := r.productivity)
                        && Between(r.efficiency, s.efficiency + 10, s.efficiency + 20)
                        && Between(r.order, s.order + 7, s.order + 13)
                        && Between(r.productivity, s.productivity + 7, s.productivity + 13))
    ensures k == 2 ==> (r == s.(leadership := r.leadership, responsibility := r.responsibility)
                        && Between(r.leadership, s.leadership + 7, s.leadership + 13)
                        && Between(r.responsibility, s.responsibility + 3, s.responsibility + 7))
    ensures k == 3 ==> (r == s.(citizens := r.citizens, efficiency := r.efficiency, leadership := r.leadership)
                        && TrustRaised(s.citizens, r.citizens, s.citizens[FindLowTrust(s.citizens).value].id, 6, 14)
                        && Between(r.efficiency, s.efficiency + 3, s.efficiency + 7)
                        && Between(r.leadership, s.leadership + 3, s.leadership + 7))
    ensures k == 4 ==> (r == s.(order := r.order, productivity := r.productivity)
                        && Between(r.order, s.order + 3, s.order + 7)
                        && Between(r.productivity, s.productivity + 2, s.productivity + 4))
    ensures k == 5 ==> (r == s.(efficiency := r.efficiency, order := r.order, productivity := r.productivity)
                        && Between(r.efficiency, s.efficiency - 7, s.efficiency - 3)
                        && Between(r.order, s.order - 7, s.order - 3)
                        && Between(r.productivity, s.productivity - 7, s.productivity - 3))
  {
    if k == 0 then
      s.(efficiency := s.efficiency - RandomValueOf(10, 4, d[0]),
         order := s.order - RandomValueOf(5, 2, d[1]),
         productivity := s.productivity - RandomValueOf(5, 2, d[2]))
    else if k == 1 then
      s.(efficiency := s.efficiency + RandomValueOf(15, 5, d[0]),
         order := s.order + RandomValueOf(10, 3, d[1]),
         productivity := s.productivity + RandomValueOf(10, 3, d[2]))
    else if k == 2 then
      s.(leadership := s.leadership + RandomValueOf(10, 3, d[0]),
         responsibility := s.responsibility + RandomValueOf(5, 2, d[1]))
    else if k == 3 then
      var id := s.citizens[FindLowTrust(s.citizens).value].id;
      var gain := RandomValueOf(10, 4, d[0]);
      RaiseTrustIsRaised(s.citizens, id, gain, 6, 14);
      s.(citizens := RaiseTrust(s.citizens, id, gain),
         efficiency := s.efficiency + RandomValueOf(5, 2, d[1]),
         leadership := s.leadership + RandomValueOf(5, 2, d[2]))
    else if k == 4 then
      s.(order := s.order + RandomValueOf(5, 2, d[0]),
         productivity := s.productivity + RandomValueOf(3, 1, d[1]))
    else
      s.(efficiency := s.efficiency - RandomValueOf(5, 2, d[0]),
         order := s.order - RandomValueOf(5, 2, d[1]),
         productivity := s.productivity - RandomValueOf(5, 2, d[2]))
  }

  /** Whatever the draw, the walk over the audit table stops at an entry. */
  lemma AuditAlwaysChooses(s: GameState, u: Draw)
    ensures exists k: nat :: IsChoice(AuditCandidates(s), u, k)
  {
    PositiveEntryMakesChoice(AuditCandidates(s), u, 4);
  }

  /** The audit outcome picked satisfies its own condition; in particular
      entry 3 is only picked when some citizen's trust is below 50, so its
      effect always has a citizen to work on. */
  lemma AuditChoiceHolds(s: GameState, u: Draw, k: nat)
    requires IsChoice(AuditCandidates(s), u, k)
    ensures
      && k < 6
      && (k == 0 ==> s.efficiency < 40)
      && (k == 1 ==> s.leadership > 70 && s.responsibility > 60)
      && (k == 2 ==> s.resources.budget < |s.citizens| * 4)
      && (k == 3 ==> FindLowTrust(s.citizens).Some?)
      && (k == 5 ==> s.order < 40 || s.productivity < 40)
  {}

  /** In the state a new game starts from, only the default entry of the
      audit table applies, so every draw picks it. */
  lemma InitialAuditIsDefault(today: string, u: Draw)
    ensures IsChoice(AuditCandidates(InitialState(today)), u, 4)
  {
    var s := InitialState(today);
    assert FindLowTrust(s.citizens).None?;
    LoneCandidateChosen(AuditCandidates(s), u, 4);
  }

  // ----- daily events (today-game.js:1334-1365) -----

  /** The entries of `weightedDailyEvents`, in order. */
  datatype DailyEvent =
    | BudgetAudit | CitizenComplaint | ConstructionProject | ResourceShortage | CitizenDispute
    | NewCitizen | ExternalInvestment | PolicyFailure | LeadershipCrisis

  const DailyEvents: seq<DailyEvent> := [
    BudgetAudit, CitizenComplaint, ConstructionProject, ResourceShortage, CitizenDispute,
    NewCitizen, ExternalInvestment, PolicyFailure, LeadershipCrisis ]

  /** The scenario id of an event. */
  function EventId(e: DailyEvent): string
  {
    match e
    case BudgetAudit => "daily_event_budget_audit"
    case CitizenComplaint => "daily_event_citizen_complaint"
    case ConstructionProject => "daily_event_construction_project"
    case ResourceShortage => "daily_event_resource_shortage"
    case CitizenDispute => "daily_event_citizen_dispute"
    case NewCitizen => "daily_event_new_citizen"
    case ExternalInvestment => "daily_event_external_investment"
    case PolicyFailure => "daily_event_policy_failure"
    case LeadershipCrisis => "daily_event_leadership_crisis"
  }

  /** The conditions and weights of `weightedDailyEvents`. */
  function DailyEventCandidates(s: GameState): (r: seq<Candidate>)
    ensures |r| == |DailyEvents| == |DailyEventDrawCounts| && forall k :: 0 <= k < |r| ==> r[k].weight > 0
    ensures r[0].applicable && r[1].applicable && r[2].applicable && r[3].applicable && r[7].applicable
  {
    [ Candidate(true, 10),
      Candidate(true, 10),
      Candidate(true, 15),
      Candidate(true, 7),
      Candidate(|s.citizens| >= 2, 15),
      Candidate(s.infrastructure.cityHall.built && |s.citizens| < s.maxCitizens, 10),
      Candidate(s.infrastructure.cityHall.built, 10),
      Candidate(true, 15),
      Candidate(s.leadership < 50, 12) ]
  }

  /** How many draws each event's `onTrigger` takes. */
  const DailyEventDrawCounts: seq<nat> := [1, 1, 0, 1, 0, 3, 0, 2, 0]

  /** The state an event's `onTrigger` leaves, before the rollover writes the
      event id: a budget, order or materials loss floored at 0, a newcomer
      waiting to be welcomed (its id is a parameter), a leadership and
      responsibility loss floored at 0, or nothing. */
  function DailyEventEffect(s: GameState, k: nat, d: seq<Draw>, newcomerId: string): (r: GameState)
    requires k < |DailyEvents| && |d| >= DailyEventDrawCounts[k]
    ensures r == s.(resources := s.resources.(budget := r.resources.budget, materials := r.resources.materials),
                    order := r.order, leadership := r.leadership, responsibility := r.responsibility,
                    pendingNewCitizen := r.pendingNewCitizen)
    ensures k == 0 ==> (r == s.(resources := s.resources.(budget := r.resources.budget))
                        && Between(r.resources.budget, Max(0, s.resources.budget - 15), Max(0, s.resources.budget - 5)))
    ensures k == 1 ==> (r == s.(order := r.order) && Between(r.order, Max(0, s.order - 15), Max(0, s.order - 5)))
    ensures k == 3 ==> (r == s.(resources := s.resources.(materials := r.resources.materials))
                        && Between(r.resources.materials, Max(0, s.resources.materials - 15), Max(0, s.resources.materials - 5)))
    ensures k == 5 ==> (r == s.(pendingNewCitizen := r.pendingNewCitizen)
                        && r.pendingNewCitizen.Some? && r.pendingNewCitizen.value.id == newcomerId
                        && r.pendingNewCitizen.value.trust == 50)
    ensures k == 7 ==> (r == s.(leadership := r.leadership, responsibility := r.responsibility)
                        && Between(r.leadership, Max(0, s.leadership - 15), Max(0, s.leadership - 5))
                        && Between(r.responsibility, Max(0, s.responsibility - 7), Max(0, s.responsibility - 3)))
    ensures (k == 2 || k == 4 || k == 6 || k == 8) ==> r == s
  {
    match DailyEvents[k]
    case BudgetAudit =>
      s.(resources := s.resources.(budget := Max(0, s.resources.budget - RandomValueOf(10, 5, d[0]))))
    case CitizenComplaint =>
      s.(order := Max(0, s.order - RandomValueOf(10, 5, d[0])))
    case ResourceShortage =>
      s.(resources := s.resources.(materials := Max(0, s.resources.materials - RandomValueOf(10, 5, d[0]))))
    case NewCitizen =>
      s.(pendingNewCitizen := Some(RandomCitizen(newcomerId, d)))
    case PolicyFailure =>
      s.(leadership := Max(0, s.leadership - RandomValueOf(10, 5, d[0])),
         responsibility := Max(0, s.responsibility - RandomValueOf(5, 2, d[1])))
    case _ => s
  }

  /** The prefix of the scenario ids the game-over check writes. */
  const GameOverPrefix: string := "game_over_"

  /** Whether a scenario id is one of the final game-over scenarios. */
  predicate IsGameOverId(id: string)
  {
    |id| >= |GameOverPrefix| && id[..|GameOverPrefix|] == GameOverPrefix
  }

  /** Whatever the draw, the walk over the daily event table stops at an entry. */
  lemma DailyEventAlwaysChooses(s: GameState, u: Draw)
    ensures exists k: nat :: IsChoice(DailyEventCandidates(s), u, k)
  {
    PositiveEntryMakesChoice(DailyEventCandidates(s), u, 0);
  }

  /** The event drawn satisfies its condition
      (a dispute needs two citizens, a newcomer a city hall and room, an
      investment a city hall, a crisis leadership below 50). */
  lemma DailyEventChoiceHolds(s: GameState, u: Draw, k: nat)
    requires IsChoice(DailyEventCandidates(s), u, k)
    ensures
      && k < |DailyEvents|
      && (DailyEvents[k] == CitizenDispute ==> |s.citizens| >= 2)
      && (DailyEvents[k] == NewCitizen ==> s.infrastructure.cityHall.built && |s.citizens| < s.maxCitizens)
      && (DailyEvents[k] == ExternalInvestment ==> s.infrastructure.cityHall.built)
      && (DailyEvents[k] == LeadershipCrisis ==> s.leadership < 50)
  {}

  /** No event id is a game-over id or "intro", so the id the rollover writes
      last always replaces whatever the game-over check wrote. */
  lemma EventIdsAreNotFinal(e: DailyEvent)
    ensures !IsGameOverId(EventId(e)) && EventId(e) != "intro"
  {
    assert EventId(e)[0] == 'd';
  }

  /** The names, personalities and skills a newcomer is drawn from. */
  const NewcomerNames: seq<string> := ["존", "메리", "피터", "수잔", "마이클"]
  const NewcomerPersonalities: seq<string> := ["성실한", "비판적인", "협력적인", "독립적인"]
  const NewcomerSkills: seq<string> := [SkillAdministration, SkillConstruction, SkillProduction]

  /** `generateRandomCitizen` (today-game.js:1318-1331) with its three draws;
      the id, which the source takes from `Math.random`, is a parameter. */
  function RandomCitizen(id: string, d: seq<Draw>): (c: Citizen)
    requires |d| >= 3
    ensures c.id == id && c.trust == 50
    ensures c.name in NewcomerNames && c.personality in NewcomerPersonalities && c.skill in NewcomerSkills
  {
    IndexIsFloor(d[0], 5);
    IndexIsFloor(d[1], 4);
    IndexIsFloor(d[2], 3);
    Citizen(id, NewcomerNames[IndexOf(d[0], 5)], NewcomerPersonalities[IndexOf(d[1], 4)],
            NewcomerSkills[IndexOf(d[2], 3)], 50)
  }
}
