/** The effects of the `gameActions` handlers that do not go through an
    outcome table (today-game.js:878-1217), of a finished minigame
    (today-game.js:684-695, 711-791), and the pure parts of the rollover
    (today-game.js:1386-1420).

    As in Outcomes, an effect takes the state the handler finds once its
    action point is spent, and the draws its `getRandomValue` calls take in
    call order, and it gives the state the handler leaves. Every change a
    handler merges is a number, a string, a boolean, null, an array, or an
    object (`resources`, `dailyActions`, `dailyBonus`) that names every
    field of the one it replaces, so the merge is a plain record update. */
module Handlers {
  import opened Random
  import opened Selection
  import opened State
  import opened Outcomes
  import opened Minigame

  /** The scenario ids the handlers move to. */
  const IntroScenario: string := "intro"
  const DisputeResultScenario: string := "citizen_dispute_resolution_result"
  const ProjectResultScenario: string := "project_management_result"
  const PolicyMenuScenario: string := "policy_review_menu"
  const ResourceMenuScenario: string := "action_resource_collection"
  const InfrastructureMenuScenario: string := "action_infrastructure_management"

  // ----- the citizen dispute (today-game.js:878-922) -----

  /** The number of citizens with the given id. */
  function CountId(cs: seq<Citizen>, id: string): nat
  {
    if |cs| == 0 then 0
    else CountId(cs[..|cs| - 1], id) + (if cs[|cs| - 1].id == id then 1 else 0)
  }

  /** The citizens after the dispute's map: whoever carries the first id
      gains trust, whoever else carries the second id loses some. When the
      two ids differ this is a raise followed by a lowering; when they are
      the same, only the raise happens. */
  function DisputeTrust(cs: seq<Citizen>, first: string, second: string, gain: int, loss: int): (r: seq<Citizen>)
    ensures first != second ==> r == LowerTrust(RaiseTrust(cs, first, gain), second, loss)
    ensures first == second ==> r == RaiseTrust(cs, first, gain)
  {
    seq(|cs|, i requires 0 <= i < |cs| =>
      if cs[i].id == first then cs[i].(trust := Min(100, cs[i].trust + gain))
      else if cs[i].id == second then cs[i].(trust := Max(0, cs[i].trust - loss))
      else cs[i])
  }

  /** n copies of a gain in [lo, hi] add up to between n lo and n hi. */
  lemma ScaledBetween(n: nat, x: int, lo: int, hi: int)
    requires lo <= x <= hi
    ensures n * lo <= n * x <= n * hi
  {
    if n > 0 {
      MulMonotone(lo, x, n);
      MulMonotone(x, hi, n);
    }
  }

  /** `handle_citizen_dispute` after the spend, with its four draws (trust
      gain, trust loss, efficiency gain, leadership gain). The reward record
      it merges starts at zero for efficiency, order and leadership and
      replaces those stats: efficiency and leadership become the gains
      times the number of citizens with the first id, and order becomes 0. */
  function DisputeResolved(s: GameState, first: string, second: string, d: seq<Draw>): (r: GameState)
    requires |d| >= 4
    ensures r == s.(efficiency := r.efficiency, order := r.order, leadership := r.leadership,
                    citizens := r.citizens, currentScenarioId := DisputeResultScenario)
    ensures r.order == 0
    ensures var n := CountId(s.citizens, first);
      Between(r.efficiency, 3 * n, 7 * n) && Between(r.leadership, 3 * n, 7 * n)
    ensures |r.citizens| == |s.citizens|
    ensures forall i :: 0 <= i < |s.citizens| ==>
      var c := s.citizens[i];
      && r.citizens[i].(trust := c.trust) == c
      && (c.id == first ==> Between(r.citizens[i].trust, Min(100, c.trust + 7), Min(100, c.trust + 13)))
      && (c.id != first && c.id == second ==> Between(r.citizens[i].trust, Max(0, c.trust - 7), Max(0, c.trust - 3)))
      && (c.id != first && c.id != second ==> r.citizens[i].trust == c.trust)
  {
    var n := CountId(s.citizens, first);
    var effGain := RandomValueOf(5, 2, d[2]);
    var leadGain := RandomValueOf(5, 2, d[3]);
    ScaledBetween(n, effGain, 3, 7);
    ScaledBetween(n, leadGain, 3, 7);
    s.(efficiency := n * effGain, order := 0, leadership := n * leadGain,
       citizens := DisputeTrust(s.citizens, first, second, RandomValueOf(10, 3, d[0]), RandomValueOf(5, 2, d[1])),
       currentScenarioId := DisputeResultScenario)
  }

  /** `mediate_citizen_dispute` after the spend: order, productivity and
      leadership rise. */
  function DisputeMediated(s: GameState, d: seq<Draw>): (r: GameState)
    requires |d| >= 3
    ensures r == s.(order := r.order, productivity := r.productivity, leadership := r.leadership,
                    currentScenarioId := DisputeResultScenario)
    ensures Between(r.order, s.order + 7, s.order + 13)
    ensures Between(r.productivity, s.productivity + 3, s.productivity + 7)
    ensures Between(r.leadership, s.leadership + 3, s.leadership + 7)
  {
    s.(order := s.order + RandomValueOf(10, 3, d[0]),
       productivity := s.productivity + RandomValueOf(5, 2, d[1]),
       leadership := s.leadership + RandomValueOf(5, 2, d[2]),
       currentScenarioId := DisputeResultScenario)
  }

  /** `ignore_event` after the spend: order and productivity fall, and every
      citizen loses 5 trust, floored at 0. */
  function DisputeIgnored(s: GameState, d: seq<Draw>): (r: GameState)
    requires |d| >= 2
    ensures r == s.(order := r.order, productivity := r.productivity, citizens := r.citizens,
                    currentScenarioId := DisputeResultScenario)
    ensures Between(r.order, s.order - 13, s.order - 7)
    ensures Between(r.productivity, s.productivity - 7, s.productivity - 3)
    ensures |r.citizens| == |s.citizens|
    ensures forall i :: 0 <= i < |s.citizens| ==>
      && r.citizens[i].(trust := s.citizens[i].trust) == s.citizens[i]
      && r.citizens[i].trust == Max(0, s.citizens[i].trust - 5)
  {
    s.(order := s.order - RandomValueOf(10, 3, d[0]),
       productivity := s.productivity - RandomValueOf(5, 2, d[1]),
       citizens := seq(|s.citizens|, i requires 0 <= i < |s.citizens| =>
                     s.citizens[i].(trust := Max(0, s.citizens[i].trust - 5))),
       currentScenarioId := DisputeResultScenario)
  }

  // ----- projects and leadership (today-game.js:923-968) -----

  /** The draws `manage_project_efficiently` and `assert_leadership` take:
      two when a point is left after the spend, none otherwise. */
  function ExtraPointDraws(s: GameState): nat
  {
    if s.actionPoints >= 1 then 2 else 0
  }

  /** `manage_project_efficiently` after the spend: with a second point to
      pay, efficiency and productivity rise and that point is taken;
      without one only the scenario changes. */
  function ProjectManaged(s: GameState, d: seq<Draw>): (r: GameState)
    requires |d| >= ExtraPointDraws(s)
    ensures s.actionPoints >= 1 ==>
      && r == s.(efficiency := r.efficiency, productivity := r.productivity,
                 actionPoints := s.actionPoints - 1, currentScenarioId := ProjectResultScenario)
      && Between(r.efficiency, s.efficiency + 7, s.efficiency + 13)
      && Between(r.productivity, s.productivity + 3, s.productivity + 7)
    ensures s.actionPoints < 1 ==> r == s.(currentScenarioId := ProjectResultScenario)
  {
    if s.actionPoints >= 1 then
      s.(efficiency := s.efficiency + RandomValueOf(10, 3, d[0]),
         productivity := s.productivity + RandomValueOf(5, 2, d[1]),
         actionPoints := s.actionPoints - 1,
         currentScenarioId := ProjectResultScenario)
    else
      s.(currentScenarioId := ProjectResultScenario)
  }

  /** `delegate_project` after the spend: efficiency and order fall. */
  function ProjectDelegated(s: GameState, d: seq<Draw>): (r: GameState)
    requires |d| >= 2
    ensures r == s.(efficiency := r.efficiency, order := r.order, currentScenarioId := ProjectResultScenario)
    ensures Between(r.efficiency, s.efficiency - 13, s.efficiency - 7)
    ensures Between(r.order, s.order - 7, s.order - 3)
  {
    s.(efficiency := s.efficiency - RandomValueOf(10, 3, d[0]),
       order := s.order - RandomValueOf(5, 2, d[1]),
       currentScenarioId := ProjectResultScenario)
  }

  /** `assert_leadership` after the spend: with a second point to pay,
      leadership and responsibility rise and that point is taken; the
      scenario returns to the intro either way. */
  function LeadershipAsserted(s: GameState, d: seq<Draw>): (r: GameState)
    requires |d| >= ExtraPointDraws(s)
    ensures s.actionPoints >= 1 ==>
      && r == s.(leadership := r.leadership, responsibility := r.responsibility,
                 actionPoints := s.actionPoints - 1, currentScenarioId := IntroScenario)
      && Between(r.leadership, s.leadership + 7, s.leadership + 13)
      && Between(r.responsibility, s.responsibility + 3, s.responsibility + 7)
    ensures s.actionPoints < 1 ==> r == s.(currentScenarioId := IntroScenario)
  {
    if s.actionPoints >= 1 then
      s.(leadership := s.leadership + RandomValueOf(10, 3, d[0]),
         responsibility := s.responsibility + RandomValueOf(5, 2, d[1]),
         actionPoints := s.actionPoints - 1,
         currentScenarioId := IntroScenario)
    else
      s.(currentScenarioId := IntroScenario)
  }

  /** `seek_citizen_input` after the spend: leadership and order fall. */
  function CitizenInputSought(s: GameState, d: seq<Draw>): (r: GameState)
    requires |d| >= 2
    ensures r == s.(leadership := r.leadership, order := r.order, currentScenarioId := IntroScenario)
    ensures Between(r.leadership, s.leadership - 13, s.leadership - 7)
    ensures Between(r.order, s.order - 7, s.order - 3)
  {
    s.(leadership := s.leadership - RandomValueOf(10, 3, d[0]),
       order := s.order - RandomValueOf(5, 2, d[1]),
       currentScenarioId := IntroScenario)
  }

  // ----- the newcomer (today-game.js:969-1012) -----

  /** Whether `welcome_new_unique_citizen` can take the newcomer in. */
  predicate CanWelcome(s: GameState)
  {
    |s.citizens| < s.maxCitizens && s.pendingNewCitizen.Some?
  }

  function WelcomeDraws(s: GameState): nat
  {
    if CanWelcome(s) then 3 else 0
  }

  /** `welcome_new_unique_citizen` after the spend: with room and a newcomer
      waiting, the newcomer joins at the end of the citizens, efficiency,
      order and productivity rise, and nobody is waiting any more;
      otherwise only the scenario changes (a waiting newcomer stays). */
  function NewcomerWelcomed(s: GameState, d: seq<Draw>): (r: GameState)
    requires |d| >= WelcomeDraws(s)
    ensures CanWelcome(s) ==>
      && r == s.(citizens := s.citizens + [s.pendingNewCitizen.value], pendingNewCitizen := None,
                 efficiency := r.efficiency, order := r.order, productivity := r.productivity,
                 currentScenarioId := IntroScenario)
      && |r.citizens| <= r.maxCitizens
      && Between(r.efficiency, s.efficiency + 7, s.efficiency + 13)
      && Between(r.order, s.order + 3, s.order + 7)
      && Between(r.productivity, s.productivity + 3, s.productivity + 7)
    ensures !CanWelcome(s) ==> r == s.(currentScenarioId := IntroScenario)
  {
    if CanWelcome(s) then
      s.(efficiency := s.efficiency + RandomValueOf(10, 3, d[0]),
         order := s.order + RandomValueOf(5, 2, d[1]),
         productivity := s.productivity + RandomValueOf(5, 2, d[2]),
         citizens := s.citizens + [s.pendingNewCitizen.value],
         pendingNewCitizen := None,
         currentScenarioId := IntroScenario)
    else
      s.(currentScenarioId := IntroScenario)
  }

  /** `observe_citizen` after the spend: a first draw below 0.7 raises
      productivity, any other lowers efficiency; the newcomer leaves. */
  function NewcomerObserved(s: GameState, d: seq<Draw>): (r: GameState)
    requires |d| >= 2
    ensures Below(d[0], 7, 10) ==>
      && r == s.(productivity := r.productivity, pendingNewCitizen := None, currentScenarioId := IntroScenario)
      && Between(r.productivity, s.productivity + 3, s.productivity + 7)
    ensures !Below(d[0], 7, 10) ==>
      && r == s.(efficiency := r.efficiency, pendingNewCitizen := None, currentScenarioId := IntroScenario)
      && Between(r.efficiency, s.efficiency - 7, s.efficiency - 3)
  {
    var t := s.(pendingNewCitizen := None, currentScenarioId := IntroScenario);
    if Below(d[0], 7, 10) then t.(productivity := s.productivity + RandomValueOf(5, 2, d[1]))
    else t.(efficiency := s.efficiency - RandomValueOf(5, 2, d[1]))
  }

  /** `reject_citizen` after the spend: efficiency, order and productivity
      fall, and the newcomer leaves. */
  function NewcomerRejected(s: GameState, d: seq<Draw>): (r: GameState)
    requires |d| >= 3
    ensures r == s.(efficiency := r.efficiency, order := r.order, productivity := r.productivity,
                    pendingNewCitizen := None, currentScenarioId := IntroScenario)
    ensures Between(r.efficiency, s.efficiency - 13, s.efficiency - 7)
    ensures Between(r.order, s.order - 7, s.order - 3)
    ensures Between(r.productivity, s.productivity - 7, s.productivity - 3)
  {
    s.(efficiency := s.efficiency - RandomValueOf(10, 3, d[0]),
       order := s.order - RandomValueOf(5, 2, d[1]),
       productivity := s.productivity - RandomValueOf(5, 2, d[2]),
       pendingNewCitizen := None,
       currentScenarioId := IntroScenario)
  }

  // ----- the investment offer (today-game.js:1013-1031) -----

  /** `accept_investment` after the spend: with a budget of 50 or more the
      offer trades 50 budget for 5 administration; the scenario returns to
      the intro either way. (The gain it draws only feeds a key the state
      does not have; see the README.) */
  function InvestmentAccepted(s: GameState): (r: GameState)
    ensures s.resources.budget >= 50 ==>
      r == s.(resources := s.resources.(budget := s.resources.budget - 50,
                                        administration := s.resources.administration + 5),
              currentScenarioId := IntroScenario)
    ensures s.resources.budget < 50 ==> r == s.(currentScenarioId := IntroScenario)
    ensures r.resources.budget >= 0 || r.resources == s.resources
  {
    var t := s.(currentScenarioId := IntroScenario);
    if s.resources.budget >= 50 then
      t.(resources := s.resources.(budget := s.resources.budget - 50,
                                   administration := s.resources.administration + 5))
    else t
  }

  // ----- resources (today-game.js:1035-1076) -----

  /** The bag with one counter raised. */
  function AddTo(r: Resources, k: ResourceKind, x: int): (r': Resources)
    ensures Amount(r', k) == Amount(r, k) + x
    ensures forall j :: j != k ==> Amount(r', j) == Amount(r, j)
  {
    match k
    case Budget => r.(budget := r.budget + x)
    case Materials => r.(materials := r.materials + x)
    case Labor => r.(labor := r.labor + x)
    case Administration => r.(administration := r.administration + x)
  }

  /** The chance of a resource collection, in percent:
      `Math.min(0.95, 0.6 + cityLevel * 0.1 + managementSuccess)` with the
      bonus counted in tenths, floored at 0 (a draw is never below a
      negative chance). */
  function CollectChance(cityLevel: int, bonusTenths: int): (p: nat)
    ensures p <= 95
    ensures cityLevel == 0 && 0 <= bonusTenths <= 3 ==> p == 60 + 10 * bonusTenths
  {
    Max(0, Min(95, 60 + 10 * cityLevel + 10 * bonusTenths))
  }

  /** Whether a collection with the draw u succeeds. */
  predicate CollectSucceeds(s: GameState, u: Draw)
  {
    Below(u, CollectChance(s.cityLevel, s.managementBonus), 100)
  }

  /** A successful `collect_budget`, `collect_materials` or `collect_labor`
      after the spend, with the draw of the gain: only the collected counter
      changes, by 3 to 7. */
  function Collected(s: GameState, k: ResourceKind, g: Draw): (r: GameState)
    requires k != Administration
    ensures r == s.(resources := r.resources)
    ensures Between(Amount(r.resources, k), Amount(s.resources, k) + 3, Amount(s.resources, k) + 7)
    ensures forall j :: j != k ==> Amount(r.resources, j) == Amount(s.resources, j)
  {
    s.(resources := AddTo(s.resources, k, RandomValueOf(5, 2, g)))
  }

  // ----- infrastructure (today-game.js:1077-1173) -----

  /** What a facility costs to build. */
  function BuildCost(f: Facility): Cost
  {
    match f
    case Warehouse => map[Budget := 50, Materials := 20]
    case Factory => map[Materials := 30, Labor := 30]
    case CityHall => map[Budget := 100, Materials := 50, Labor := 50]
    case PlanningDept => map[Materials := 80, Labor := 40]
    case ResearchInstitute => map[Materials := 50, Labor := 100]
  }

  /** How many draws a build takes. */
  function BuildDraws(f: Facility): nat
  {
    match f
    case Warehouse => 1
    case Factory => 1
    case CityHall => 2
    case PlanningDept => 2
    case ResearchInstitute => 0
  }

  /** A successful `build_*` after the spend: the facility is built (its
      durability as it was), its cost is paid, and it grants its stats: a
      warehouse productivity, a factory efficiency, a city hall order and
      leadership, a planning department leadership and efficiency, a
      research institute nothing. No other facility and no other stat
      changes. */
  function FacilityBuilt(s: GameState, f: Facility, d: seq<Draw>): (r: GameState)
    requires |d| >= BuildDraws(f)
    ensures r == s.(resources := Deduct(s.resources, BuildCost(f)),
                    infrastructure := s.infrastructure.With(f, Infra(true, s.infrastructure.Get(f).durability)),
                    efficiency := r.efficiency, order := r.order, productivity := r.productivity,
                    leadership := r.leadership)
    ensures f == Warehouse ==>
      Between(r.productivity, s.productivity + 7, s.productivity + 13)
      && r.efficiency == s.efficiency && r.order == s.order && r.leadership == s.leadership
    ensures f == Factory ==>
      Between(r.efficiency, s.efficiency + 7, s.efficiency + 13)
      && r.productivity == s.productivity && r.order == s.order && r.leadership == s.leadership
    ensures f == CityHall ==>
      Between(r.order, s.order + 15, s.order + 25) && Between(r.leadership, s.leadership + 15, s.leadership + 25)
      && r.efficiency == s.efficiency && r.productivity == s.productivity
    ensures f == PlanningDept ==>
      Between(r.leadership, s.leadership + 10, s.leadership + 20) && Between(r.efficiency, s.efficiency + 7, s.efficiency + 13)
      && r.productivity == s.productivity && r.order == s.order
    ensures f == ResearchInstitute ==>
      r.efficiency == s.efficiency && r.productivity == s.productivity && r.order == s.order && r.leadership == s.leadership
  {
    var t := s.(resources := Deduct(s.resources, BuildCost(f)),
                infrastructure := s.infrastructure.With(f, s.infrastructure.Get(f).(built := true)));
    match f
    case Warehouse => t.(productivity := s.productivity + RandomValueOf(10, 3, d[0]))
    case Factory => t.(efficiency := s.efficiency + RandomValueOf(10, 3, d[0]))
    case CityHall => t.(order := s.order + RandomValueOf(20, 5, d[0]), leadership := s.leadership + RandomValueOf(20, 5, d[1]))
    case PlanningDept => t.(leadership := s.leadership + RandomValueOf(15, 5, d[0]), efficiency := s.efficiency + RandomValueOf(10, 3, d[1]))
    case ResearchInstitute => t
  }

  /** Paying for a build the handler let through leaves no counter it
      charges below zero: the test before building is exactly Affordable. */
  lemma BuildLeavesNoDebt(s: GameState, f: Facility, d: seq<Draw>)
    requires |d| >= BuildDraws(f) && Affordable(s.resources, BuildCost(f))
    ensures forall k :: k in BuildCost(f) ==> Amount(FacilityBuilt(s, f, d).resources, k) >= 0
  {
    DeductAffordable(s.resources, BuildCost(f));
  }

  /** What a repair costs, for any facility. */
  const MaintenanceCost: Cost := map[Materials := 10, Labor := 10]

  /** A paid `maintain_infrastructure` after the spend: the facility's
      durability is back at 100 and 10 materials and 10 labor are paid. The
      built flag is left as it is, so a facility that broke stays unbuilt. */
  function FacilityMaintained(s: GameState, f: Facility): (r: GameState)
    ensures r == s.(resources := r.resources, infrastructure := r.infrastructure)
    ensures r.resources == s.resources.(materials := s.resources.materials - 10, labor := s.resources.labor - 10)
    ensures r.infrastructure.Get(f) == Infra(s.infrastructure.Get(f).built, 100)
    ensures forall g :: g != f ==> r.infrastructure.Get(g) == s.infrastructure.Get(g)
  {
    s.(resources := Deduct(s.resources, MaintenanceCost),
       infrastructure := s.infrastructure.With(f, s.infrastructure.Get(f).(durability := 100)))
  }

  // ----- policy review (today-game.js:1174-1217) -----

  /** How many gain draws `allocate_budget` takes after its first draw u. */
  function AllocateDraws(u: Draw): nat
  {
    if Below(u, 1, 10) then 3 else if Below(u, 7, 10) then 1 else 0
  }

  /** `allocate_budget` after the spend: below 0.1 a large gain of budget,
      materials and labor; below 0.4 an order gain; below 0.7 an order loss;
      otherwise nothing. The policy menu is shown again. */
  function BudgetAllocated(s: GameState, d: seq<Draw>): (r: GameState)
    requires |d| >= 1 && |d| >= 1 + AllocateDraws(d[0])
    ensures Below(d[0], 1, 10) ==>
      && r == s.(resources := s.resources.(budget := r.resources.budget, materials := r.resources.materials,
                                           labor := r.resources.labor),
                 currentScenarioId := PolicyMenuScenario)
      && Between(r.resources.budget, s.resources.budget + 20, s.resources.budget + 40)
      && Between(r.resources.materials, s.resources.materials + 15, s.resources.materials + 25)
      && Between(r.resources.labor, s.resources.labor + 10, s.resources.labor + 20)
    ensures !Below(d[0], 1, 10) && Below(d[0], 4, 10) ==>
      r == s.(order := r.order, currentScenarioId := PolicyMenuScenario) && Between(r.order, s.order + 5, s.order + 15)
    ensures !Below(d[0], 4, 10) && Below(d[0], 7, 10) ==>
      r == s.(order := r.order, currentScenarioId := PolicyMenuScenario) && Between(r.order, s.order - 7, s.order - 3)
    ensures !Below(d[0], 7, 10) ==> r == s.(currentScenarioId := PolicyMenuScenario)
  {
    var t := s.(currentScenarioId := PolicyMenuScenario);
    if Below(d[0], 1, 10) then
      t.(resources := s.resources.(budget := s.resources.budget + RandomValueOf(30, 10, d[1]),
                                   materials := s.resources.materials + RandomValueOf(20, 5, d[2]),
                                   labor := s.resources.labor + RandomValueOf(15, 5, d[3])))
    else if Below(d[0], 4, 10) then t.(order := s.order + RandomValueOf(10, 5, d[1]))
    else if Below(d[0], 7, 10) then t.(order := s.order - RandomValueOf(5, 2, d[1]))
    else t
  }

  /** The four bands of `allocate_budget` are the source's: the first draw
      as a real number in [0, 1) is compared with 0.1, 0.4 and 0.7, and the
      bands are nested, so exactly one of them applies. */
  lemma AllocateBandsNested(u: Draw)
    ensures Below(u, 1, 10) ==> Below(u, 4, 10)
    ensures Below(u, 4, 10) ==> Below(u, 7, 10)
    ensures Below(u, 1, 10) <==> (u as real) / (TwoTo32 as real) < 0.1
    ensures Below(u, 7, 10) <==> (u as real) / (TwoTo32 as real) < 0.7
  {
    BelowIsRealComparison(u, 1, 10);
    BelowIsRealComparison(u, 7, 10);
  }

  /** How many gain draws `optimize_process` takes after its first draw u. */
  function OptimizeDraws(u: Draw): nat
  {
    if Below(u, 6, 10) then 1 else 0
  }

  /** `optimize_process` after the spend: below 0.2 an administration gain,
      below 0.6 a materials gain, otherwise nothing. The policy menu is
      shown again. */
  function ProcessOptimized(s: GameState, d: seq<Draw>): (r: GameState)
    requires |d| >= 1 && |d| >= 1 + OptimizeDraws(d[0])
    ensures Below(d[0], 2, 10) ==>
      && r == s.(resources := s.resources.(administration := r.resources.administration),
                 currentScenarioId := PolicyMenuScenario)
      && Between(r.resources.administration, s.resources.administration + 2, s.resources.administration + 4)
    ensures !Below(d[0], 2, 10) && Below(d[0], 6, 10) ==>
      && r == s.(resources := s.resources.(materials := r.resources.materials),
                 currentScenarioId := PolicyMenuScenario)
      && Between(r.resources.materials, s.resources.materials + 5, s.resources.materials + 15)
    ensures !Below(d[0], 6, 10) ==> r == s.(currentScenarioId := PolicyMenuScenario)
  {
    var t := s.(currentScenarioId := PolicyMenuScenario);
    if Below(d[0], 2, 10) then
      t.(resources := s.resources.(administration := s.resources.administration + RandomValueOf(3, 1, d[1])))
    else if Below(d[0], 6, 10) then
      t.(resources := s.resources.(materials := s.resources.materials + RandomValueOf(10, 5, d[1])))
    else t
  }

  // ----- the end of a minigame (today-game.js:684-695, 711-791) -----

  /** A minigame's `end`: the reward for the name and score is added to the
      five stats, the scenario returns to the intro and the minigame state
      is emptied. No stat falls, and none rises by more than the reward
      table's largest entry. */
  function MinigameEnded(s: GameState, name: string, score: int): (r: GameState)
    ensures r == s.(efficiency := r.efficiency, order := r.order, productivity := r.productivity,
                    leadership := r.leadership, responsibility := r.responsibility,
                    currentScenarioId := IntroScenario, minigame := NoMinigame)
    ensures Between(r.efficiency, s.efficiency, s.efficiency + 15)
    ensures Between(r.order, s.order, s.order + 10)
    ensures Between(r.productivity, s.productivity, s.productivity + 5)
    ensures Between(r.leadership, s.leadership, s.leadership + 5)
    ensures Between(r.responsibility, s.responsibility, s.responsibility + 2)
    ensures var w := MinigameReward(name, score);
      && r.efficiency == s.efficiency + w.efficiency && r.order == s.order + w.order
      && r.productivity == s.productivity + w.productivity && r.leadership == s.leadership + w.leadership
      && r.responsibility == s.responsibility + w.responsibility
  {
    var w := MinigameReward(name, score);
    RewardBounded(name, score);
    s.(efficiency := s.efficiency + w.efficiency, order := s.order + w.order,
       productivity := s.productivity + w.productivity, leadership := s.leadership + w.leadership,
       responsibility := s.responsibility + w.responsibility,
       currentScenarioId := IntroScenario, minigame := NoMinigame)
  }

  /** A placeholder game's `end` writes only two stats, and adding all five
      of its rewards changes no other: the budget game raises order and
      responsibility, the process game efficiency and productivity, the quiz
      responsibility and order, the puzzle productivity and efficiency. */
  lemma PlaceholderEndTouchesTwoStats(s: GameState, index: nat, score: int)
    requires 1 <= index < |MinigameNames|
    ensures var r := MinigameEnded(s, MinigameNames[index], score);
      && r.leadership == s.leadership
      && ((index == 1 || index == 3) ==> r.efficiency == s.efficiency && r.productivity == s.productivity)
      && ((index == 2 || index == 4) ==> r.order == s.order && r.responsibility == s.responsibility)
  {
    PlaceholderRewardsOnlyTheirStats(index, score, score);
  }

  // ----- applyStatEffects (today-game.js:1238-1316) -----

  /** The draws the efficiency rule takes. */
  function EfficiencyRuleDraws(s: GameState): nat
  {
    if s.efficiency < 30 then 1 else 0
  }

  /** High efficiency (70 or more) adds a tenth to the collection bonus; low
      efficiency (below 30) costs some order, floored at 0. */
  function EfficiencyRule(s: GameState, d: seq<Draw>): (r: GameState)
    requires |d| >= EfficiencyRuleDraws(s)
    ensures s.efficiency >= 70 ==> r == s.(managementBonus := s.managementBonus + 1)
    ensures s.efficiency < 30 ==>
      r == s.(order := r.order) && Between(r.order, Max(0, s.order - 7), Max(0, s.order - 3))
    ensures 30 <= s.efficiency < 70 ==> r == s
  {
    if s.efficiency >= 70 then s.(managementBonus := s.managementBonus + 1)
    else if s.efficiency < 30 then s.(order := Max(0, s.order - RandomValueOf(5, 2, d[0])))
    else s
  }

  /** High order (70 or more) adds an action point to the maximum and fills
      the points up to it; low order (below 30) takes one from the maximum,
      never below 5, and caps the points at the new maximum. Either way the
      points end at or below the maximum. */
  function OrderRule(s: GameState): (r: GameState)
    ensures r == s.(maxActionPoints := r.maxActionPoints, actionPoints := r.actionPoints)
    ensures s.order >= 70 ==> r.maxActionPoints == s.maxActionPoints + 1 && r.actionPoints == r.maxActionPoints
    ensures s.order < 30 ==>
      && r.maxActionPoints == Max(5, s.maxActionPoints - 1)
      && r.actionPoints == Min(s.actionPoints, r.maxActionPoints)
    ensures 30 <= s.order < 70 ==> r == s
    ensures (s.order >= 70 || s.order < 30 || s.actionPoints <= s.maxActionPoints) ==>
      r.actionPoints <= r.maxActionPoints
  {
    if s.order >= 70 then
      s.(maxActionPoints := s.maxActionPoints + 1, actionPoints := s.maxActionPoints + 1)
    else if s.order < 30 then
      var m := Max(5, s.maxActionPoints - 1);
      s.(maxActionPoints := m, actionPoints := Min(s.actionPoints, m))
    else s
  }

  /** The draws the productivity rule takes. */
  function ProductivityRuleDraws(s: GameState): nat
  {
    if s.productivity >= 70 || s.productivity < 30 then 2 else 0
  }

  /** High productivity (70 or more) raises leadership and responsibility,
      capped at 100; low productivity (below 30) lowers both, floored at 0. */
  function ProductivityRule(s: GameState, d: seq<Draw>): (r: GameState)
    requires |d| >= ProductivityRuleDraws(s)
    ensures r == s.(leadership := r.leadership, responsibility := r.responsibility)
    ensures s.productivity >= 70 ==>
      && Between(r.leadership, Min(100, s.leadership + 3), Min(100, s.leadership + 7))
      && Between(r.responsibility, Min(100, s.responsibility + 3), Min(100, s.responsibility + 7))
    ensures s.productivity < 30 ==>
      && Between(r.leadership, Max(0, s.leadership - 7), Max(0, s.leadership - 3))
      && Between(r.responsibility, Max(0, s.responsibility - 7), Max(0, s.responsibility - 3))
    ensures 30 <= s.productivity < 70 ==> r == s
  {
    if s.productivity >= 70 then
      s.(leadership := Min(100, s.leadership + RandomValueOf(5, 2, d[0])),
         responsibility := Min(100, s.responsibility + RandomValueOf(5, 2, d[1])))
    else if s.productivity < 30 then
      s.(leadership := Max(0, s.leadership - RandomValueOf(5, 2, d[0])),
         responsibility := Max(0, s.responsibility - RandomValueOf(5, 2, d[1])))
    else s
  }

  /** The draws the leadership rule takes, given its second draw u (the
      chance of the extra effect): an efficiency draw and u, plus one for
      the extra effect when u is below its chance. */
  function LeadershipRuleDraws(s: GameState, u: Draw): nat
  {
    if s.leadership >= 70 then (if Below(u, 2, 10) then 3 else 2)
    else if s.leadership < 30 then (if Below(u, 1, 10) then 3 else 2)
    else 0
  }

  /** High leadership (70 or more) raises efficiency, capped at 100, and
      with chance 0.2 finds 0 to 2 administration; low leadership (below
      30) lowers efficiency, floored at 0, and with chance 0.1 wastes an
      action point, floored at 0. */
  function LeadershipRule(s: GameState, d: seq<Draw>): (r: GameState)
    requires 30 <= s.leadership < 70 || (|d| >= 2 && |d| >= LeadershipRuleDraws(s, d[1]))
    ensures s.leadership >= 70 ==>
      && r == s.(efficiency := r.efficiency, resources := s.resources.(administration := r.resources.administration))
      && Between(r.efficiency, Min(100, s.efficiency + 3), Min(100, s.efficiency + 7))
      && (Below(d[1], 2, 10) ==>
            Between(r.resources.administration, s.resources.administration, s.resources.administration + 2))
      && (!Below(d[1], 2, 10) ==> r.resources.administration == s.resources.administration)
    ensures s.leadership < 30 ==>
      && r == s.(efficiency := r.efficiency, actionPoints := r.actionPoints)
      && Between(r.efficiency, Max(0, s.efficiency - 7), Max(0, s.efficiency - 3))
      && (Below(d[1], 1, 10) ==> r.actionPoints == Max(0, s.actionPoints - 1))
      && (!Below(d[1], 1, 10) ==> r.actionPoints == s.actionPoints)
    ensures 30 <= s.leadership < 70 ==> r == s
  {
    if s.leadership >= 70 then
      var t := s.(efficiency := Min(100, s.efficiency + RandomValueOf(5, 2, d[0])));
      if Below(d[1], 2, 10) then
        t.(resources := t.resources.(administration := t.resources.administration + RandomValueOf(1, 1, d[2])))
      else t
    else if s.leadership < 30 then
      var t := s.(efficiency := Max(0, s.efficiency - RandomValueOf(5, 2, d[0])));
      if Below(d[1], 1, 10) then t.(actionPoints := Max(0, t.actionPoints - RandomValueOf(1, 0, d[2])))
      else t
    else s
  }

  /** The draws the responsibility rule takes: one per citizen. */
  function ResponsibilityRuleDraws(s: GameState): nat
  {
    if s.responsibility >= 70 || s.responsibility < 30 then |s.citizens| else 0
  }

  /** One citizen's trust under the responsibility rule, with its draw. */
  function TrustUnderResponsibility(responsibility: int, c: Citizen, u: Draw): Citizen
  {
    if responsibility >= 70 then c.(trust := Min(100, c.trust + RandomValueOf(2, 1, u)))
    else if responsibility < 30 then c.(trust := Max(0, c.trust - RandomValueOf(5, 2, u)))
    else c
  }

  /** High responsibility (70 or more) raises every citizen's trust by 1 to
      3, capped at 100; low responsibility (below 30) lowers it by 3 to 7,
      floored at 0; each citizen takes its own draw, in order. */
  function ResponsibilityRule(s: GameState, d: seq<Draw>): (r: GameState)
    requires |d| >= ResponsibilityRuleDraws(s)
    ensures r == s.(citizens := r.citizens)
    ensures |r.citizens| == |s.citizens|
    ensures forall i :: 0 <= i < |s.citizens| ==>
      var c := s.citizens[i];
      && r.citizens[i].(trust := c.trust) == c
      && (s.responsibility >= 70 ==> Between(r.citizens[i].trust, Min(100, c.trust + 1), Min(100, c.trust + 3)))
      && (s.responsibility < 30 ==> Between(r.citizens[i].trust, Max(0, c.trust - 7), Max(0, c.trust - 3)))
    ensures 30 <= s.responsibility < 70 ==> r == s
  {
    if 30 <= s.responsibility < 70 then s
    else
      s.(citizens := seq(|s.citizens|, i requires 0 <= i < |s.citizens| =>
                       TrustUnderResponsibility(s.responsibility, s.citizens[i], d[i])))
  }

  /** Whether four runs of draws are enough for the rules in turn: the
      efficiency and productivity rules' draws, the leadership rule's and
      the responsibility rule's, each for the state the rules before it
      leave. */
  predicate StatEffectsFit(s: GameState, d1: seq<Draw>, d2: seq<Draw>, d3: seq<Draw>, d4: seq<Draw>)
  {
    && |d1| >= EfficiencyRuleDraws(s)
    && |d2| >= ProductivityRuleDraws(s)
    && var b := ProductivityRule(OrderRule(EfficiencyRule(s, d1)), d2);
       && (30 <= b.leadership < 70 || (|d3| >= 2 && |d3| >= LeadershipRuleDraws(b, d3[1])))
       && |d4| >= ResponsibilityRuleDraws(LeadershipRule(b, d3))
  }

  /** `applyStatEffects` as a whole: the five rules in the source's order,
      each reading what the ones before it wrote. */
  function StatEffects(s: GameState, d1: seq<Draw>, d2: seq<Draw>, d3: seq<Draw>, d4: seq<Draw>): (r: GameState)
    requires StatEffectsFit(s, d1, d2, d3, d4)
    ensures r == s.(efficiency := r.efficiency, order := r.order, leadership := r.leadership,
                    responsibility := r.responsibility, actionPoints := r.actionPoints,
                    maxActionPoints := r.maxActionPoints, managementBonus := r.managementBonus,
                    citizens := r.citizens,
                    resources := s.resources.(administration := r.resources.administration))
  {
    var b := ProductivityRule(OrderRule(EfficiencyRule(s, d1)), d2);
    ResponsibilityRule(LeadershipRule(b, d3), d4)
  }

  /** What the rules leave alone and how far they move the rest: only the
      five stats, the action points, the bonus, administration and trust
      change; the bonus gains at most a tenth; from a full day's points
      (the maximum, 6 or more) the maximum moves by at most one and the
      points end at the maximum or one below it. */
  lemma {:induction false} StatEffectsBounds(s: GameState, d1: seq<Draw>, d2: seq<Draw>, d3: seq<Draw>, d4: seq<Draw>)
    requires StatEffectsFit(s, d1, d2, d3, d4)
    ensures var r := StatEffects(s, d1, d2, d3, d4);
      && r == s.(efficiency := r.efficiency, order := r.order, leadership := r.leadership,
                 responsibility := r.responsibility, actionPoints := r.actionPoints,
                 maxActionPoints := r.maxActionPoints, managementBonus := r.managementBonus,
                 citizens := r.citizens,
                 resources := s.resources.(administration := r.resources.administration))
      && |r.citizens| == |s.citizens|
      && (forall i :: 0 <= i < |s.citizens| ==> r.citizens[i].(trust := s.citizens[i].trust) == s.citizens[i])
      && Between(r.managementBonus, s.managementBonus, s.managementBonus + 1)
      && (s.maxActionPoints >= 6 ==>
            Between(r.maxActionPoints, s.maxActionPoints - 1, s.maxActionPoints + 1))
      && (s.actionPoints == s.maxActionPoints >= 6 ==>
            Between(r.actionPoints, r.maxActionPoints - 1, r.maxActionPoints))
  {
    var a0 := EfficiencyRule(s, d1);
    var a := OrderRule(a0);
    var b := ProductivityRule(a, d2);
    var c := LeadershipRule(b, d3);
    var r := ResponsibilityRule(c, d4);
    assert r == StatEffects(s, d1, d2, d3, d4);
    assert a.actionPoints <= a.maxActionPoints || s.actionPoints != s.maxActionPoints;
    assert c.actionPoints == b.actionPoints || c.actionPoints == Max(0, b.actionPoints - 1);
  }

  // ----- the rollover's fixed parts (today-game.js:1386-1420) -----

  /** A facility after one day: a built one loses one point of durability and
      breaks (becomes unbuilt) when that leaves it at 0 or below. */
  function Decayed(x: Infra): (y: Infra)
    ensures !x.built ==> y == x
    ensures x.built ==> y.durability == x.durability - 1 && (y.built <==> y.durability > 0)
  {
    if x.built then Infra(x.durability - 1 > 0, x.durability - 1) else x
  }

  /** Every facility after one day. */
  function DecayedAll(x: Infrastructure): (y: Infrastructure)
    ensures forall f :: y.Get(f) == Decayed(x.Get(f))
  {
    Infrastructure(Decayed(x.warehouse), Decayed(x.factory), Decayed(x.cityHall),
                   Decayed(x.planningDept), Decayed(x.researchInstitute))
  }

  /** The scenario the game-over check writes, if any: the first stat at or
      below 0, in the source's order, else a debt beyond 5 per citizen. */
  function GameOverScenario(s: GameState): (r: Option<string>)
    ensures r.Some? ==> IsGameOverId(r.value)
    ensures r.None? <==>
      && s.efficiency > 0 && s.order > 0 && s.productivity > 0 && s.leadership > 0 && s.responsibility > 0
      && s.resources.budget >= -(|s.citizens| * 5)
  {
    if s.efficiency <= 0 then Some("game_over_efficiency")
    else if s.order <= 0 then Some("game_over_order")
    else if s.productivity <= 0 then Some("game_over_productivity")
    else if s.leadership <= 0 then Some("game_over_leadership")
    else if s.responsibility <= 0 then Some("game_over_responsibility")
    else if s.resources.budget < -(|s.citizens| * 5) then Some("game_over_resources")
    else None
  }

  /** The fixed part of the rollover after the stat effects: each citizen's
      skill adds one to its counter, every facility decays, the budget pays
      two per citizen, a budget left negative costs 10 efficiency, and the
      game-over check may write its scenario. */
  function Upkeep(s: GameState): (r: GameState)
    ensures var cs := s.citizens; var res := s.resources;
      var budget := res.budget - 2 * |cs|;
      r == s.(resources := res.(budget := budget,
                                administration := res.administration + CountSkill(cs, SkillAdministration),
                                materials := res.materials + CountSkill(cs, SkillConstruction),
                                labor := res.labor + CountSkill(cs, SkillProduction)),
              infrastructure := r.infrastructure,
              efficiency := s.efficiency - (if budget < 0 then 10 else 0),
              currentScenarioId := r.currentScenarioId)
    ensures forall f :: r.infrastructure.Get(f) == Decayed(s.infrastructure.Get(f))
    ensures GameOverScenario(r).Some? ==> r.currentScenarioId == GameOverScenario(r).value
    ensures GameOverScenario(r).None? ==> r.currentScenarioId == s.currentScenarioId
  {
    var cs := s.citizens;
    var res := s.resources;
    var budget := res.budget - 2 * |cs|;
    var t := s.(resources := res.(budget := budget,
                                  administration := res.administration + CountSkill(cs, SkillAdministration),
                                  materials := res.materials + CountSkill(cs, SkillConstruction),
                                  labor := res.labor + CountSkill(cs, SkillProduction)),
                infrastructure := DecayedAll(s.infrastructure),
                efficiency := s.efficiency - (if budget < 0 then 10 else 0));
    match GameOverScenario(t)
    case Some(id) => t.(currentScenarioId := id)
    case None => t
  }

  // ----- the whole rollover (today-game.js:1367-1450) -----

  /** The record `processDailyEvents` starts the day from: ten action points
      of ten, no action taken today, the event marked as triggered and no
      management bonus. */
  function DayStarted(s: GameState): GameState
  {
    s.(actionPoints := 10, maxActionPoints := 10, dailyActions := NoDailyActions,
       dailyEventTriggered := true, managementBonus := 0)
  }

  /** The draws one rollover takes, in order: those of the efficiency and
      productivity rules, of the leadership rule and of the responsibility
      rule, then the event draw `pick` (which chooses `event`) and the
      draws of that event's trigger. */
  datatype DayDraws = DayDraws(efficiencyRule: seq<Draw>, productivityRule: seq<Draw>,
                               leadershipRule: seq<Draw>, trustRule: seq<Draw>,
                               pick: Draw, event: nat, eventEffect: seq<Draw>)

  /** All the draws of a rollover as one stream. */
  function AllDraws(d: DayDraws): seq<Draw>
  {
    d.efficiencyRule + d.productivityRule + d.leadershipRule + d.trustRule + ([d.pick] + d.eventEffect)
  }

  /** The state the daily event is chosen in: the day started afresh, the
      stat effects applied, and the upkeep paid. */
  function BeforeEvent(s: GameState, d: DayDraws): GameState
    requires StatEffectsFit(DayStarted(s), d.efficiencyRule, d.productivityRule, d.leadershipRule, d.trustRule)
  {
    Upkeep(StatEffects(DayStarted(s), d.efficiencyRule, d.productivityRule, d.leadershipRule, d.trustRule))
  }

  /** Whether the draws are those of a rollover from s: enough for each
      stat rule, an event the pick chooses among the events that apply to
      the state after the upkeep, and that event's draws. */
  predicate RolloverFits(s: GameState, d: DayDraws)
  {
    && StatEffectsFit(DayStarted(s), d.efficiencyRule, d.productivityRule, d.leadershipRule, d.trustRule)
    && IsChoice(DailyEventCandidates(BeforeEvent(s, d)), d.pick, d.event)
    && d.event < |DailyEvents| && |d.eventEffect| == DailyEventDrawCounts[d.event]
  }

  /** `processDailyEvents` after its guard, on the record: the chosen
      event's trigger applied to the state after the upkeep, and the
      event's id as the scenario, replacing any game-over id. */
  function Rollover(s: GameState, d: DayDraws, newcomerId: string): GameState
    requires RolloverFits(s, d)
  {
    DailyEventEffect(BeforeEvent(s, d), d.event, d.eventEffect, newcomerId)
      .(currentScenarioId := EventId(DailyEvents[d.event]))
  }

  /** What a rollover keeps and how far it moves the day's counters: the
      day, the dates, the manual advances, the citizen limit, the city
      level and the minigame stay; the number of citizens stays; the daily
      flags are cleared and the event marked; the maximum of action points
      ends in [9, 11] with the points at it or one below; the bonus is 0 or
      a tenth; every facility decays once; and the scenario is the event's
      id, never a game-over id. */
  lemma RolloverBounds(s: GameState, d: DayDraws, newcomerId: string)
    requires RolloverFits(s, d)
    ensures var r := Rollover(s, d, newcomerId);
      && r.day == s.day && r.lastPlayedDate == s.lastPlayedDate
      && r.manualDayAdvances == s.manualDayAdvances && r.maxCitizens == s.maxCitizens
      && r.cityLevel == s.cityLevel && r.minigame == s.minigame
      && |r.citizens| == |s.citizens|
      && r.dailyEventTriggered && r.dailyActions == NoDailyActions
      && Between(r.maxActionPoints, 9, 11)
      && Between(r.actionPoints, r.maxActionPoints - 1, r.maxActionPoints)
      && Between(r.managementBonus, 0, 1)
      && (forall f :: r.infrastructure.Get(f) == Decayed(s.infrastructure.Get(f)))
      && r.currentScenarioId == EventId(DailyEvents[d.event]) && !IsGameOverId(r.currentScenarioId)
  {
    StatEffectsBounds(DayStarted(s), d.efficiencyRule, d.productivityRule, d.leadershipRule, d.trustRule);
    EventIdsAreNotFinal(DailyEvents[d.event]);
  }
}
