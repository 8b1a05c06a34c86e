/** The game state record (`gameState`, today-game.js:53-84) as values: the
    resource bag, citizens, the five facilities, the daily-action flags, the
    minigame state, and the flat record that holds them all. */
module State {

  datatype Option<T> = None | Some(value: T)

  /** `resources`: named counters, not clamped (the budget can go negative). */
  datatype Resources = Resources(budget: int, materials: int, labor: int, administration: int)

  /** The names of the counters in the resource bag. */
  datatype ResourceKind = Budget | Materials | Labor | Administration

  /** The counter of one kind. */
  function Amount(r: Resources, k: ResourceKind): int
  {
    match k
    case Budget => r.budget
    case Materials => r.materials
    case Labor => r.labor
    case Administration => r.administration
  }

  /** A build or repair cost: only the kinds it names are checked and paid. */
  type Cost = map<ResourceKind, nat>

  /** What a cost charges for one kind; nothing for a kind it does not name. */
  function Charge(cost: Cost, k: ResourceKind): nat
  {
    if k in cost then cost[k] else 0
  }

  /** The source's test before building: every named counter covers its amount. */
  predicate Affordable(r: Resources, cost: Cost)
  {
    forall k :: k in cost ==> Amount(r, k) >= cost[k]
  }

  /** The resource bag after paying a cost. */
  function Deduct(r: Resources, cost: Cost): (r': Resources)
    ensures forall k :: Amount(r', k) == Amount(r, k) - Charge(cost, k)
  {
    Resources(r.budget - Charge(cost, Budget), r.materials - Charge(cost, Materials),
              r.labor - Charge(cost, Labor), r.administration - Charge(cost, Administration))
  }

  /** Paying an affordable cost leaves every charged counter at zero or above,
      and touches no counter the cost does not name. */
  lemma DeductAffordable(r: Resources, cost: Cost)
    requires Affordable(r, cost)
    ensures forall k :: k in cost ==> Amount(Deduct(r, cost), k) >= 0
    ensures forall k :: k !in cost ==> Amount(Deduct(r, cost), k) == Amount(r, k)
  {}

  /** The skills a citizen can have. */
  const SkillAdministration: string := "행정"
  const SkillConstruction: string := "건설"
  const SkillProduction: string := "생산"

  /** A citizen; `trust` is the value the game clamps to [0, 100]. */
  datatype Citizen = Citizen(id: string, name: string, personality: string, skill: string, trust: int)

  /** The five facilities, in the order of the source's object literal. */
  datatype Facility = Warehouse | Factory | CityHall | PlanningDept | ResearchInstitute

  const AllFacilities: seq<Facility> := [Warehouse, Factory, CityHall, PlanningDept, ResearchInstitute]

  /** The changing part of a facility; its names and descriptions are display text. */
  datatype Infra = Infra(built: bool, durability: int)

  /** `cityInfrastructure`: one entry per facility. */
  datatype Infrastructure = Infrastructure(
    warehouse: Infra, factory: Infra, cityHall: Infra, planningDept: Infra, researchInstitute: Infra)
  {
    /** The entry of one facility. */
    function Get(f: Facility): Infra
    {
      match f
      case Warehouse => warehouse
      case Factory => factory
      case CityHall => cityHall
      case PlanningDept => planningDept
      case ResearchInstitute => researchInstitute
    }

    /** The record with the entry of one facility replaced. */
    function With(f: Facility, x: Infra): (r: Infrastructure)
      ensures r.Get(f) == x
      ensures forall g :: g != f ==> r.Get(g) == Get(g)
    {
      match f
      case Warehouse => this.(warehouse := x)
      case Factory => this.(factory := x)
      case CityHall => this.(cityHall := x)
      case PlanningDept => this.(planningDept := x)
      case ResearchInstitute => this.(researchInstitute := x)
    }
  }

  /** `dailyActions`: what the player has done today. */
  datatype DailyActions = DailyActions(inspected: bool, reported: bool, collected: bool, minigamePlayed: bool)

  const NoDailyActions: DailyActions := DailyActions(false, false, false, false)

  /** `minigameState`: `{}` between games, the memory game's record, or the
      bare score record of one of the other four games. */
  datatype MinigameState =
    | NoMinigame
    | Memory(currentSequence: seq<string>, playerInput: seq<string>, stage: int, score: int, showingSequence: bool)
    | Scored(name: string, score: int)

  /** The whole state. `managementBonus` is `dailyBonus.managementSuccess`
      counted in tenths (the source adds 0.1 at a time). `currentRandFn` is
      not part of it: its closure state is kept beside it. */
  datatype GameState = GameState(
    day: int,
    efficiency: int,
    order: int,
    productivity: int,
    leadership: int,
    responsibility: int,
    actionPoints: int,
    maxActionPoints: int,
    resources: Resources,
    citizens: seq<Citizen>,
    maxCitizens: int,
    currentScenarioId: string,
    lastPlayedDate: string,
    manualDayAdvances: int,
    dailyEventTriggered: bool,
    managementBonus: int,
    dailyActions: DailyActions,
    infrastructure: Infrastructure,
    cityLevel: int,
    pendingNewCitizen: Option<Citizen>,
    minigame: MinigameState)

  /** The state `resetGameState` builds on `today`. */
  function InitialState(today: string): (r: GameState)
    ensures r.day == 1 && r.lastPlayedDate == today && r.manualDayAdvances == 0
    ensures !r.dailyEventTriggered
    ensures |r.citizens| == 2 && r.citizens[0].id != r.citizens[1].id && |r.citizens| < r.maxCitizens
    ensures forall f :: r.infrastructure.Get(f) == Infra(false, 100)
    ensures r.actionPoints == r.maxActionPoints == 10 && r.minigame == NoMinigame
  {
    var unbuilt := Infra(false, 100);
    GameState(
      1, 50, 50, 50, 50, 50, 10, 10,
      Resources(10, 10, 5, 0),
      [Citizen("mayor_kim", "김시장", "성실한", SkillAdministration, 70),
       Citizen("engineer_lee", "이엔지", "꼼꼼한", SkillConstruction, 60)],
      5, "intro", today, 0, false, 0, NoDailyActions,
      Infrastructure(unbuilt, unbuilt, unbuilt, unbuilt, unbuilt),
      0, None, NoMinigame)
  }

  function Min(a: int, b: int): int { if a <= b then a else b }
  function Max(a: int, b: int): int { if a >= b then a else b }

  /** How many citizens have the given skill. */
  function CountSkill(cs: seq<Citizen>, skill: string): nat
  {
    if |cs| == 0 then 0
    else CountSkill(cs[..|cs| - 1], skill) + (if cs[|cs| - 1].skill == skill then 1 else 0)
  }
}
