/** The game itself: the global `gameState` record, which the handlers of
    `gameActions` (today-game.js:805-1236), `applyStatEffects`
    (today-game.js:1238-1316) and `processDailyEvents`
    (today-game.js:1367-1450) update field by field, together with the state
    of the generator closure `currentRandFn`.

    Every method says what the new record is in terms of the old one: the
    fields it names and nothing else change. The day's seed (`getDailySeed`), today's date and
    the id of a newcomer (`Math.random`) are parameters. */
module Engine {
  import opened Random
  import opened Selection
  import opened State
  import opened Outcomes
  import opened Minigame
  import opened Handlers

  /** The state after a successful `spendActionPoint`. */
  function Spent(s: GameState): GameState
  {
    s.(actionPoints := s.actionPoints - 1)
  }

  /** The record `manualNextDay` hands to the rollover: one more manual
      advance, the next day, today's date, and the event not yet run. */
  function Advanced(s: GameState, today: string): GameState
  {
    s.(manualDayAdvances := s.manualDayAdvances + 1, day := s.day + 1,
       lastPlayedDate := today, dailyEventTriggered := false)
  }

  /** The record `loadGameState` hands to the rollover on a new date: the
      next day, today's date, no manual advances, and the event not yet
      run. */
  function Reopened(s: GameState, today: string): GameState
  {
    s.(day := s.day + 1, lastPlayedDate := today, manualDayAdvances := 0,
       dailyEventTriggered := false)
  }

  class Game {
    /** `gameState`, the record every handler reads and writes. */
    var state: GameState
    /** The state of the closure `currentRandFn` holds. */
    var rngSeed: bv32

    /** What the game keeps true: days count from 1, there is always a
        citizen to report to (citizens are only ever added), and a memory
        game is at stage 1 or later. */
    predicate Valid()
      reads this
    {
      && state.day >= 1
      && |state.citizens| >= 1
      && (state.minigame.Memory? ==> state.minigame.stage >= 1)
    }

    /** `resetGameState`: the initial record, and the generator seeded with
        the day's seed plus day 1. */
    constructor Reset(dailySeed: int, today: string)
      ensures state == InitialState(today)
      ensures rngSeed == SeedOf(dailySeed + 1)
      ensures Valid()
    {
      state := InitialState(today);
      rngSeed := SeedOf(dailySeed + 1);
    }

    /** One call of `currentRandFn()`. */
    method NextDraw() returns (u: Draw)
      modifies this
      ensures state == old(state)
      ensures Consumed(old(rngSeed), rngSeed, [u])
    {
      var step := Mulberry32(rngSeed);
      rngSeed := step.seed;
      u := step.draw;
      assert [u][1..] == [];
    }

    /** n calls of `currentRandFn()` in a row: the next n values of the stream. */
    method DrawMany(n: nat) returns (ds: seq<Draw>)
      modifies this
      ensures state == old(state)
      ensures |ds| == n && Consumed(old(rngSeed), rngSeed, ds)
    {
      ds := [];
      while |ds| < n
        invariant |ds| <= n
        invariant state == old(state)
        invariant Consumed(old(rngSeed), rngSeed, ds)
      {
        ghost var middle := rngSeed;
        var u := NextDraw();
        ConsumedInTurn(old(rngSeed), middle, rngSeed, ds, [u]);
        ds := ds + [u];
      }
    }

    /** One decision of an outcome table: the draw that picks an entry by
        weight (today-game.js:809-821), then the draws the chosen entry's effect
        takes, `counts[outcome]` of them. A table with an applicable entry of
        positive weight always yields a choice, so the fallback after the
        walk is never reached. */
    method Decide(cs: seq<Candidate>, counts: seq<nat>) returns (u: Draw, outcome: nat, ds: seq<Draw>)
      requires |counts| == |cs|
      requires exists k :: 0 <= k < |cs| && cs[k].applicable && cs[k].weight > 0
      modifies this
      ensures state == old(state)
      ensures IsChoice(cs, u, outcome)
      ensures |ds| == counts[outcome] && Consumed(old(rngSeed), rngSeed, [u] + ds)
    {
      u := NextDraw();
      ghost var k :| 0 <= k < |cs| && cs[k].applicable && cs[k].weight > 0;
      PositiveEntryMakesChoice(cs, u, k);
      var choice := SelectWeighted(cs, u);
      assert choice.Chosen?;
      outcome := choice.index;
      ghost var middle := rngSeed;
      ds := DrawMany(counts[outcome]);
      ConsumedInTurn(old(rngSeed), middle, rngSeed, [u], ds);
    }

    /** `spendActionPoint`: fails, changing nothing, without action points;
        otherwise takes exactly one. */
    method SpendActionPoint() returns (ok: bool)
      modifies this
      ensures ok <==> old(state.actionPoints) > 0
      ensures ok ==> state == Spent(old(state))
      ensures !ok ==> state == old(state)
      ensures rngSeed == old(rngSeed)
    {
      if state.actionPoints <= 0 {
        return false;
      }
      state := state.(actionPoints := state.actionPoints - 1);
      return true;
    }

    // ----- the three table-driven actions -----

    /** The inspection itself, once the point is spent: pick an outcome of
        the inspection table, apply it, and mark the inspection done. */
    method InspectOutcome() returns (u: Draw, outcome: nat, ds: seq<Draw>)
      requires Valid()
      modifies this
      ensures Valid()
      ensures IsChoice(InspectCandidates(old(state)), u, outcome)
      ensures |ds| == InspectDrawCounts[outcome] && Consumed(old(rngSeed), rngSeed, [u] + ds)
      ensures state == InspectEffect(old(state), outcome, ds).(dailyActions := old(state).dailyActions.(inspected := true))
    {
      var s := state;
      assert InspectCandidates(s)[2].applicable;
      u, outcome, ds := Decide(InspectCandidates(s), InspectDrawCounts);
      InspectChoiceHolds(s, u, outcome);
      state := InspectEffect(s, outcome, ds).(dailyActions := s.dailyActions.(inspected := true));
    }

    /** `inspect_city`: spend a point, then inspect. */
    method InspectCity() returns (u: Draw, outcome: nat, ds: seq<Draw>)
      requires Valid()
      modifies this
      ensures Valid()
      ensures old(state.actionPoints) <= 0 ==> state == old(state) && rngSeed == old(rngSeed)
      ensures old(state.actionPoints) > 0 ==>
        var s := Spent(old(state));
        && IsChoice(InspectCandidates(s), u, outcome)
        && |ds| == InspectDrawCounts[outcome] && Consumed(old(rngSeed), rngSeed, [u] + ds)
        && state == InspectEffect(s, outcome, ds).(dailyActions := s.dailyActions.(inspected := true))
    {
      u, outcome, ds := 0, 0, [];
      var ok := SpendActionPoint();
      if ok {
        u, outcome, ds := InspectOutcome();
      }
    }

    /** The report itself, for citizen c, when none was made today: pick an
        outcome of the report table, apply it, and mark the report done. */
    method ReportOutcome(c: Citizen) returns (u: Draw, outcome: nat, ds: seq<Draw>)
      requires Valid()
      modifies this
      ensures Valid()
      ensures IsChoice(ReportCandidates(old(state), c), u, outcome)
      ensures |ds| == ReportDrawCounts[outcome] && Consumed(old(rngSeed), rngSeed, [u] + ds)
      ensures state == ReportEffect(old(state), c, outcome, ds).(dailyActions := old(state).dailyActions.(reported := true))
    {
      var s := state;
      assert ReportCandidates(s, c)[3].applicable;
      u, outcome, ds := Decide(ReportCandidates(s, c), ReportDrawCounts);
      ReportChoiceHolds(s, c, u, outcome);
      state := ReportEffect(s, c, outcome, ds).(dailyActions := s.dailyActions.(reported := true));
    }

    /** `report_to_citizens`: spend a point and draw the citizen; if a report
        was already made today, stop there (the flag it writes is already
        set); otherwise report to that citizen. */
    method ReportToCitizens() returns (pick: Draw, citizen: nat, u: Draw, outcome: nat, ds: seq<Draw>)
      requires Valid()
      modifies this
      ensures Valid()
      ensures old(state.actionPoints) <= 0 ==> state == old(state) && rngSeed == old(rngSeed)
      ensures old(state.actionPoints) > 0 ==>
        var s := Spent(old(state));
        && citizen == IndexOf(pick, |s.citizens|) && citizen < |s.citizens|
        && (s.dailyActions.reported ==> state == s && Consumed(old(rngSeed), rngSeed, [pick]))
        && (!s.dailyActions.reported ==>
              && IsChoice(ReportCandidates(s, s.citizens[citizen]), u, outcome)
              && |ds| == ReportDrawCounts[outcome] && Consumed(old(rngSeed), rngSeed, [pick, u] + ds)
              && state == ReportEffect(s, s.citizens[citizen], outcome, ds)
                            .(dailyActions := s.dailyActions.(reported := true)))
    {
      pick, citizen, u, outcome, ds := 0, 0, 0, 0, [];
      var ok := SpendActionPoint();
      if !ok {
        return;
      }
      var picked := DrawMany(1);
      pick := picked[0];
      assert picked == [pick];
      IndexIsFloor(pick, |state.citizens|);
      citizen := IndexOf(pick, |state.citizens|);
      if state.dailyActions.reported {
        return;
      }
      ghost var middle := rngSeed;
      u, outcome, ds := ReportOutcome(state.citizens[citizen]);
      ConsumedInTurn(old(rngSeed), middle, rngSeed, [pick], [u] + ds);
      assert [pick, u] + ds == [pick] + ([u] + ds);
    }

    /** The audit itself, once the point is spent: pick an outcome of the
        audit table and apply it. */
    method AuditOutcome() returns (u: Draw, outcome: nat, ds: seq<Draw>)
      requires Valid()
      modifies this
      ensures Valid()
      ensures IsChoice(AuditCandidates(old(state)), u, outcome)
      ensures outcome == 3 ==> FindLowTrust(old(state).citizens).Some?
      ensures |ds| == AuditDrawCounts[outcome] && Consumed(old(rngSeed), rngSeed, [u] + ds)
      ensures state == AuditEffect(old(state), outcome, ds)
    {
      var s := state;
      assert AuditCandidates(s)[4].applicable;
      u, outcome, ds := Decide(AuditCandidates(s), AuditDrawCounts);
      AuditChoiceHolds(s, u, outcome);
      state := AuditEffect(s, outcome, ds);
    }

    /** `audit_budget`: spend a point, then audit. */
    method AuditBudget() returns (u: Draw, outcome: nat, ds: seq<Draw>)
      requires Valid()
      modifies this
      ensures Valid()
      ensures old(state.actionPoints) <= 0 ==> state == old(state) && rngSeed == old(rngSeed)
      ensures old(state.actionPoints) > 0 ==>
        var s := Spent(old(state));
        && IsChoice(AuditCandidates(s), u, outcome)
        && (outcome == 3 ==> FindLowTrust(s.citizens).Some?)
        && |ds| == AuditDrawCounts[outcome] && Consumed(old(rngSeed), rngSeed, [u] + ds)
        && state == AuditEffect(s, outcome, ds)
    {
      u, outcome, ds := 0, 0, [];
      var ok := SpendActionPoint();
      if ok {
        u, outcome, ds := AuditOutcome();
      }
    }

    // ----- the handlers without an outcome table -----

    /** `handle_citizen_dispute` with the ids the dispute names. */
    method HandleCitizenDispute(first: string, second: string) returns (ds: seq<Draw>)
      requires Valid()
      modifies this
      ensures Valid()
      ensures old(state.actionPoints) <= 0 ==> state == old(state) && rngSeed == old(rngSeed) && ds == []
      ensures old(state.actionPoints) > 0 ==>
        |ds| == 4 && Consumed(old(rngSeed), rngSeed, ds)
        && state == DisputeResolved(Spent(old(state)), first, second, ds)
    {
      ds := [];
      var ok := SpendActionPoint();
      if ok {
        ds := DrawMany(4);
        state := DisputeResolved(state, first, second, ds);
      }
    }

    /** `mediate_citizen_dispute`. */
    method MediateCitizenDispute() returns (ds: seq<Draw>)
      requires Valid()
      modifies this
      ensures Valid()
      ensures old(state.actionPoints) <= 0 ==> state == old(state) && rngSeed == old(rngSeed) && ds == []
      ensures old(state.actionPoints) > 0 ==>
        |ds| == 3 && Consumed(old(rngSeed), rngSeed, ds) && state == DisputeMediated(Spent(old(state)), ds)
    {
      ds := [];
      var ok := SpendActionPoint();
      if ok {
        ds := DrawMany(3);
        state := DisputeMediated(state, ds);
      }
    }

    /** `ignore_event`. */
    method IgnoreEvent() returns (ds: seq<Draw>)
      requires Valid()
      modifies this
      ensures Valid()
      ensures old(state.actionPoints) <= 0 ==> state == old(state) && rngSeed == old(rngSeed) && ds == []
      ensures old(state.actionPoints) > 0 ==>
        |ds| == 2 && Consumed(old(rngSeed), rngSeed, ds) && state == DisputeIgnored(Spent(old(state)), ds)
    {
      ds := [];
      var ok := SpendActionPoint();
      if ok {
        ds := DrawMany(2);
        state := DisputeIgnored(state, ds);
      }
    }

    /** `manage_project_efficiently`: the draws are taken only when a second
        point is left to pay. */
    method ManageProjectEfficiently() returns (ds: seq<Draw>)
      requires Valid()
      modifies this
      ensures Valid()
      ensures old(state.actionPoints) <= 0 ==> state == old(state) && rngSeed == old(rngSeed) && ds == []
      ensures old(state.actionPoints) > 0 ==>
        var s := Spent(old(state));
        |ds| == ExtraPointDraws(s) && Consumed(old(rngSeed), rngSeed, ds) && state == ProjectManaged(s, ds)
    {
      ds := [];
      var ok := SpendActionPoint();
      if ok {
        ds := DrawMany(ExtraPointDraws(state));
        state := ProjectManaged(state, ds);
      }
    }

    /** `delegate_project`. */
    method DelegateProject() returns (ds: seq<Draw>)
      requires Valid()
      modifies this
      ensures Valid()
      ensures old(state.actionPoints) <= 0 ==> state == old(state) && rngSeed == old(rngSeed) && ds == []
      ensures old(state.actionPoints) > 0 ==>
        |ds| == 2 && Consumed(old(rngSeed), rngSeed, ds) && state == ProjectDelegated(Spent(old(state)), ds)
    {
      ds := [];
      var ok := SpendActionPoint();
      if ok {
        ds := DrawMany(2);
        state := ProjectDelegated(state, ds);
      }
    }

    /** `assert_leadership`: the draws are taken only when a second point is
        left to pay. */
    method AssertLeadership() returns (ds: seq<Draw>)
      requires Valid()
      modifies this
      ensures Valid()
      ensures old(state.actionPoints) <= 0 ==> state == old(state) && rngSeed == old(rngSeed) && ds == []
      ensures old(state.actionPoints) > 0 ==>
        var s := Spent(old(state));
        |ds| == ExtraPointDraws(s) && Consumed(old(rngSeed), rngSeed, ds) && state == LeadershipAsserted(s, ds)
    {
      ds := [];
      var ok := SpendActionPoint();
      if ok {
        ds := DrawMany(ExtraPointDraws(state));
        state := LeadershipAsserted(state, ds);
      }
    }

    /** `seek_citizen_input`. */
    method SeekCitizenInput() returns (ds: seq<Draw>)
      requires Valid()
      modifies this
      ensures Valid()
      ensures old(state.actionPoints) <= 0 ==> state == old(state) && rngSeed == old(rngSeed) && ds == []
      ensures old(state.actionPoints) > 0 ==>
        |ds| == 2 && Consumed(old(rngSeed), rngSeed, ds) && state == CitizenInputSought(Spent(old(state)), ds)
    {
      ds := [];
      var ok := SpendActionPoint();
      if ok {
        ds := DrawMany(2);
        state := CitizenInputSought(state, ds);
      }
    }

    /** `welcome_new_unique_citizen`: the draws are taken only when the
        newcomer can join. */
    method WelcomeNewCitizen() returns (ds: seq<Draw>)
      requires Valid()
      modifies this
      ensures Valid()
      ensures old(state.actionPoints) <= 0 ==> state == old(state) && rngSeed == old(rngSeed) && ds == []
      ensures old(state.actionPoints) > 0 ==>
        var s := Spent(old(state));
        |ds| == WelcomeDraws(s) && Consumed(old(rngSeed), rngSeed, ds) && state == NewcomerWelcomed(s, ds)
    {
      ds := [];
      var ok := SpendActionPoint();
      if ok {
        ds := DrawMany(WelcomeDraws(state));
        state := NewcomerWelcomed(state, ds);
      }
    }

    /** `observe_citizen`. */
    method ObserveCitizen() returns (ds: seq<Draw>)
      requires Valid()
      modifies this
      ensures Valid()
      ensures old(state.actionPoints) <= 0 ==> state == old(state) && rngSeed == old(rngSeed) && ds == []
      ensures old(state.actionPoints) > 0 ==>
        |ds| == 2 && Consumed(old(rngSeed), rngSeed, ds) && state == NewcomerObserved(Spent(old(state)), ds)
    {
      ds := [];
      var ok := SpendActionPoint();
      if ok {
        ds := DrawMany(2);
        state := NewcomerObserved(state, ds);
      }
    }

    /** `reject_citizen`. */
    method RejectCitizen() returns (ds: seq<Draw>)
      requires Valid()
      modifies this
      ensures Valid()
      ensures old(state.actionPoints) <= 0 ==> state == old(state) && rngSeed == old(rngSeed) && ds == []
      ensures old(state.actionPoints) > 0 ==>
        |ds| == 3 && Consumed(old(rngSeed), rngSeed, ds) && state == NewcomerRejected(Spent(old(state)), ds)
    {
      ds := [];
      var ok := SpendActionPoint();
      if ok {
        ds := DrawMany(3);
        state := NewcomerRejected(state, ds);
      }
    }

    /** `accept_investment`: with the budget for it, one draw is taken (its
        value is unused) and the offer is accepted. */
    method AcceptInvestment() returns (ds: seq<Draw>)
      requires Valid()
      modifies this
      ensures Valid()
      ensures old(state.actionPoints) <= 0 ==> state == old(state) && rngSeed == old(rngSeed) && ds == []
      ensures old(state.actionPoints) > 0 ==>
        var s := Spent(old(state));
        && |ds| == (if s.resources.budget >= 50 then 1 else 0) && Consumed(old(rngSeed), rngSeed, ds)
        && state == InvestmentAccepted(s)
    {
      ds := [];
      var ok := SpendActionPoint();
      if ok {
        ds := DrawMany(if state.resources.budget >= 50 then 1 else 0);
        state := InvestmentAccepted(state);
      }
    }

    /** `decline_investment`: one draw (its value is unused), and back to the
        intro. */
    method DeclineInvestment() returns (ds: seq<Draw>)
      requires Valid()
      modifies this
      ensures Valid()
      ensures old(state.actionPoints) <= 0 ==> state == old(state) && rngSeed == old(rngSeed) && ds == []
      ensures old(state.actionPoints) > 0 ==>
        |ds| == 1 && Consumed(old(rngSeed), rngSeed, ds)
        && state == Spent(old(state)).(currentScenarioId := IntroScenario)
    {
      ds := [];
      var ok := SpendActionPoint();
      if ok {
        ds := DrawMany(1);
        state := state.(currentScenarioId := IntroScenario);
      }
    }

    /** The three `show_*_options` handlers and `return_to_intro`: free moves
        between menus. */
    method ShowScenario(id: string)
      requires Valid()
      modifies this
      ensures Valid()
      ensures state == old(state).(currentScenarioId := id)
      ensures rngSeed == old(rngSeed)
    {
      state := state.(currentScenarioId := id);
    }

    /** `collect_budget`, `collect_materials` and `collect_labor`: one draw
        decides success against the collection chance, a second one the
        gain. The collected flag of the day is not set. */
    method Collect(k: ResourceKind) returns (u: Draw, ds: seq<Draw>)
      requires Valid() && k != Administration
      modifies this
      ensures Valid()
      ensures old(state.actionPoints) <= 0 ==> state == old(state) && rngSeed == old(rngSeed) && ds == []
      ensures old(state.actionPoints) > 0 ==>
        var s := Spent(old(state));
        && (CollectSucceeds(s, u) ==>
              |ds| == 1 && Consumed(old(rngSeed), rngSeed, [u] + ds) && state == Collected(s, k, ds[0]))
        && (!CollectSucceeds(s, u) ==> ds == [] && Consumed(old(rngSeed), rngSeed, [u]) && state == s)
    {
      u, ds := 0, [];
      var ok := SpendActionPoint();
      if ok {
        u := NextDraw();
        if CollectSucceeds(state, u) {
          ghost var middle := rngSeed;
          ds := DrawMany(1);
          ConsumedInTurn(old(rngSeed), middle, rngSeed, [u], ds);
          state := Collected(state, k, ds[0]);
        }
      }
    }

    /** `build_*` for one facility: with the resources its cost names, it is
        built and paid for; without them nothing but the spent point
        changes. Whether it is already built is not checked. */
    method Build(f: Facility) returns (ds: seq<Draw>)
      requires Valid()
      modifies this
      ensures Valid()
      ensures old(state.actionPoints) <= 0 ==> state == old(state) && rngSeed == old(rngSeed) && ds == []
      ensures old(state.actionPoints) > 0 ==>
        var s := Spent(old(state));
        && (Affordable(s.resources, BuildCost(f)) ==>
              |ds| == BuildDraws(f) && Consumed(old(rngSeed), rngSeed, ds) && state == FacilityBuilt(s, f, ds))
        && (!Affordable(s.resources, BuildCost(f)) ==> ds == [] && rngSeed == old(rngSeed) && state == s)
    {
      ds := [];
      var ok := SpendActionPoint();
      if ok && Affordable(state.resources, BuildCost(f)) {
        ds := DrawMany(BuildDraws(f));
        state := FacilityBuilt(state, f, ds);
      }
    }

    /** `maintain_infrastructure` for one facility: with 10 materials and 10
        labor it is repaired and paid for; without them nothing but the
        spent point changes. No draw is taken. */
    method Maintain(f: Facility)
      requires Valid()
      modifies this
      ensures Valid()
      ensures rngSeed == old(rngSeed)
      ensures old(state.actionPoints) <= 0 ==> state == old(state)
      ensures old(state.actionPoints) > 0 ==>
        var s := Spent(old(state));
        && (Affordable(s.resources, MaintenanceCost) ==> state == FacilityMaintained(s, f))
        && (!Affordable(s.resources, MaintenanceCost) ==> state == s)
    {
      var ok := SpendActionPoint();
      if ok && Affordable(state.resources, MaintenanceCost) {
        state := FacilityMaintained(state, f);
      }
    }

    /** `allocate_budget`: a first draw picks the band, then the band's gain
        draws. */
    method AllocateBudget() returns (ds: seq<Draw>)
      requires Valid()
      modifies this
      ensures Valid()
      ensures old(state.actionPoints) <= 0 ==> state == old(state) && rngSeed == old(rngSeed) && ds == []
      ensures old(state.actionPoints) > 0 ==>
        && |ds| >= 1 && |ds| == 1 + AllocateDraws(ds[0]) && Consumed(old(rngSeed), rngSeed, ds)
        && state == BudgetAllocated(Spent(old(state)), ds)
    {
      ds := [];
      var ok := SpendActionPoint();
      if ok {
        var u := NextDraw();
        ghost var middle := rngSeed;
        var gains := DrawMany(AllocateDraws(u));
        ConsumedInTurn(old(rngSeed), middle, rngSeed, [u], gains);
        ds := [u] + gains;
        state := BudgetAllocated(state, ds);
      }
    }

    /** `optimize_process`: a first draw picks the band, then the band's gain
        draw. */
    method OptimizeProcess() returns (ds: seq<Draw>)
      requires Valid()
      modifies this
      ensures Valid()
      ensures old(state.actionPoints) <= 0 ==> state == old(state) && rngSeed == old(rngSeed) && ds == []
      ensures old(state.actionPoints) > 0 ==>
        && |ds| >= 1 && |ds| == 1 + OptimizeDraws(ds[0]) && Consumed(old(rngSeed), rngSeed, ds)
        && state == ProcessOptimized(Spent(old(state)), ds)
    {
      ds := [];
      var ok := SpendActionPoint();
      if ok {
        var u := NextDraw();
        ghost var middle := rngSeed;
        var gains := DrawMany(OptimizeDraws(u));
        ConsumedInTurn(old(rngSeed), middle, rngSeed, [u], gains);
        ds := [u] + gains;
        state := ProcessOptimized(state, ds);
      }
    }

    // ----- the daily minigame (today-game.js:601-792, 1219-1232) -----

    /** `play_minigame`: once a day, for a point, the game of the day
        ((day - 1) % 5) starts. The memory game starts at stage 1 with no
        score and shows its first sequence at once; the other four record
        their fixed score. */
    method PlayMinigame() returns (played: bool, ds: seq<Draw>)
      requires Valid()
      modifies this
      ensures Valid()
      ensures played <==> !old(state.dailyActions.minigamePlayed) && old(state.actionPoints) > 0
      ensures !played ==> state == old(state) && rngSeed == old(rngSeed) && ds == []
      ensures played ==>
        var s := Spent(old(state));
        var index := (s.day - 1) % |MinigameNames|;
        && state == s.(currentScenarioId := "minigame_" + MinigameNames[index],
                       dailyActions := s.dailyActions.(minigamePlayed := true),
                       minigame := state.minigame)
        && (index == 0 ==>
              && |ds| == SequenceLength(1) && Consumed(old(rngSeed), rngSeed, ds)
              && state.minigame == Memory(KeywordSequence(ds), [], 1, 0, true))
        && (index != 0 ==>
              && ds == [] && rngSeed == old(rngSeed)
              && state.minigame == Scored(MinigameNames[index], PlaceholderScore(index)))
    {
      played, ds := false, [];
      if state.dailyActions.minigamePlayed {
        return;
      }
      var ok := SpendActionPoint();
      if !ok {
        return;
      }
      played := true;
      var index := (state.day - 1) % |MinigameNames|;
      state := state.(currentScenarioId := "minigame_" + MinigameNames[index],
                      dailyActions := state.dailyActions.(minigamePlayed := true));
      if index == 0 {
        state := state.(minigame := Memory([], [], 1, 0, false));
        ds := ShowSequence();
      } else {
        state := state.(minigame := Scored(MinigameNames[index], PlaceholderScore(index)));
      }
    }

    /** `showSequence`: a fresh sequence of stage + 2 keywords, one draw
        each, shown from now on. */
    method ShowSequence() returns (ds: seq<Draw>)
      requires Valid() && state.minigame.Memory?
      modifies this
      ensures Valid()
      ensures |ds| == SequenceLength(old(state.minigame.stage)) && Consumed(old(rngSeed), rngSeed, ds)
      ensures state == old(state).(minigame := old(state.minigame).(currentSequence := KeywordSequence(ds),
                                                                     showingSequence := true))
    {
      var n := state.minigame.stage + 2;
      state := state.(minigame := state.minigame.(showingSequence := true, currentSequence := []));
      ds := [];
      while |ds| < n
        invariant |ds| <= n
        invariant Consumed(old(rngSeed), rngSeed, ds)
        invariant state == old(state).(minigame := old(state.minigame).(currentSequence := KeywordSequence(ds),
                                                                         showingSequence := true))
      {
        ghost var middle := rngSeed;
        var u := NextDraw();
        ConsumedInTurn(old(rngSeed), middle, rngSeed, ds, [u]);
        state := state.(minigame := state.minigame.(currentSequence := state.minigame.currentSequence + [KeywordFor(u)]));
        assert (ds + [u])[..|ds|] == ds;
        ds := ds + [u];
      }
    }

    /** The end of the timer `showSequence` starts: input is taken again. */
    method FinishShowingSequence()
      requires Valid() && state.minigame.Memory?
      modifies this
      ensures Valid()
      ensures state == old(state).(minigame := old(state.minigame).(showingSequence := false))
      ensures rngSeed == old(rngSeed)
    {
      state := state.(minigame := state.minigame.(showingSequence := false));
    }

    /** `processAction('addInput', value)`: ignored while the sequence is
        shown, otherwise the keyword is appended to the input. */
    method AddInput(value: string)
      requires Valid() && state.minigame.Memory?
      modifies this
      ensures Valid()
      ensures rngSeed == old(rngSeed)
      ensures old(state.minigame.showingSequence) ==> state == old(state)
      ensures !old(state.minigame.showingSequence) ==>
        state == old(state).(minigame := old(state.minigame).(playerInput := old(state.minigame.playerInput) + [value]))
    {
      if !state.minigame.showingSequence {
        state := state.(minigame := state.minigame.(playerInput := state.minigame.playerInput + [value]));
      }
    }

    /** `processAction('resetInput')`: ignored while the sequence is shown,
        otherwise the input is cleared. */
    method ResetInput()
      requires Valid() && state.minigame.Memory?
      modifies this
      ensures Valid()
      ensures rngSeed == old(rngSeed)
      ensures old(state.minigame.showingSequence) ==> state == old(state)
      ensures !old(state.minigame.showingSequence) ==>
        state == old(state).(minigame := old(state.minigame).(playerInput := []))
    {
      if !state.minigame.showingSequence {
        state := state.(minigame := state.minigame.(playerInput := []));
      }
    }

    /** `processAction('submitSequence')`: ignored while the sequence is
        shown. An input equal to the sequence scores 10 per keyword and moves
        to the next stage (whose sequence the timer shows later); any other
        input ends the game with the reward for the score so far. */
    method SubmitSequence() returns (accepted: bool)
      requires Valid() && state.minigame.Memory?
      modifies this
      ensures Valid()
      ensures rngSeed == old(rngSeed)
      ensures old(state.minigame.showingSequence) ==> state == old(state) && !accepted
      ensures !old(state.minigame.showingSequence) ==>
        var m := old(state.minigame);
        && (accepted <==> m.playerInput == m.currentSequence)
        && (accepted ==> state == old(state).(minigame := m.(score := m.score + 10 * |m.currentSequence|,
                                                               stage := m.stage + 1, playerInput := [])))
        && (!accepted ==> state == MinigameEnded(old(state), MemoryGameName, m.score))
    {
      var m := state.minigame;
      if m.showingSequence {
        return false;
      }
      SubmitCorrectIffEqual(m.currentSequence, m.playerInput);
      accepted := SubmitCorrect(m.currentSequence, m.playerInput);
      if accepted {
        state := state.(minigame := m.(score := m.score + |m.currentSequence| * 10, stage := m.stage + 1,
                                       playerInput := []));
      } else {
        state := MinigameEnded(state, MemoryGameName, m.score);
      }
    }

    /** `processAction('endGame')` of placeholder game `index`: its fixed
        reward, which does not depend on the score. */
    method EndPlaceholderGame(index: nat)
      requires Valid() && 1 <= index < |MinigameNames|
      modifies this
      ensures Valid()
      ensures rngSeed == old(rngSeed)
      ensures state == MinigameEnded(old(state), MinigameNames[index], PlaceholderScore(index))
      ensures state.leadership == old(state.leadership)
      ensures (index == 1 || index == 3) ==>
        state.efficiency == old(state.efficiency) && state.productivity == old(state.productivity)
      ensures (index == 2 || index == 4) ==>
        state.order == old(state.order) && state.responsibility == old(state.responsibility)
    {
      PlaceholderEndTouchesTwoStats(state, index, PlaceholderScore(index));
      state := MinigameEnded(state, MinigameNames[index], PlaceholderScore(index));
    }

    // ----- the day rollover (today-game.js:1238-1316, 1367-1450) -----

    /** The responsibility rule, one citizen and one draw at a time in the
        order of `citizens.forEach`. */
    method AdjustTrust() returns (ds: seq<Draw>)
      modifies this
      ensures |ds| == ResponsibilityRuleDraws(old(state)) && Consumed(old(rngSeed), rngSeed, ds)
      ensures state == ResponsibilityRule(old(state), ds)
    {
      ds := [];
      if 30 <= state.responsibility < 70 {
        return;
      }
      var n := |state.citizens|;
      while |ds| < n
        invariant |ds| <= n
        invariant Consumed(old(rngSeed), rngSeed, ds)
        invariant state == old(state).(citizens := state.citizens) && |state.citizens| == n
        invariant forall j :: 0 <= j < |ds| ==>
          state.citizens[j] == TrustUnderResponsibility(state.responsibility, old(state).citizens[j], ds[j])
        invariant forall j :: |ds| <= j < n ==> state.citizens[j] == old(state).citizens[j]
      {
        ghost var middle := rngSeed;
        var u := NextDraw();
        ConsumedInTurn(old(rngSeed), middle, rngSeed, ds, [u]);
        var i := |ds|;
        state := state.(citizens := state.citizens[i := TrustUnderResponsibility(state.responsibility, state.citizens[i], u)]);
        ds := ds + [u];
      }
      assert state.citizens == ResponsibilityRule(old(state), ds).citizens;
    }

    /** The efficiency, order and productivity rules of `applyStatEffects`. */
    method ApplyFirstRules() returns (d1: seq<Draw>, d2: seq<Draw>)
      modifies this
      ensures |d1| == EfficiencyRuleDraws(old(state)) && |d2| == ProductivityRuleDraws(old(state))
      ensures Consumed(old(rngSeed), rngSeed, d1 + d2)
      ensures state == ProductivityRule(OrderRule(EfficiencyRule(old(state), d1)), d2)
    {
      d1 := DrawMany(EfficiencyRuleDraws(state));
      state := EfficiencyRule(state, d1);
      state := OrderRule(state);
      ghost var middle := rngSeed;
      d2 := DrawMany(ProductivityRuleDraws(state));
      state := ProductivityRule(state, d2);
      ConsumedInTurn(old(rngSeed), middle, rngSeed, d1, d2);
    }

    /** The leadership rule of `applyStatEffects`: the efficiency draw and the
        chance draw, then the extra effect's draw when the chance hits. */
    method ApplyLeadershipRule() returns (d3: seq<Draw>)
      modifies this
      ensures 30 <= old(state.leadership) < 70 ==> d3 == []
      ensures !(30 <= old(state.leadership) < 70) ==> |d3| >= 2 && |d3| == LeadershipRuleDraws(old(state), d3[1])
      ensures Consumed(old(rngSeed), rngSeed, d3)
      ensures state == LeadershipRule(old(state), d3)
    {
      d3 := [];
      if state.leadership >= 70 || state.leadership < 30 {
        var first := DrawMany(2);
        ghost var middle := rngSeed;
        var extra := DrawMany(LeadershipRuleDraws(state, first[1]) - 2);
        ConsumedInTurn(old(rngSeed), middle, rngSeed, first, extra);
        d3 := first + extra;
      }
      state := LeadershipRule(state, d3);
    }

    /** `applyStatEffects`: the five rules in the source's order, each
        reading what the ones before it wrote, with their draws in turn. */
    method ApplyStatEffects() returns (d1: seq<Draw>, d2: seq<Draw>, d3: seq<Draw>, d4: seq<Draw>)
      modifies this
      ensures StatEffectsFit(old(state), d1, d2, d3, d4)
      ensures Consumed(old(rngSeed), rngSeed, d1 + d2 + d3 + d4)
      ensures state == StatEffects(old(state), d1, d2, d3, d4)
    {
      d1, d2 := ApplyFirstRules();
      ghost var seed3 := rngSeed;
      d3 := ApplyLeadershipRule();
      ConsumedInTurn(old(rngSeed), seed3, rngSeed, d1 + d2, d3);
      ghost var seed4 := rngSeed;
      d4 := AdjustTrust();
      ConsumedInTurn(old(rngSeed), seed4, rngSeed, d1 + d2 + d3, d4);
    }

    /** The skill bonus of `processDailyEvents`: each citizen adds one to the
        counter of its skill, so each counter grows by the number of
        citizens with that skill. */
    method ApplySkillBonuses()
      modifies this
      ensures rngSeed == old(rngSeed)
      ensures var cs := old(state.citizens); var r := old(state.resources);
        state == old(state).(resources := r.(administration := r.administration + CountSkill(cs, SkillAdministration),
                                             materials := r.materials + CountSkill(cs, SkillConstruction),
                                             labor := r.labor + CountSkill(cs, SkillProduction)))
    {
      var cs := state.citizens;
      var r := state.resources;
      var i := 0;
      while i < |cs|
        invariant 0 <= i <= |cs|
        invariant rngSeed == old(rngSeed)
        invariant state == old(state).(resources := r.(administration := r.administration + CountSkill(cs[..i], SkillAdministration),
                                                       materials := r.materials + CountSkill(cs[..i], SkillConstruction),
                                                       labor := r.labor + CountSkill(cs[..i], SkillProduction)))
      {
        assert cs[..i + 1][..i] == cs[..i];
        var skill := cs[i].skill;
        if skill == SkillAdministration {
          state := state.(resources := state.resources.(administration := state.resources.administration + 1));
        } else if skill == SkillConstruction {
          state := state.(resources := state.resources.(materials := state.resources.materials + 1));
        } else if skill == SkillProduction {
          state := state.(resources := state.resources.(labor := state.resources.labor + 1));
        }
        i := i + 1;
      }
      assert cs[..i] == cs;
    }

    /** The durability decay of `processDailyEvents`, facility by facility. */
    method DecayInfrastructure()
      modifies this
      ensures rngSeed == old(rngSeed)
      ensures state == old(state).(infrastructure := DecayedAll(old(state.infrastructure)))
    {
      var i := 0;
      while i < |AllFacilities|
        invariant 0 <= i <= |AllFacilities|
        invariant rngSeed == old(rngSeed)
        invariant state == old(state).(infrastructure := state.infrastructure)
        invariant forall f :: f in AllFacilities[..i] ==> state.infrastructure.Get(f) == Decayed(old(state.infrastructure).Get(f))
        invariant forall f :: f !in AllFacilities[..i] ==> state.infrastructure.Get(f) == old(state.infrastructure).Get(f)
      {
        var f := AllFacilities[i];
        assert AllFacilities[..i + 1] == AllFacilities[..i] + [f];
        state := state.(infrastructure := state.infrastructure.With(f, Decayed(state.infrastructure.Get(f))));
        i := i + 1;
      }
      assert AllFacilities[..i] == AllFacilities;
      var x, y := state.infrastructure, DecayedAll(old(state.infrastructure));
      assert x.warehouse == x.Get(Warehouse) == y.Get(Warehouse);
      assert x.factory == x.Get(Factory) == y.Get(Factory);
      assert x.cityHall == x.Get(CityHall) == y.Get(CityHall);
      assert x.planningDept == x.Get(PlanningDept) == y.Get(PlanningDept);
      assert x.researchInstitute == x.Get(ResearchInstitute) == y.Get(ResearchInstitute);
    }

    /** The fixed part of the rollover after the stat effects, step by
        step: skill bonuses, decay, two budget per citizen of upkeep, a
        penalty of 10 efficiency when that leaves the budget negative, and
        the game-over check. */
    method DailyUpkeep()
      modifies this
      ensures rngSeed == old(rngSeed)
      ensures state == Upkeep(old(state))
    {
      ApplySkillBonuses();
      DecayInfrastructure();
      state := state.(resources := state.resources.(budget := state.resources.budget - |state.citizens| * 2));
      if state.resources.budget < 0 {
        state := state.(efficiency := state.efficiency - 10);
      }
      var over := GameOverScenario(state);
      if over.Some? {
        state := state.(currentScenarioId := over.value);
      }
    }

    /** The event draw of `processDailyEvents`: pick an applicable event by
        weight, run its `onTrigger`, and show it. */
    method TriggerDailyEvent(newcomerId: string) returns (u: Draw, event: nat, ds: seq<Draw>)
      modifies this
      ensures IsChoice(DailyEventCandidates(old(state)), u, event) && event < |DailyEvents|
      ensures |ds| == DailyEventDrawCounts[event] && Consumed(old(rngSeed), rngSeed, [u] + ds)
      ensures state == DailyEventEffect(old(state), event, ds, newcomerId).(currentScenarioId := EventId(DailyEvents[event]))
    {
      var s := state;
      assert DailyEventCandidates(s)[0].applicable;
      u, event, ds := Decide(DailyEventCandidates(s), DailyEventDrawCounts);
      DailyEventChoiceHolds(s, u, event);
      state := DailyEventEffect(s, event, ds, newcomerId).(currentScenarioId := EventId(DailyEvents[event]));
    }

    /** The start of `processDailyEvents` after its guard: reseed the
        generator with the day's seed plus the day, reset the points, the
        daily flags and the bonus, and apply the stat effects, whose draws
        are d1 to d4. */
    method BeginDay(dailySeed: int) returns (d1: seq<Draw>, d2: seq<Draw>, d3: seq<Draw>, d4: seq<Draw>)
      modifies this
      ensures StatEffectsFit(DayStarted(old(state)), d1, d2, d3, d4)
      ensures DayStream(dailySeed, old(state.day), rngSeed, d1 + d2 + d3 + d4)
      ensures state == StatEffects(DayStarted(old(state)), d1, d2, d3, d4)
      ensures state == old(state).(efficiency := state.efficiency, order := state.order,
                                   leadership := state.leadership, responsibility := state.responsibility,
                                   actionPoints := state.actionPoints, maxActionPoints := state.maxActionPoints,
                                   managementBonus := state.managementBonus, citizens := state.citizens,
                                   resources := old(state.resources).(administration := state.resources.administration),
                                   dailyActions := NoDailyActions, dailyEventTriggered := true)
      ensures |state.citizens| == |old(state.citizens)|
      ensures Between(state.maxActionPoints, 9, 11)
      ensures Between(state.actionPoints, state.maxActionPoints - 1, state.maxActionPoints)
      ensures Between(state.managementBonus, 0, 1)
    {
      rngSeed := SeedOf(dailySeed + state.day);
      state := DayStarted(state);
      ghost var fresh0 := state;
      d1, d2, d3, d4 := ApplyStatEffects();
      StatEffectsBounds(fresh0, d1, d2, d3, d4);
    }

    /** `processDailyEvents`: once per day, reseed the generator with the
        day's seed plus the day, start the day afresh, apply the stat
        effects and the upkeep, then draw the day's event, whose id is the
        scenario shown; a game-over id the check wrote is replaced by it.
        All the draws of the rollover come from that seed, in the order
        `AllDraws` lists them. */
    method ProcessDailyEvents(dailySeed: int, newcomerId: string) returns (ran: bool, draws: DayDraws, ds: seq<Draw>)
      requires Valid()
      modifies this
      ensures Valid()
      ensures ran <==> !old(state.dailyEventTriggered)
      ensures !ran ==> state == old(state) && rngSeed == old(rngSeed)
      ensures ran ==>
        && RolloverFits(old(state), draws)
        && ds == AllDraws(draws) && DayStream(dailySeed, old(state.day), rngSeed, ds)
        && state == Rollover(old(state), draws, newcomerId)
      ensures ran ==>
        && state.dailyEventTriggered && state.dailyActions == NoDailyActions
        && Between(state.maxActionPoints, 9, 11)
        && Between(state.actionPoints, state.maxActionPoints - 1, state.maxActionPoints)
        && Between(state.managementBonus, 0, 1)
        && state.day == old(state.day) && state.lastPlayedDate == old(state.lastPlayedDate)
        && state.manualDayAdvances == old(state.manualDayAdvances) && state.maxCitizens == old(state.maxCitizens)
        && state.cityLevel == old(state.cityLevel) && state.minigame == old(state.minigame)
        && |state.citizens| == |old(state.citizens)|
        && (forall f :: state.infrastructure.Get(f) == Decayed(old(state.infrastructure).Get(f)))
        && draws.event < |DailyEvents| && state.currentScenarioId == EventId(DailyEvents[draws.event])
        && !IsGameOverId(state.currentScenarioId)
    {
      ran, draws, ds := false, DayDraws([], [], [], [], 0, 0, []), [];
      if state.dailyEventTriggered {
        return;
      }
      ran := true;
      ghost var s0 := state;
      var d1, d2, d3, d4 := BeginDay(dailySeed);
      DailyUpkeep();
      ghost var seed1 := rngSeed;
      var u, event, d5 := TriggerDailyEvent(newcomerId);
      draws := DayDraws(d1, d2, d3, d4, u, event, d5);
      ds := AllDraws(draws);
      DayStreamInTurn(dailySeed, s0.day, seed1, rngSeed, d1 + d2 + d3 + d4, [u] + d5);
      RolloverBounds(s0, draws, newcomerId);
    }

    /** `manualNextDay`: at most five times between two real days, move to
        the next day and run its rollover. */
    method ManualNextDay(dailySeed: int, today: string, newcomerId: string)
      returns (advanced: bool, draws: DayDraws, ds: seq<Draw>)
      requires Valid()
      modifies this
      ensures Valid()
      ensures advanced <==> old(state.manualDayAdvances) < 5
      ensures !advanced ==> state == old(state) && rngSeed == old(rngSeed)
      ensures advanced ==>
        var s := Advanced(old(state), today);
        && RolloverFits(s, draws)
        && ds == AllDraws(draws) && DayStream(dailySeed, state.day, rngSeed, ds)
        && state == Rollover(s, draws, newcomerId)
      ensures advanced ==>
        && state.day == old(state.day) + 1 && state.manualDayAdvances == old(state.manualDayAdvances) + 1
        && state.lastPlayedDate == today
        && state.dailyEventTriggered && state.dailyActions == NoDailyActions
        && Between(state.actionPoints, state.maxActionPoints - 1, state.maxActionPoints)
        && draws.event < |DailyEvents| && state.currentScenarioId == EventId(DailyEvents[draws.event])
    {
      advanced, draws, ds := false, DayDraws([], [], [], [], 0, 0, []), [];
      if state.manualDayAdvances >= 5 {
        return;
      }
      advanced := true;
      state := Advanced(state, today);
      var ran;
      ran, draws, ds := ProcessDailyEvents(dailySeed, newcomerId);
    }

    /** `loadGameState` with a saved game: the generator is seeded for the
        saved day; on a new date the day advances, the manual advances
        reset and the rollover runs with the new day's seed. */
    method OpenSavedGame(dailySeed: int, today: string, newcomerId: string)
      returns (newDay: bool, draws: DayDraws, ds: seq<Draw>)
      requires Valid()
      modifies this
      ensures Valid()
      ensures newDay <==> old(state.lastPlayedDate) != today
      ensures !newDay ==> state == old(state) && rngSeed == SeedOf(dailySeed + state.day)
      ensures newDay ==>
        var s := Reopened(old(state), today);
        && RolloverFits(s, draws)
        && ds == AllDraws(draws) && DayStream(dailySeed, state.day, rngSeed, ds)
        && state == Rollover(s, draws, newcomerId)
      ensures newDay ==>
        && state.day == old(state.day) + 1 && state.manualDayAdvances == 0 && state.lastPlayedDate == today
        && state.dailyEventTriggered && state.dailyActions == NoDailyActions
        && Between(state.actionPoints, state.maxActionPoints - 1, state.maxActionPoints)
        && draws.event < |DailyEvents| && state.currentScenarioId == EventId(DailyEvents[draws.event])
    {
      newDay, draws, ds := false, DayDraws([], [], [], [], 0, 0, []), [];
      rngSeed := SeedOf(dailySeed + state.day);
      if state.lastPlayedDate == today {
        return;
      }
      newDay := true;
      state := Reopened(state, today);
      var ran;
      ran, draws, ds := ProcessDailyEvents(dailySeed, newcomerId);
    }

    /** `loadGameState` without a saved game: a fresh game whose first
        rollover runs at once, on day 1. */
    method StartNewGame(dailySeed: int, today: string, newcomerId: string) returns (draws: DayDraws, ds: seq<Draw>)
      modifies this
      ensures Valid()
      ensures RolloverFits(InitialState(today), draws)
      ensures ds == AllDraws(draws) && DayStream(dailySeed, 1, rngSeed, ds)
      ensures state == Rollover(InitialState(today), draws, newcomerId)
      ensures state.day == 1 && state.lastPlayedDate == today && state.manualDayAdvances == 0
      ensures state.dailyEventTriggered && state.dailyActions == NoDailyActions
      ensures |state.citizens| == 2 && state.minigame == NoMinigame
      ensures draws.event < |DailyEvents| && state.currentScenarioId == EventId(DailyEvents[draws.event])
    {
      state := InitialState(today);
      rngSeed := SeedOf(dailySeed + 1);
      var ran;
      ran, draws, ds := ProcessDailyEvents(dailySeed, newcomerId);
    }
  }
}
