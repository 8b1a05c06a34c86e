/** The rules of "today's decision", the daily minigame: the reward table
    `calculateMinigameReward` (today-game.js:551-599), the keyword memory
    game's sequence and submit check (today-game.js:601-680), and the start
    scores of the four placeholder games (today-game.js:697-792). */
module Minigame {
  import opened Random
  import opened Particles

  /** The names of the five games, in the order of `minigames`; the game of
      day d is the one at (d - 1) % 5. */
  const MemoryGameName: string := "보고서 핵심 내용 맞추기"
  const BudgetGameName: string := "예산 분배 시뮬레이션"
  const ProcessGameName: string := "업무 프로세스 개선"
  const QuizGameName: string := "규정 준수 퀴즈"
  const PuzzleGameName: string := "자원 최적화 퍼즐"
  const MinigameNames: seq<string> := [MemoryGameName, BudgetGameName, ProcessGameName, QuizGameName, PuzzleGameName]

  /** The fixed score each placeholder game's `start` records (games 1 to 4). */
  function PlaceholderScore(index: nat): (r: int)
    ensures 1 <= index <= 4 ==> 10 <= r <= 25
  {
    5 + 5 * index
  }

  /** What a finished game adds to the five stats, and the message shown. */
  datatype Reward = Reward(efficiency: int, order: int, productivity: int, leadership: int,
                           responsibility: int, message: string)

  /** `calculateMinigameReward(name, score)`: four score tiers for the memory
      game, a fixed row for each placeholder game, and nothing (with a
      generic message) for any other name. */
  function MinigameReward(name: string, score: int): (r: Reward)
    ensures name != MemoryGameName ==>
      r.efficiency + r.order + r.productivity + r.leadership + r.responsibility == (if name in MinigameNames then 3 else 0)
  {
    if name == MemoryGameName then
      if score >= 51 then Reward(15, 10, 5, 5, 0, "최고의 보고서 분석가가 되셨습니다! (+15 효율, +10 질서, +5 생산성, +5 리더십)")
      else if score >= 21 then Reward(10, 5, 3, 0, 0, "훌륭한 보고서 분석입니다! (+10 효율, +5 질서, +3 생산성)")
      else if score >= 0 then Reward(5, 0, 0, 0, 0, "보고서 핵심 내용 맞추기를 완료했습니다. (+5 효율)")
      else Reward(0, 0, 0, 0, 0, "보고서 핵심 내용 맞추기를 완료했지만, 아쉽게도 보상은 없습니다.")
    else if name == BudgetGameName then Reward(0, 2, 0, 0, 1, "예산 분배 시뮬레이션을 완료했습니다. (+2 질서, +1 책임감)")
    else if name == ProcessGameName then Reward(2, 0, 1, 0, 0, "업무 프로세스 개선을 완료했습니다. (+2 효율, +1 생산성)")
    else if name == QuizGameName then Reward(0, 1, 0, 0, 2, "규정 준수 퀴즈를 완료했습니다. (+2 책임감, +1 질서)")
    else if name == PuzzleGameName then Reward(1, 0, 2, 0, 0, "자원 최적화 퍼즐을 완료했습니다. (+2 생산성, +1 효율)")
    else Reward(0, 0, 0, 0, 0, "미니게임 " + name + EulReParticle(name) + " 완료했습니다.")
  }

  /** No game ever takes a stat away, and no reward exceeds 15. */
  lemma RewardBounded(name: string, score: int)
    ensures var r := MinigameReward(name, score);
      && 0 <= r.efficiency <= 15 && 0 <= r.order <= 10 && 0 <= r.productivity <= 5
      && 0 <= r.leadership <= 5 && 0 <= r.responsibility <= 2
  {
    if name == MemoryGameName {
      MemoryRewardPositiveIffScored(score);
    } else if name !in MinigameNames {
      UnknownGameEarnsNothing(name, score);
    }
  }

  /** A higher memory-game score never earns less of any stat. */
  lemma MemoryRewardMonotone(low: int, high: int)
    requires low <= high
    ensures var a := MinigameReward(MemoryGameName, low);
            var b := MinigameReward(MemoryGameName, high);
      && a.efficiency <= b.efficiency && a.order <= b.order && a.productivity <= b.productivity
      && a.leadership <= b.leadership && a.responsibility <= b.responsibility
  {}

  /** The memory game pays something exactly when the score is not negative,
      and never pays responsibility. */
  lemma MemoryRewardPositiveIffScored(score: int)
    ensures MinigameReward(MemoryGameName, score).efficiency > 0 <==> score >= 0
    ensures MinigameReward(MemoryGameName, score).responsibility == 0
  {}

  /** A placeholder game's reward does not depend on the score, and only the
      two stats its `end` writes can be non-zero, so adding all five rewards
      is the same as adding those two. */
  lemma PlaceholderRewardsOnlyTheirStats(index: nat, low: int, high: int)
    requires 1 <= index < |MinigameNames|
    ensures MinigameReward(MinigameNames[index], low) == MinigameReward(MinigameNames[index], high)
    ensures var r := MinigameReward(MinigameNames[index], low);
      && r.leadership == 0
      && (index == 1 ==> r.efficiency == 0 && r.productivity == 0)
      && (index == 2 ==> r.order == 0 && r.responsibility == 0)
      && (index == 3 ==> r.efficiency == 0 && r.productivity == 0)
      && (index == 4 ==> r.order == 0 && r.responsibility == 0)
  {}

  /** A name that is not a game earns nothing; its message names it with
      the object particle that fits it. */
  lemma UnknownGameEarnsNothing(name: string, score: int)
    requires name !in MinigameNames
    ensures var r := MinigameReward(name, score);
      && r.efficiency == 0 && r.order == 0 && r.productivity == 0 && r.leadership == 0 && r.responsibility == 0
      && r.message == "미니게임 " + name + EulReParticle(name) + " 완료했습니다."
  {}

  // ----- the keyword memory game -----

  /** The keywords `showSequence` draws from. */
  const Keywords: seq<string> := ["예산", "효율", "생산", "질서", "리더", "책임", "시민", "인프라", "정책", "성과"]

  /** `keywords[Math.floor(currentRandFn() * keywords.length)]` for the draw u. */
  function KeywordFor(u: Draw): (k: string)
    ensures k in Keywords
  {
    IndexIsFloor(u, |Keywords|);
    Keywords[IndexOf(u, |Keywords|)]
  }

  /** The sequence shown for the draws d, one keyword per draw. */
  function KeywordSequence(d: seq<Draw>): (r: seq<string>)
    ensures |r| == |d|
    ensures forall i :: 0 <= i < |r| ==> r[i] in Keywords
  {
    if |d| == 0 then [] else KeywordSequence(d[..|d| - 1]) + [KeywordFor(d[|d| - 1])]
  }

  /** The i-th keyword shown is the one the i-th draw picks. */
  lemma {:induction false} KeywordSequencePointwise(d: seq<Draw>)
    ensures forall i :: 0 <= i < |d| ==> KeywordSequence(d)[i] == KeywordFor(d[i])
  {
    if |d| > 0 {
      KeywordSequencePointwise(d[..|d| - 1]);
    }
  }

  /** How many keywords a stage shows. */
  function SequenceLength(stage: int): int
  {
    stage + 2
  }

  /** `currentSequence.every((kw, i) => kw === playerInput[i])`: reading past
      the end of the input gives `undefined`, which matches no keyword. */
  predicate AllMatch(sequence: seq<string>, input: seq<string>)
  {
    forall i :: 0 <= i < |sequence| ==> i < |input| && sequence[i] == input[i]
  }

  /** The submit test: every keyword matched and the lengths agree. */
  predicate SubmitCorrect(sequence: seq<string>, input: seq<string>)
  {
    AllMatch(sequence, input) && |input| == |sequence|
  }

  /** A submission is accepted exactly when the input is the sequence shown:
      a longer input, a shorter one, or one wrong keyword is refused. */
  lemma SubmitCorrectIffEqual(sequence: seq<string>, input: seq<string>)
    ensures SubmitCorrect(sequence, input) <==> input == sequence
  {
    if SubmitCorrect(sequence, input) {
      assert forall i :: 0 <= i < |input| ==> input[i] == sequence[i];
    }
  }

  /** The score after clearing n stages in a row from stage 1: stage j shows
      j + 2 keywords and is worth 10 points per keyword. */
  function ScoreAfterStages(n: nat): nat
  {
    if n == 0 then 0 else ScoreAfterStages(n - 1) + 10 * SequenceLength(n)
  }

  /** The closed form of that score: 5n(n + 5). */
  lemma {:induction false} ScoreAfterStagesClosedForm(n: nat)
    ensures ScoreAfterStages(n) == 5 * n * (n + 5)
  {
    if n > 0 {
      ScoreAfterStagesClosedForm(n - 1);
      assert 5 * (n - 1) * (n - 1 + 5) + 10 * (n + 2) == 5 * n * (n + 5);
    }
  }

  /** What a run is worth: failing the first stage still earns the lowest
      tier (score 0), clearing one stage (30 points) the middle tier, and
      clearing two or more (70 points or more) the top tier. */
  lemma MemoryRewardByStages(n: nat)
    ensures n == 0 ==> MinigameReward(MemoryGameName, ScoreAfterStages(n)).efficiency == 5
    ensures n == 1 ==> MinigameReward(MemoryGameName, ScoreAfterStages(n)).efficiency == 10
    ensures n >= 2 ==> MinigameReward(MemoryGameName, ScoreAfterStages(n)).efficiency == 15
  {
    ScoreAfterStagesClosedForm(n);
    if n >= 2 {
      assert 5 * n * (n + 5) >= 5 * 2 * (n + 5);
    }
  }
}
