/** Weighted outcome selection, the algorithm the game writes out four times
    (today-game.js:809-821, 831-843, 851-863 and 1424-1444): keep the
    candidates whose condition holds, add up their weights, scale one draw
    by that total, and take the first kept candidate whose running sum of
    weights exceeds the scaled draw.

    A table is modelled as a sequence of (applicable, weight) pairs, one per
    entry of the source's array, in the source's order. Skipping the entries
    that are not applicable is the same as walking the filtered array, so a
    choice is reported as an index into the whole table. */
module Selection {
  import opened Random

  /** One entry of an outcome table: whether its condition holds now, and its weight. */
  datatype Candidate = Candidate(applicable: bool, weight: nat)

  /** What a selection yields: the index of the chosen entry, or nothing,
      the case in which the source falls back (or, for daily events, keeps "intro"). */
  datatype Choice = Chosen(index: nat) | NoneChosen

  /** The running sum of the weights of the applicable entries among the first n. */
  function CumulativeWeight(cs: seq<Candidate>, n: nat): nat
    requires n <= |cs|
  {
    if n == 0 then 0
    else CumulativeWeight(cs, n - 1) + (if cs[n - 1].applicable then cs[n - 1].weight else 0)
  }

  /** `totalWeight`: the sum of the weights of the applicable entries. */
  function TotalWeight(cs: seq<Candidate>): nat
  {
    CumulativeWeight(cs, |cs|)
  }

  /** `rand < cumulativeWeight` at entry i, with rand = u / 2^32 * totalWeight,
      multiplied out by 2^32 (see ScaledDrawBelowIsReal). */
  predicate Exceeds(cs: seq<Candidate>, u: Draw, i: nat)
    requires i < |cs|
  {
    u * TotalWeight(cs) < CumulativeWeight(cs, i + 1) * TwoTo32
  }

  /** Entry i is the one the source picks for draw u: it is applicable, the
      running sum exceeds the scaled draw there, and at no applicable entry
      before it. */
  predicate IsChoice(cs: seq<Candidate>, u: Draw, i: nat)
  {
    && i < |cs|
    && cs[i].applicable
    && Exceeds(cs, u, i)
    && forall j :: 0 <= j < i && cs[j].applicable ==> !Exceeds(cs, u, j)
  }

  /** The selection loop: sum the applicable weights, then walk the entries
      with a running sum and stop at the first applicable entry whose running
      sum exceeds the scaled draw. */
  method SelectWeighted(cs: seq<Candidate>, u: Draw) returns (r: Choice)
    ensures r.Chosen? ==> IsChoice(cs, u, r.index)
    ensures r.NoneChosen? <==> forall j :: 0 <= j < |cs| && cs[j].applicable ==> !Exceeds(cs, u, j)
  {
    var total := 0;
    var i := 0;
    while i < |cs|
      invariant 0 <= i <= |cs|
      invariant total == CumulativeWeight(cs, i)
    {
      if cs[i].applicable {
        total := total + cs[i].weight;
      }
      i := i + 1;
    }
    var cumulative := 0;
    i := 0;
    while i < |cs|
      invariant 0 <= i <= |cs|
      invariant cumulative == CumulativeWeight(cs, i)
      invariant forall j :: 0 <= j < i && cs[j].applicable ==> !Exceeds(cs, u, j)
    {
      if cs[i].applicable {
        cumulative := cumulative + cs[i].weight;
        if u * total < cumulative * TwoTo32 {
          return Chosen(i);
        }
      }
      i := i + 1;
    }
    return NoneChosen;
  }

  /** The integer test is the source's real one: u * total < cum * 2^32
      exactly when (u / 2^32) * total < cum. */
  lemma ScaledDrawBelowIsReal(u: Draw, total: nat, cum: nat)
    ensures u * total < cum * TwoTo32 <==> (u as real / TwoTo32 as real) * (total as real) < cum as real
  {
    var x := (u as real / TwoTo32 as real) * (total as real);
    assert x * (TwoTo32 as real) == (u * total) as real;
  }

  /** Running sums never decrease along the table. */
  lemma {:induction false} CumulativeMonotone(cs: seq<Candidate>, m: nat, n: nat)
    requires m <= n <= |cs|
    ensures CumulativeWeight(cs, m) <= CumulativeWeight(cs, n)
    decreases n - m
  {
    if m < n {
      CumulativeMonotone(cs, m, n - 1);
    }
  }

  /** Entries that are not applicable do not move the running sum. */
  lemma {:induction false} CumulativeSkipsInapplicable(cs: seq<Candidate>, m: nat, n: nat)
    requires m <= n <= |cs|
    requires forall j :: m <= j < n ==> !cs[j].applicable
    ensures CumulativeWeight(cs, n) == CumulativeWeight(cs, m)
    decreases n - m
  {
    if m < n {
      CumulativeSkipsInapplicable(cs, m, n - 1);
    }
  }

  /** The bracket reading of the choice: entry i is chosen for draw u exactly
      when it is applicable and the scaled draw lies in
      [running sum before i, running sum after i). */
  lemma ChoiceIsBracket(cs: seq<Candidate>, u: Draw, i: nat)
    requires i < |cs|
    ensures IsChoice(cs, u, i) <==>
      && cs[i].applicable
      && CumulativeWeight(cs, i) * TwoTo32 <= u * TotalWeight(cs)
      && u * TotalWeight(cs) < CumulativeWeight(cs, i + 1) * TwoTo32
  {
    var scaled := u * TotalWeight(cs);
    if IsChoice(cs, u, i) {
      // the running sum before i is the one after the last applicable entry before i
      var k := i;
      while k > 0 && !cs[k - 1].applicable
        invariant 0 <= k <= i
        invariant forall j :: k <= j < i ==> !cs[j].applicable
        decreases k
      {
        k := k - 1;
      }
      CumulativeSkipsInapplicable(cs, k, i);
      if k > 0 {
        assert !Exceeds(cs, u, k - 1);
      }
    }
    if cs[i].applicable && CumulativeWeight(cs, i) * TwoTo32 <= scaled
       && scaled < CumulativeWeight(cs, i + 1) * TwoTo32 {
      forall j | 0 <= j < i && cs[j].applicable
        ensures !Exceeds(cs, u, j)
      {
        CumulativeMonotone(cs, j + 1, i);
        MulMonotone(CumulativeWeight(cs, j + 1), CumulativeWeight(cs, i), TwoTo32);
      }
    }
  }

  /** With a positive total weight the walk always stops at some entry: the
      fallback after the loop is never reached. */
  lemma ChoiceExists(cs: seq<Candidate>, u: Draw)
    requires TotalWeight(cs) > 0
    ensures exists i :: IsChoice(cs, u, i)
  {
    var total := TotalWeight(cs);
    assert u * total < total * TwoTo32 by {
      MulStrict(u, TwoTo32, total);
    }
    // the first applicable entry whose running sum exceeds the scaled draw
    var i := 0;
    while i < |cs| && !(cs[i].applicable && Exceeds(cs, u, i))
      invariant 0 <= i <= |cs|
      invariant forall j :: 0 <= j < i && cs[j].applicable ==> !Exceeds(cs, u, j)
      invariant u * total < total * TwoTo32
      invariant CumulativeWeight(cs, i) * TwoTo32 <= u * total
      decreases |cs| - i
    {
      i := i + 1;
    }
    assert i < |cs|;
    assert IsChoice(cs, u, i);
  }

  /** One applicable entry with a positive weight is enough for the walk to
      stop at some entry, whatever the draw. */
  lemma PositiveEntryMakesChoice(cs: seq<Candidate>, u: Draw, k: nat)
    requires k < |cs| && cs[k].applicable && cs[k].weight > 0
    ensures exists i :: IsChoice(cs, u, i)
  {
    CumulativeMonotone(cs, k + 1, |cs|);
    ChoiceExists(cs, u);
  }

  /** Only one entry can be the choice for a given draw. */
  lemma ChoiceUnique(cs: seq<Candidate>, u: Draw, i: nat, j: nat)
    requires IsChoice(cs, u, i) && IsChoice(cs, u, j)
    ensures i == j
  {}

  /** A lone applicable entry with a positive weight is chosen for every draw. */
  lemma LoneCandidateChosen(cs: seq<Candidate>, u: Draw, k: nat)
    requires k < |cs| && cs[k].applicable && cs[k].weight > 0
    requires forall j :: 0 <= j < |cs| && j != k ==> !cs[j].applicable
    ensures IsChoice(cs, u, k)
  {
    CumulativeSkipsInapplicable(cs, 0, k);
    CumulativeSkipsInapplicable(cs, k + 1, |cs|);
    assert TotalWeight(cs) == cs[k].weight;
    MulStrict(u, TwoTo32, cs[k].weight);
  }
}
