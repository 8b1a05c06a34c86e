/** The Korean particles the game appends to a name (today-game.js:25-39):
    the object particle 을/를 and the conjunction particle 와/과. The longer
    form follows a syllable that ends in a final consonant.

    A precomposed Hangul syllable is U+AC00 + (L * 21 + V) * 28 + T, with an
    initial consonant L < 19, a vowel V < 21 and a final consonant T < 28,
    T = 0 meaning none (the Unicode Standard, section 3.12, Conjoining Jamo
    Behavior). The source reads T back as (code - 0xAC00) % 28.

    JavaScript reads the last UTF-16 code unit of the word; the model reads
    the last character. They agree: a character outside the Basic
    Multilingual Plane ends in a low surrogate, which is outside the syllable
    block just as the character itself is. */
module Particles {

  /** First and last code points of the precomposed Hangul syllables. */
  const SyllableBase: int := 0xAC00
  const SyllableLast: int := 0xD7A3

  /** The number of final consonants, the null one included. */
  const FinalCount: int := 28

  /** Whether a character is a precomposed Hangul syllable. */
  predicate IsSyllable(c: char)
  {
    SyllableBase <= c as int <= SyllableLast
  }

  /** The source's final-consonant index: (code - 0xAC00) % 28. */
  function FinalIndex(c: char): int
  {
    (c as int - SyllableBase) % FinalCount
  }

  /** Shared shape of both helpers: "" for an empty word, the plain form after
      a character that is not a syllable, and otherwise the form chosen by
      whether the final-consonant index is positive. */
  function ParticleFor(word: string, withFinal: string, withoutFinal: string): (r: string)
    ensures |word| == 0 ==> r == ""
    ensures |word| > 0 ==> r == withFinal || r == withoutFinal
    ensures |word| > 0 && r == withFinal && withFinal != withoutFinal ==> IsSyllable(word[|word| - 1])
  {
    if |word| == 0 then ""
    else
      var last := word[|word| - 1];
      if !IsSyllable(last) then withoutFinal
      else if FinalIndex(last) > 0 then withFinal else withoutFinal
  }

  /** `getEulReParticle`: 을 after a final consonant, 를 otherwise. */
  function EulReParticle(word: string): (r: string)
    ensures r == "" <==> |word| == 0
    ensures |word| > 0 ==> r == "을" || r == "를"
  {
    ParticleFor(word, "을", "를")
  }

  /** `getWaGwaParticle`: 과 after a final consonant, 와 otherwise. */
  function WaGwaParticle(word: string): (r: string)
    ensures r == "" <==> |word| == 0
    ensures |word| > 0 ==> r == "과" || r == "와"
  {
    ParticleFor(word, "과", "와")
  }

  /** The syllable with initial l, vowel v and final t, composed the way
      section 3.12 of the Unicode Standard defines it. */
  function Compose(l: nat, v: nat, t: nat): (c: char)
    requires l < 19 && v < 21 && t < 28
    ensures IsSyllable(c)
  {
    (SyllableBase + (l * 21 + v) * 28 + t) as char
  }

  /** The source's arithmetic recovers the final consonant of a composed syllable. */
  lemma FinalIndexOfCompose(l: nat, v: nat, t: nat)
    requires l < 19 && v < 21 && t < 28
    ensures FinalIndex(Compose(l, v, t)) == t
  {
    var lv := l * 21 + v;
    assert Compose(l, v, t) as int - SyllableBase == lv * 28 + t;
    assert (lv * 28 + t) % 28 == t;
  }

  /** Every character of the syllable block is a composed syllable, so the
      rule below covers the whole block. */
  lemma SyllableDecomposes(c: char)
    requires IsSyllable(c)
    ensures exists l: nat, v: nat, t: nat :: l < 19 && v < 21 && t < 28 && Compose(l, v, t) == c
  {
    var s := c as int - SyllableBase;
    var t := s % 28;
    var lv := s / 28;
    var l := lv / 21;
    var v := lv % 21;
    assert s == lv * 28 + t;
    assert lv == l * 21 + v;
    assert lv < 399;
    assert Compose(l, v, t) == c;
  }

  /** 을/를 follows the final consonant: for a word ending in the syllable
      (l, v, t) it is 을 exactly when there is a final consonant. */
  lemma EulReFollowsFinalConsonant(word: string, l: nat, v: nat, t: nat)
    requires l < 19 && v < 21 && t < 28
    requires |word| > 0 && word[|word| - 1] == Compose(l, v, t)
    ensures EulReParticle(word) == (if t > 0 then "을" else "를")
  {
    FinalIndexOfCompose(l, v, t);
  }

  /** 와/과 follows the final consonant: for a word ending in the syllable
      (l, v, t) it is 과 exactly when there is a final consonant. */
  lemma WaGwaFollowsFinalConsonant(word: string, l: nat, v: nat, t: nat)
    requires l < 19 && v < 21 && t < 28
    requires |word| > 0 && word[|word| - 1] == Compose(l, v, t)
    ensures WaGwaParticle(word) == (if t > 0 then "과" else "와")
  {
    FinalIndexOfCompose(l, v, t);
  }

  /** The cases of the source, stated on the result: nothing for an empty
      word, the plain form after a non-syllable, and for a syllable the long
      form exactly when (code - 0xAC00) % 28 > 0. */
  lemma ParticleCases(word: string)
    ensures |word| == 0 ==> EulReParticle(word) == "" && WaGwaParticle(word) == ""
    ensures |word| > 0 && !IsSyllable(word[|word| - 1]) ==>
      EulReParticle(word) == "를" && WaGwaParticle(word) == "와"
    ensures |word| > 0 && IsSyllable(word[|word| - 1]) ==>
      (EulReParticle(word) == "을" <==> FinalIndex(word[|word| - 1]) > 0) &&
      (WaGwaParticle(word) == "과" <==> FinalIndex(word[|word| - 1]) > 0) &&
      (EulReParticle(word) == "를" <==> FinalIndex(word[|word| - 1]) == 0) &&
      (WaGwaParticle(word) == "와" <==> FinalIndex(word[|word| - 1]) == 0)
  {}

  /** Both helpers always agree on whether the word ends in a final consonant. */
  lemma ParticlesAgree(word: string)
    ensures EulReParticle(word) == "을" <==> WaGwaParticle(word) == "과"
  {}
}
