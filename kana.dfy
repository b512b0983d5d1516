/**
  Kana detection (core.py `is_kana`): a spelling is kana-only when each of
  its code points lies in the Hiragana block U+3040..U+309F or in the
  Katakana block U+30A0..U+30FF.
 */
module Kana {

  predicate IsKanaChar(c: char)
  {
    ('\U{3040}' <= c <= '\U{309F}') || ('\U{30A0}' <= c <= '\U{30FF}')
  }

  /** The scan of `is_kana`: skip kana characters, stop with false at the first other one. */
  predicate IsKana(word: string)
  {
    if word == [] then true
    else if IsKanaChar(word[0]) then IsKana(word[1..])
    else false
  }

  /** `is_kana` holds exactly when every character is kana; the empty spelling counts as kana. */
  lemma {:induction false} IsKanaIffAllKana(word: string)
    ensures IsKana(word) <==> forall i :: 0 <= i < |word| ==> IsKanaChar(word[i])
  {
    if word != [] {
      IsKanaIffAllKana(word[1..]);
      assert forall i :: 1 <= i < |word| ==> word[i] == word[1..][i - 1];
      assert forall i :: 0 <= i < |word[1..]| ==> word[1..][i] == word[i + 1];
    }
  }

  /** Appending a non-kana character anywhere makes the spelling non-kana. */
  lemma NonKanaCharSpoils(a: string, c: char, b: string)
    requires !IsKanaChar(c)
    ensures !IsKana(a + [c] + b)
  {
    IsKanaIffAllKana(a + [c] + b);
    assert (a + [c] + b)[|a|] == c;
  }

  /** Hiragana and katakana words are kana; a word with a kanji is not. */
  lemma KanaExamples()
    ensures IsKana("ひらがな")
    ensures IsKana("カタカナ")
    ensures !IsKana("食べる")
  {
    IsKanaIffAllKana("ひらがな");
    IsKanaIffAllKana("カタカナ");
    assert !IsKanaChar("食べる"[0]);
  }
}
