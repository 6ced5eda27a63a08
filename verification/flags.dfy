/**
 * The 64-bit option flag word of opt_t and the `yes_or_no` setter that
 * the long options `--secondary`, `--skip-unreadable`, `--print-*`,
 * `--disable-cuda` and `--debug-break` use to set or clear their bit.
 *
 * A 64-bit word is represented by the set of positions of its 1 bits, so
 * `w | m` is `w + m`, `w & ~m` is `w - m`, and `w & m` is `w * m`.
 */
module Flags {

  /** The named flags of opt_t. Their bit values are defined in a header
      that is not part of this model, so they are a parameter (`Layout`). */
  datatype FlagName =
    | SecondaryYes
    | SkipUnreadable
    | PrintEvents
    | PrintBandedAln
    | PrintScaling
    | PrintRaw
    | DisableCuda
    | DebugBreak

  /** A `uint64_t` flag word: the positions (0 to 63) of its 1 bits. */
  type Word = w: set<nat> | forall b :: b in w ==> b < 64

  /** Where each named flag lives in the flag word: its mask. */
  type Layout = FlagName -> Word

  /** How an argument of a yes/no option reads. */
  datatype Answer = Affirmative | Negative | Unrecognised

  /** The comparisons with "yes", "y", "no" and "n" made by strcmp. */
  function Classify(arg: string): Answer {
    if arg == "yes" || arg == "y" then Affirmative
    else if arg == "no" || arg == "n" then Negative
    else Unrecognised
  }

  /** Whether a recognised argument ends up setting (rather than clearing)
      the masked bits: "yes" sets under a non-zero `yes_to_set`, "no" sets
      under a zero one. */
  predicate Sets(arg: string, yesToSet: int) {
    (Classify(arg) == Affirmative) == (yesToSet != 0)
  }

  /** `word | mask` when `on`, else `word & ~mask`: the bits of the mask
      become all set or all clear, and every other bit keeps its value. */
  function SetBits(word: Word, mask: Word, on: bool): (r: Word)
    ensures r - mask == word - mask
    ensures r * mask == (if on then mask else {})
  {
    if on then word + mask else word - mask
  }

  /**
   * `yes_or_no(opt, flag, long_idx, arg, yes_to_set)`: with a non-zero
   * `yes_to_set`, "yes"/"y" sets the masked bits and "no"/"n" clears them;
   * with a zero `yes_to_set` the roles are swapped. Any other argument only
   * draws a warning and leaves the word as it was. Bits outside the mask
   * are never touched.
   */
  function YesOrNo(word: Word, mask: Word, arg: string, yesToSet: int): (r: Word)
    ensures r - mask == word - mask
    ensures r * mask == if Classify(arg) == Unrecognised then word * mask
                        else if Sets(arg, yesToSet) then mask else {}
  {
    if Classify(arg) == Unrecognised then word
    else SetBits(word, mask, Sets(arg, yesToSet))
  }

  /** An argument other than yes/y/no/n changes nothing. */
  lemma YesOrNoUnrecognised(word: Word, mask: Word, arg: string, yesToSet: int)
    requires Classify(arg) == Unrecognised
    ensures YesOrNo(word, mask, arg, yesToSet) == word
  {
  }

  /** Two words that agree outside a mask and inside it are equal. */
  lemma WordsEqual(a: Word, b: Word, mask: Word)
    requires a - mask == b - mask && a * mask == b * mask
    ensures a == b
  {
    assert a == (a - mask) + (a * mask);
    assert b == (b - mask) + (b * mask);
  }

  /** Giving the same yes/no option twice has the effect of giving it once. */
  lemma YesOrNoIdempotent(word: Word, mask: Word, arg: string, yesToSet: int)
    ensures YesOrNo(YesOrNo(word, mask, arg, yesToSet), mask, arg, yesToSet)
            == YesOrNo(word, mask, arg, yesToSet)
  {
    var once := YesOrNo(word, mask, arg, yesToSet);
    WordsEqual(YesOrNo(once, mask, arg, yesToSet), once, mask);
  }

  /** A later recognised argument for the same flag overrides an earlier one. */
  lemma YesOrNoLastWins(word: Word, mask: Word, first: string, second: string, yesToSet: int)
    requires Classify(second) != Unrecognised
    ensures YesOrNo(YesOrNo(word, mask, first, yesToSet), mask, second, yesToSet)
            == YesOrNo(word, mask, second, yesToSet)
  {
    var mid := YesOrNo(word, mask, first, yesToSet);
    WordsEqual(YesOrNo(mid, mask, second, yesToSet), YesOrNo(word, mask, second, yesToSet), mask);
  }

  /** A zero `yes_to_set` inverts the meaning of the answer: "yes" with a
      zero polarity does what "no" does with a non-zero one. */
  lemma YesOrNoPolarityYes(word: Word, mask: Word)
    ensures YesOrNo(word, mask, "yes", 0) == YesOrNo(word, mask, "no", 1)
  {
    assert Classify("yes") == Affirmative;
    assert Classify("no") == Negative;
  }

  /** ... and "no" with a zero polarity does what "yes" does with a non-zero one. */
  lemma YesOrNoPolarityNo(word: Word, mask: Word)
    ensures YesOrNo(word, mask, "no", 0) == YesOrNo(word, mask, "yes", 1)
  {
    assert Classify("yes") == Affirmative;
    assert Classify("no") == Negative;
  }

  /** Options that own disjoint bits may be given in either order. */
  lemma YesOrNoCommute(word: Word, m1: Word, a1: string, m2: Word, a2: string, yesToSet: int)
    requires m1 * m2 == {}
    ensures YesOrNo(YesOrNo(word, m1, a1, yesToSet), m2, a2, yesToSet)
            == YesOrNo(YesOrNo(word, m2, a2, yesToSet), m1, a1, yesToSet)
  {
    var x := YesOrNo(YesOrNo(word, m1, a1, yesToSet), m2, a2, yesToSet);
    var y := YesOrNo(YesOrNo(word, m2, a2, yesToSet), m1, a1, yesToSet);
    forall b ensures b in x <==> b in y {
      if b in m1 {
        assert b !in m2 by { assert b !in m1 * m2; }
      }
    }
  }

}
