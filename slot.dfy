/** Slot machine (`.slot`): three reels, classified as jackpot, near miss or
    loss. */
module Slot {

  /** The eight reel symbols; each reel shows one of them. */
  datatype Symbol = Cherry | Lemon | Orange | Watermelon | Grapes | Star | Seven | Bell

  /** JACKPOT, HAMPIR ("almost") and COBA LAGI ("try again"). */
  datatype Verdict = Jackpot | Almost | TryAgain

  /** The classification, stated by how many distinct symbols show: one is a
      jackpot, two a near miss, three a loss. */
  function Classify(s1: Symbol, s2: Symbol, s3: Symbol): (v: Verdict)
    ensures v == Jackpot <==> |{s1, s2, s3}| == 1
    ensures v == Almost <==> |{s1, s2, s3}| == 2
    ensures v == TryAgain <==> |{s1, s2, s3}| == 3
  {
    if s1 == s2 && s2 == s3 then Jackpot
    else if s1 == s2 || s2 == s3 || s1 == s3 then Almost
    else TryAgain
  }

  /** The order of the reels does not matter. */
  lemma ClassifySymmetric(s1: Symbol, s2: Symbol, s3: Symbol)
    ensures Classify(s1, s2, s3) == Classify(s2, s1, s3)
    ensures Classify(s1, s2, s3) == Classify(s1, s3, s2)
  {
  }
}
