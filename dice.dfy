/** Dice (`.dadu`): the count check, one roll per die and the total. */
module Dice {

  const MinDice := 1
  const MaxDice := 5

  /** Faces of a die; also the length of the face-glyph table. */
  const Faces := 6

  /** Sum of a list of rolls, last roll added last (the loop's `total`). */
  function Sum(s: seq<int>): int
  {
    if s == [] then 0 else Sum(s[..|s| - 1]) + s[|s| - 1]
  }

  /** Every roll lies between 1 and the number of faces. */
  predicate AllFaces(s: seq<int>)
  {
    forall i | 0 <= i < |s| :: 1 <= s[i] <= Faces
  }

  /** n rolls of a die add up to between n and n times the number of faces. */
  lemma {:induction false} SumBounds(s: seq<int>)
    requires AllFaces(s)
    ensures |s| <= Sum(s) <= Faces * |s|
  {
    if s != [] {
      SumBounds(s[..|s| - 1]);
    }
  }

  datatype Throw =
    | BadCount            // the count is outside MinDice..MaxDice
    | Rolled(results: seq<int>, total: int)

  /** `.dadu jumlah_dadu`: rejects a count outside 1..5; otherwise takes one
      draw per die, in order, from `draws` (the random source) and adds them
      up. Each result indexes the six face glyphs as `r - 1`. */
  method RollDice(count: int, draws: seq<int>) returns (t: Throw)
    requires AllFaces(draws)
    requires MinDice <= count <= MaxDice ==> count <= |draws|
    ensures t.BadCount? <==> !(MinDice <= count <= MaxDice)
    ensures t.Rolled? ==> t.results == draws[..count] && |t.results| == count
    ensures t.Rolled? ==> forall i | 0 <= i < |t.results| :: 0 <= t.results[i] - 1 < Faces
    ensures t.Rolled? ==> t.total == Sum(t.results)
    ensures t.Rolled? ==> count <= t.total <= Faces * count
  {
    if count < MinDice || count > MaxDice {
      return BadCount;
    }
    var results: seq<int> := [];
    var total := 0;
    for i := 0 to count
      invariant results == draws[..i]
      invariant total == Sum(results)
    {
      var roll := draws[i];
      results := results + [roll];
      total := total + roll;
      assert results[..|results| - 1] == draws[..i];
    }
    SumBounds(results);
    t := Rolled(results, total);
  }
}
