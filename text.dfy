/**
 Python's substring operator `needle in hay` on strings, which the
 "no-parent" stage of the spider uses.
 */
module Text {

  /** `needle` occurs somewhere in `hay`; the empty string occurs in every string. */
  predicate Contains(hay: string, needle: string)
    decreases |hay|
  {
    needle <= hay || (hay != [] && Contains(hay[1..], needle))
  }

  /** `needle` starts at position `i` of `hay`. */
  ghost predicate OccursAt(hay: string, needle: string, i: int)
  {
    0 <= i <= |hay| && needle <= hay[i..]
  }

  /** A string can only contain strings no longer than itself. */
  lemma {:induction false} ContainsLength(hay: string, needle: string)
    requires Contains(hay, needle)
    ensures |needle| <= |hay|
    decreases |hay|
  {
    if !(needle <= hay) {
      ContainsLength(hay[1..], needle);
    }
  }

  /** `Contains` agrees with the definition of an occurrence by position, in both directions. */
  lemma {:induction false} ContainsIffOccurs(hay: string, needle: string)
    ensures Contains(hay, needle) <==> exists i :: OccursAt(hay, needle, i)
    decreases |hay|
  {
    if needle <= hay {
      assert OccursAt(hay, needle, 0);
    } else if hay == [] {
      assert !OccursAt(hay, needle, 0);
    } else {
      ContainsIffOccurs(hay[1..], needle);
      if Contains(hay[1..], needle) {
        var i :| OccursAt(hay[1..], needle, i);
        assert hay[1..][i..] == hay[i + 1..];
        assert OccursAt(hay, needle, i + 1);
      } else {
        forall i | 0 < i <= |hay| ensures !OccursAt(hay, needle, i) {
          assert hay[1..][i - 1..] == hay[i..];
          assert !OccursAt(hay[1..], needle, i - 1);
        }
      }
    }
  }
}
