/** String helpers shared by the route lookup and the supplier filter:
    Python's `str.lower()` and the substring test `needle in hay`. */
module Text {

  /** Lower-cases one character; only the ASCII letters A-Z change. */
  function LowerChar(c: char): char
  {
    if 'A' <= c <= 'Z' then (c as int + 32) as char else c
  }

  /** `s.lower()`, character by character. */
  function Lower(s: string): (r: string)
    ensures |r| == |s|
    ensures forall i :: 0 <= i < |s| ==> r[i] == LowerChar(s[i])
    ensures forall i :: 0 <= i < |r| ==> !('A' <= r[i] <= 'Z')
  {
    seq(|s|, i requires 0 <= i < |s| => LowerChar(s[i]))
  }

  /** `needle` starts at position `i` of `hay`. */
  ghost predicate OccursAt(hay: string, needle: string, i: nat)
  {
    i + |needle| <= |hay| && hay[i..i + |needle|] == needle
  }

  /** Python's `needle in hay` on strings: a substring test, scanning from the left. */
  function Contains(hay: string, needle: string): (b: bool)
    ensures b <==> exists i: nat :: OccursAt(hay, needle, i)
    decreases |hay|
  {
    if |needle| > |hay| then
      false
    else if needle <= hay then
      assert OccursAt(hay, needle, 0);
      true
    else
      var b := Contains(hay[1..], needle);
      if b then
        LaterOccurrence(hay, needle);
        b
      else
        OccurrenceShape(hay, needle);
        b
  }

  /** An occurrence in the tail of `hay` is an occurrence in `hay`, one position later. */
  lemma LaterOccurrence(hay: string, needle: string)
    requires |hay| > 0
    requires exists i: nat :: OccursAt(hay[1..], needle, i)
    ensures exists i: nat :: OccursAt(hay, needle, i)
  {
    var i: nat :| OccursAt(hay[1..], needle, i);
    assert hay[i + 1..i + 1 + |needle|] == hay[1..][i..i + |needle|];
    assert OccursAt(hay, needle, i + 1);
  }

  /** An occurrence in `hay` is either a prefix or an occurrence in its tail, one position earlier. */
  lemma OccurrenceShape(hay: string, needle: string)
    requires |hay| > 0
    ensures forall i: nat :: OccursAt(hay, needle, i) ==>
              (i == 0 && needle <= hay) || (i > 0 && OccursAt(hay[1..], needle, i - 1))
  {
    forall i: nat | OccursAt(hay, needle, i)
      ensures (i == 0 && needle <= hay) || (i > 0 && OccursAt(hay[1..], needle, i - 1))
    {
      if i > 0 {
        assert hay[1..][i - 1..i - 1 + |needle|] == hay[i..i + |needle|];
      }
    }
  }

  /** The empty string occurs in every string, so an empty filter matches everything. */
  lemma EmptyOccursEverywhere(hay: string)
    ensures Contains(hay, "")
  {
    assert OccursAt(hay, "", 0);
  }
}
