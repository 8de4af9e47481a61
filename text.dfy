/** The two string operations the catalogue search relies on: `str.lower()`
    and the substring test `needle in hay`. */
module Text {

  /** Lower-cases one ASCII letter; every other character is left alone. */
  function LowerChar(c: char): char
  {
    if 'A' <= c <= 'Z' then (c as int + 32) as char else c
  }

  predicate IsUpper(c: char)
  {
    'A' <= c <= 'Z'
  }

  /** `s.lower()`: same length, every upper-case letter replaced by its
      lower-case letter (32 code points on), every other character kept. */
  function Lower(s: string): (r: string)
    ensures |r| == |s|
    ensures forall i :: 0 <= i < |r| ==> !IsUpper(r[i])
    ensures forall i :: 0 <= i < |s| && IsUpper(s[i]) ==> r[i] as int == s[i] as int + 32
    ensures forall i :: 0 <= i < |s| && !IsUpper(s[i]) ==> r[i] == s[i]
  {
    seq(|s|, i requires 0 <= i < |s| => LowerChar(s[i]))
  }

  /** Lower-casing twice is lower-casing once. */
  lemma LowerIdempotent(s: string)
    ensures Lower(Lower(s)) == Lower(s)
  {
    var t := Lower(s);
    assert Lower(t) == t by {
      forall i | 0 <= i < |t|
        ensures Lower(t)[i] == t[i]
      {
      }
    }
  }

  /** `s` starts with `prefix`. */
  predicate HasPrefix(prefix: string, s: string)
  {
    |prefix| <= |s| && s[..|prefix|] == prefix
  }

  /** The substring test `needle in hay` of Python strings, scanning `hay`
      from the left. */
  predicate Occurs(needle: string, hay: string)
    ensures Occurs(needle, hay) ==> |needle| <= |hay|
    ensures HasPrefix(needle, hay) ==> Occurs(needle, hay)
    ensures Occurs(needle, hay) ==> forall c :: c in needle ==> c in hay
    decreases |hay|
  {
    if |needle| > |hay| then false
    else if hay[..|needle|] == needle then
      CharsOfSlice(hay, 0, |needle|);
      true
    else
      CharsOfSlice(hay, 1, |hay|);
      Occurs(needle, hay[1..])
  }

  /** A character of a slice is a character of the whole. */
  lemma CharsOfSlice(s: string, i: nat, j: nat)
    requires i <= j <= |s|
    ensures forall c :: c in s[i..j] ==> c in s
  {
    forall c | c in s[i..j]
      ensures c in s
    {
      var k :| 0 <= k < j - i && s[i..j][k] == c;
      assert s[i + k] == c;
    }
  }

  /** `needle` sits in `hay` starting at position `i`. */
  ghost predicate OccursAt(needle: string, hay: string, i: int)
  {
    0 <= i && i + |needle| <= |hay| && hay[i..i + |needle|] == needle
  }

  /** A needle found at any position is found by the scan. */
  lemma {:induction false} OccursFromAt(needle: string, hay: string, i: int)
    requires OccursAt(needle, hay, i)
    ensures Occurs(needle, hay)
    decreases i
  {
    if i > 0 && hay[..|needle|] != needle {
      assert hay[1..][i - 1..i - 1 + |needle|] == hay[i..i + |needle|];
      OccursFromAt(needle, hay[1..], i - 1);
    }
  }

  /** What the scan finds sits at some position. */
  lemma {:induction false} OccursToAt(needle: string, hay: string) returns (i: int)
    requires Occurs(needle, hay)
    ensures OccursAt(needle, hay, i)
    decreases |hay|
  {
    if hay[..|needle|] == needle {
      i := 0;
    } else {
      var j := OccursToAt(needle, hay[1..]);
      assert hay[1..][j..j + |needle|] == hay[j + 1..j + 1 + |needle|];
      i := j + 1;
    }
  }

  /** The scan finds `needle` exactly when it sits somewhere in `hay`. */
  lemma OccursIff(needle: string, hay: string)
    ensures Occurs(needle, hay) <==> exists i :: OccursAt(needle, hay, i)
  {
    if Occurs(needle, hay) {
      var i := OccursToAt(needle, hay);
    }
    forall i | OccursAt(needle, hay, i)
      ensures Occurs(needle, hay)
    {
      OccursFromAt(needle, hay, i);
    }
  }

  /** The empty string is in every string, the empty one included. */
  lemma EmptyOccurs(hay: string)
    ensures Occurs("", hay)
  {
    assert hay[..0] == "";
  }

  /** A character that is no letter is in `Lower(s)` exactly when it is in `s`. */
  lemma LowerKeepsNonLetter(s: string, c: char)
    requires !IsUpper(c) && !('a' <= c <= 'z')
    ensures c in Lower(s) <==> c in s
  {
    forall i | 0 <= i < |s|
      ensures Lower(s)[i] == c <==> s[i] == c
    {
    }
  }

  /** A needle holding a character that the haystack lacks is not in it. */
  lemma {:induction false} NotOccursWithout(needle: string, hay: string, c: char)
    requires c in needle && c !in hay
    ensures !Occurs(needle, hay)
    decreases |hay|
  {
    if |needle| <= |hay| {
      assert c !in hay[..|needle|];
      NotOccursWithout(needle, hay[1..], c);
    }
  }
}
