/**
 PHP's `explode` with a one-character separator, its inverse `implode`,
 and `Arr::last`; together they give "the text after the last separator".
 */
module Segments {

  /**
   `explode(sep, s)`: the maximal separator-free pieces of `s`, in order.
   Never empty: exploding "" gives [""].
   */
  function Explode(sep: char, s: string): (parts: seq<string>)
    ensures |parts| >= 1
    ensures forall i :: 0 <= i < |parts| ==> sep !in parts[i]
    decreases |s|
  {
    if s == [] then [[]]
    else
      var rest := Explode(sep, s[1..]);
      if s[0] == sep then [[]] + rest
      else [[s[0]] + rest[0]] + rest[1..]
  }

  /** `implode(sep, parts)`: the pieces joined with the separator between neighbours. */
  function Implode(sep: char, parts: seq<string>): string
    requires |parts| >= 1
    decreases |parts|
  {
    if |parts| == 1 then parts[0]
    else parts[0] + [sep] + Implode(sep, parts[1..])
  }

  /** `Arr::last` on a non-empty list. */
  function Last<T>(xs: seq<T>): T
    requires |xs| >= 1
  {
    xs[|xs| - 1]
  }

  /**
   Independent description of the text after the last separator: `t` is a
   separator-free suffix of `s` that is either all of `s` or preceded by a
   separator.
   */
  ghost predicate IsTextAfterLast(sep: char, s: string, t: string) {
    && |t| <= |s|
    && s[|s| - |t|..] == t
    && sep !in t
    && (|t| == |s| || s[|s| - |t| - 1] == sep)
  }

  /** Joining the exploded pieces gives back the original string. */
  lemma {:induction false} ImplodeExplode(sep: char, s: string)
    ensures Implode(sep, Explode(sep, s)) == s
    decreases |s|
  {
    if s != [] {
      var rest := Explode(sep, s[1..]);
      ImplodeExplode(sep, s[1..]);
      if s[0] == sep {
        assert ([[]] + rest)[1..] == rest;
      } else if |rest| > 1 {
        var parts := [[s[0]] + rest[0]] + rest[1..];
        assert parts[1..] == rest[1..];
        assert Implode(sep, rest) == rest[0] + [sep] + Implode(sep, rest[1..]);
        assert s == [s[0]] + s[1..];
      } else {
        assert s == [s[0]] + s[1..];
      }
    }
  }

  /** A separator-free string explodes to itself alone. */
  lemma {:induction false} ExplodeSeparatorFree(sep: char, p: string)
    requires sep !in p
    ensures Explode(sep, p) == [p]
    decreases |p|
  {
    if p != [] {
      assert sep !in p[1..] by {
        forall c | c in p[1..] ensures c != sep {
          assert c in p;
        }
      }
      ExplodeSeparatorFree(sep, p[1..]);
      assert [p[0]] + p[1..] == p;
    }
  }

  /** Exploding a separator-free piece followed by the separator splits off that piece. */
  lemma {:induction false} ExplodeCons(sep: char, p: string, rest: string)
    requires sep !in p
    ensures Explode(sep, p + [sep] + rest) == [p] + Explode(sep, rest)
    decreases |p|
  {
    var s := p + [sep] + rest;
    if p == [] {
      assert s[1..] == rest;
    } else {
      assert s[1..] == p[1..] + [sep] + rest;
      assert sep !in p[1..] by {
        forall c | c in p[1..] ensures c != sep {
          assert c in p;
        }
      }
      ExplodeCons(sep, p[1..], rest);
      var tail := Explode(sep, s[1..]);
      assert tail == [p[1..]] + Explode(sep, rest);
      assert tail[0] == p[1..];
      assert [p[0]] + p[1..] == p;
      assert tail[1..] == Explode(sep, rest);
    }
  }

  /** Exploding joined separator-free pieces gives back the pieces. */
  lemma {:induction false} ExplodeImplode(sep: char, parts: seq<string>)
    requires |parts| >= 1
    requires forall i :: 0 <= i < |parts| ==> sep !in parts[i]
    ensures Explode(sep, Implode(sep, parts)) == parts
    decreases |parts|
  {
    if |parts| == 1 {
      ExplodeSeparatorFree(sep, parts[0]);
    } else {
      ExplodeImplode(sep, parts[1..]);
      ExplodeCons(sep, parts[0], Implode(sep, parts[1..]));
      assert [parts[0]] + parts[1..] == parts;
    }
  }

  /** Joining two or more pieces puts a separator right before the last one. */
  lemma {:induction false} ImplodeEndsWithLast(sep: char, parts: seq<string>)
    requires |parts| >= 2
    ensures Implode(sep, parts) == Implode(sep, parts[..|parts| - 1]) + [sep] + Last(parts)
    decreases |parts|
  {
    if |parts| > 2 {
      ImplodeEndsWithLast(sep, parts[1..]);
      assert parts[1..][..|parts| - 2] == parts[..|parts| - 1][1..];
    }
  }

  /** The last exploded piece is exactly the text after the last separator. */
  lemma LastPieceIsTextAfterLast(sep: char, s: string)
    ensures IsTextAfterLast(sep, s, Last(Explode(sep, s)))
  {
    var parts := Explode(sep, s);
    ImplodeExplode(sep, s);
    if |parts| >= 2 {
      ImplodeEndsWithLast(sep, parts);
      var front := Implode(sep, parts[..|parts| - 1]);
      assert s == front + [sep] + Last(parts);
      assert s[|s| - |Last(parts)| - 1] == sep;
      assert s[|s| - |Last(parts)|..] == Last(parts);
    }
  }

  /** A longer suffix than the text after the last separator reaches back over that separator. */
  lemma LongerSuffixHoldsSeparator(sep: char, s: string, t: string, u: string)
    requires IsTextAfterLast(sep, s, t)
    requires |t| < |u| <= |s| && s[|s| - |u|..] == u
    ensures sep in u
  {
    var k := |s| - |t| - 1;
    assert u[k - (|s| - |u|)] == s[k];
  }

  /** At most one string is the text after the last separator. */
  lemma TextAfterLastUnique(sep: char, s: string, t1: string, t2: string)
    requires IsTextAfterLast(sep, s, t1)
    requires IsTextAfterLast(sep, s, t2)
    ensures t1 == t2
  {
    if |t1| < |t2| {
      LongerSuffixHoldsSeparator(sep, s, t1, t2);
    } else if |t2| < |t1| {
      LongerSuffixHoldsSeparator(sep, s, t2, t1);
    }
  }

  /** The text after the last separator, characterised both ways. */
  lemma LastPieceIff(sep: char, s: string, t: string)
    ensures IsTextAfterLast(sep, s, t) <==> Last(Explode(sep, s)) == t
  {
    LastPieceIsTextAfterLast(sep, s);
    if IsTextAfterLast(sep, s, t) {
      TextAfterLastUnique(sep, s, t, Last(Explode(sep, s)));
    }
  }
}
