/** The pure specification of literal find-and-replace: one greedy,
    left-to-right, non-overlapping scan that swaps every occurrence of a
    non-empty pattern for a replacement. Both the byte loop of
    `update_file_content` and Rust's `str::replace` have this meaning. */
module Replacing {

  /** `pat` occurs in `s` starting at index `i`. */
  predicate OccursAt<T(==)>(s: seq<T>, pat: seq<T>, i: int) {
    0 <= i && i + |pat| <= |s| && s[i..i + |pat|] == pat
  }

  /** `pat` occurs somewhere in `s` (`contains` on a Rust string). */
  predicate Occurs<T(==)>(s: seq<T>, pat: seq<T>) {
    exists i | 0 <= i <= |s| - |pat| :: OccursAt(s, pat, i)
  }

  /** The greedy scan: at each position either the whole pattern starts
      there and is replaced, or one element is copied and the scan moves on. */
  function Replace<T(==)>(s: seq<T>, pat: seq<T>, rep: seq<T>): seq<T>
    requires |pat| > 0
    decreases |s|
  {
    if |s| == 0 then []
    else if pat <= s then rep + Replace(s[|pat|..], pat, rep)
    else [s[0]] + Replace(s[1..], pat, rep)
  }

  /** The number of replacements the greedy scan makes. */
  function MatchCount<T(==)>(s: seq<T>, pat: seq<T>): nat
    requires |pat| > 0
    decreases |s|
  {
    if |s| == 0 then 0
    else if pat <= s then 1 + MatchCount(s[|pat|..], pat)
    else MatchCount(s[1..], pat)
  }

  /** The scan makes at least one replacement exactly when the pattern
      occurs somewhere in the input. */
  lemma {:induction false} MatchCountPositiveIffOccurs<T>(s: seq<T>, pat: seq<T>)
    requires |pat| > 0
    ensures MatchCount(s, pat) > 0 <==> Occurs(s, pat)
    decreases |s|
  {
    if |s| == 0 {
      assert !Occurs(s, pat) by {
        forall i | OccursAt(s, pat, i) ensures false { }
      }
    } else if pat <= s {
      assert s[0..|pat|] == pat;
      assert OccursAt(s, pat, 0);
    } else {
      MatchCountPositiveIffOccurs(s[1..], pat);
      if Occurs(s[1..], pat) {
        var i :| 0 <= i <= |s[1..]| - |pat| && OccursAt(s[1..], pat, i);
        assert s[i + 1..i + 1 + |pat|] == s[1..][i..i + |pat|];
        assert OccursAt(s, pat, i + 1);
      }
      if Occurs(s, pat) {
        var i :| 0 <= i <= |s| - |pat| && OccursAt(s, pat, i);
        assert i > 0;
        assert s[1..][i - 1..i - 1 + |pat|] == s[i..i + |pat|] by {
          assert s[1..][i - 1..] == s[i..];
        }
        assert OccursAt(s[1..], pat, i - 1);
      }
    }
  }

  /** Length law: every replacement changes the length by |rep| - |pat|. */
  lemma {:induction false} ReplaceLength<T>(s: seq<T>, pat: seq<T>, rep: seq<T>)
    requires |pat| > 0
    ensures |Replace(s, pat, rep)| == |s| + MatchCount(s, pat) * (|rep| - |pat|)
    decreases |s|
  {
    if |s| == 0 {
    } else if pat <= s {
      ReplaceLength(s[|pat|..], pat, rep);
      var k := MatchCount(s[|pat|..], pat);
      calc {
        |Replace(s, pat, rep)|;
        |rep| + |s[|pat|..]| + k * (|rep| - |pat|);
        |s| + (|rep| - |pat|) + k * (|rep| - |pat|);
        { assert (1 + k) * (|rep| - |pat|) == (|rep| - |pat|) + k * (|rep| - |pat|); }
        |s| + (1 + k) * (|rep| - |pat|);
      }
    } else {
      ReplaceLength(s[1..], pat, rep);
    }
  }

  /** A scan that makes no replacement copies its input unchanged. */
  lemma {:induction false} ReplaceWithoutMatch<T>(s: seq<T>, pat: seq<T>, rep: seq<T>)
    requires |pat| > 0
    requires MatchCount(s, pat) == 0
    ensures Replace(s, pat, rep) == s
    decreases |s|
  {
    if |s| > 0 {
      ReplaceWithoutMatch(s[1..], pat, rep);
      assert [s[0]] + s[1..] == s;
    }
  }

  /** If the pattern does not occur, the output is the input. */
  lemma NoOccurrenceUnchanged<T>(s: seq<T>, pat: seq<T>, rep: seq<T>)
    requires |pat| > 0
    requires !Occurs(s, pat)
    ensures Replace(s, pat, rep) == s
  {
    MatchCountPositiveIffOccurs(s, pat);
    ReplaceWithoutMatch(s, pat, rep);
  }

  /** Replacing a pattern by itself yields the input, whether or not the
      pattern occurs. */
  lemma {:induction false} ReplaceSelf<T>(s: seq<T>, pat: seq<T>)
    requires |pat| > 0
    ensures Replace(s, pat, pat) == s
    decreases |s|
  {
    if |s| == 0 {
    } else if pat <= s {
      ReplaceSelf(s[|pat|..], pat);
      assert pat + s[|pat|..] == s;
    } else {
      ReplaceSelf(s[1..], pat);
      assert [s[0]] + s[1..] == s;
    }
  }

  /** A sequence that is exactly the pattern becomes exactly the
      replacement. */
  lemma ReplaceWhole<T>(pat: seq<T>, rep: seq<T>)
    requires |pat| > 0
    ensures Occurs(pat, pat)
    ensures Replace(pat, pat, rep) == rep
  {
    assert OccursAt(pat, pat, 0);
    assert pat[|pat|..] == [];
    assert Replace(pat, pat, rep) == rep + Replace([], pat, rep);
  }

  /** When at least one replacement happens, the replacement text appears
      in the output. */
  lemma {:induction false} ReplacementAppears<T>(s: seq<T>, pat: seq<T>, rep: seq<T>) returns (j: nat)
    requires |pat| > 0
    requires MatchCount(s, pat) > 0
    ensures OccursAt(Replace(s, pat, rep), rep, j)
    decreases |s|
  {
    if pat <= s {
      j := 0;
      assert Replace(s, pat, rep)[0..|rep|] == rep;
    } else {
      var k := ReplacementAppears(s[1..], pat, rep);
      j := k + 1;
      var out := Replace(s, pat, rep);
      assert out == [s[0]] + Replace(s[1..], pat, rep);
      assert out[j..j + |rep|] == Replace(s[1..], pat, rep)[k..k + |rep|];
    }
  }

  /** If the replacement contains the pattern and the first pass replaced
      something, the pattern occurs again in the output. */
  lemma SecondPassStillMatches<T>(s: seq<T>, pat: seq<T>, rep: seq<T>)
    requires |pat| > 0
    requires Occurs(s, pat) && Occurs(rep, pat)
    ensures Occurs(Replace(s, pat, rep), pat)
  {
    MatchCountPositiveIffOccurs(s, pat);
    var j := ReplacementAppears(s, pat, rep);
    var i :| 0 <= i <= |rep| - |pat| && OccursAt(rep, pat, i);
    var out := Replace(s, pat, rep);
    assert out[j..j + |rep|] == rep;
    assert forall k | 0 <= k < |rep| :: out[j + k] == rep[k];
    assert out[j + i..j + i + |pat|] == rep[i..i + |pat|];
    assert OccursAt(out, pat, j + i);
  }

  /** Rewriting twice is not the same as rewriting once when the
      replacement differs from the pattern but contains it, and the pattern
      occurs in the input: the second pass finds the pattern again, and each
      replacement lengthens the text. */
  lemma SecondPassChanges<T>(s: seq<T>, pat: seq<T>, rep: seq<T>)
    requires |pat| > 0 && rep != pat
    requires Occurs(s, pat) && Occurs(rep, pat)
    ensures Replace(Replace(s, pat, rep), pat, rep) != Replace(s, pat, rep)
  {
    var out := Replace(s, pat, rep);
    SecondPassStillMatches(s, pat, rep);
    MatchCountPositiveIffOccurs(out, pat);
    ReplaceLength(out, pat, rep);
    assert |rep| > |pat| by {
      var i :| 0 <= i <= |rep| - |pat| && OccursAt(rep, pat, i);
      assert rep[i..i + |pat|] == pat;
    }
    PositiveProduct(MatchCount(out, pat), |rep| - |pat|);
  }

  lemma PositiveProduct(a: int, b: int)
    requires a >= 1 && b >= 1
    ensures a * b >= 1
  {
  }
}
