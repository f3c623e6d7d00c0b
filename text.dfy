/** Strings as the screens use them: `toLowerCase`, `includes`, and number-to-string. */
module Text {

  /** `toLowerCase` on one character, for the characters the catalog and the tips use:
      ASCII capitals and the Latin-1 capitals (U+00C0..U+00DE, except the
      multiplication sign U+00D7) move 32 code points down to their lower-case
      letter; every other character is left as it is. */
  function LowerChar(c: char): char {
    if 'A' <= c <= 'Z' then (c as int + 32) as char
    else if 'À' <= c <= 'Þ' && c != '×' then (c as int + 32) as char
    else c
  }

  /** Whether `c` is one of the capitals that LowerChar folds. */
  predicate IsUpper(c: char) {
    ('A' <= c <= 'Z') || ('À' <= c <= 'Þ' && c != '×')
  }

  /** `s.toLowerCase()`: every character lowered, in place. */
  function Lower(s: string): (r: string)
    ensures |r| == |s|
    ensures forall i :: 0 <= i < |s| ==> r[i] == LowerChar(s[i]) && !IsUpper(r[i])
  {
    seq(|s|, i requires 0 <= i < |s| => LowerChar(s[i]))
  }

  /** A character occurs in the lowered string exactly when some character of
      the string lowers to it. */
  lemma LowerHasChar(s: string, c: char)
    ensures c in Lower(s) <==> exists d :: d in s && LowerChar(d) == c
  {
    var l := Lower(s);
    if c in l {
      var i :| 0 <= i < |l| && l[i] == c;
      assert s[i] in s;
    }
  }

  /** A lower-case letter whose only capital is `upper` is missing from the
      lowered string when both forms are missing from the string. */
  lemma LacksLowered(s: string, c: char, upper: char)
    requires c !in s && upper !in s
    requires forall d :: LowerChar(d) == c ==> d == c || d == upper
    ensures c !in Lower(s)
  {
    LowerHasChar(s, c);
  }

  /** Lowering an already lowered string changes nothing. */
  lemma LowerIdempotent(s: string)
    ensures Lower(Lower(s)) == Lower(s)
  {
    var l := Lower(s);
    forall i | 0 <= i < |l| ensures Lower(l)[i] == l[i] {
      assert !IsUpper(l[i]);
    }
  }

  /** `s.startsWith(t)`. */
  predicate StartsWith(s: string, t: string) {
    |t| <= |s| && s[..|t|] == t
  }

  /** `s.includes(t)`: `t` starts at some position of `s`. */
  predicate Contains(s: string, t: string)
    decreases |s|
  {
    StartsWith(s, t) || (s != [] && Contains(s[1..], t))
  }

  /** `t` occurs in `s` starting at position `i`. */
  predicate OccursAt(s: string, t: string, i: int) {
    0 <= i && i + |t| <= |s| && s[i..i + |t|] == t
  }

  /** Contains means: `t` occurs as a contiguous block of `s` at some position. */
  lemma {:induction false} ContainsIffOccurs(s: string, t: string)
    ensures Contains(s, t) <==> exists i :: OccursAt(s, t, i)
  {
    if s == [] {
      if StartsWith(s, t) {
        assert OccursAt(s, t, 0);
      }
      if exists i :: OccursAt(s, t, i) {
        var i :| OccursAt(s, t, i);
        assert i == 0 && t == [];
        assert StartsWith(s, t);
      }
    } else {
      ContainsIffOccurs(s[1..], t);
      if Contains(s, t) {
        if StartsWith(s, t) {
          assert OccursAt(s, t, 0);
        } else {
          var i :| OccursAt(s[1..], t, i);
          SliceOfTail(s, i + 1, |t|);
          assert OccursAt(s, t, i + 1);
        }
      } else {
        forall i | 0 <= i ensures !OccursAt(s, t, i) {
          if i > 0 && i + |t| <= |s| {
            SliceOfTail(s, i, |t|);
            assert !OccursAt(s[1..], t, i - 1);
          }
        }
      }
    }
  }

  /** A block of `s` after its first character is the same block of `s[1..]`, one position earlier. */
  lemma SliceOfTail(s: string, i: int, n: nat)
    requires 1 <= i && i + n <= |s|
    ensures s[i..i + n] == s[1..][i - 1..i - 1 + n]
  {
    var a, b := s[i..i + n], s[1..][i - 1..i - 1 + n];
    forall k | 0 <= k < n ensures a[k] == b[k] {
      assert a[k] == s[i + k];
    }
  }

  /** A term with a character that the string lacks is not included in it. */
  lemma MissingCharNotContained(s: string, t: string, k: nat)
    requires k < |t| && t[k] !in s
    ensures !Contains(s, t)
  {
    ContainsIffOccurs(s, t);
    forall i | 0 <= i ensures !OccursAt(s, t, i) {
      if i + |t| <= |s| {
        assert s[i..i + |t|][k] == s[i + k];
      }
    }
  }

  /** Every string includes the empty string, so an empty search term matches everything. */
  lemma {:induction false} ContainsEmpty(s: string)
    ensures Contains(s, "")
  {
    assert s[..0] == "";
  }

  /** The decimal digits of a natural number, as a JavaScript template literal prints it. */
  function NatToString(n: nat): (r: string)
    ensures |r| >= 1
    ensures forall i :: 0 <= i < |r| ==> '0' <= r[i] <= '9'
  {
    if n < 10 then [Digit(n)] else NatToString(n / 10) + [Digit(n % 10)]
  }

  function Digit(d: nat): (c: char)
    requires d < 10
    ensures '0' <= c <= '9'
  {
    ['0', '1', '2', '3', '4', '5', '6', '7', '8', '9'][d]
  }
}
