/** The e-mail pattern `^[^\s@]+@[^\s@]+\.[^\s@]+$` shared by the crypto
    payment form and the card payment service. */
module Email {
  import opened Text

  /** A character the class `[^\s@]` accepts. */
  predicate PartChar(c: char) {
    !IsSpace(c) && c != '@'
  }

  /** `s` is a non-empty run of `[^\s@]`, i.e. matches `[^\s@]+`. */
  predicate IsPart(s: string) {
    |s| > 0 && forall k :: 0 <= k < |s| ==> PartChar(s[k])
  }

  /** The pattern read literally: `s` splits as `A@B.C` with `A`, `B`, `C`
      each a non-empty run of `[^\s@]` (so `B` and `C` may hold further points). */
  ghost predicate MatchesPattern(s: string) {
    exists i, j :: 0 <= i < j < |s| && s[i] == '@' && s[j] == '.' &&
      IsPart(s[..i]) && IsPart(s[i + 1..j]) && IsPart(s[j + 1..])
  }

  /** Number of `@` characters in `s`. */
  function AtCount(s: string): (n: nat)
    ensures n <= |s|
  {
    if s == [] then 0 else (if s[0] == '@' then 1 else 0) + AtCount(s[1..])
  }

  lemma {:induction false} AtCountZero(s: string)
    ensures AtCount(s) == 0 <==> forall k :: 0 <= k < |s| ==> s[k] != '@'
  {
    if s != [] {
      AtCountZero(s[1..]);
      assert forall k :: 1 <= k < |s| ==> s[1..][k - 1] == s[k];
    }
  }

  /** Index of the first `@` of `s`, or `|s|` when there is none. */
  function FirstAt(s: string): (i: nat)
    ensures i <= |s|
    ensures i < |s| ==> s[i] == '@'
    ensures forall k :: 0 <= k < i ==> s[k] != '@'
  {
    if s == [] || s[0] == '@' then 0 else 1 + FirstAt(s[1..])
  }

  lemma {:induction false} AtCountConcat(a: string, b: string)
    ensures AtCount(a + b) == AtCount(a) + AtCount(b)
  {
    if a != [] {
      assert (a + b)[1..] == a[1..] + b;
      AtCountConcat(a[1..], b);
    } else {
      assert a + b == b;
    }
  }

  /** The validity test the two forms apply, stated the way the rule is
      usually read: no white space, exactly one `@`, a non-empty part before
      it, and after it a domain with a point that is neither its first nor
      its last character. */
  predicate IsValidEmail(s: string)
    ensures IsValidEmail(s) ==> |s| >= 5 && s[0] != '@' && !IsSpace(s[0])
  {
    && (forall k :: 0 <= k < |s| ==> !IsSpace(s[k]))
    && AtCount(s) == 1
    && var i := FirstAt(s);
       0 < i < |s| && exists j :: i + 1 < j < |s| - 1 && s[j] == '.'
  }

  /** With no other `@` around it, the first `@` splits the count. */
  lemma {:induction false} SplitAtFirst(s: string)
    requires FirstAt(s) < |s|
    ensures AtCount(s) == 1 + AtCount(s[FirstAt(s) + 1..])
  {
    if s[0] != '@' {
      SplitAtFirst(s[1..]);
      assert s[1..][FirstAt(s[1..]) + 1..] == s[FirstAt(s) + 1..];
    }
  }

  lemma ValidMatchesPattern(s: string)
    requires IsValidEmail(s)
    ensures MatchesPattern(s)
  {
    var i := FirstAt(s);
    var j :| i + 1 < j < |s| - 1 && s[j] == '.';
    SplitAtFirst(s);
    AtCountZero(s[i + 1..]);
    assert forall k :: i < k < |s| ==> s[k] != '@' by {
      forall k | i < k < |s| ensures s[k] != '@' {
        assert s[i + 1..][k - i - 1] == s[k];
      }
    }
    assert IsPart(s[..i]);
    assert IsPart(s[i + 1..j]);
    assert IsPart(s[j + 1..]);
  }

  lemma PatternIsValid(s: string, i: int, j: int)
    requires 0 <= i < j < |s| && s[i] == '@' && s[j] == '.'
    requires IsPart(s[..i]) && IsPart(s[i + 1..j]) && IsPart(s[j + 1..])
    ensures IsValidEmail(s)
  {
    var a, b, c := s[..i], s[i + 1..j], s[j + 1..];
    assert s == a + [s[i]] + (b + [s[j]] + c);
    assert forall k :: 0 <= k < |s| ==> !IsSpace(s[k]) by {
      forall k | 0 <= k < |s| ensures !IsSpace(s[k]) {
        if k < i {
          assert a[k] == s[k];
        } else if i < k < j {
          assert b[k - i - 1] == s[k];
        } else if j < k {
          assert c[k - j - 1] == s[k];
        }
      }
    }
    AtCountZero(a);
    AtCountZero(b);
    AtCountZero(c);
    AtCountConcat(b + [s[j]], c);
    AtCountConcat(b, [s[j]]);
    AtCountConcat(a + [s[i]], b + [s[j]] + c);
    AtCountConcat(a, [s[i]]);
    assert FirstAt(s) == i by {
      assert forall k :: 0 <= k < i ==> s[k] != '@' by {
        forall k | 0 <= k < i ensures s[k] != '@' {
          assert a[k] == s[k];
        }
      }
    }
  }

  /** The reading of the pattern as a rule is exact, in both directions. */
  lemma IsValidEmailIffPattern(s: string)
    ensures IsValidEmail(s) <==> MatchesPattern(s)
  {
    if IsValidEmail(s) {
      ValidMatchesPattern(s);
    }
    if MatchesPattern(s) {
      var i, j :| 0 <= i < j < |s| && s[i] == '@' && s[j] == '.' &&
        IsPart(s[..i]) && IsPart(s[i + 1..j]) && IsPart(s[j + 1..]);
      PatternIsValid(s, i, j);
    }
  }

  lemma Examples()
    ensures IsValidEmail("a@b.co")
    ensures !IsValidEmail("a@b.")
    ensures !IsValidEmail("a@.co")
    ensures !IsValidEmail("@b.co")
    ensures !IsValidEmail("a@b@c.co")
    ensures !IsValidEmail("a b@c.co")
  {
    assert "a@b.co"[3] == '.';
    assert AtCount("a@b@c.co") == 2;
    assert IsSpace("a b@c.co"[1]);
  }
}
