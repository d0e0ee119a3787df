/**
 * The few JavaScript string operations the extension relies on:
 * `includes`, `toLowerCase` and "first letter upper-cased" (`charAt(0).toUpperCase() + slice(1)`).
 * Case mapping is modelled on ASCII letters only.
 */
module JsString {

  /** `s.includes(sub)`: `sub` occurs in `s` at some position (the empty string occurs everywhere). */
  predicate Includes(s: string, sub: string): (r: bool)
    decreases |s|
    ensures sub == [] ==> r
    ensures r ==> |sub| <= |s|
  {
    sub <= s || (s != [] && Includes(s[1..], sub))
  }

  /** `sub` occurs in `s` starting at index `i`. */
  predicate OccursAt(s: string, sub: string, i: int) {
    0 <= i <= |s| - |sub| && s[i..i + |sub|] == sub
  }

  /** Whatever `includes` finds occurs at some index. */
  lemma {:induction false} IncludesHasOccurrence(s: string, sub: string)
    requires Includes(s, sub)
    ensures exists i :: OccursAt(s, sub, i)
    decreases |s|
  {
    if sub <= s {
      assert OccursAt(s, sub, 0);
    } else {
      IncludesHasOccurrence(s[1..], sub);
      var i :| OccursAt(s[1..], sub, i);
      assert s[i + 1..i + 1 + |sub|] == s[1..][i..i + |sub|];
      assert OccursAt(s, sub, i + 1);
    }
  }

  /** Every occurrence is found by `includes`. */
  lemma {:induction false} OccurrenceIncluded(s: string, sub: string, i: int)
    requires OccursAt(s, sub, i)
    ensures Includes(s, sub)
  {
    IncludesInfix(s[..i], sub, s[i + |sub|..]);
    assert s[..i] + sub + s[i + |sub|..] == s;
  }

  /** `includes` holds exactly when `sub` occurs in `s` at some index. */
  lemma IncludesIffOccurs(s: string, sub: string)
    ensures Includes(s, sub) <==> exists i :: OccursAt(s, sub, i)
  {
    if Includes(s, sub) {
      IncludesHasOccurrence(s, sub);
    }
    if i :| OccursAt(s, sub, i) {
      OccurrenceIncluded(s, sub, i);
    }
  }

  /** Anything placed between a prefix and a suffix is found by `includes`. */
  lemma {:induction false} IncludesInfix(prefix: string, sub: string, suffix: string)
    ensures Includes(prefix + sub + suffix, sub)
  {
    if prefix == [] {
      assert prefix + sub + suffix == sub + suffix;
    } else {
      IncludesInfix(prefix[1..], sub, suffix);
      assert (prefix + sub + suffix)[1..] == prefix[1..] + sub + suffix;
    }
  }

  /** A string that never contains the first character of `sub` does not include `sub`. */
  lemma {:induction false} NotIncludesWithoutFirstChar(s: string, sub: string)
    requires sub != []
    requires forall i :: 0 <= i < |s| ==> s[i] != sub[0]
    ensures !Includes(s, sub)
  {
    if s != [] {
      assert s[0] != sub[0];
      NotIncludesWithoutFirstChar(s[1..], sub);
    }
  }

  function LowerChar(c: char): char {
    if 'A' <= c <= 'Z' then (c as int + 32) as char else c
  }

  function UpperChar(c: char): char {
    if 'a' <= c <= 'z' then (c as int - 32) as char else c
  }

  /** `s.toLowerCase()` */
  function ToLowerCase(s: string): (r: string)
    ensures |r| == |s|
    ensures forall i :: 0 <= i < |s| ==> r[i] == LowerChar(s[i])
  {
    if s == [] then [] else [LowerChar(s[0])] + ToLowerCase(s[1..])
  }

  /** `s.charAt(0).toUpperCase() + s.slice(1)`; the empty string stays empty. */
  function CapitalizeFirst(s: string): (r: string)
    ensures |r| == |s|
    ensures s != [] ==> r[0] == UpperChar(s[0]) && r[1..] == s[1..]
  {
    if s == [] then [] else [UpperChar(s[0])] + s[1..]
  }
}
