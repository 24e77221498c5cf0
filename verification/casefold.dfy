/** The case-insensitive comparison `stricmp` used to pick the renderer
    from the host's driver id, over C strings: a string ends at its first
    NUL character, and letters compare by their lower-case form. */
module CaseFold {

  /** `tolower` in the C locale. */
  function Lower(c: char): (r: char)
    ensures r == '\0' <==> c == '\0'
    ensures 'A' <= c <= 'Z' ==> 'a' <= r <= 'z'
  {
    if 'A' <= c <= 'Z' then (c as int + 32) as char else c
  }

  /** The C string a character sequence denotes: everything before the first NUL. */
  function CStr(s: string): (r: string)
    ensures |r| <= |s|
    ensures forall i | 0 <= i < |r| :: r[i] == s[i] && r[i] != '\0'
  {
    if |s| == 0 || s[0] == '\0' then [] else [s[0]] + CStr(s[1..])
  }

  /** Every character replaced by its lower-case form. */
  function Fold(s: string): (r: string)
    ensures |r| == |s|
    ensures forall i | 0 <= i < |s| :: r[i] == Lower(s[i])
  {
    if |s| == 0 then [] else [Lower(s[0])] + Fold(s[1..])
  }

  /** The two C strings are equal once letters are lower-cased. */
  predicate SameIgnoringCase(a: string, b: string)
  {
    Fold(CStr(a)) == Fold(CStr(b))
  }

  /** `stricmp(a, b)`: the difference of the first pair of lower-cased
      characters that differ, a missing character counting as NUL. */
  function StrICmp(a: string, b: string): int
    decreases |a|
  {
    var ca := if |a| == 0 then '\0' else Lower(a[0]);
    var cb := if |b| == 0 then '\0' else Lower(b[0]);
    if ca != cb then ca as int - cb as int
    else if ca == '\0' then 0
    else StrICmp(a[1..], b[1..])
  }

  /** `stricmp` reports equality exactly for strings equal up to case. */
  lemma {:induction false} StrICmpZeroIff(a: string, b: string)
    ensures StrICmp(a, b) == 0 <==> SameIgnoringCase(a, b)
    decreases |a|
  {
    var ca := if |a| == 0 then '\0' else Lower(a[0]);
    var cb := if |b| == 0 then '\0' else Lower(b[0]);
    var fa, fb := Fold(CStr(a)), Fold(CStr(b));
    if ca == '\0' {
      assert fa == [];
    } else {
      assert fa == [ca] + Fold(CStr(a[1..]));
    }
    if cb == '\0' {
      assert fb == [];
    } else {
      assert fb == [cb] + Fold(CStr(b[1..]));
    }
    if ca != cb {
      if ca != '\0' && cb != '\0' {
        assert fa[0] != fb[0];
      }
    } else if ca != '\0' {
      StrICmpZeroIff(a[1..], b[1..]);
      if SameIgnoringCase(a, b) {
        assert fa[1..] == Fold(CStr(a[1..]));
        assert fb[1..] == Fold(CStr(b[1..]));
      }
    }
  }

  /** A NUL-free string of lower-case letters and digits is its own folded C string. */
  lemma {:induction false} FoldLowerLiteral(s: string)
    requires forall i | 0 <= i < |s| :: s[i] != '\0' && !('A' <= s[i] <= 'Z')
    ensures Fold(CStr(s)) == s
  {
    if |s| > 0 {
      FoldLowerLiteral(s[1..]);
    }
  }
}
