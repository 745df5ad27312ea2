/** The string primitives the validation and the lookups rely on. */
module Text {

  /** ASCII upper-casing of one character; other characters are kept. */
  function Upper(c: char): char
  {
    if 'a' <= c <= 'z' then (c as int - 'a' as int + 'A' as int) as char else c
  }

  /** The whole string upper-cased, as the store's `upper(...)` does. */
  function UpperCased(s: string): string
  {
    if s == [] then [] else [Upper(s[0])] + UpperCased(s[1..])
  }

  /** Equality ignoring case, as the `...IgnoreCase` finders compare:
      `upper(column) = upper(argument)`. */
  predicate EqualsIgnoreCase(a: string, b: string)
  {
    UpperCased(a) == UpperCased(b)
  }

  /** Case-insensitive equality is the character-by-character comparison
      of the upper-cased characters. */
  lemma {:induction false} EqualsIgnoreCasePointwise(a: string, b: string)
    ensures EqualsIgnoreCase(a, b) <==>
            |a| == |b| && forall i | 0 <= i < |a| :: Upper(a[i]) == Upper(b[i])
  {
    UpperCasedLength(a);
    UpperCasedLength(b);
    if a != [] && b != [] {
      EqualsIgnoreCasePointwise(a[1..], b[1..]);
      if EqualsIgnoreCase(a, b) {
        assert UpperCased(a)[0] == UpperCased(b)[0];
        assert UpperCased(a)[1..] == UpperCased(a[1..]);
        assert UpperCased(b)[1..] == UpperCased(b[1..]);
        forall i | 0 <= i < |a| ensures Upper(a[i]) == Upper(b[i]) {
          if i > 0 { assert a[1..][i - 1] == a[i] && b[1..][i - 1] == b[i]; }
        }
      }
      if |a| == |b| && forall i | 0 <= i < |a| :: Upper(a[i]) == Upper(b[i]) {
        forall i | 0 <= i < |a[1..]| ensures Upper(a[1..][i]) == Upper(b[1..][i]) {
          assert a[1..][i] == a[i + 1] && b[1..][i] == b[i + 1];
        }
      }
    }
  }

  lemma {:induction false} UpperCasedLength(s: string)
    ensures |UpperCased(s)| == |s|
  {
    if s != [] { UpperCasedLength(s[1..]); }
  }

  /** Java's `String.trim()` at the front: drops characters up to U+0020. */
  function TrimStart(s: string): string
  {
    if |s| > 0 && s[0] <= ' ' then TrimStart(s[1..]) else s
  }

  /** Java's `String.trim()` at the back. */
  function TrimEnd(s: string): string
  {
    if |s| > 0 && s[|s| - 1] <= ' ' then TrimEnd(s[..|s| - 1]) else s
  }

  function Trim(s: string): string
  {
    TrimEnd(TrimStart(s))
  }

  /** `@NotBlank` on a non-null string: something is left after trimming. */
  predicate NotBlank(s: string)
  {
    |Trim(s)| > 0
  }

  /** Some character lies above U+0020. */
  predicate HasVisibleChar(s: string)
  {
    exists i | 0 <= i < |s| :: s[i] > ' '
  }

  lemma {:induction false} TrimStartEmptyIffInvisible(s: string)
    ensures TrimStart(s) == [] <==> !HasVisibleChar(s)
    ensures TrimStart(s) != [] ==> TrimStart(s)[0] > ' '
  {
    if |s| > 0 && s[0] <= ' ' {
      TrimStartEmptyIffInvisible(s[1..]);
      if HasVisibleChar(s) {
        var i :| 0 <= i < |s| && s[i] > ' ';
        assert s[1..][i - 1] == s[i];
      }
      if HasVisibleChar(s[1..]) {
        var i :| 0 <= i < |s[1..]| && s[1..][i] > ' ';
        assert s[i + 1] == s[1..][i];
      }
    } else if |s| > 0 {
      assert s[0] > ' ';
    }
  }

  lemma {:induction false} TrimEndKeepsLeadingVisible(s: string)
    requires |s| > 0 && s[0] > ' '
    ensures TrimEnd(s) != []
  {
    if s[|s| - 1] <= ' ' {
      assert |s| > 1;
      assert s[..|s| - 1][0] == s[0];
      TrimEndKeepsLeadingVisible(s[..|s| - 1]);
    }
  }

  /** A string is not blank exactly when one of its characters is above
      U+0020, whatever stands around it. */
  lemma NotBlankIffVisibleChar(s: string)
    ensures NotBlank(s) <==> HasVisibleChar(s)
  {
    TrimStartEmptyIffInvisible(s);
    if TrimStart(s) != [] {
      TrimEndKeepsLeadingVisible(TrimStart(s));
    }
  }
}
