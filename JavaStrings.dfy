/** The java.lang.String operations the records' validators use, over Dafny
    strings. Case mapping is modelled on the ASCII letters only. */
module JavaStrings {

  /** String.startsWith. */
  function StartsWith(s: string, prefix: string): (r: bool)
    ensures r <==> |prefix| <= |s| && s[..|prefix|] == prefix
  {
    prefix <= s
  }

  /** Character.toUpperCase on the ASCII letters; every other character is
      left as it is. */
  function UpperAscii(c: char): (r: char)
    ensures 'a' <= c <= 'z' ==> r as int == c as int - 32
    ensures !('a' <= c <= 'z') ==> r == c
  {
    if 'a' <= c <= 'z' then (c as int - 32) as char else c
  }

  /** Character.toLowerCase on the ASCII letters; every other character is
      left as it is. */
  function LowerAscii(c: char): (r: char)
    ensures 'A' <= c <= 'Z' ==> r as int == c as int + 32
    ensures !('A' <= c <= 'Z') ==> r == c
  {
    if 'A' <= c <= 'Z' then (c as int + 32) as char else c
  }

  /** Lower-casing ignores a prior upper-casing, and the reverse: the two
      case mappings agree on which characters they identify. */
  lemma CaseMappingsAbsorb(c: char)
    ensures LowerAscii(UpperAscii(c)) == LowerAscii(c)
    ensures UpperAscii(LowerAscii(c)) == UpperAscii(c)
    ensures LowerAscii(LowerAscii(c)) == LowerAscii(c)
  {
  }

  /** String.toLowerCase, character by character. */
  function ToLowerAscii(s: string): (r: string)
    ensures |r| == |s|
    ensures forall i :: 0 <= i < |s| ==> r[i] == LowerAscii(s[i])
  {
    seq(|s|, i requires 0 <= i < |s| => LowerAscii(s[i]))
  }

  /** Lower-casing a string twice is lower-casing it once. */
  lemma ToLowerAsciiIdempotent(s: string)
    ensures ToLowerAscii(ToLowerAscii(s)) == ToLowerAscii(s)
  {
    var l := ToLowerAscii(s);
    forall i | 0 <= i < |l| ensures ToLowerAscii(l)[i] == l[i] {
      CaseMappingsAbsorb(s[i]);
    }
  }

  /** startsWith holds exactly when the string is the prefix followed by
      some rest. */
  lemma StartsWithIffPrefixPlusRest(s: string, prefix: string)
    ensures StartsWith(s, prefix) <==> exists rest :: s == prefix + rest
  {
    if StartsWith(s, prefix) {
      assert s == prefix + s[|prefix|..];
    }
  }

  /** The per-character test of String.regionMatches with ignoreCase: equal
      characters, equal upper-case forms, or equal lower-case forms of the
      upper-case forms. */
  predicate CharEqualsIgnoreCase(c1: char, c2: char)
  {
    c1 == c2
    || UpperAscii(c1) == UpperAscii(c2)
    || LowerAscii(UpperAscii(c1)) == LowerAscii(UpperAscii(c2))
  }

  /** String.equalsIgnoreCase: the same length and every pair of characters
      equal ignoring case. */
  predicate EqualsIgnoreCase(a: string, b: string)
  {
    |a| == |b| && (|a| == 0 || (CharEqualsIgnoreCase(a[0], b[0]) && EqualsIgnoreCase(a[1..], b[1..])))
  }

  /** Two characters are equal ignoring case exactly when their lower-case
      forms are equal. */
  lemma CharEqualsIgnoreCaseIffLower(c1: char, c2: char)
    ensures CharEqualsIgnoreCase(c1, c2) <==> LowerAscii(c1) == LowerAscii(c2)
  {
  }

  /** Two strings are equal ignoring case exactly when their lower-case forms
      are equal. */
  lemma {:induction false} EqualsIgnoreCaseIffLowerEqual(a: string, b: string)
    ensures EqualsIgnoreCase(a, b) <==> ToLowerAscii(a) == ToLowerAscii(b)
  {
    if |a| == |b| && |a| > 0 {
      CharEqualsIgnoreCaseIffLower(a[0], b[0]);
      EqualsIgnoreCaseIffLowerEqual(a[1..], b[1..]);
      var la, lb := ToLowerAscii(a), ToLowerAscii(b);
      assert la == [LowerAscii(a[0])] + ToLowerAscii(a[1..]);
      assert lb == [LowerAscii(b[0])] + ToLowerAscii(b[1..]);
      if la == lb {
        assert la[0] == lb[0];
        assert la[1..] == lb[1..];
      }
    } else if |a| != |b| {
      assert |ToLowerAscii(a)| != |ToLowerAscii(b)|;
    }
  }

  /** Ignoring case is an equivalence: reflexive, symmetric and transitive. */
  lemma EqualsIgnoreCaseIsEquivalence(a: string, b: string, c: string)
    ensures EqualsIgnoreCase(a, a)
    ensures EqualsIgnoreCase(a, b) ==> EqualsIgnoreCase(b, a)
    ensures EqualsIgnoreCase(a, b) && EqualsIgnoreCase(b, c) ==> EqualsIgnoreCase(a, c)
  {
    EqualsIgnoreCaseIffLowerEqual(a, a);
    EqualsIgnoreCaseIffLowerEqual(a, b);
    EqualsIgnoreCaseIffLowerEqual(b, a);
    EqualsIgnoreCaseIffLowerEqual(b, c);
    EqualsIgnoreCaseIffLowerEqual(a, c);
  }

  /** A lower-case literal equals a string, ignoring case, exactly when the
      string's own lower-case form is that literal. */
  lemma EqualsIgnoreCaseLowerLiteral(literal: string, s: string)
    requires ToLowerAscii(literal) == literal
    ensures EqualsIgnoreCase(literal, s) <==> ToLowerAscii(s) == literal
  {
    EqualsIgnoreCaseIffLowerEqual(literal, s);
  }
}
