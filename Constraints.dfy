/** The bean-validation constraints that annotate the records' fields, as
    predicates over a field's value. As in Jakarta Bean Validation, every
    constraint except NotNull and NotEmpty accepts a null value. */
module Constraints {
  import opened JavaLang
  import opened JavaStrings

  /** @NotNull */
  predicate NotNull<T>(n: Nullable<T>) {
    n.NonNull?
  }

  /** @NotEmpty on a String: non-null and at least one character. */
  predicate NotEmpty(s: Nullable<string>) {
    s.NonNull? && |s.value| > 0
  }

  /** @Size(min = m) on a String. */
  predicate SizeAtLeast(s: Nullable<string>, m: nat) {
    s.NonNull? ==> |s.value| >= m
  }

  /** @Min(lo) and @Max(hi) together on an int. */
  predicate InRange(x: int, lo: int, hi: int) {
    lo <= x <= hi
  }

  /** @Min(lo) on an Integer. */
  predicate AtLeast(x: Nullable<Int32>, lo: int) {
    x.NonNull? ==> x.value >= lo
  }

  /** @OneOf(values, ignoreCase): the value equals one of the listed strings,
      compared with String.equalsIgnoreCase when ignoreCase is set. */
  predicate OneOf(s: Nullable<string>, values: seq<string>, ignoreCase: bool) {
    s.NonNull? ==>
      exists i :: 0 <= i < |values| &&
        (if ignoreCase then EqualsIgnoreCase(values[i], s.value) else values[i] == s.value)
  }

  /** @Pattern(regexp = "A|B|...") whose expression is a choice between
      literals: the whole value matches one literal. With the CASE_INSENSITIVE
      flag and no UNICODE_CASE flag, java.util.regex folds only US-ASCII
      letters. */
  predicate MatchesLiteralAlternatives(s: Nullable<string>, alternatives: seq<string>, caseInsensitive: bool) {
    s.NonNull? ==>
      exists i :: 0 <= i < |alternatives| &&
        (if caseInsensitive then ToLowerAscii(s.value) == ToLowerAscii(alternatives[i])
         else s.value == alternatives[i])
  }

  /** For literal alternatives and under ASCII case folding, matching the
      pattern case-insensitively and being one of them by equalsIgnoreCase
      accept the same strings. */
  lemma OneOfIgnoreCaseIsCaseInsensitivePattern(s: Nullable<string>, values: seq<string>)
    ensures OneOf(s, values, true) <==> MatchesLiteralAlternatives(s, values, true)
  {
    if s.NonNull? {
      forall i | 0 <= i < |values|
        ensures EqualsIgnoreCase(values[i], s.value) <==> ToLowerAscii(s.value) == ToLowerAscii(values[i])
      {
        EqualsIgnoreCaseIffLowerEqual(values[i], s.value);
      }
    }
  }
}
