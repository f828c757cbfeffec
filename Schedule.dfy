/** io.dropwizard.health.Schedule: the timing and threshold parameters of one
    health check. */
module Schedules {
  import opened JavaLang
  import opened Durations
  import opened Constraints

  class Schedule {
    /** Null means "not set": the initial delay then follows checkInterval. */
    var initialDelay: Nullable<Duration>
    var checkInterval: Nullable<Duration>
    var downtimeInterval: Nullable<Duration>
    var failureAttempts: Int32
    var successAttempts: Int32

    /** The field constraints: @NotNull intervals and @Min(0) attempt counts. */
    predicate Valid()
      reads this
    {
      && NotNull(checkInterval)
      && NotNull(downtimeInterval)
      && InRange(failureAttempts, 0, INTEGER_MAX_VALUE)
      && InRange(successAttempts, 0, INTEGER_MAX_VALUE)
    }

    /** A new schedule: no initial delay, probes every 5 s, every 30 s while
        down, 3 failures to go down and 2 successes to come back. */
    constructor ()
      ensures initialDelay == Null
      ensures checkInterval == NonNull(SecondsOf(5))
      ensures downtimeInterval == NonNull(SecondsOf(30))
      ensures failureAttempts == 3 && successAttempts == 2
      ensures Valid()
      ensures GetInitialDelay() == NonNull(SecondsOf(5))
    {
      initialDelay := Null;
      checkInterval := NonNull(SecondsOf(5));
      downtimeInterval := NonNull(SecondsOf(30));
      failureAttempts := 3;
      successAttempts := 2;
    }

    /** The initial delay in effect: the one set, or else the check interval as
        it is at the time of the call. */
    function GetInitialDelay(): (r: Nullable<Duration>)
      reads this`initialDelay, this`checkInterval
      ensures initialDelay.NonNull? ==> r == initialDelay
      ensures initialDelay.Null? ==> r == checkInterval
      ensures Valid() ==> r.NonNull?
    {
      if initialDelay.Null? then checkInterval else initialDelay
    }

    method SetInitialDelay(d: Nullable<Duration>)
      modifies this`initialDelay
      ensures initialDelay == d
      ensures d.NonNull? ==> GetInitialDelay() == d
      ensures d.Null? ==> GetInitialDelay() == checkInterval
      ensures Valid() == old(Valid())
    {
      initialDelay := d;
    }

    method SetCheckInterval(d: Nullable<Duration>)
      modifies this`checkInterval
      ensures checkInterval == d
      ensures initialDelay.Null? ==> GetInitialDelay() == d
      ensures initialDelay.NonNull? ==> GetInitialDelay() == old(GetInitialDelay())
      ensures old(Valid()) ==> (Valid() <==> NotNull(d))
    {
      checkInterval := d;
    }

    method SetDowntimeInterval(d: Nullable<Duration>)
      modifies this`downtimeInterval
      ensures downtimeInterval == d
      ensures GetInitialDelay() == old(GetInitialDelay())
      ensures old(Valid()) ==> (Valid() <==> NotNull(d))
    {
      downtimeInterval := d;
    }

    method SetFailureAttempts(n: Int32)
      modifies this`failureAttempts
      ensures failureAttempts == n
      ensures old(Valid()) ==> (Valid() <==> n >= 0)
    {
      failureAttempts := n;
    }

    method SetSuccessAttempts(n: Int32)
      modifies this`successAttempts
      ensures successAttempts == n
      ensures old(Valid()) ==> (Valid() <==> n >= 0)
    {
      successAttempts := n;
    }

    /** Schedule.equals(Object): the same object, or another Schedule whose
        five fields are equal, comparing the stored initial delay and not the
        defaulted one. */
    predicate Equals(o: object?)
      reads this, o
    {
      if this == o then true
      else if !(o is Schedule) then false
      else
        var s := o as Schedule;
        && failureAttempts == s.failureAttempts
        && successAttempts == s.successAttempts
        && initialDelay == s.initialDelay
        && checkInterval == s.checkInterval
        && downtimeInterval == s.downtimeInterval
    }

    /** Schedule.hashCode: Objects.hash over the five fields in declaration
        order. The hash of a Duration is a parameter, since its time unit's
        hash is an identity hash. */
    function HashCode(durationHash: Duration -> Int32): (r: Int32)
      reads this
    {
      ObjectsHash([
        NullableHash(initialDelay, durationHash),
        NullableHash(checkInterval, durationHash),
        NullableHash(downtimeInterval, durationHash),
        failureAttempts,
        successAttempts])
    }
  }

  /** Equality of schedules is the same-five-fields relation. */
  lemma EqualsIffSameFields(a: Schedule, b: object?)
    ensures a.Equals(b) <==>
      b is Schedule &&
      var s := b as Schedule;
      && a.failureAttempts == s.failureAttempts
      && a.successAttempts == s.successAttempts
      && a.initialDelay == s.initialDelay
      && a.checkInterval == s.checkInterval
      && a.downtimeInterval == s.downtimeInterval
  {
  }

  /** Nothing equals null. */
  lemma NotEqualToNull(a: Schedule)
    ensures !a.Equals(null)
  {
  }

  /** equals is reflexive, symmetric and transitive. */
  lemma EqualsIsEquivalence(a: Schedule, b: Schedule, c: Schedule)
    ensures a.Equals(a)
    ensures a.Equals(b) ==> b.Equals(a)
    ensures a.Equals(b) && b.Equals(c) ==> a.Equals(c)
  {
  }

  /** Equal schedules have equal hash codes, whatever the Duration hash. */
  lemma EqualsImpliesSameHashCode(a: Schedule, b: Schedule, durationHash: Duration -> Int32)
    requires a.Equals(b)
    ensures a.HashCode(durationHash) == b.HashCode(durationHash)
  {
  }

  /** The hash code is the five-term polynomial in 31 truncated to 32 bits. */
  lemma HashCodeIsPolynomial(a: Schedule, durationHash: Duration -> Int32)
    ensures a.HashCode(durationHash) == Wrap(
      31 * 31 * 31 * 31 * 31
      + 31 * 31 * 31 * 31 * NullableHash(a.initialDelay, durationHash)
      + 31 * 31 * 31 * NullableHash(a.checkInterval, durationHash)
      + 31 * 31 * NullableHash(a.downtimeInterval, durationHash)
      + 31 * a.failureAttempts
      + a.successAttempts)
  {
    var hs := [
      NullableHash(a.initialDelay, durationHash),
      NullableHash(a.checkInterval, durationHash),
      NullableHash(a.downtimeInterval, durationHash),
      a.failureAttempts,
      a.successAttempts];
    ObjectsHashIsWrappedPolynomial(hs);
    HashPolynomialOfFive(hs[0], hs[1], hs[2], hs[3], hs[4]);
  }

  /** An unset initial delay and one set explicitly to the check interval
      give the same effective delay, yet the schedules are not equal, because
      equals compares the raw field. */
  lemma RawInitialDelayDistinguishes(a: Schedule, b: Schedule)
    requires a.initialDelay.Null? && a.checkInterval.NonNull?
    requires b.initialDelay == a.checkInterval
    requires b.checkInterval == a.checkInterval && b.downtimeInterval == a.downtimeInterval
    requires b.failureAttempts == a.failureAttempts && b.successAttempts == a.successAttempts
    ensures a.GetInitialDelay() == b.GetInitialDelay()
    ensures !a.Equals(b) && !b.Equals(a)
  {
  }
}
