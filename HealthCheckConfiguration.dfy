/** io.dropwizard.health.HealthCheckConfiguration: the definition of one
    registered health check. */
module HealthChecks {
  import opened JavaLang
  import opened Constraints
  import opened Schedules

  /** io.dropwizard.health.HealthCheckType (its source is not part of this
      model; these are its two constants). */
  datatype HealthCheckType = Ready | Alive

  /** The constraints on name: @NotNull and @Size(min = 1). */
  predicate ValidName(name: Nullable<string>)
  {
    NotNull(name) && SizeAtLeast(name, 1)
  }

  class HealthCheckConfiguration {
    var name: Nullable<string>
    var checkType: Nullable<HealthCheckType>
    var critical: bool
    var initialState: bool
    /** A reference: the schedule object is shared with whoever set it. */
    var schedule: Schedule?

    /** The field constraints: a valid name, a non-null type, and a non-null
        schedule that is itself valid (@Valid cascades into it). */
    predicate Valid()
      reads this, schedule
    {
      && ValidName(name)
      && NotNull(checkType)
      && schedule != null && schedule.Valid()
    }

    /** A new definition: empty name, READY, not critical, initially healthy,
        and a fresh default schedule. The empty name leaves it invalid. */
    constructor ()
      ensures name == NonNull("") && checkType == NonNull(Ready)
      ensures !critical && initialState
      ensures schedule != null && fresh(schedule)
      ensures schedule.initialDelay == Null && schedule.checkInterval == NonNull(Durations.SecondsOf(5))
      ensures schedule.downtimeInterval == NonNull(Durations.SecondsOf(30))
      ensures schedule.failureAttempts == 3 && schedule.successAttempts == 2
      ensures !Valid()
      ensures schedule.Valid() && NotNull(checkType)
    {
      name := NonNull("");
      checkType := NonNull(Ready);
      critical := false;
      initialState := true;
      schedule := new Schedule();
    }

    /** Setting a name of at least one character is what a definition whose
        other fields are valid still needs. */
    method SetName(n: Nullable<string>)
      modifies this`name
      ensures name == n
      ensures Valid() <==> ValidName(n) && NotNull(checkType) && schedule != null && schedule.Valid()
    {
      name := n;
    }

    method SetType(t: Nullable<HealthCheckType>)
      modifies this`checkType
      ensures checkType == t
      ensures old(Valid()) ==> (Valid() <==> t.NonNull?)
    {
      checkType := t;
    }

    method SetCritical(c: bool)
      modifies this`critical
      ensures critical == c
      ensures Valid() == old(Valid())
    {
      critical := c;
    }

    method SetInitialState(s: bool)
      modifies this`initialState
      ensures initialState == s
      ensures Valid() == old(Valid())
    {
      initialState := s;
    }

    /** Replaces the reference only; the previous and the new schedule objects
        are not touched. */
    method SetSchedule(s: Schedule?)
      modifies this`schedule
      ensures schedule == s
      ensures s != null ==> unchanged(s)
      ensures old(Valid()) ==> (Valid() <==> s != null && s.Valid())
    {
      schedule := s;
    }
  }
}
