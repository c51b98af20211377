/**
 * The per-timestep throughput schedule of the supply facility: how a
 * one-entry list is expanded to the facility's lifetime when it enters the
 * simulation, how the expanded list is validated (every violation collected
 * into one error), and which entry applies at a given timestep.
 */
module Schedule {
  import opened Wrappers

  /** The largest finite double, the facility's "unlimited" sentinel. */
  const DoubleMax: real := 179769313486231570814527423731704356798070567525844996598917476803157260780028538760589558632766878171540458953514382464234321326889464182768467546703537516986049910576551282076245490090389328944075868508455133942304583236903222948165808559332123348274797826204144723168738177180919299881250404026184124858368.0

  /**
   * The number of timesteps the facility is active: its configured lifetime,
   * or, when the lifetime is -1 (unbounded), the rest of the simulation.
   */
  function ActiveLifetime(lifetime: int, duration: int, enterTime: int): int
  {
    if lifetime != -1 then lifetime else duration - enterTime
  }

  /** A one-entry schedule is replaced by ltime copies of its entry; any other is kept. */
  function Expand(throughput: seq<real>, ltime: nat): seq<real>
  {
    if |throughput| == 1 then seq(ltime, _ => throughput[0]) else throughput
  }

  /** An entry the validation rejects: negative, or above the largest double. */
  predicate OutOfRange(v: real)
  {
    v < 0.0 || v > DoubleMax
  }

  /** Every entry of the schedule lies in [0, DoubleMax]. */
  predicate AllInRange(throughput: seq<real>)
  {
    forall i :: 0 <= i < |throughput| ==> !OutOfRange(throughput[i])
  }

  /** An invalid entry as reported: its position and its value. */
  datatype Violation = Violation(position: nat, value: real)

  /** The schedule's length when it differs from the active lifetime. */
  datatype LengthMismatch = LengthMismatch(actual: nat, expected: int)

  /**
   * The single error raised on entry: an optional length mismatch together
   * with every invalid entry, in position order.
   */
  datatype ScheduleError = ScheduleError(length: Option<LengthMismatch>, invalid: seq<Violation>)

  /** The invalid entries of a schedule, in the order the validation loop meets them. */
  function BadEntries(throughput: seq<real>): seq<Violation>
  {
    if |throughput| == 0 then []
    else
      var n := |throughput| - 1;
      BadEntries(throughput[..n]) + (if OutOfRange(throughput[n]) then [Violation(n, throughput[n])] else [])
  }

  /**
   * The validation on entry: no error when the length matches and every
   * entry is in range; otherwise one error carrying all violations found.
   */
  function Validate(throughput: seq<real>, ltime: int): Option<ScheduleError>
  {
    var length := if |throughput| != ltime then Some(LengthMismatch(|throughput|, ltime)) else None;
    var invalid := BadEntries(throughput);
    if length.None? && invalid == [] then None else Some(ScheduleError(length, invalid))
  }

  /** A reported violation names a real position, its actual value, and that value is out of range. */
  lemma {:induction false} BadEntriesSound(throughput: seq<real>, v: Violation)
    requires v in BadEntries(throughput)
    ensures v.position < |throughput| && throughput[v.position] == v.value && OutOfRange(v.value)
  {
    var n := |throughput| - 1;
    if v in BadEntries(throughput[..n]) {
      BadEntriesSound(throughput[..n], v);
    }
  }

  /** Every out-of-range entry is reported, with its position and value. */
  lemma {:induction false} BadEntriesComplete(throughput: seq<real>, i: nat)
    requires i < |throughput| && OutOfRange(throughput[i])
    ensures Violation(i, throughput[i]) in BadEntries(throughput)
  {
    var n := |throughput| - 1;
    if i < n {
      BadEntriesComplete(throughput[..n], i);
    }
  }

  /** Violations are listed in strictly increasing position order, so none is reported twice. */
  lemma {:induction false} BadEntriesOrdered(throughput: seq<real>)
    ensures forall j, k :: 0 <= j < k < |BadEntries(throughput)| ==>
              BadEntries(throughput)[j].position < BadEntries(throughput)[k].position
  {
    if |throughput| > 0 {
      var n := |throughput| - 1;
      var prefix := BadEntries(throughput[..n]);
      BadEntriesOrdered(throughput[..n]);
      forall v | v in prefix ensures v.position < n {
        BadEntriesSound(throughput[..n], v);
      }
    }
  }

  /** No violation is reported exactly when every entry is in range. */
  lemma BadEntriesEmptyIff(throughput: seq<real>)
    ensures BadEntries(throughput) == [] <==> AllInRange(throughput)
  {
    if BadEntries(throughput) != [] {
      BadEntriesSound(throughput, BadEntries(throughput)[0]);
    }
    if !AllInRange(throughput) {
      var i :| 0 <= i < |throughput| && OutOfRange(throughput[i]);
      BadEntriesComplete(throughput, i);
    }
  }

  /** Entry succeeds exactly when the schedule has lifetime length and every entry is in [0, DoubleMax]. */
  lemma ValidateSucceedsIff(throughput: seq<real>, ltime: int)
    ensures Validate(throughput, ltime).None? <==> |throughput| == ltime && AllInRange(throughput)
  {
    BadEntriesEmptyIff(throughput);
  }

  /**
   * The error is aggregated: it reports the length mismatch (if any) and every
   * out-of-range entry with its position and value, and nothing else.
   */
  lemma ValidateReportsEveryViolation(throughput: seq<real>, ltime: int)
    requires Validate(throughput, ltime).Some?
    ensures var e := Validate(throughput, ltime).value;
      && (e.length.Some? <==> |throughput| != ltime)
      && (e.length.Some? ==> e.length.value == LengthMismatch(|throughput|, ltime))
      && (forall i :: 0 <= i < |throughput| && OutOfRange(throughput[i]) ==> Violation(i, throughput[i]) in e.invalid)
      && (forall v :: v in e.invalid ==> v.position < |throughput| && throughput[v.position] == v.value && OutOfRange(v.value))
  {
    var e := Validate(throughput, ltime).value;
    forall i | 0 <= i < |throughput| && OutOfRange(throughput[i])
      ensures Violation(i, throughput[i]) in e.invalid
    {
      BadEntriesComplete(throughput, i);
    }
    forall v | v in e.invalid
      ensures v.position < |throughput| && throughput[v.position] == v.value && OutOfRange(v.value)
    {
      BadEntriesSound(throughput, v);
    }
  }

  /** A one-entry schedule expands to ltime copies of its entry, so the capacity is the same at every step. */
  lemma ExpandSingleEntry(v: real, ltime: nat, t: nat)
    requires t < ltime
    ensures |Expand([v], ltime)| == ltime && Expand([v], ltime)[t] == v
  {
  }

  /** A single in-range value passes validation for any lifetime. */
  lemma SingleInRangeEntryValidates(v: real, ltime: nat)
    requires !OutOfRange(v)
    ensures Validate(Expand([v], ltime), ltime).None?
  {
    ValidateSucceedsIff(Expand([v], ltime), ltime);
  }

  /** A single negative value is reported once for every timestep of the lifetime. */
  lemma SingleNegativeEntryReportedEverywhere(v: real, ltime: nat, t: nat)
    requires v < 0.0 && t < ltime
    ensures Validate(Expand([v], ltime), ltime).Some?
    ensures Violation(t, v) in Validate(Expand([v], ltime), ltime).value.invalid
  {
    BadEntriesComplete(Expand([v], ltime), t);
  }
}
