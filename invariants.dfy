/** What stays true from one notification to the next: the error bookkeeping,
    the shape of the slots and rows, and (when validating) buffers without a
    complete line. */
module HandlerInvariants {
  import opened Wrappers
  import opened PyText
  import opened LineBuffer
  import opened LineParser
  import opened Handler
  import opened HandlerProps

  /** One stop request per failure from the `MAX_ERRORS`-th on. */
  predicate AbortAccounting(a: Aggregate) {
    a.abortRequests == if a.errorCounter >= MAX_ERRORS then a.errorCounter - (MAX_ERRORS - 1) else 0
  }

  /** Every row has `width` columns. */
  predicate RowsWide(csv: seq<Row>, width: nat) {
    forall k :: 0 <= k < |csv| ==> |csv[k]| == width
  }

  /** The invariant of the line loop's state. A validating handler only ever
      stores six values per sensor and so writes rows of `1 + 6 * n` columns. */
  predicate AggInvariant(v: Variant, a: Aggregate) {
    AggWellFormed(v, a) && AbortAccounting(a) &&
    (v.validation.Checked? ==>
       SlotsHold(a.slots, FIELD_COUNT) && RowsWide(a.csv, 1 + FIELD_COUNT * v.sensors))
  }

  /** The invariant between calls; a validating handler also never leaves a
      complete line in any buffer. */
  predicate Invariant(v: Variant, s: State) {
    WellFormed(v, s) && AggInvariant(v, s.agg) &&
    (v.validation.Checked? ==> forall i :: i in s.buffers ==> '\n' !in s.buffers[i])
  }

  lemma InitialInvariant(v: Variant)
    requires ValidVariant(v)
    ensures Invariant(v, Initial(v))
  {
  }

  /** Starting an exercise keeps the invariant. */
  lemma StartExercisePreservesInvariant(v: Variant, s: State)
    requires Invariant(v, s)
    ensures Invariant(v, StartExercise(v, s))
  {
  }

  /** Starting or stopping the runner keeps the invariant. */
  lemma SetStopFlagPreservesInvariant(v: Variant, s: State, stop: bool)
    requires Invariant(v, s)
    ensures Invariant(v, SetStopFlag(s, stop))
  {
  }

  /** Once the runner has been stopped, every notification is dropped by the
      applications that check `STOP_FLAG`, until the runner starts again. */
  lemma StoppedRunnerDropsNotifications(v: Variant, s: State, id: nat, chunk: string, now: int)
    requires v.honoursStop && WellFormed(v, s) && id in Ids(v.sensors)
    ensures Notify(v, SetStopFlag(s, true), id, chunk, now) == SetStopFlag(s, true)
  {
  }

  lemma StorePreservesAggInvariant(v: Variant, a: Aggregate, id: nat, r: Reading)
    requires AggInvariant(v, a) && id in Ids(v.sensors)
    requires v.validation.Checked? ==> |r.values| == FIELD_COUNT
    ensures AggInvariant(v, Store(v, a, id, r))
  {
    StoreSpec(v, a, id, r);
    var filled := a.slots[id := Some(r)];
    if v.validation.Checked? {
      assert SlotsHold(filled, FIELD_COUNT);
      if AllFilled(filled, v.sensors) {
        SixValueRowWidth(filled, v.sensors);
        var csv := a.csv + [BuildRow(filled, v.sensors)];
        assert RowsWide(csv, 1 + FIELD_COUNT * v.sensors) by {
          forall k | 0 <= k < |csv| ensures |csv[k]| == 1 + FIELD_COUNT * v.sensors {
            if k < |a.csv| {
              assert csv[k] == a.csv[k];
            }
          }
        }
      }
    }
  }

  lemma RecordFailurePreservesAggInvariant(v: Variant, a: Aggregate)
    requires AggInvariant(v, a) && v.validation.Checked?
    ensures AggInvariant(v, RecordFailure(v, a))
  {
  }

  lemma HandleLinePreservesAggInvariant(v: Variant, a: Aggregate, id: nat, start: int, line: string, now: int)
    requires AggInvariant(v, a) && id in Ids(v.sensors)
    ensures AggInvariant(v, HandleLine(v, a, id, start, line, now).agg)
  {
    if !IsBlank(line) {
      ParseSpec(v, line);
      if Parse(v, line).Ok? {
        ParsedLineStored(v, a, id, start, line, now);
        StorePreservesAggInvariant(v, a, id, Reading(now - start, Parse(v, line).value));
      } else if v.validation.Checked? {
        RecordFailurePreservesAggInvariant(v, a);
      }
    }
  }

  lemma {:induction false} DrainPreservesAggInvariant(v: Variant, s: State, id: nat, now: int)
    requires WellFormed(v, s) && id in Ids(v.sensors) && s.startTimes[id].Some?
    requires AggInvariant(v, s.agg)
    ensures AggInvariant(v, Drain(v, s, id, now).agg)
    decreases |s.buffers[id]|
  {
    if '\n' in s.buffers[id] {
      var (line, rest) := SplitFirstLine(s.buffers[id]);
      var o := HandleLine(v, s.agg, id, s.startTimes[id].value, line, now);
      HandleLinePreservesAggInvariant(v, s.agg, id, s.startTimes[id].value, line, now);
      DrainStep(v, s, id, now);
      if !o.raised {
        DrainPreservesAggInvariant(v, s.(buffers := s.buffers[id := rest], agg := o.agg), id, now);
      }
    }
  }

  /** Every call keeps the invariant. */
  lemma NotifyPreservesInvariant(v: Variant, s: State, id: nat, chunk: string, now: int)
    requires Invariant(v, s) && id in Ids(v.sensors)
    ensures Invariant(v, Notify(v, s, id, chunk, now))
  {
    if !(v.honoursStop && s.agg.stopFlag) {
      NotifyStep(v, s, id, chunk, now);
      var started := if s.startTimes[id].None? then s.startTimes[id := Some(now)] else s.startTimes;
      var s0 := s.(startTimes := started, buffers := s.buffers[id := s.buffers[id] + chunk]);
      DrainPreservesAggInvariant(v, s0, id, now);
      DrainFacts(v, s0, id, now);
    }
  }

  /** Between calls the four-sensor application's rows all have 25 columns,
      so its check `len(row) != 25` never raises. */
  lemma FourSensorRowsHave25Columns(s: State)
    requires Invariant(FourSensorApp, s)
    ensures RowsWide(s.agg.csv, 25)
  {
  }

  /** The three-sensor validating applications' rows all have 19 columns, so
      their check `len(row) != 19` never raises. */
  lemma ThreeSensorRowsHave19Columns(v: Variant, s: State)
    requires v == WizardDualWindow || v == MainApp
    requires Invariant(v, s)
    ensures RowsWide(s.agg.csv, 19)
  {
  }

  // ---------------------------------------------------------------------
  // Immediate stop at the threshold
  // ---------------------------------------------------------------------

  predicate StopsImmediately(v: Variant) {
    v.validation.Checked? && v.validation.abort == Immediate
  }

  lemma HandleLineStopFlag(v: Variant, a: Aggregate, id: nat, start: int, line: string, now: int)
    requires AggWellFormed(v, a) && id in Ids(v.sensors) && StopsImmediately(v)
    ensures var b := HandleLine(v, a, id, start, line, now).agg;
            (a.stopFlag ==> b.stopFlag) &&
            (b.errorCounter > a.errorCounter ==> b.errorCounter == a.errorCounter + 1) &&
            (b.errorCounter > a.errorCounter && b.errorCounter >= MAX_ERRORS ==> b.stopFlag)
  {
    if !IsBlank(line) {
      ParseSpec(v, line);
      if Parse(v, line).Ok? {
        ParsedLineStored(v, a, id, start, line, now);
      }
    }
  }

  /** Once set, the stop flag stays set through the loop; and when the loop
      counts a failure that reaches the threshold, the flag is set at its end. */
  lemma {:induction false} DrainStopFlag(v: Variant, s: State, id: nat, now: int)
    requires WellFormed(v, s) && id in Ids(v.sensors) && s.startTimes[id].Some?
    requires StopsImmediately(v)
    ensures var r := Drain(v, s, id, now).agg;
            (s.agg.stopFlag ==> r.stopFlag) &&
            (r.errorCounter > s.agg.errorCounter && r.errorCounter >= MAX_ERRORS ==> r.stopFlag)
    decreases |s.buffers[id]|
  {
    if '\n' in s.buffers[id] {
      var (line, rest) := SplitFirstLine(s.buffers[id]);
      var o := HandleLine(v, s.agg, id, s.startTimes[id].value, line, now);
      HandleLineStopFlag(v, s.agg, id, s.startTimes[id].value, line, now);
      HandleLineFacts(v, s.agg, id, s.startTimes[id].value, line, now);
      var next := s.(buffers := s.buffers[id := rest], agg := o.agg);
      DrainStep(v, s, id, now);
      assert Drain(v, s, id, now) == Drain(v, next, id, now);
      DrainStopFlag(v, next, id, now);
      DrainFacts(v, next, id, now);
      var r := Drain(v, next, id, now).agg;
      assert next.agg.errorCounter <= r.errorCounter;
      if r.errorCounter > s.agg.errorCounter && r.errorCounter >= MAX_ERRORS {
        if r.errorCounter == next.agg.errorCounter {
          assert next.agg.stopFlag;
        }
      }
    }
  }

  /** In the wizard and the main application, a call in which the error count
      reaches or passes `MAX_ERRORS` stops the exercise before it returns, so
      every later call is ignored until the runner is started again. */
  lemma ImmediateAbortIgnoresLaterCalls(v: Variant, s: State, id: nat, chunk: string, now: int,
                                        id2: nat, chunk2: string, now2: int)
    requires v == WizardDualWindow || v == MainApp
    requires WellFormed(v, s) && id in Ids(v.sensors) && id2 in Ids(v.sensors)
    requires Notify(v, s, id, chunk, now).agg.errorCounter >= MAX_ERRORS
    requires Notify(v, s, id, chunk, now).agg.errorCounter > s.agg.errorCounter
    ensures Notify(v, s, id, chunk, now).agg.stopFlag
    ensures Notify(v, Notify(v, s, id, chunk, now), id2, chunk2, now2) == Notify(v, s, id, chunk, now)
  {
    NotifyStep(v, s, id, chunk, now);
    var started := if s.startTimes[id].None? then s.startTimes[id := Some(now)] else s.startTimes;
    DrainStopFlag(v, s.(startTimes := started, buffers := s.buffers[id := s.buffers[id] + chunk]), id, now);
  }
}
