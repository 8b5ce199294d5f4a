/** The handler's module-level state as an object whose methods update it in
    place, as `notification_handler` and its callers do. Each method is proved
    to have the effect of the corresponding function of `Handler`. */
module Hub {
  import opened Wrappers
  import opened PyText
  import opened PyFloat
  import opened LineBuffer
  import opened LineParser
  import opened Handler
  import opened HandlerProps

  class SensorHub {
    const variant: Variant
    /** `buffers`: the text received from each sensor and not yet handled. */
    var buffers: map<nat, string>
    /** `start_times`: when each sensor's first notification of the session arrived. */
    var startTimes: map<nat, Option<int>>
    /** `sensor_data`: each sensor's pending reading. */
    var slots: map<nat, Option<Reading>>
    /** `error_counter`. */
    var errorCounter: nat
    /** `STOP_FLAG`. */
    var stopFlag: bool
    /** How many stop requests the handler has issued. */
    var abortRequests: nat
    /** The rows appended to the current CSV file. */
    ghost var csv: seq<Row>

    ghost function Model(): State
      reads this
    {
      State(buffers, startTimes, Aggregate(slots, errorCounter, stopFlag, abortRequests, csv))
    }

    ghost predicate Valid()
      reads this
    {
      WellFormed(variant, Model())
    }

    /** The module-level initialisation. */
    constructor (v: Variant)
      requires ValidVariant(v)
      ensures variant == v && Valid() && Model() == Initial(v)
    {
      variant := v;
      buffers := map i | i in Ids(v.sensors) :: "";
      startTimes := map i | i in Ids(v.sensors) :: None;
      slots := EmptySlots(v.sensors);
      errorCounter := 0;
      stopFlag := false;
      abortRequests := 0;
      csv := [];
    }

    /** `all(sensor_data[i]["values"][0] is not None for i in range(1, N + 1))`. */
    method SlotsAllFilled() returns (all: bool)
      requires Valid()
      ensures all == AllFilled(slots, variant.sensors)
    {
      var i := 1;
      while i <= variant.sensors
        invariant 1 <= i <= variant.sensors + 1
        invariant forall j: nat :: 1 <= j < i ==> slots[j].Some?
      {
        if slots[i].None? {
          return false;
        }
        i := i + 1;
      }
      return true;
    }

    /** The loop that empties every slot after a row is written. */
    method ClearSlots()
      requires Valid()
      modifies this`slots
      ensures Valid() && slots == EmptySlots(variant.sensors)
    {
      var i := 1;
      while i <= variant.sensors
        invariant 1 <= i <= variant.sensors + 1
        invariant slots.Keys == Ids(variant.sensors)
        invariant forall j: nat :: 1 <= j < i ==> slots[j] == None
      {
        slots := slots[i := None];
        i := i + 1;
      }
      assert forall j :: j in slots ==> slots[j] == EmptySlots(variant.sensors)[j];
    }

    /** Store a reading in its sensor's slot; when every slot is filled, write
        the row and clear the slots. */
    method Store(id: nat, r: Reading)
      requires Valid() && id in Ids(variant.sensors)
      modifies this`slots, this`csv
      ensures Valid() && Model().agg == Handler.Store(variant, old(Model().agg), id, r)
    {
      slots := slots[id := Some(r)];
      var all := SlotsAllFilled();
      if all {
        csv := csv + [BuildRow(slots, variant.sensors)];
        ClearSlots();
      }
    }

    /** The `except ValueError` branch. */
    method RecordFailure()
      requires Valid() && variant.validation.Checked?
      modifies this`errorCounter, this`abortRequests, this`stopFlag
      ensures Valid() && Model().agg == Handler.RecordFailure(variant, old(Model().agg))
    {
      errorCounter := errorCounter + 1;
      if errorCounter >= MAX_ERRORS {
        abortRequests := abortRequests + 1;
        if variant.validation.abort == Immediate {
          stopFlag := true;
        }
      }
    }

    /** The `try` block after the parse: store the reading, or count the
        failure, or let the `ValueError` escape (`raised`). */
    method HandleParsed(id: nat, start: int, parsed: Result<seq<Value>, ParseError>, now: int) returns (raised: bool)
      requires Valid() && id in Ids(variant.sensors)
      modifies this`slots, this`csv, this`errorCounter, this`abortRequests, this`stopFlag
      ensures Valid() && buffers == old(buffers) && startTimes == old(startTimes)
      ensures Handler.HandleParsed(variant, old(Model().agg), id, start, parsed, now) == Outcome(Model().agg, raised)
    {
      if parsed.Ok? {
        Store(id, Reading(now - start, parsed.value));
        return false;
      }
      if variant.validation.Unchecked? {
        return true;
      }
      RecordFailure();
      return false;
    }

    /** One iteration of the line loop; `raised` when a `ValueError` escapes. */
    method HandleLine(id: nat, line: string, now: int) returns (raised: bool)
      requires Valid() && id in Ids(variant.sensors) && startTimes[id].Some?
      modifies this`slots, this`csv, this`errorCounter, this`abortRequests, this`stopFlag
      ensures Valid() && buffers == old(buffers) && startTimes == old(startTimes)
      ensures Handler.HandleLine(variant, old(Model().agg), id, startTimes[id].value, line, now)
           == Outcome(Model().agg, raised)
    {
      if IsBlank(line) {
        return false;
      }
      var parsed := Parse(variant, line);
      raised := HandleParsed(id, startTimes[id].value, parsed, now);
    }

    /** One pass of the line loop: cut the first line off the buffer, write the
        buffer back, then handle the line. */
    method NextLine(id: nat, now: int) returns (raised: bool)
      requires Valid() && id in Ids(variant.sensors) && startTimes[id].Some?
      requires '\n' in buffers[id]
      modifies this`buffers, this`slots, this`csv, this`errorCounter, this`abortRequests, this`stopFlag
      ensures Valid() && startTimes == old(startTimes)
      ensures var (line, rest) := SplitFirstLine(old(buffers[id]));
              var o := Handler.HandleLine(variant, old(Model().agg), id, startTimes[id].value, line, now);
              raised == o.raised && Model() == old(Model()).(buffers := old(buffers)[id := rest], agg := o.agg)
    {
      var parts := SplitFirstLine(buffers[id]);
      buffers := buffers[id := parts.1];
      raised := HandleLine(id, parts.0, now);
    }

    /** The loop `while '\n' in buffer` of the handler. */
    method DrainLines(id: nat, now: int)
      requires Valid() && id in Ids(variant.sensors) && startTimes[id].Some?
      modifies this`buffers, this`slots, this`csv, this`errorCounter, this`abortRequests, this`stopFlag
      ensures Valid() && Model() == Drain(variant, old(Model()), id, now)
    {
      ghost var goal := Drain(variant, Model(), id, now);
      var raised := false;
      while !raised && '\n' in buffers[id]
        invariant Valid() && startTimes == old(startTimes)
        invariant raised ==> Model() == goal
        invariant !raised ==> Drain(variant, Model(), id, now) == goal
        decreases |buffers[id]|
      {
        DrainStep(variant, Model(), id, now);
        raised := NextLine(id, now);
      }
    }

    /** `notification_handler(sender, data, sensor_id)` with the decoded chunk
        and the clock reading. */
    method Notify(id: nat, chunk: string, now: int)
      requires Valid() && id in Ids(variant.sensors)
      modifies this
      ensures Valid() && Model() == Handler.Notify(variant, old(Model()), id, chunk, now)
    {
      if variant.honoursStop && stopFlag {
        return;
      }
      NotifyStep(variant, Model(), id, chunk, now);
      if startTimes[id].None? {
        startTimes := startTimes[id := Some(now)];
      }
      buffers := buffers[id := buffers[id] + chunk];
      DrainLines(id, now);
    }

    /** `startExercise`: a fresh CSV file and, where the application does it,
        cleared start times. */
    method StartExercise()
      requires Valid()
      modifies this`startTimes, this`csv
      ensures Valid() && Model() == Handler.StartExercise(variant, old(Model()))
    {
      if variant.resetsStartTimes {
        startTimes := map i | i in Ids(variant.sensors) :: None;
      }
      csv := [];
    }

    /** `AsyncRunner.run` clears `STOP_FLAG`; `AsyncRunner.stop` sets it. */
    method SetStop(stop: bool)
      requires Valid()
      modifies this`stopFlag
      ensures Valid() && Model() == SetStopFlag(old(Model()), stop)
    {
      stopFlag := stop;
    }
  }
}
