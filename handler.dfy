/** The per-sensor notification handler as a function on the handler's state.
    One call of `Notify` is one run of `notification_handler` to completion;
    the six source files differ only in the `Variant` they are run with. */
module Handler {
  import opened Wrappers
  import opened PyText
  import opened PyFloat
  import opened LineBuffer
  import opened LineParser

  /** Failures at which a stop of the exercise is requested. */
  const MAX_ERRORS: nat := 4

  /** Which check comes first in a validating handler. */
  datatype CheckOrder = CountThenConvert | ConvertThenCount

  /** How a validating handler stops the exercise at the threshold: through a
      queued Qt signal (the stop flag is untouched during the call), or by
      calling the page's stop method at once (which sets the stop flag). */
  datatype AbortStyle = Deferred | Immediate

  /** Validating handlers catch `ValueError` per line and count it; the others
      let it escape, which ends the call. */
  datatype Validation = Checked(order: CheckOrder, abort: AbortStyle) | Unchecked

  /** What distinguishes the six applications: the number of sensors, whether
      the handler returns at once while `STOP_FLAG` is set, whether starting an
      exercise clears the start times, and the validation. */
  datatype Variant = Variant(sensors: nat, honoursStop: bool, resetsStartTimes: bool, validation: Validation)

  const FourSensorApp := Variant(4, true, true, Checked(CountThenConvert, Deferred))
  const WizardDualWindow := Variant(3, true, true, Checked(ConvertThenCount, Immediate))
  const MainApp := Variant(3, true, true, Checked(ConvertThenCount, Immediate))
  const DataCollectionBle := Variant(3, true, false, Unchecked)
  const MainDataCollection := Variant(3, false, false, Unchecked)
  const DataCollectionNewApp := Variant(3, false, false, Unchecked)

  /** One sensor's pending reading: microseconds since that sensor's start
      time, and its values. An empty slot is `None`. */
  datatype Reading = Reading(elapsedUs: int, values: seq<Value>)

  /** One CSV row: the timestamp in milliseconds, then every sensor's values. */
  type Row = seq<Value>

  /** What the line loop changes: the slots (`sensor_data`), `error_counter`,
      `STOP_FLAG`, the stop requests issued, and the rows appended to the CSV. */
  datatype Aggregate = Aggregate(
    slots: map<nat, Option<Reading>>,
    errorCounter: nat,
    stopFlag: bool,
    abortRequests: nat,
    csv: seq<Row>)

  /** All module-level state the handler reads and writes; sensor ids run from 1. */
  datatype State = State(
    buffers: map<nat, string>,
    startTimes: map<nat, Option<int>>,
    agg: Aggregate)

  /** The sensor ids 1 .. n, the keys of every per-sensor dictionary. */
  function Ids(n: nat): (ids: set<nat>)
    ensures forall i: nat :: i in ids <==> 1 <= i <= n
  {
    if n == 0 then {} else Ids(n - 1) + {n}
  }

  predicate ValidVariant(v: Variant) {
    v.sensors >= 1
  }

  predicate AggWellFormed(v: Variant, a: Aggregate) {
    ValidVariant(v) && a.slots.Keys == Ids(v.sensors)
  }

  predicate WellFormed(v: Variant, s: State) {
    AggWellFormed(v, s.agg) &&
    s.buffers.Keys == Ids(v.sensors) && s.startTimes.Keys == Ids(v.sensors)
  }

  function EmptySlots(n: nat): (slots: map<nat, Option<Reading>>)
    ensures slots.Keys == Ids(n)
  {
    map i | i in Ids(n) :: None
  }

  /** The module-level initial values: empty buffers, no start times, empty
      slots, no errors, stop flag clear. */
  function Initial(v: Variant): (s: State)
    requires ValidVariant(v)
    ensures WellFormed(v, s)
  {
    State(map i | i in Ids(v.sensors) :: "",
          map i | i in Ids(v.sensors) :: None,
          Aggregate(EmptySlots(v.sensors), 0, false, 0, []))
  }

  /** The row condition: every sensor's slot holds a reading. */
  predicate AllFilled(slots: map<nat, Option<Reading>>, n: nat)
    requires slots.Keys == Ids(n)
  {
    forall i: nat :: 1 <= i <= n ==> slots[i].Some?
  }

  /** Microseconds as milliseconds; at microsecond resolution `round(ms, 3)`
      loses nothing. */
  function ElapsedMs(us: int): real {
    us as real / 1000.0
  }

  /** The values of sensors `from` .. `n`, in id order. */
  function SlotValues(slots: map<nat, Option<Reading>>, from: nat, n: nat): seq<Value>
    requires slots.Keys == Ids(n) && AllFilled(slots, n) && 1 <= from
    decreases n + 1 - from
  {
    if from > n then [] else slots[from].value.values + SlotValues(slots, from + 1, n)
  }

  /** Total number of values held by sensors `from` .. `n`. */
  function ValueCount(slots: map<nat, Option<Reading>>, from: nat, n: nat): nat
    requires slots.Keys == Ids(n) && AllFilled(slots, n) && 1 <= from
    decreases n + 1 - from
  {
    if from > n then 0 else |slots[from].value.values| + ValueCount(slots, from + 1, n)
  }

  /** The row written when all slots are filled: sensor 1's timestamp, then
      every sensor's values in id order. */
  function BuildRow(slots: map<nat, Option<Reading>>, n: nat): Row
    requires n >= 1 && slots.Keys == Ids(n) && AllFilled(slots, n)
  {
    [Finite(ElapsedMs(slots[1].value.elapsedUs))] + SlotValues(slots, 1, n)
  }

  /** The parse the variant performs on a non-blank line. */
  function Parse(v: Variant, line: string): Result<seq<Value>, ParseError> {
    match v.validation
    case Checked(CountThenConvert, _) => ParseCountThenConvert(line)
    case Checked(ConvertThenCount, _) => ParseConvertThenCount(line)
    case Unchecked =>
      match ParseUnchecked(line)
      case None => Err(NotNumeric)
      case Some(values) => Ok(values)
  }

  /** Storing a reading in its sensor's slot, then the all-filled check: write
      the row and clear every slot, or keep the slots as they now are. */
  function Store(v: Variant, a: Aggregate, id: nat, r: Reading): (b: Aggregate)
    requires AggWellFormed(v, a) && id in Ids(v.sensors)
    ensures AggWellFormed(v, b)
  {
    var slots := a.slots[id := Some(r)];
    assert slots.Keys == Ids(v.sensors);
    if AllFilled(slots, v.sensors) then
      a.(slots := EmptySlots(v.sensors), csv := a.csv + [BuildRow(slots, v.sensors)])
    else
      a.(slots := slots)
  }

  /** The `except ValueError` branch: count the failure and, at or past the
      threshold, request a stop. */
  function RecordFailure(v: Variant, a: Aggregate): (b: Aggregate)
    requires v.validation.Checked?
  {
    var count := a.errorCounter + 1;
    if count >= MAX_ERRORS then
      a.(errorCounter := count, abortRequests := a.abortRequests + 1,
         stopFlag := a.stopFlag || v.validation.abort == Immediate)
    else
      a.(errorCounter := count)
  }

  /** What one line did, and whether a `ValueError` escaped the handler. */
  datatype Outcome = Outcome(agg: Aggregate, raised: bool)

  /** What a parsed line does: a reading is stored; a refused line is counted
      when validating and otherwise raises. */
  function HandleParsed(v: Variant, a: Aggregate, id: nat, start: int, parsed: Result<seq<Value>, ParseError>, now: int): (o: Outcome)
    requires AggWellFormed(v, a) && id in Ids(v.sensors)
    ensures AggWellFormed(v, o.agg)
  {
    match parsed
    case Ok(values) => Outcome(Store(v, a, id, Reading(now - start, values)), false)
    case Err(_) =>
      if v.validation.Checked? then Outcome(RecordFailure(v, a), false) else Outcome(a, true)
  }

  /** One iteration of the line loop, after the line has been cut off the
      buffer; `start` is the sensor's start time. */
  function HandleLine(v: Variant, a: Aggregate, id: nat, start: int, line: string, now: int): (o: Outcome)
    requires AggWellFormed(v, a) && id in Ids(v.sensors)
    ensures AggWellFormed(v, o.agg)
  {
    if IsBlank(line) then Outcome(a, false)
    else HandleParsed(v, a, id, start, Parse(v, line), now)
  }

  /** The line loop `while '\n' in buffer`: the buffer is written back before
      each line is handled, so a line that raises is already consumed. */
  function Drain(v: Variant, s: State, id: nat, now: int): (r: State)
    requires WellFormed(v, s) && id in Ids(v.sensors) && s.startTimes[id].Some?
    ensures WellFormed(v, r)
    decreases |s.buffers[id]|
  {
    var buffer := s.buffers[id];
    if '\n' !in buffer then s
    else
      var (line, rest) := SplitFirstLine(buffer);
      var o := HandleLine(v, s.agg, id, s.startTimes[id].value, line, now);
      var next := s.(buffers := s.buffers[id := rest], agg := o.agg);
      if o.raised then next else Drain(v, next, id, now)
  }

  /** `notification_handler(sender, data, sensor_id)` with `data` already
      decoded as `chunk` and `now` the clock reading (microseconds). */
  function Notify(v: Variant, s: State, id: nat, chunk: string, now: int): (r: State)
    requires WellFormed(v, s) && id in Ids(v.sensors)
    ensures WellFormed(v, r)
  {
    if v.honoursStop && s.agg.stopFlag then s
    else
      var started := if s.startTimes[id].None? then s.startTimes[id := Some(now)] else s.startTimes;
      Drain(v, s.(startTimes := started, buffers := s.buffers[id := s.buffers[id] + chunk]), id, now)
  }

  /** Starting an exercise: the CSV file is created afresh (header only, no
      rows) and, where the application does it, every start time is cleared.
      Buffers, slots, the error counter and the stop flag are kept. */
  function StartExercise(v: Variant, s: State): (r: State)
    requires WellFormed(v, s)
    ensures WellFormed(v, r)
  {
    var times := if v.resetsStartTimes then map i | i in Ids(v.sensors) :: None else s.startTimes;
    State(s.buffers, times, s.agg.(csv := []))
  }

  /** The runner thread starting (`STOP_FLAG = False`) or being stopped
      (`STOP_FLAG = True`); nothing else changes. */
  function SetStopFlag(s: State, stop: bool): State {
    s.(agg := s.agg.(stopFlag := stop))
  }
}
