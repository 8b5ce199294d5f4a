/** What the notification handler guarantees, proved about `Handler.Notify`
    and the one-line step it repeats. */
module HandlerProps {
  import opened Wrappers
  import opened PyText
  import opened PyFloat
  import opened LineBuffer
  import opened LineParser
  import opened Handler

  // ---------------------------------------------------------------------
  // The line loop as a fold over the extracted lines
  // ---------------------------------------------------------------------

  /** The lines handled one after the other, none of them raising (always so
      in a validating handler, which never lets an error escape). */
  function HandleLines(v: Variant, a: Aggregate, id: nat, start: int, lines: seq<string>, now: int): (b: Aggregate)
    requires AggWellFormed(v, a) && id in Ids(v.sensors)
    ensures AggWellFormed(v, b)
    decreases |lines|
  {
    if lines == [] then a
    else HandleLines(v, HandleLine(v, a, id, start, lines[0], now).agg, id, start, lines[1..], now)
  }

  lemma {:induction false} HandleLinesAppend(v: Variant, a: Aggregate, id: nat, start: int,
                                             l1: seq<string>, l2: seq<string>, now: int)
    requires AggWellFormed(v, a) && id in Ids(v.sensors) && v.validation.Checked?
    ensures HandleLines(v, a, id, start, l1 + l2, now)
         == HandleLines(v, HandleLines(v, a, id, start, l1, now), id, start, l2, now)
    decreases |l1|
  {
    if l1 == [] {
      assert l1 + l2 == l2;
    } else {
      assert (l1 + l2)[0] == l1[0];
      assert (l1 + l2)[1..] == l1[1..] + l2;
      HandleLinesAppend(v, HandleLine(v, a, id, start, l1[0], now).agg, id, start, l1[1..], l2, now);
    }
  }

  lemma UpdateTwice<K, V>(m: map<K, V>, k: K, x: V, y: V)
    ensures m[k := x][k := y] == m[k := y]
  {
  }

  /** One turn of the line loop: the first line is cut off and handled; the
      loop goes on unless it raised. */
  lemma DrainStep(v: Variant, s: State, id: nat, now: int)
    requires WellFormed(v, s) && id in Ids(v.sensors) && s.startTimes[id].Some?
    requires '\n' in s.buffers[id]
    ensures var (line, rest) := SplitFirstLine(s.buffers[id]);
            var o := HandleLine(v, s.agg, id, s.startTimes[id].value, line, now);
            var next := s.(buffers := s.buffers[id := rest], agg := o.agg);
            (Drain(v, s, id, now) == if o.raised then next else Drain(v, next, id, now))
  {
  }

  /** In a validating handler the loop handles exactly the complete lines of the
      buffer, in order, and leaves the unterminated rest in the buffer. */
  lemma {:induction false} DrainIsFold(v: Variant, s: State, id: nat, now: int)
    requires WellFormed(v, s) && id in Ids(v.sensors) && s.startTimes[id].Some?
    requires v.validation.Checked?
    ensures var e := ExtractLines(s.buffers[id]);
            (Drain(v, s, id, now)
             == State(s.buffers[id := e.rest], s.startTimes,
                      HandleLines(v, s.agg, id, s.startTimes[id].value, e.lines, now)))
    decreases |s.buffers[id]|
  {
    var buffer := s.buffers[id];
    var start := s.startTimes[id].value;
    if '\n' !in buffer {
      assert s.buffers[id := buffer] == s.buffers;
    } else {
      var (line, rest) := SplitFirstLine(buffer);
      var o := HandleLine(v, s.agg, id, start, line, now);
      var next := s.(buffers := s.buffers[id := rest], agg := o.agg);
      HandleLineFacts(v, s.agg, id, start, line, now);
      DrainStep(v, s, id, now);
      DrainIsFold(v, next, id, now);
      var e := ExtractLines(rest);
      assert ExtractLines(buffer) == Extraction([line] + e.lines, e.rest);
      UpdateTwice(s.buffers, id, rest, e.rest);
      assert ([line] + e.lines)[0] == line && ([line] + e.lines)[1..] == e.lines;
    }
  }

  // ---------------------------------------------------------------------
  // What every call keeps
  // ---------------------------------------------------------------------

  /** One line never lowers a count nor removes a row; only an unvalidated
      handler raises, and then it has changed nothing. */
  lemma HandleLineFacts(v: Variant, a: Aggregate, id: nat, start: int, line: string, now: int)
    requires AggWellFormed(v, a) && id in Ids(v.sensors)
    ensures var o := HandleLine(v, a, id, start, line, now);
            (o.raised ==> v.validation.Unchecked? && o.agg == a) &&
            a.errorCounter <= o.agg.errorCounter && a.abortRequests <= o.agg.abortRequests &&
            a.csv <= o.agg.csv
  {
    if !IsBlank(line) && Parse(v, line).Ok? {
      ParsedLineStored(v, a, id, start, line, now);
      StoreSpec(v, a, id, Reading(now - start, Parse(v, line).value));
    }
  }

  /** The loop touches only its own sensor's buffer and never the start times;
      a validating loop leaves no newline behind; counts and rows only grow. */
  lemma {:induction false} DrainFacts(v: Variant, s: State, id: nat, now: int)
    requires WellFormed(v, s) && id in Ids(v.sensors) && s.startTimes[id].Some?
    ensures var r := Drain(v, s, id, now);
            r.startTimes == s.startTimes &&
            (forall i :: i in s.buffers && i != id ==> r.buffers[i] == s.buffers[i]) &&
            (v.validation.Checked? ==> '\n' !in r.buffers[id]) &&
            s.agg.errorCounter <= r.agg.errorCounter && s.agg.abortRequests <= r.agg.abortRequests &&
            s.agg.csv <= r.agg.csv
    decreases |s.buffers[id]|
  {
    if '\n' in s.buffers[id] {
      var (line, rest) := SplitFirstLine(s.buffers[id]);
      var o := HandleLine(v, s.agg, id, s.startTimes[id].value, line, now);
      HandleLineFacts(v, s.agg, id, s.startTimes[id].value, line, now);
      var next := s.(buffers := s.buffers[id := rest], agg := o.agg);
      DrainStep(v, s, id, now);
      if !o.raised {
        DrainFacts(v, next, id, now);
      }
    }
  }

  /** What one notification does to the state: nothing while the stop flag
      blocks it; otherwise the sensor's start time is set once and kept, the
      other sensors' buffers are untouched, a validating handler leaves no
      complete line in the buffer, and the counts and rows only grow. */
  lemma NotifyFacts(v: Variant, s: State, id: nat, chunk: string, now: int)
    requires WellFormed(v, s) && id in Ids(v.sensors)
    ensures var r := Notify(v, s, id, chunk, now);
            (v.honoursStop && s.agg.stopFlag ==> r == s) &&
            (!(v.honoursStop && s.agg.stopFlag) ==>
               r.startTimes == (if s.startTimes[id].Some? then s.startTimes else s.startTimes[id := Some(now)]) &&
               (v.validation.Checked? ==> '\n' !in r.buffers[id])) &&
            (forall i :: i in s.buffers && i != id ==> r.buffers[i] == s.buffers[i]) &&
            s.agg.errorCounter <= r.agg.errorCounter && s.agg.abortRequests <= r.agg.abortRequests &&
            s.agg.csv <= r.agg.csv
  {
    if !(v.honoursStop && s.agg.stopFlag) {
      NotifyStep(v, s, id, chunk, now);
      var started := if s.startTimes[id].None? then s.startTimes[id := Some(now)] else s.startTimes;
      DrainFacts(v, s.(startTimes := started, buffers := s.buffers[id := s.buffers[id] + chunk]), id, now);
    }
  }

  /** Starting an exercise empties the CSV and, where the application does
      it, forgets every start time; buffers, slots, the error counter, the
      stop requests and the stop flag carry over. */
  lemma StartExerciseResetsOnly(v: Variant, s: State)
    requires WellFormed(v, s)
    ensures var r := StartExercise(v, s);
            r.buffers == s.buffers && r.agg.slots == s.agg.slots &&
            r.agg.errorCounter == s.agg.errorCounter && r.agg.abortRequests == s.agg.abortRequests &&
            r.agg.stopFlag == s.agg.stopFlag && r.agg.csv == [] &&
            (v.resetsStartTimes ==> forall i :: i in Ids(v.sensors) ==> r.startTimes[i] == None) &&
            (!v.resetsStartTimes ==> r.startTimes == s.startTimes)
  {
  }

  // ---------------------------------------------------------------------
  // Chunk boundaries
  // ---------------------------------------------------------------------

  /** The variants whose handler never sets the stop flag: the unvalidated
      collectors, and the validating handler that requests its stop through a
      deferred signal. */
  predicate KeepsStopFlag(v: Variant) {
    v.validation.Unchecked? || v.validation.abort == Deferred
  }

  lemma HandleLineKeepsStopFlag(v: Variant, a: Aggregate, id: nat, start: int, line: string, now: int)
    requires AggWellFormed(v, a) && id in Ids(v.sensors) && KeepsStopFlag(v)
    ensures HandleLine(v, a, id, start, line, now).agg.stopFlag == a.stopFlag
  {
  }

  lemma {:induction false} DrainKeepsStopFlag(v: Variant, s: State, id: nat, now: int)
    requires WellFormed(v, s) && id in Ids(v.sensors) && s.startTimes[id].Some?
    requires KeepsStopFlag(v)
    ensures Drain(v, s, id, now).agg.stopFlag == s.agg.stopFlag
    decreases |s.buffers[id]|
  {
    var buffer := s.buffers[id];
    if '\n' in buffer {
      var (line, rest) := SplitFirstLine(buffer);
      var o := HandleLine(v, s.agg, id, s.startTimes[id].value, line, now);
      HandleLineKeepsStopFlag(v, s.agg, id, s.startTimes[id].value, line, now);
      var next := s.(buffers := s.buffers[id := rest], agg := o.agg);
      DrainStep(v, s, id, now);
      if !o.raised {
        DrainKeepsStopFlag(v, next, id, now);
      }
    }
  }

  /** A call the stop flag does not block: the start time is set if missing,
      the chunk is appended, and the loop runs. */
  lemma NotifyStep(v: Variant, s: State, id: nat, chunk: string, now: int)
    requires WellFormed(v, s) && id in Ids(v.sensors) && !(v.honoursStop && s.agg.stopFlag)
    ensures var started := if s.startTimes[id].None? then s.startTimes[id := Some(now)] else s.startTimes;
            var s0 := s.(startTimes := started, buffers := s.buffers[id := s.buffers[id] + chunk]);
            WellFormed(v, s0) && s0.startTimes[id].Some? &&
            Notify(v, s, id, chunk, now) == Drain(v, s0, id, now)
  {
  }

  /** The four-sensor application and the unvalidated collectors never set
      `STOP_FLAG` from inside the handler. */
  lemma NotifyKeepsStopFlag(v: Variant, s: State, id: nat, chunk: string, now: int)
    requires WellFormed(v, s) && id in Ids(v.sensors) && KeepsStopFlag(v)
    ensures Notify(v, s, id, chunk, now).agg.stopFlag == s.agg.stopFlag
  {
    if !(v.honoursStop && s.agg.stopFlag) {
      NotifyStep(v, s, id, chunk, now);
      var started := if s.startTimes[id].None? then s.startTimes[id := Some(now)] else s.startTimes;
      DrainKeepsStopFlag(v, s.(startTimes := started, buffers := s.buffers[id := s.buffers[id] + chunk]), id, now);
    }
  }

  /** A call the stop flag does not block, in a validating handler: the
      complete lines of the extended buffer are handled in order and the
      unterminated rest stays buffered. */
  lemma NotifyFold(v: Variant, s: State, id: nat, chunk: string, now: int)
    requires WellFormed(v, s) && id in Ids(v.sensors) && !(v.honoursStop && s.agg.stopFlag)
    requires v.validation.Checked?
    ensures var started := if s.startTimes[id].None? then s.startTimes[id := Some(now)] else s.startTimes;
            var e := ExtractLines(s.buffers[id] + chunk);
            (Notify(v, s, id, chunk, now)
             == State(s.buffers[id := e.rest], started,
                      HandleLines(v, s.agg, id, started[id].value, e.lines, now)))
  {
    var started := if s.startTimes[id].None? then s.startTimes[id := Some(now)] else s.startTimes;
    var e := ExtractLines(s.buffers[id] + chunk);
    NotifyStep(v, s, id, chunk, now);
    var s0 := s.(startTimes := started, buffers := s.buffers[id := s.buffers[id] + chunk]);
    DrainIsFold(v, s0, id, now);
    UpdateTwice(s.buffers, id, s.buffers[id] + chunk, e.rest);
  }

  /** Delivering `a` and then `b` in two calls has the same effect as
      delivering `a + b` in one, for a validating handler whose first call does
      not set the stop flag (clock reading the same for both calls). */
  lemma NotifyChunked(v: Variant, s: State, id: nat, a: string, b: string, now: int)
    requires WellFormed(v, s) && id in Ids(v.sensors) && v.validation.Checked?
    requires Notify(v, s, id, a, now).agg.stopFlag == s.agg.stopFlag
    ensures Notify(v, Notify(v, s, id, a, now), id, b, now) == Notify(v, s, id, a + b, now)
  {
    if !(v.honoursStop && s.agg.stopFlag) {
      var started := if s.startTimes[id].None? then s.startTimes[id := Some(now)] else s.startTimes;
      var start := started[id].value;
      var buffer := s.buffers[id];
      var e1 := ExtractLines(buffer + a);
      var e2 := ExtractLines(e1.rest + b);
      NotifyFold(v, s, id, a, now);
      var n1 := Notify(v, s, id, a, now);
      assert n1.buffers == s.buffers[id := e1.rest] && n1.startTimes == started;
      NotifyFold(v, n1, id, b, now);
      NotifyFold(v, s, id, a + b, now);
      ChunkBoundary(buffer, a, b);
      HandleLinesAppend(v, s.agg, id, start, e1.lines, e2.lines, now);
      UpdateTwice(s.buffers, id, e1.rest, e2.rest);
    }
  }

  /** For the four-sensor application the chunking of a sensor's stream never
      matters. */
  lemma FourSensorChunked(s: State, id: nat, a: string, b: string, now: int)
    requires WellFormed(FourSensorApp, s) && id in Ids(4)
    ensures Notify(FourSensorApp, Notify(FourSensorApp, s, id, a, now), id, b, now)
         == Notify(FourSensorApp, s, id, a + b, now)
  {
    NotifyKeepsStopFlag(FourSensorApp, s, id, a, now);
    NotifyChunked(FourSensorApp, s, id, a, b, now);
  }

  // ---------------------------------------------------------------------
  // One line
  // ---------------------------------------------------------------------

  /** What the variant's parse accepts: six numbers when validating, any
      all-numeric line otherwise; the values are the fields' numbers. */
  lemma ParseSpec(v: Variant, line: string)
    ensures v.validation.Checked? ==> (Parse(v, line).Ok? <==> SixNumbers(line))
    ensures v.validation.Unchecked? ==> (Parse(v, line).Ok? <==> AllNumeric(Split(line, ',')))
    ensures Parse(v, line).Ok? ==>
              ParseFields(Split(line, ',')) == Some(Parse(v, line).value) &&
              |Parse(v, line).value| == |Split(line, ',')| >= 1
  {
    match v.validation
    case Checked(CountThenConvert, _) => CountThenConvertSpec(line); UncheckedSpec(line);
    case Checked(ConvertThenCount, _) => ConvertThenCountSpec(line); UncheckedSpec(line);
    case Unchecked => UncheckedSpec(line);
  }

  /** A line made only of whitespace is skipped and changes nothing. */
  lemma WhitespaceLineSkipped(v: Variant, a: Aggregate, id: nat, start: int, line: string, now: int)
    requires AggWellFormed(v, a) && id in Ids(v.sensors)
    requires forall k :: 0 <= k < |line| ==> IsSpace(line[k])
    ensures HandleLine(v, a, id, start, line, now) == Outcome(a, false)
  {
    BlankIffAllSpace(line);
  }

  /** A validating handler refuses a line whose comma fields are not exactly six
      numbers: one more error is counted, a stop is requested when the count
      reaches the threshold, and no slot and no row changes. */
  lemma BadLineCounted(v: Variant, a: Aggregate, id: nat, start: int, line: string, now: int)
    requires AggWellFormed(v, a) && id in Ids(v.sensors) && v.validation.Checked?
    requires !IsBlank(line)
    requires !SixNumbers(line)
    ensures var o := HandleLine(v, a, id, start, line, now);
            var count := a.errorCounter + 1;
            !o.raised && o.agg.slots == a.slots && o.agg.csv == a.csv &&
            o.agg.errorCounter == count &&
            o.agg.abortRequests == a.abortRequests + (if count >= MAX_ERRORS then 1 else 0) &&
            o.agg.stopFlag == (a.stopFlag || (count >= MAX_ERRORS && v.validation.abort == Immediate))
  {
    ParseSpec(v, line);
  }

  /** Storing a reading: only its sensor's slot changes; a row is appended
      exactly when every slot is then filled, and then every slot is cleared. */
  lemma StoreSpec(v: Variant, a: Aggregate, id: nat, r: Reading)
    requires AggWellFormed(v, a) && id in Ids(v.sensors)
    ensures var b := Store(v, a, id, r);
            var filled := a.slots[id := Some(r)];
            filled.Keys == Ids(v.sensors) &&
            b.errorCounter == a.errorCounter && b.abortRequests == a.abortRequests &&
            b.stopFlag == a.stopFlag &&
            (AllFilled(filled, v.sensors) ==>
               b.csv == a.csv + [BuildRow(filled, v.sensors)] && b.slots == EmptySlots(v.sensors)) &&
            (!AllFilled(filled, v.sensors) ==> b.slots == filled && b.csv == a.csv)
  {
  }

  /** A blank line changes nothing. */
  lemma BlankLineSkipped(v: Variant, a: Aggregate, id: nat, start: int, line: string, now: int)
    requires AggWellFormed(v, a) && id in Ids(v.sensors) && IsBlank(line)
    ensures HandleLine(v, a, id, start, line, now) == Outcome(a, false)
  {
  }

  /** A line the variant refuses is counted when validating, and raises
      otherwise. */
  lemma RefusedLine(v: Variant, a: Aggregate, id: nat, start: int, line: string, now: int)
    requires AggWellFormed(v, a) && id in Ids(v.sensors)
    requires !IsBlank(line) && Parse(v, line).Err?
    ensures HandleLine(v, a, id, start, line, now)
         == if v.validation.Checked? then Outcome(RecordFailure(v, a), false) else Outcome(a, true)
  {
  }

  /** A line the variant parses is stored, timed from the sensor's start. */
  lemma ParsedLineStored(v: Variant, a: Aggregate, id: nat, start: int, line: string, now: int)
    requires AggWellFormed(v, a) && id in Ids(v.sensors)
    requires !IsBlank(line) && Parse(v, line).Ok?
    ensures HandleLine(v, a, id, start, line, now)
         == Outcome(Store(v, a, id, Reading(now - start, Parse(v, line).value)), false)
  {
  }

  /** A line of six numbers overwrites its own sensor's slot with the reading
      timed from that sensor's start; a row is appended exactly when every slot
      is then filled, and then every slot is cleared. Nothing else changes. */
  lemma GoodLineStored(v: Variant, a: Aggregate, id: nat, start: int, line: string, now: int)
    requires AggWellFormed(v, a) && id in Ids(v.sensors) && v.validation.Checked?
    requires !IsBlank(line)
    requires SixNumbers(line)
    ensures var o := HandleLine(v, a, id, start, line, now);
            var parsed := ParseFields(Split(line, ','));
            parsed.Some? &&
            var values := parsed.value;
            var filled := a.slots[id := Some(Reading(now - start, values))];
            filled.Keys == Ids(v.sensors) &&
            !o.raised && |values| == FIELD_COUNT &&
            o.agg.errorCounter == a.errorCounter && o.agg.abortRequests == a.abortRequests &&
            o.agg.stopFlag == a.stopFlag &&
            (AllFilled(filled, v.sensors) ==>
               o.agg.csv == a.csv + [BuildRow(filled, v.sensors)] && o.agg.slots == EmptySlots(v.sensors)) &&
            (!AllFilled(filled, v.sensors) ==> o.agg.slots == filled && o.agg.csv == a.csv)
  {
    ParseSpec(v, line);
    var values := Parse(v, line).value;
    assert values == ParseFields(Split(line, ',')).value;
    ParsedLineStored(v, a, id, start, line, now);
    StoreSpec(v, a, id, Reading(now - start, values));
  }

  /** The collectors without validation store a numeric line whatever its number
      of fields (at least one); the row rule is the same. */
  lemma UncheckedNumericLineStored(v: Variant, a: Aggregate, id: nat, start: int, line: string, now: int)
    requires AggWellFormed(v, a) && id in Ids(v.sensors) && v.validation.Unchecked?
    requires !IsBlank(line) && AllNumeric(Split(line, ','))
    ensures var o := HandleLine(v, a, id, start, line, now);
            var parsed := ParseFields(Split(line, ','));
            parsed.Some? &&
            var values := parsed.value;
            var filled := a.slots[id := Some(Reading(now - start, values))];
            filled.Keys == Ids(v.sensors) &&
            !o.raised && |values| == |Split(line, ',')| >= 1 &&
            o.agg.errorCounter == a.errorCounter && o.agg.abortRequests == a.abortRequests &&
            (AllFilled(filled, v.sensors) ==>
               o.agg.csv == a.csv + [BuildRow(filled, v.sensors)] && o.agg.slots == EmptySlots(v.sensors)) &&
            (!AllFilled(filled, v.sensors) ==> o.agg.slots == filled && o.agg.csv == a.csv)
  {
    ParseSpec(v, line);
    var values := Parse(v, line).value;
    assert values == ParseFields(Split(line, ',')).value;
    ParsedLineStored(v, a, id, start, line, now);
    StoreSpec(v, a, id, Reading(now - start, values));
  }

  /** Without validation a non-numeric line raises out of the handler and
      changes no slot and no count. */
  lemma UncheckedBadLineRaises(v: Variant, a: Aggregate, id: nat, start: int, line: string, now: int)
    requires AggWellFormed(v, a) && id in Ids(v.sensors) && v.validation.Unchecked?
    requires !IsBlank(line) && !AllNumeric(Split(line, ','))
    ensures HandleLine(v, a, id, start, line, now) == Outcome(a, true)
  {
    ParseSpec(v, line);
  }

  /** A line the collectors without validation handle without raising. */
  predicate Quiet(line: string) {
    IsBlank(line) || AllNumeric(Split(line, ','))
  }

  lemma UncheckedQuietLine(v: Variant, a: Aggregate, id: nat, start: int, line: string, now: int)
    requires AggWellFormed(v, a) && id in Ids(v.sensors) && v.validation.Unchecked?
    requires Quiet(line)
    ensures !HandleLine(v, a, id, start, line, now).raised
  {
    if !IsBlank(line) {
      ParseSpec(v, line);
    }
  }

  /** Without validation, a quiet first line is handled and the loop goes on
      with the text after it. */
  lemma UncheckedQuietStep(v: Variant, s: State, id: nat, now: int, first: string, after: string)
    requires WellFormed(v, s) && id in Ids(v.sensors) && s.startTimes[id].Some?
    requires v.validation.Unchecked?
    requires s.buffers[id] == first + "\n" + after && '\n' !in first && Quiet(first)
    ensures var o := HandleLine(v, s.agg, id, s.startTimes[id].value, first, now);
            Drain(v, s, id, now) == Drain(v, s.(buffers := s.buffers[id := after], agg := o.agg), id, now)
  {
    SplitOnceUnique(s.buffers[id], '\n', first, after);
    UncheckedQuietLine(v, s.agg, id, s.startTimes[id].value, first, now);
    DrainStep(v, s, id, now);
  }

  /** Without validation, a non-numeric first line ends the loop, already
      cut off the buffer. */
  lemma UncheckedRaiseHead(v: Variant, s: State, id: nat, now: int, line: string, rest: string)
    requires WellFormed(v, s) && id in Ids(v.sensors) && s.startTimes[id].Some?
    requires v.validation.Unchecked?
    requires s.buffers[id] == line + "\n" + rest && '\n' !in line && !Quiet(line)
    ensures Drain(v, s, id, now) == s.(buffers := s.buffers[id := rest])
  {
    SplitOnceUnique(s.buffers[id], '\n', line, rest);
    UncheckedBadLineRaises(v, s.agg, id, s.startTimes[id].value, line, now);
    DrainStep(v, s, id, now);
  }

  lemma QuietTail(lines: seq<string>)
    requires |lines| > 0 && NoNewline(lines) && forall k :: 0 <= k < |lines| ==> Quiet(lines[k])
    ensures NoNewline(lines[1..]) && '\n' !in lines[0]
    ensures forall k :: 0 <= k < |lines[1..]| ==> Quiet(lines[1..][k])
  {
    assert forall k :: 0 <= k < |lines[1..]| ==> lines[1..][k] == lines[k + 1];
  }

  /** Without validation, the first non-numeric line ends the call: the lines
      before it are handled in order, it is gone from the buffer, and the text
      after it stays there unhandled. */
  lemma {:induction false} UncheckedRaiseKeepsRest(v: Variant, s: State, id: nat, now: int,
                                                   before: seq<string>, line: string, rest: string)
    requires WellFormed(v, s) && id in Ids(v.sensors) && s.startTimes[id].Some?
    requires v.validation.Unchecked?
    requires NoNewline(before) && forall k :: 0 <= k < |before| ==> Quiet(before[k])
    requires s.buffers[id] == Terminated(before) + (line + "\n" + rest) && '\n' !in line
    requires !Quiet(line)
    ensures Drain(v, s, id, now)
         == State(s.buffers[id := rest], s.startTimes,
                  HandleLines(v, s.agg, id, s.startTimes[id].value, before, now))
    decreases |before|
  {
    var tail := line + "\n" + rest;
    if before == [] {
      UncheckedRaiseHead(v, s, id, now, line, rest);
    } else {
      var first := before[0];
      var later := before[1..];
      assert [first] + later == before;
      TerminatedCons(first, later, tail);
      UncheckedQuietStep(v, s, id, now, first, Terminated(later) + tail);
      var o := HandleLine(v, s.agg, id, s.startTimes[id].value, first, now);
      var next := s.(buffers := s.buffers[id := Terminated(later) + tail], agg := o.agg);
      QuietTail(before);
      UncheckedRaiseKeepsRest(v, next, id, now, later, line, rest);
      UpdateTwice(s.buffers, id, Terminated(later) + tail, rest);
    }
  }

  /** Last write wins: a later reading for the same sensor, arriving before the
      row is complete, replaces the earlier one, which leaves no trace. */
  lemma LaterReadingSupersedes(v: Variant, a: Aggregate, id: nat, start: int,
                               first: string, second: string, now1: int, now2: int)
    requires AggWellFormed(v, a) && id in Ids(v.sensors)
    requires !IsBlank(first) && Parse(v, first).Ok?
    requires !IsBlank(second) && Parse(v, second).Ok?
    requires !AllFilled(a.slots[id := Some(Reading(now1 - start, Parse(v, first).value))], v.sensors)
    ensures HandleLine(v, HandleLine(v, a, id, start, first, now1).agg, id, start, second, now2)
         == HandleLine(v, a, id, start, second, now2)
  {
    var r1 := Reading(now1 - start, Parse(v, first).value);
    var r2 := Reading(now2 - start, Parse(v, second).value);
    ParsedLineStored(v, a, id, start, first, now1);
    StoreSpec(v, a, id, r1);
    var a1 := Store(v, a, id, r1);
    assert a1 == a.(slots := a.slots[id := Some(r1)]);
    ParsedLineStored(v, a1, id, start, second, now2);
    ParsedLineStored(v, a, id, start, second, now2);
    UpdateTwice(a.slots, id, Some(r1), Some(r2));
    assert Store(v, a1, id, r2) == Store(v, a, id, r2);
  }

  // ---------------------------------------------------------------------
  // Rows
  // ---------------------------------------------------------------------

  lemma {:induction false} SlotValuesLength(slots: map<nat, Option<Reading>>, from: nat, n: nat)
    requires slots.Keys == Ids(n) && AllFilled(slots, n) && 1 <= from
    ensures |SlotValues(slots, from, n)| == ValueCount(slots, from, n)
    decreases n + 1 - from
  {
    if from <= n {
      SlotValuesLength(slots, from + 1, n);
    }
  }

  /** A row has one column for the timestamp and one per value held. */
  lemma RowWidth(slots: map<nat, Option<Reading>>, n: nat)
    requires n >= 1 && slots.Keys == Ids(n) && AllFilled(slots, n)
    ensures |BuildRow(slots, n)| == 1 + ValueCount(slots, 1, n)
  {
    SlotValuesLength(slots, 1, n);
  }

  /** Every filled slot holds `k` values. */
  predicate SlotsHold(slots: map<nat, Option<Reading>>, k: nat) {
    forall i :: i in slots && slots[i].Some? ==> |slots[i].value.values| == k
  }

  lemma {:induction false} ValueCountUniform(slots: map<nat, Option<Reading>>, from: nat, n: nat, k: nat)
    requires slots.Keys == Ids(n) && AllFilled(slots, n) && 1 <= from <= n + 1
    requires SlotsHold(slots, k)
    ensures ValueCount(slots, from, n) == k * (n + 1 - from)
    decreases n + 1 - from
  {
    if from <= n {
      ValueCountUniform(slots, from + 1, n, k);
      assert |slots[from].value.values| == k;
      assert k * (n + 1 - from) == k + k * (n + 1 - (from + 1));
    }
  }

  /** With six values per sensor a row has `1 + 6 * n` columns: 25 for four
      sensors and 19 for three, so the row-length checks never fail. */
  lemma SixValueRowWidth(slots: map<nat, Option<Reading>>, n: nat)
    requires n >= 1 && slots.Keys == Ids(n) && AllFilled(slots, n)
    requires SlotsHold(slots, FIELD_COUNT)
    ensures |BuildRow(slots, n)| == 1 + FIELD_COUNT * n
  {
    RowWidth(slots, n);
    ValueCountUniform(slots, 1, n, FIELD_COUNT);
  }

  /** The row is the four-sensor application's expression `[timestamp] +
      values1 + values2 + values3 + values4`. */
  lemma FourSensorRowShape(slots: map<nat, Option<Reading>>)
    requires slots.Keys == Ids(4) && AllFilled(slots, 4)
    ensures BuildRow(slots, 4)
         == [Finite(ElapsedMs(slots[1].value.elapsedUs))] + slots[1].value.values +
            slots[2].value.values + slots[3].value.values + slots[4].value.values
  {
    assert SlotValues(slots, 4, 4) == slots[4].value.values + SlotValues(slots, 5, 4);
    assert SlotValues(slots, 3, 4) == slots[3].value.values + SlotValues(slots, 4, 4);
    assert SlotValues(slots, 2, 4) == slots[2].value.values + SlotValues(slots, 3, 4);
  }

  /** The row is the three-sensor expression `[timestamp] + values1 + values2 +
      values3`. */
  lemma ThreeSensorRowShape(slots: map<nat, Option<Reading>>)
    requires slots.Keys == Ids(3) && AllFilled(slots, 3)
    ensures BuildRow(slots, 3)
         == [Finite(ElapsedMs(slots[1].value.elapsedUs))] + slots[1].value.values +
            slots[2].value.values + slots[3].value.values
  {
    assert SlotValues(slots, 3, 3) == slots[3].value.values + SlotValues(slots, 4, 3);
    assert SlotValues(slots, 2, 3) == slots[2].value.values + SlotValues(slots, 3, 3);
  }

  // ---------------------------------------------------------------------
  // The error counter across exercises
  // ---------------------------------------------------------------------

  /** Refused lines below the threshold are only counted: no stop is
      requested, and no slot, row or flag changes. */
  lemma {:induction false} RefusedLinesBelowThreshold(v: Variant, a: Aggregate, id: nat, start: int,
                                                      lines: seq<string>, now: int)
    requires AggWellFormed(v, a) && id in Ids(v.sensors) && v.validation.Checked?
    requires forall k :: 0 <= k < |lines| ==> !IsBlank(lines[k]) && !SixNumbers(lines[k])
    requires a.errorCounter + |lines| < MAX_ERRORS
    ensures var b := HandleLines(v, a, id, start, lines, now);
            b.errorCounter == a.errorCounter + |lines| && b.abortRequests == a.abortRequests &&
            b.stopFlag == a.stopFlag && b.slots == a.slots && b.csv == a.csv
    decreases |lines|
  {
    if lines != [] {
      BadLineCounted(v, a, id, start, lines[0], now);
      var o := HandleLine(v, a, id, start, lines[0], now);
      assert forall k :: 0 <= k < |lines[1..]| ==> lines[1..][k] == lines[k + 1];
      RefusedLinesBelowThreshold(v, o.agg, id, start, lines[1..], now);
    }
  }

  /** As written, starting an exercise keeps `error_counter`: once three
      failures have been counted in any earlier exercise, the first refused
      line of the new one already requests a stop. */
  lemma StaleErrorsStopNextExercise(v: Variant, s: State, id: nat, start: int, line: string, now: int)
    requires WellFormed(v, s) && id in Ids(v.sensors) && v.validation.Checked?
    requires s.agg.errorCounter >= MAX_ERRORS - 1
    requires !IsBlank(line) && !SixNumbers(line)
    ensures var r := StartExercise(v, s);
            HandleLine(v, r.agg, id, start, line, now).agg.abortRequests == s.agg.abortRequests + 1
  {
    BadLineCounted(v, StartExercise(v, s).agg, id, start, line, now);
  }

  /** Starting an exercise as the threshold evidently intends: as
      `StartExercise`, and the failure count starts again from zero. */
  function StartExerciseFresh(v: Variant, s: State): (r: State)
    requires WellFormed(v, s)
    ensures WellFormed(v, r) && r.agg.errorCounter == 0
  {
    var r := StartExercise(v, s);
    r.(agg := r.agg.(errorCounter := 0))
  }

  /** With the counter reset, a new exercise tolerates up to three refused
      lines, whatever earlier exercises counted, before a stop is requested. */
  lemma FreshExerciseToleratesErrors(v: Variant, s: State, id: nat, start: int, lines: seq<string>, now: int)
    requires WellFormed(v, s) && id in Ids(v.sensors) && v.validation.Checked?
    requires forall k :: 0 <= k < |lines| ==> !IsBlank(lines[k]) && !SixNumbers(lines[k])
    requires |lines| < MAX_ERRORS
    ensures var b := HandleLines(v, StartExerciseFresh(v, s).agg, id, start, lines, now);
            b.abortRequests == s.agg.abortRequests && b.errorCounter == |lines|
  {
    RefusedLinesBelowThreshold(v, StartExerciseFresh(v, s).agg, id, start, lines, now);
  }
}
