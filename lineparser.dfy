/** Turning one non-blank line into sensor values, in the three ways the
    handlers do it. */
module LineParser {
  import opened Wrappers
  import opened PyText
  import opened PyFloat

  /** Values per reading: three acceleration axes and three gyroscope axes. */
  const FIELD_COUNT: nat := 6

  /** Why a line was refused; each stands for a `ValueError` raised in the handler. */
  datatype ParseError = FieldCount(count: nat) | NotNumeric

  predicate AllNumeric(fields: seq<string>) {
    forall k :: 0 <= k < |fields| ==> ParseFloat(fields[k]).Some?
  }

  /** `list(map(float, parts))`: `None` when some part is not a number. */
  function ParseFields(fields: seq<string>): (r: Option<seq<Value>>)
    decreases |fields|
  {
    if fields == [] then Some([])
    else
      match (ParseFloat(fields[0]), ParseFields(fields[1..]))
      case (Some(x), Some(xs)) => Some([x] + xs)
      case _ => None
  }

  lemma AllNumericCons(fields: seq<string>)
    requires fields != []
    ensures AllNumeric(fields) <==> ParseFloat(fields[0]).Some? && AllNumeric(fields[1..])
  {
    if ParseFloat(fields[0]).Some? && AllNumeric(fields[1..]) {
      forall k | 0 <= k < |fields|
        ensures ParseFloat(fields[k]).Some?
      {
        if k > 0 {
          assert fields[k] == fields[1..][k - 1];
        }
      }
    }
  }

  /** `ParseFields` succeeds exactly when every field is a number, and then
      yields each field's number in order. */
  lemma {:induction false} ParseFieldsSpec(fields: seq<string>)
    ensures ParseFields(fields).Some? <==> AllNumeric(fields)
    ensures ParseFields(fields).Some? ==>
              |ParseFields(fields).value| == |fields| &&
              forall k :: 0 <= k < |fields| ==> ParseFloat(fields[k]) == Some(ParseFields(fields).value[k])
    decreases |fields|
  {
    if fields != [] {
      var tail := fields[1..];
      ParseFieldsSpec(tail);
      AllNumericCons(fields);
      var head := ParseFloat(fields[0]);
      var rest := ParseFields(tail);
      if head.Some? && rest.Some? {
        var values := [head.value] + rest.value;
        assert ParseFields(fields) == Some(values);
        forall k | 0 <= k < |fields|
          ensures ParseFloat(fields[k]) == Some(values[k])
        {
          if k > 0 {
            assert fields[k] == tail[k - 1] && values[k] == rest.value[k - 1];
          }
        }
      } else {
        assert ParseFields(fields) == None;
      }
    }
  }

  /** The four-sensor application: count the comma fields first, then convert. */
  function ParseCountThenConvert(line: string): Result<seq<Value>, ParseError> {
    var parts := Split(line, ',');
    if |parts| != FIELD_COUNT then Err(FieldCount(|parts|))
    else
      match ParseFields(parts)
      case None => Err(NotNumeric)
      case Some(values) => Ok(values)
  }

  /** The three-sensor wizard and main application: convert every field first,
      then count the values. */
  function ParseConvertThenCount(line: string): Result<seq<Value>, ParseError> {
    match ParseFields(Split(line, ','))
    case None => Err(NotNumeric)
    case Some(values) =>
      if |values| != FIELD_COUNT then Err(FieldCount(|values|)) else Ok(values)
  }

  /** The earlier collectors: convert every field, whatever their number. */
  function ParseUnchecked(line: string): Option<seq<Value>> {
    ParseFields(Split(line, ','))
  }

  /** A line is a valid reading when it has six comma fields, each a number. */
  predicate SixNumbers(line: string) {
    |Split(line, ',')| == FIELD_COUNT && AllNumeric(Split(line, ','))
  }

  /** Counting first: a line is accepted exactly when it has six numeric fields,
      with their values; a wrong count is reported as such. */
  lemma CountThenConvertSpec(line: string)
    ensures ParseCountThenConvert(line).Ok? <==> SixNumbers(line)
    ensures SixNumbers(line) ==>
              ParseCountThenConvert(line) == Ok(ParseFields(Split(line, ',')).value) &&
              |ParseCountThenConvert(line).value| == FIELD_COUNT
    ensures |Split(line, ',')| != FIELD_COUNT ==>
              ParseCountThenConvert(line) == Err(FieldCount(|Split(line, ',')|))
  {
    ParseFieldsSpec(Split(line, ','));
  }

  /** Converting first: the same lines are accepted with the same values; a
      non-numeric field is reported as such whatever the count. */
  lemma ConvertThenCountSpec(line: string)
    ensures ParseConvertThenCount(line).Ok? <==> SixNumbers(line)
    ensures SixNumbers(line) ==>
              ParseConvertThenCount(line) == Ok(ParseFields(Split(line, ',')).value) &&
              |ParseConvertThenCount(line).value| == FIELD_COUNT
    ensures !AllNumeric(Split(line, ',')) ==> ParseConvertThenCount(line) == Err(NotNumeric)
  {
    ParseFieldsSpec(Split(line, ','));
  }

  /** Without a count check any all-numeric line is accepted, with one value per
      field and at least one field. */
  lemma UncheckedSpec(line: string)
    ensures ParseUnchecked(line).Some? <==> AllNumeric(Split(line, ','))
    ensures ParseUnchecked(line).Some? ==> |ParseUnchecked(line).value| == |Split(line, ',')| >= 1
  {
    ParseFieldsSpec(Split(line, ','));
  }

  /** The two validating orders accept the same lines with the same values;
      they differ only in which error a line with both faults reports. */
  lemma ValidationOrdersAgree(line: string)
    ensures ParseCountThenConvert(line).Ok? <==> ParseConvertThenCount(line).Ok?
    ensures ParseCountThenConvert(line).Ok? ==> ParseCountThenConvert(line) == ParseConvertThenCount(line)
  {
    CountThenConvertSpec(line);
    ConvertThenCountSpec(line);
  }
}
