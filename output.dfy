/** The CSV file a session writes: its name, the name it is renamed to when the
    data is kept with a label, and its header row. */
module Output {
  import opened Wrappers
  import opened Handler
  import opened HandlerInvariants

  /** `f"./data/{school_name}_{date_selected}_{grade}_{exercise_name}.csv"`. */
  function OutputName(school: string, date: string, grade: string, exercise: string): string {
    "./data/" + school + "_" + date + "_" + grade + "_" + exercise + ".csv"
  }

  /** The index of the last `c` in `s`, if any (`str.rfind`). */
  function RFind(s: string, c: char): (r: Option<nat>)
    ensures r.Some? ==> r.value < |s| && s[r.value] == c && c !in s[r.value + 1..]
    ensures r.None? ==> c !in s
  {
    if s == [] then None
    else if s[|s| - 1] == c then Some(|s| - 1)
    else
      var r := RFind(s[..|s| - 1], c);
      assert s == s[..|s| - 1] + [s[|s| - 1]];
      r
  }

  /** Text without `c` appended after `s` does not move the last `c`. */
  lemma {:induction false} RFindPastTail(s: string, t: string, c: char)
    requires c !in t
    ensures RFind(s + t, c) == RFind(s, c)
    decreases |t|
  {
    if t != [] {
      var u := s + t;
      assert u[|u| - 1] == t[|t| - 1];
      assert u[..|u| - 1] == s + t[..|t| - 1];
      RFindPastTail(s, t[..|t| - 1], c);
    } else {
      assert s + t == s;
    }
  }

  /** Some character of `s[from..to]` is not a dot. */
  predicate HasNonDot(s: string, from: nat, to: nat)
    requires from <= to <= |s|
  {
    exists k :: from <= k < to && s[k] != '.'
  }

  /** `posixpath.splitext`: the extension starts at the last dot of the last
      path component, unless everything before that dot in the component is
      dots. `root + ext` is always the whole path. */
  function SplitExt(p: string): (r: (string, string))
    ensures r.0 + r.1 == p
  {
    match RFind(p, '.')
    case None => (p, "")
    case Some(dot) =>
      var start := match RFind(p, '/') case None => 0 case Some(sep) => sep + 1;
      if start <= dot && HasNonDot(p, start, dot) then
        assert p == p[..dot] + p[dot..];
        (p[..dot], p[dot..])
      else (p, "")
  }

  /** `f"{base}_{label}{ext}"` with `base, ext = os.path.splitext(csv_filename)`. */
  function LabelledName(fileName: string, dataLabel: string): string {
    var (base, ext) := SplitExt(fileName);
    base + "_" + dataLabel + ext
  }

  lemma RFindLast(s: string, c: char)
    requires s != [] && s[|s| - 1] == c
    ensures RFind(s, c) == Some(|s| - 1)
  {
  }

  lemma SplitAfterFirst(stem: string, ext: string)
    requires ext != []
    ensures stem + ext == (stem + [ext[0]]) + ext[1..]
  {
    assert ext == [ext[0]] + ext[1..];
  }

  /** An extension that starts with its only dot: the last dot of `stem + ext`
      is the one where `ext` starts. */
  lemma LastDotStartsExt(stem: string, ext: string)
    requires ext != [] && ext[0] == '.' && '.' !in ext[1..]
    ensures RFind(stem + ext, '.') == Some(|stem|)
  {
    var withDot := stem + [ext[0]];
    RFindLast(withDot, '.');
    SplitAfterFirst(stem, ext);
    RFindPastTail(withDot, ext[1..], '.');
  }

  /** A `/` in `prefix` and none in `tail`: the last `/` lies in `prefix`. */
  lemma LastSlashInPrefix(prefix: string, tail: string)
    requires '/' in prefix && '/' !in tail
    ensures RFind(prefix + tail, '/').Some? && RFind(prefix + tail, '/').value < |prefix|
  {
    RFindPastTail(prefix, tail, '/');
  }

  /** `SplitExt` cuts at the last dot when the last `/` comes before it and a
      non-dot lies between them. */
  lemma SplitExtAtDot(p: string, dot: nat, sep: nat)
    requires RFind(p, '.') == Some(dot) && RFind(p, '/') == Some(sep)
    requires sep + 1 <= dot && HasNonDot(p, sep + 1, dot)
    ensures SplitExt(p) == (p[..dot], p[dot..])
  {
  }

  /** `prefix_exercise.csv` with a `/` in the prefix and none after it splits
      in front of `.csv`. */
  lemma SplitCsvName(prefix: string, exercise: string)
    requires '/' in prefix && '/' !in exercise
    ensures SplitExt(prefix + "_" + exercise + ".csv") == (prefix + "_" + exercise, ".csv")
  {
    var stem := prefix + "_" + exercise;
    var p := stem + ".csv";
    assert ".csv"[0] == '.' && ".csv"[1..] == "csv";
    LastDotStartsExt(stem, ".csv");
    var tail := "_" + exercise + ".csv";
    assert p == prefix + tail;
    LastSlashInPrefix(prefix, tail);
    var sep := RFind(p, '/').value;
    assert p[|prefix|] == '_';
    assert HasNonDot(p, sep + 1, |stem|);
    SplitExtAtDot(p, |stem|, sep);
    assert p[..|stem|] == stem && p[|stem|..] == ".csv";
  }

  /** For a name built by `OutputName` from an exercise without a `/`, the label
      goes in front of `.csv`. */
  lemma LabelledOutputName(school: string, date: string, grade: string, exercise: string, dataLabel: string)
    requires '/' !in exercise
    ensures LabelledName(OutputName(school, date, grade, exercise), dataLabel)
         == "./data/" + school + "_" + date + "_" + grade + "_" + exercise + "_" + dataLabel + ".csv"
  {
    var prefix := "./data/" + school + "_" + date + "_" + grade;
    assert prefix[1] == '/';
    SplitCsvName(prefix, exercise);
    assert OutputName(school, date, grade, exercise) == prefix + "_" + exercise + ".csv";
  }

  /** The header the four-sensor application writes. */
  const FOUR_SENSOR_HEADER: seq<string> := [
    "timestamp",
    "right_hand_Accel_X", "right_hand_Accel_Y", "right_hand_Accel_Z",
    "right_hand_Gyro_X", "right_hand_Gyro_Y", "right_hand_Gyro_Z",
    "left_hand_Accel_X", "left_hand_Accel_Y", "left_hand_Accel_Z",
    "left_hand_Gyro_X", "left_hand_Gyro_Y", "left_hand_Gyro_Z",
    "right_leg_Accel_X", "right_leg_Accel_Y", "right_leg_Accel_Z",
    "right_leg_Gyro_X", "right_leg_Gyro_Y", "right_leg_Gyro_Z",
    "left_leg_Accel_X", "left_leg_Accel_Y", "left_leg_Accel_Z",
    "left_leg_Gyro_X", "left_leg_Gyro_Y", "left_leg_Gyro_Z"]

  /** The header the three-sensor wizard writes; its third sensor is the MPU. */
  const WIZARD_HEADER: seq<string> := [
    "timestamp",
    "right_hand_Accel_X", "right_hand_Accel_Y", "right_hand_Accel_Z",
    "right_hand_Gyro_X", "right_hand_Gyro_Y", "right_hand_Gyro_Z",
    "left_hand_Accel_X", "left_hand_Accel_Y", "left_hand_Accel_Z",
    "left_hand_Gyro_X", "left_hand_Gyro_Y", "left_hand_Gyro_Z",
    "MPU_Accel_X", "MPU_Accel_Y", "MPU_Accel_Z",
    "MPU_Gyro_X", "MPU_Gyro_Y", "MPU_Gyro_Z"]

  /** The header the three-sensor main application writes. */
  const MAIN_APP_HEADER: seq<string> := [
    "timestamp",
    "right_hand_Accel_X", "right_hand_Accel_Y", "right_hand_Accel_Z",
    "right_hand_Gyro_X", "right_hand_Gyro_Y", "right_hand_Gyro_Z",
    "left_hand_Accel_X", "left_hand_Accel_Y", "left_hand_Accel_Z",
    "left_hand_Gyro_X", "left_hand_Gyro_Y", "left_hand_Gyro_Z",
    "right_leg_Accel_X", "right_leg_Accel_Y", "right_leg_Accel_Z",
    "right_leg_Gyro_X", "right_leg_Gyro_Y", "right_leg_Gyro_Z"]

  /** Every row the four-sensor application writes has one column per header
      name. */
  lemma FourSensorRowsMatchHeader(s: State)
    requires Invariant(FourSensorApp, s)
    ensures RowsWide(s.agg.csv, |FOUR_SENSOR_HEADER|)
  {
    FourSensorRowsHave25Columns(s);
  }

  /** Every row the wizard writes has one column per header name. */
  lemma WizardRowsMatchHeader(s: State)
    requires Invariant(WizardDualWindow, s)
    ensures RowsWide(s.agg.csv, |WIZARD_HEADER|)
  {
    ThreeSensorRowsHave19Columns(WizardDualWindow, s);
  }

  /** Every row the main application writes has one column per header name. */
  lemma MainAppRowsMatchHeader(s: State)
    requires Invariant(MainApp, s)
    ensures RowsWide(s.agg.csv, |MAIN_APP_HEADER|)
  {
    ThreeSensorRowsHave19Columns(MainApp, s);
  }
}
