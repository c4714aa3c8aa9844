/**
 * The data manager: the latest record per tank, a bounded history per tank,
 * a global list of the newest alerts, threshold classification, time-window
 * queries and the retention sweep. Tank ids are the strings taken from MQTT
 * topics or messages; timestamps are whole seconds supplied by the caller.
 */
module Store {
  import opened Json

  // ---------------------------------------------------------------------------
  // Sequence helpers shared by the history, alert and sweep code
  // ---------------------------------------------------------------------------

  /** The elements of s that satisfy p, in their original order (a Python list comprehension). */
  function Filter<T>(p: T -> bool, s: seq<T>): (r: seq<T>)
    ensures |r| <= |s|
    decreases |s|
  {
    if s == [] then []
    else Filter(p, s[..|s| - 1]) + (if p(s[|s| - 1]) then [s[|s| - 1]] else [])
  }

  /** A filter that drops nothing returns its input. */
  lemma {:induction false} FilterSameLength<T>(p: T -> bool, s: seq<T>)
    requires |Filter(p, s)| == |s|
    ensures Filter(p, s) == s
    decreases |s|
  {
    if s != [] {
      var init := s[..|s| - 1];
      assert p(s[|s| - 1]);
      FilterSameLength(p, init);
      assert init + [s[|s| - 1]] == s;
    }
  }

  /** Everything kept comes from s and satisfies p. */
  lemma {:induction false} FilterSound<T>(p: T -> bool, s: seq<T>, x: T)
    requires x in Filter(p, s)
    ensures x in s && p(x)
    decreases |s|
  {
    var init := s[..|s| - 1];
    if x in Filter(p, init) {
      FilterSound(p, init, x);
      var i :| 0 <= i < |init| && init[i] == x;
      assert s[i] == x;
    }
  }

  /** One more element at the end is kept or dropped on its own. */
  lemma FilterSnoc<T>(p: T -> bool, s: seq<T>, x: T)
    ensures Filter(p, s + [x]) == Filter(p, s) + if p(x) then [x] else []
  {
    assert (s + [x])[..|s|] == s;
  }

  /** Every element of s that satisfies p is kept. */
  lemma {:induction false} FilterKeeps<T>(p: T -> bool, s: seq<T>, x: T)
    requires x in s && p(x)
    ensures x in Filter(p, s)
    decreases |s|
  {
    if x != s[|s| - 1] {
      assert x in s[..|s| - 1] by {
        var i :| 0 <= i < |s| && s[i] == x;
        assert s[..|s| - 1][i] == x;
      }
      FilterKeeps(p, s[..|s| - 1], x);
    }
  }

  /** Filtering distributes over concatenation: the kept elements stay in order. */
  lemma {:induction false} FilterAppend<T>(p: T -> bool, a: seq<T>, b: seq<T>)
    ensures Filter(p, a + b) == Filter(p, a) + Filter(p, b)
    decreases |b|
  {
    if b == [] {
      assert a + b == a;
    } else {
      assert (a + b)[..|a + b| - 1] == a + b[..|b| - 1];
      assert (a + b)[|a + b| - 1] == b[|b| - 1];
      FilterAppend(p, a, b[..|b| - 1]);
    }
  }

  /** When every element qualifies, nothing is dropped. */
  lemma {:induction false} FilterAll<T>(p: T -> bool, s: seq<T>)
    requires forall x :: x in s ==> p(x)
    ensures Filter(p, s) == s
    decreases |s|
  {
    if s != [] {
      assert s[|s| - 1] in s;
      forall x | x in s[..|s| - 1] ensures p(x) {
        var i :| 0 <= i < |s| - 1 && s[..|s| - 1][i] == x;
        assert s[i] == x;
      }
      FilterAll(p, s[..|s| - 1]);
      assert s[..|s| - 1] + [s[|s| - 1]] == s;
    }
  }

  /** Filtering twice with the same test is filtering once. */
  lemma FilterIdempotent<T>(p: T -> bool, s: seq<T>)
    ensures Filter(p, Filter(p, s)) == Filter(p, s)
  {
    forall x | x in Filter(p, s) ensures p(x) {
      FilterSound(p, s, x);
    }
    FilterAll(p, Filter(p, s));
  }

  /** The last min(n, |s|) elements of s. */
  function LastN<T>(s: seq<T>, n: nat): (r: seq<T>)
    ensures |r| == if |s| <= n then |s| else n
    ensures forall i :: 0 <= i < |r| ==> r[i] == s[|s| - |r| + i]
  {
    if |s| <= n then s else s[|s| - n..]
  }

  /** Keeping the last n after each append is keeping the last n of everything appended. */
  lemma LastNAppend<T>(s: seq<T>, x: T, n: nat)
    ensures LastN(LastN(s, n) + [x], n) == LastN(s + [x], n)
  {
    var a := LastN(LastN(s, n) + [x], n);
    var b := LastN(s + [x], n);
    assert |a| == |b|;
    forall i | 0 <= i < |a| ensures a[i] == b[i] {
      if i == |a| - 1 {
      } else {
        assert a[i] == (LastN(s, n) + [x])[|LastN(s, n) + [x]| - |a| + i];
      }
    }
  }

  /** Python's `s[-k:]` for any int k: the last k for k > 0, all of s for k == 0, s without its first -k for k < 0. */
  function TailSlice<T>(s: seq<T>, k: int): (r: seq<T>)
    ensures k > 0 ==> r == LastN(s, k)
    ensures k == 0 ==> r == s
    ensures k < 0 ==> r == if -k <= |s| then s[-k..] else []
  {
    if k > 0 then LastN(s, k)
    else if k == 0 then s
    else if -k <= |s| then s[-k..] else []
  }

  // ---------------------------------------------------------------------------
  // Tank id extraction
  // ---------------------------------------------------------------------------

  /** `topic.split('/')`. */
  function Split(s: string): (parts: seq<string>)
    ensures |parts| >= 1
    decreases |s|
  {
    var k := IndexOf(s, '/');
    if k == |s| then [s]
    else [s[..k]] + Split(s[k + 1..])
  }

  /** No part of a split topic contains the separator. */
  lemma {:induction false} SplitNoSeparator(s: string)
    ensures forall i :: 0 <= i < |Split(s)| ==> '/' !in Split(s)[i]
    decreases |s|
  {
    var k := IndexOf(s, '/');
    IndexOfFirst(s, '/');
    if k == |s| {
      assert Split(s) == [s];
      assert '/' !in s;
    } else {
      SplitNoSeparator(s[k + 1..]);
      SplitUnfold(s, k);
      var parts := Split(s);
      forall i | 0 <= i < |parts| ensures '/' !in parts[i] {
        if i == 0 {
          assert '/' !in s[..k];
        } else {
          assert parts[i] == Split(s[k + 1..])[i - 1];
        }
      }
    }
  }

  /** `'/'.join(parts)`. */
  function Join(parts: seq<string>): string
    requires |parts| >= 1
    decreases |parts|
  {
    if |parts| == 1 then parts[0] else parts[0] + "/" + Join(parts[1..])
  }

  /** Splitting a topic on '/' and joining the parts back gives the topic. */
  lemma {:induction false} SplitJoin(s: string)
    ensures Join(Split(s)) == s
    decreases |s|
  {
    var k := IndexOf(s, '/');
    if k < |s| {
      SplitJoin(s[k + 1..]);
      JoinSplitStep(s, k);
      SeqAround(s, k);
      assert [s[k]] == "/";
    } else {
      assert Split(s) == [s];
    }
  }

  /** Past its first '/', a topic splits and joins as its remainder does. */
  lemma JoinSplitStep(s: string, k: nat)
    requires k == IndexOf(s, '/') < |s|
    ensures Join(Split(s)) == s[..k] + "/" + Join(Split(s[k + 1..]))
  {
    SplitUnfold(s, k);
    JoinCons(s[..k], Split(s[k + 1..]));
  }

  /** A topic with a '/' at k splits into its part before k and the split of the rest. */
  lemma SplitUnfold(s: string, k: nat)
    requires k == IndexOf(s, '/') < |s|
    ensures Split(s) == [s[..k]] + Split(s[k + 1..])
  {
  }

  /** Joining a part in front of at least one more part puts a '/' between them. */
  lemma JoinCons(a: string, rest: seq<string>)
    requires |rest| >= 1
    ensures Join([a] + rest) == a + "/" + Join(rest)
  {
    assert ([a] + rest)[1..] == rest;
  }

  /** A sequence is its part before position k, the element at k, and its part after k. */
  lemma SeqAround<T>(s: seq<T>, k: nat)
    requires k < |s|
    ensures s == s[..k] + [s[k]] + s[k + 1..]
  {
    assert s[..k] + [s[k]] == s[..k + 1];
  }

  function StartsWith(s: string, prefix: string): bool {
    |prefix| <= |s| && s[..|prefix|] == prefix
  }

  /** A topic segment that names a tank: `tank_...` or all digits. */
  predicate IsTankSegment(part: string) {
    StartsWith(part, "tank_") || IsDigitString(part)
  }

  /** Index of the first tank-naming segment at or after `from`. */
  function FirstTankSegment(parts: seq<string>, from: nat): (r: Option<nat>)
    requires from <= |parts|
    ensures r.Some? ==> from <= r.value < |parts| && IsTankSegment(parts[r.value])
    ensures r.Some? ==> forall j :: from <= j < r.value ==> !IsTankSegment(parts[j])
    ensures r.None? ==> forall j :: from <= j < |parts| ==> !IsTankSegment(parts[j])
    decreases |parts| - from
  {
    if from == |parts| then None
    else if IsTankSegment(parts[from]) then Some(from)
    else FirstTankSegment(parts, from + 1)
  }

  /** Python's `str(x)` on a decoded JSON value; None where the rendering is not modelled (floats, lists, objects). */
  function PyStr(j: Json): (r: Option<string>)
    ensures r.None? <==> j.JFloat? || j.JArr? || j.JObj?
    ensures j.JStr? ==> r == Some(j.s)
    ensures j.JInt? && j.i >= 0 ==> r.Some? && IsDigitString(r.value)
  {
    match j
    case JStr(s) => Some(s)
    case JInt(i) => Some(IntToString(i))
    case JBool(b) => Some(if b then "True" else "False")
    case JNull => Some("None")
    case _ => None
  }

  /**
   * `_extract_tank_id`: the first topic segment that names a tank, else the message's
   * `tank_id`, else its `id`, else the topic's last segment.
   */
  function ExtractTankId(topic: string, message: map<string, Json>): (r: Option<string>)
    ensures FirstTankSegment(Split(topic), 0).Some? ==> r.Some? && IsTankSegment(r.value)
    ensures r.None? ==>
      || ("tank_id" in message && PyStr(message["tank_id"]).None?)
      || ("tank_id" !in message && "id" in message && PyStr(message["id"]).None?)
  {
    var parts := Split(topic);
    match FirstTankSegment(parts, 0)
    case Some(i) => Some(parts[i])
    case None =>
      if "tank_id" in message then PyStr(message["tank_id"])
      else if "id" in message then PyStr(message["id"])
      else Some(parts[|parts| - 1])
  }

  /** A tank-naming segment with none before it is the one the scan finds. */
  lemma FirstTankSegmentAt(parts: seq<string>, i: nat)
    requires i < |parts| && IsTankSegment(parts[i])
    requires forall j :: 0 <= j < i ==> !IsTankSegment(parts[j])
    ensures FirstTankSegment(parts, 0) == Some(i)
  {
    var r := FirstTankSegment(parts, 0);
    assert r.Some?;
    assert !(r.value < i) && !(r.value > i);
  }

  /** The first tank-naming segment of the topic wins over everything the message carries. */
  lemma ExtractTankIdFirstSegment(topic: string, message: map<string, Json>)
    ensures var parts := Split(topic);
      forall i :: 0 <= i < |parts| && IsTankSegment(parts[i]) && (forall j :: 0 <= j < i ==> !IsTankSegment(parts[j]))
        ==> ExtractTankId(topic, message) == Some(parts[i])
  {
    var parts := Split(topic);
    forall i | 0 <= i < |parts| && IsTankSegment(parts[i]) && (forall j :: 0 <= j < i ==> !IsTankSegment(parts[j]))
      ensures ExtractTankId(topic, message) == Some(parts[i])
    {
      FirstTankSegmentAt(parts, i);
    }
  }

  /** With no tank-naming segment, the message's `tank_id`, then its `id`, then the last segment name the tank. */
  lemma ExtractTankIdFallback(topic: string, message: map<string, Json>)
    requires forall i :: 0 <= i < |Split(topic)| ==> !IsTankSegment(Split(topic)[i])
    ensures ExtractTankId(topic, message) ==
      if "tank_id" in message then PyStr(message["tank_id"])
      else if "id" in message then PyStr(message["id"])
      else Some(Split(topic)[|Split(topic)| - 1])
  {
    var parts := Split(topic);
    var r := FirstTankSegment(parts, 0);
    assert r.None?;
  }

  // ---------------------------------------------------------------------------
  // Records, readings and classification
  // ---------------------------------------------------------------------------

  datatype Status = Normal | Warning | AlertStatus

  /** Why a record was flagged; the message text joins one line per reason. */
  datatype Reason = TempHigh(t: real) | TempLow(t: real) | LevelHigh(l: real) | LevelLow(l: real) | ErrorHigh(e: real)

  datatype Thresholds = Thresholds(tempHigh: real, tempLow: real, levelHigh: real, levelLow: real, error: real)

  const DefaultThresholds := Thresholds(180.0, 120.0, 90.0, 10.0, 0.5)

  /** The numeric fields a message can carry; None where the message has no value. */
  datatype Readings = Readings(
    temperature: Option<real>,
    level: Option<real>,
    pressure: Option<real>,
    error: Option<real>,
    liquidLevel: Option<real>)

  /** A standardised record, as stored per tank. */
  datatype Record = Record(
    tankId: string,
    timestamp: int,
    readings: Readings,
    status: Status,
    reasons: seq<Reason>,
    raw: map<string, Json>)

  /** The five fields kept per history point. */
  datatype HistoryEntry = HistoryEntry(
    timestamp: int,
    temperature: Option<real>,
    level: Option<real>,
    pressure: Option<real>,
    status: Status)

  datatype Alert = Alert(
    tankId: string,
    timestamp: int,
    status: Status,
    reasons: seq<Reason>,
    temperature: Option<real>,
    level: Option<real>,
    pressure: Option<real>,
    error: Option<real>)

  /** One numeric field: absent, its `float()` value, or the exception `float()` raises. */
  datatype Field = Missing | Got(v: real) | Raises

  function ReadField(m: map<string, Json>, key: string): (f: Field)
    ensures f.Missing? <==> key !in m
    ensures f.Raises? <==> key in m && ToFloat(m[key]).None?
    ensures f.Got? ==> key in m && ToFloat(m[key]) == Some(f.v)
  {
    if key !in m then Missing
    else match ToFloat(m[key])
      case Some(v) => Got(v)
      case None => Raises
  }

  /** `if k1 in m: ... elif k2 in m: ...`: the first key present decides, even if its value is bad. */
  function FirstField(m: map<string, Json>, k1: string, k2: string): (f: Field)
    ensures k1 in m ==> f == ReadField(m, k1)
    ensures k1 !in m ==> f == ReadField(m, k2)
  {
    if k1 in m then ReadField(m, k1) else ReadField(m, k2)
  }

  function AsOption(f: Field): Option<real>
    requires !f.Raises?
  {
    if f.Got? then Some(f.v) else None
  }

  /**
   * The field extraction of `_parse_tank_data`: temperature from `temperature` else `temp`,
   * level from `level` else `height`, and only without both does `liquid_level` go to its
   * own key. None when a `float()` raises, which aborts the whole parse.
   */
  function ExtractReadings(m: map<string, Json>): (r: Option<Readings>)
    ensures r.None? <==>
      || ("temperature" in m && ToFloat(m["temperature"]).None?)
      || ("temperature" !in m && "temp" in m && ToFloat(m["temp"]).None?)
      || ("level" in m && ToFloat(m["level"]).None?)
      || ("level" !in m && "height" in m && ToFloat(m["height"]).None?)
      || ("level" !in m && "height" !in m && "liquid_level" in m && ToFloat(m["liquid_level"]).None?)
      || ("pressure" in m && ToFloat(m["pressure"]).None?)
      || ("error" in m && ToFloat(m["error"]).None?)
  {
    var temperature := FirstField(m, "temperature", "temp");
    var level := FirstField(m, "level", "height");
    var liquid := if "level" in m || "height" in m then Missing else ReadField(m, "liquid_level");
    var pressure := ReadField(m, "pressure");
    var error := ReadField(m, "error");
    if temperature.Raises? || level.Raises? || liquid.Raises? || pressure.Raises? || error.Raises? then None
    else Some(Readings(AsOption(temperature), AsOption(level), AsOption(pressure), AsOption(error), AsOption(liquid)))
  }

  /** The alias precedence of the extraction, stated field by field. */
  lemma ReadingsAliases(m: map<string, Json>)
    requires ExtractReadings(m).Some?
    ensures var r := ExtractReadings(m).value;
      && ("temperature" in m ==> r.temperature == ToFloat(m["temperature"]))
      && ("temperature" !in m && "temp" in m ==> r.temperature == ToFloat(m["temp"]))
      && ("temperature" !in m && "temp" !in m ==> r.temperature.None?)
      && ("level" in m ==> r.level == ToFloat(m["level"]))
      && ("level" !in m && "height" in m ==> r.level == ToFloat(m["height"]))
      && ("level" !in m && "height" !in m ==> r.level.None?)
      && (r.liquidLevel.Some? ==> r.level.None? && "liquid_level" in m)
      && ("level" !in m && "height" !in m && "liquid_level" in m ==> r.liquidLevel == ToFloat(m["liquid_level"]))
      && ("pressure" in m ==> r.pressure == ToFloat(m["pressure"]))
      && ("pressure" !in m ==> r.pressure.None?)
      && ("error" in m ==> r.error == ToFloat(m["error"]))
      && ("error" !in m ==> r.error.None?)
  {
  }

  /** The outcome of `_check_alerts` for one set of readings. */
  datatype Assessment = Assessment(status: Status, reasons: seq<Reason>)

  function TemperatureReasons(t: Option<real>, th: Thresholds): (r: seq<Reason>)
    ensures |r| <= 1 && forall i :: 0 <= i < |r| ==> !r[i].ErrorHigh?
    ensures r != [] <==> t.Some? && (t.value > th.tempHigh || t.value < th.tempLow)
  {
    if t.None? then []
    else if t.value > th.tempHigh then [TempHigh(t.value)]
    else if t.value < th.tempLow then [TempLow(t.value)]
    else []
  }

  function LevelReasons(l: Option<real>, th: Thresholds): (r: seq<Reason>)
    ensures |r| <= 1 && forall i :: 0 <= i < |r| ==> !r[i].ErrorHigh?
    ensures r != [] <==> l.Some? && (l.value > th.levelHigh || l.value < th.levelLow)
  {
    if l.None? then []
    else if l.value > th.levelHigh then [LevelHigh(l.value)]
    else if l.value < th.levelLow then [LevelLow(l.value)]
    else []
  }

  /** Temperature or level outside its band. */
  predicate OutOfBand(r: Readings, th: Thresholds) {
    || (r.temperature.Some? && (r.temperature.value > th.tempHigh || r.temperature.value < th.tempLow))
    || (r.level.Some? && (r.level.value > th.levelHigh || r.level.value < th.levelLow))
  }

  predicate ErrorTooLarge(r: Readings, th: Thresholds) {
    r.error.Some? && r.error.value > th.error
  }

  /** `_check_alerts`: `alert` when a band is crossed, `warning` when only the error is too large, else `normal`. */
  function Assess(r: Readings, th: Thresholds): (a: Assessment)
    ensures a.status == AlertStatus <==> OutOfBand(r, th)
    ensures a.status == Warning <==> !OutOfBand(r, th) && ErrorTooLarge(r, th)
    ensures a.status == Normal <==> a.reasons == []
    ensures a.status == Normal <==> !OutOfBand(r, th) && !ErrorTooLarge(r, th)
  {
    var reasons := TemperatureReasons(r.temperature, th) + LevelReasons(r.level, th)
      + (if r.error.Some? && r.error.value > th.error then [ErrorHigh(r.error.value)] else []);
    var banded := exists i :: 0 <= i < |reasons| && !reasons[i].ErrorHigh?;
    assert banded <==> OutOfBand(r, th) by {
      var tr := TemperatureReasons(r.temperature, th);
      var lr := LevelReasons(r.level, th);
      if tr != [] { assert !reasons[0].ErrorHigh?; }
      else if lr != [] { assert !reasons[0].ErrorHigh?; }
      else { assert forall i :: 0 <= i < |reasons| ==> reasons[i].ErrorHigh?; }
    }
    if reasons == [] then Assessment(Normal, [])
    else if banded then Assessment(AlertStatus, reasons)
    else Assessment(Warning, reasons)
  }

  function EntryOf(r: Record): (e: HistoryEntry)
  {
    HistoryEntry(r.timestamp, r.readings.temperature, r.readings.level, r.readings.pressure, r.status)
  }

  function AlertOf(r: Record, now: int): Alert {
    Alert(r.tankId, now, r.status, r.reasons,
      r.readings.temperature, r.readings.level, r.readings.pressure, r.readings.error)
  }

  /** A record with its status and reasons recomputed under th. */
  function Checked(r: Record, th: Thresholds): (c: Record)
    ensures c.tankId == r.tankId && c.timestamp == r.timestamp && c.readings == r.readings && c.raw == r.raw
    ensures c.status == Assess(r.readings, th).status && c.reasons == Assess(r.readings, th).reasons
  {
    var a := Assess(r.readings, th);
    r.(status := a.status, reasons := a.reasons)
  }

  /** The alerts a check of r under th raises: one exactly when the record is not normal. */
  function RaisedBy(r: Record, th: Thresholds, now: int): (s: seq<Alert>)
    ensures |s| == if Checked(r, th).status == Normal then 0 else 1
  {
    var c := Checked(r, th);
    if c.reasons == [] then [] else [AlertOf(c, now)]
  }

  // ---------------------------------------------------------------------------
  // Queries
  // ---------------------------------------------------------------------------

  /** Python truthiness of an optional id: None and "" mean "all tanks". */
  predicate Given(id: Option<string>) {
    id.Some? && id.value != ""
  }

  function AtOrAfter(t: int): HistoryEntry -> bool {
    (e: HistoryEntry) => e.timestamp >= t
  }

  function AtOrBefore(t: int): HistoryEntry -> bool {
    (e: HistoryEntry) => e.timestamp <= t
  }

  /** The retention sweep on one history: the entries no older than the cutoff, in order. */
  function KeepSince(h: seq<HistoryEntry>, cutoff: int): (r: seq<HistoryEntry>)
    ensures |r| <= |h|
  {
    Filter(AtOrAfter(cutoff), h)
  }

  /** The sweep keeps exactly the entries at or after the cutoff, boundary included. */
  lemma KeepSinceExact(h: seq<HistoryEntry>, cutoff: int, e: HistoryEntry)
    ensures e in KeepSince(h, cutoff) <==> e in h && e.timestamp >= cutoff
  {
    if e in h && e.timestamp >= cutoff {
      FilterKeeps(AtOrAfter(cutoff), h, e);
    }
    if e in KeepSince(h, cutoff) {
      FilterSound(AtOrAfter(cutoff), h, e);
    }
  }

  /** A second sweep with the same cutoff removes nothing more. */
  lemma KeepSinceIdempotent(h: seq<HistoryEntry>, cutoff: int)
    ensures KeepSince(KeepSince(h, cutoff), cutoff) == KeepSince(h, cutoff)
  {
    FilterIdempotent(AtOrAfter(cutoff), h);
  }

  /** The window and limit of `get_tank_history` applied to one stored history. */
  function Window(h: seq<HistoryEntry>, start: Option<int>, end: Option<int>, limit: Option<int>): (r: seq<HistoryEntry>)
    ensures |r| <= |h|
    ensures limit.Some? && limit.value > 0 ==> |r| <= limit.value
  {
    var a := if start.Some? then Filter(AtOrAfter(start.value), h) else h;
    var b := if end.Some? then Filter(AtOrBefore(end.value), a) else a;
    if limit.Some? && limit.value > 0 then LastN(b, limit.value) else b
  }

  /** Without a limit the window holds exactly the stored entries inside [start, end]. */
  lemma WindowExact(h: seq<HistoryEntry>, start: Option<int>, end: Option<int>, e: HistoryEntry)
    ensures e in Window(h, start, end, None) <==>
      e in h && (start.Some? ==> e.timestamp >= start.value) && (end.Some? ==> e.timestamp <= end.value)
  {
    var a := if start.Some? then Filter(AtOrAfter(start.value), h) else h;
    if e in h && (start.Some? ==> e.timestamp >= start.value) && (end.Some? ==> e.timestamp <= end.value) {
      if start.Some? { FilterKeeps(AtOrAfter(start.value), h, e); }
      if end.Some? { FilterKeeps(AtOrBefore(end.value), a, e); }
    }
    if e in Window(h, start, end, None) {
      if end.Some? { FilterSound(AtOrBefore(end.value), a, e); }
      if start.Some? { FilterSound(AtOrAfter(start.value), h, e); }
    }
  }

  /** A positive limit keeps the newest `limit` entries of the window, in stored order. */
  lemma WindowLimit(h: seq<HistoryEntry>, start: Option<int>, end: Option<int>, limit: int)
    requires limit > 0
    ensures var all := Window(h, start, end, None);
      var r := Window(h, start, end, Some(limit));
      && |r| == (if |all| <= limit then |all| else limit)
      && r == all[|all| - |r|..]
  {
  }

  // ---------------------------------------------------------------------------
  // Alert ordering: newest first, equal timestamps in arrival order
  // ---------------------------------------------------------------------------

  predicate NewestFirst(s: seq<Alert>) {
    forall i, j :: 0 <= i < j < |s| ==> s[i].timestamp >= s[j].timestamp
  }

  /** Insert x after every element at least as new, so later arrivals follow earlier ones on ties. */
  function InsertByTime(x: Alert, r: seq<Alert>): (s: seq<Alert>)
    ensures |s| == |r| + 1
    decreases |r|
  {
    if r == [] then [x]
    else if r[0].timestamp >= x.timestamp then [r[0]] + InsertByTime(x, r[1..])
    else [x] + r
  }

  /** Inserting adds x and nothing else. */
  lemma {:induction false} InsertPermutes(x: Alert, r: seq<Alert>)
    ensures multiset(InsertByTime(x, r)) == multiset(r) + multiset{x}
    decreases |r|
  {
    if r != [] && r[0].timestamp >= x.timestamp {
      InsertPermutes(x, r[1..]);
      assert r == [r[0]] + r[1..];
    }
  }

  /** No alert in s is newer than b. */
  predicate NoneNewerThan(s: seq<Alert>, b: int) {
    forall k :: 0 <= k < |s| ==> s[k].timestamp <= b
  }

  /** Inserting an alert no newer than b into alerts no newer than b keeps that bound. */
  lemma {:induction false} InsertBounded(x: Alert, r: seq<Alert>, b: int)
    requires NoneNewerThan(r, b) && x.timestamp <= b
    ensures NoneNewerThan(InsertByTime(x, r), b)
    decreases |r|
  {
    if r != [] && r[0].timestamp >= x.timestamp {
      var rest := InsertByTime(x, r[1..]);
      InsertBounded(x, r[1..], b);
      var s := [r[0]] + rest;
      assert InsertByTime(x, r) == s;
      forall k | 0 <= k < |s| ensures s[k].timestamp <= b {
        if k > 0 {
          assert s[k] == rest[k - 1];
        }
      }
    } else if r != [] {
      var s := [x] + r;
      assert InsertByTime(x, r) == s;
      forall k | 0 <= k < |s| ensures s[k].timestamp <= b {
        if k > 0 {
          assert s[k] == r[k - 1];
        }
      }
    }
  }

  /** Putting an alert at least as new as every other in front of a newest-first list keeps it newest first. */
  lemma ConsNewestFirst(h: Alert, s: seq<Alert>)
    requires NewestFirst(s) && NoneNewerThan(s, h.timestamp)
    ensures NewestFirst([h] + s)
  {
    var t := [h] + s;
    forall i, j | 0 <= i < j < |t| ensures t[i].timestamp >= t[j].timestamp {
      assert t[j] == s[j - 1];
      if i > 0 {
        assert t[i] == s[i - 1];
      }
    }
  }

  /** Inserting into a newest-first list keeps it newest first. */
  lemma {:induction false} InsertSorted(x: Alert, r: seq<Alert>)
    requires NewestFirst(r)
    ensures NewestFirst(InsertByTime(x, r))
    decreases |r|
  {
    if r != [] && r[0].timestamp >= x.timestamp {
      var tail := r[1..];
      assert NewestFirst(tail);
      InsertSorted(x, tail);
      assert NoneNewerThan(tail, r[0].timestamp);
      InsertBounded(x, tail, r[0].timestamp);
      ConsNewestFirst(r[0], InsertByTime(x, tail));
    } else if r != [] {
      assert NoneNewerThan(r, x.timestamp);
      ConsNewestFirst(x, r);
    }
  }

  /** `sorted(..., key=timestamp, reverse=True)`, which is stable: an insertion sort by arrival. */
  function SortNewestFirst(s: seq<Alert>): (r: seq<Alert>)
    ensures |r| == |s|
    decreases |s|
  {
    if s == [] then [] else InsertByTime(s[|s| - 1], SortNewestFirst(s[..|s| - 1]))
  }

  /** The sort result is newest first. */
  lemma {:induction false} SortSorts(s: seq<Alert>)
    ensures NewestFirst(SortNewestFirst(s))
    decreases |s|
  {
    if s != [] {
      SortSorts(s[..|s| - 1]);
      InsertSorted(s[|s| - 1], SortNewestFirst(s[..|s| - 1]));
    }
  }

  /** The sort result is a permutation of its input. */
  lemma {:induction false} SortPermutes(s: seq<Alert>)
    ensures multiset(SortNewestFirst(s)) == multiset(s)
    decreases |s|
  {
    if s != [] {
      var pre, last := s[..|s| - 1], s[|s| - 1];
      SortPermutes(pre);
      InsertPermutes(last, SortNewestFirst(pre));
      assert s == pre + [last];
      assert multiset(s) == multiset(pre) + multiset{last};
    }
  }

  function StampedAt(t: int): Alert -> bool {
    (a: Alert) => a.timestamp == t
  }

  /** Filtering a one-element sequence. */
  lemma FilterSingle<T>(p: T -> bool, x: T)
    ensures Filter(p, [x]) == if p(x) then [x] else []
  {
    assert [x][..0] == [];
  }

  /** Nothing in a newest-first list is newer than its head. */
  lemma NoneNewerThanHead(r: seq<Alert>, t: int)
    requires NewestFirst(r) && r != [] && r[0].timestamp < t
    ensures Filter(StampedAt(t), r) == []
  {
    var f := Filter(StampedAt(t), r);
    if f != [] {
      FilterSound(StampedAt(t), r, f[0]);
    }
  }

  /** Alerts sharing a timestamp stay in arrival order when x is inserted. */
  lemma {:induction false} InsertKeepsTies(x: Alert, r: seq<Alert>, t: int)
    requires NewestFirst(r)
    ensures Filter(StampedAt(t), InsertByTime(x, r)) == Filter(StampedAt(t), r) + Filter(StampedAt(t), [x])
    decreases |r|
  {
    var p := StampedAt(t);
    if r == [] {
      assert InsertByTime(x, r) == [x];
    } else if r[0].timestamp >= x.timestamp {
      assert NewestFirst(r[1..]);
      InsertKeepsTies(x, r[1..], t);
      InsertBehindHead(x, r, t);
    } else {
      InsertBeforeNewestFirst(x, r, t);
    }
  }

  /** x goes behind a head that is not older, and ties on t keep their order if they do in the tail. */
  lemma InsertBehindHead(x: Alert, r: seq<Alert>, t: int)
    requires r != [] && r[0].timestamp >= x.timestamp
    requires Filter(StampedAt(t), InsertByTime(x, r[1..])) == Filter(StampedAt(t), r[1..]) + Filter(StampedAt(t), [x])
    ensures Filter(StampedAt(t), InsertByTime(x, r)) == Filter(StampedAt(t), r) + Filter(StampedAt(t), [x])
  {
    var p := StampedAt(t);
    var head, tail := [r[0]], r[1..];
    assert InsertByTime(x, r) == head + InsertByTime(x, tail);
    FilterAppend(p, head, InsertByTime(x, tail));
    assert r == head + tail;
    FilterAppend(p, head, tail);
    AppendAssoc(Filter(p, head), Filter(p, tail), Filter(p, [x]));
  }

  /** x goes in front when it is newer than the head, and ties on t keep their order. */
  lemma InsertBeforeNewestFirst(x: Alert, r: seq<Alert>, t: int)
    requires NewestFirst(r) && r != [] && r[0].timestamp < x.timestamp
    ensures Filter(StampedAt(t), InsertByTime(x, r)) == Filter(StampedAt(t), r) + Filter(StampedAt(t), [x])
  {
    var p := StampedAt(t);
    assert InsertByTime(x, r) == [x] + r;
    FilterAppend(p, [x], r);
    FilterSingle(p, x);
    if x.timestamp == t {
      NoneNewerThanHead(r, t);
    }
  }

  /** The sort is stable: alerts with equal timestamps keep their relative order. */
  lemma {:induction false} SortIsStable(s: seq<Alert>, t: int)
    ensures Filter(StampedAt(t), SortNewestFirst(s)) == Filter(StampedAt(t), s)
    decreases |s|
  {
    if s != [] {
      var p := StampedAt(t);
      var init, last := s[..|s| - 1], s[|s| - 1];
      var sorted := SortNewestFirst(init);
      SortIsStable(init, t);
      SortSorts(init);
      InsertKeepsTies(last, sorted, t);
      FilterSingle(p, last);
      assert Filter(p, s) == Filter(p, init) + Filter(p, [last]);
    }
  }

  function RecentFor(cutoff: int, tankId: Option<string>): Alert -> bool {
    (a: Alert) => a.timestamp >= cutoff && (!Given(tankId) || a.tankId == tankId.value)
  }

  /** `get_alerts` on a list of alerts: those at or after `now - minutes`, optionally for one tank, newest first. */
  function SelectAlerts(alerts: seq<Alert>, tankId: Option<string>, timeRangeMinutes: int, now: int): (r: seq<Alert>)
    ensures NewestFirst(r)
    ensures multiset(r) == multiset(Filter(RecentFor(now - timeRangeMinutes * 60, tankId), alerts))
  {
    var recent := Filter(RecentFor(now - timeRangeMinutes * 60, tankId), alerts);
    SortSorts(recent);
    SortPermutes(recent);
    SortNewestFirst(recent)
  }

  /** An alert is selected exactly when it is recent enough and, if a tank is named, belongs to it. */
  lemma SelectAlertsExact(alerts: seq<Alert>, tankId: Option<string>, timeRangeMinutes: int, now: int, a: Alert)
    ensures a in SelectAlerts(alerts, tankId, timeRangeMinutes, now) <==>
      a in alerts && a.timestamp >= now - timeRangeMinutes * 60 && (!Given(tankId) || a.tankId == tankId.value)
  {
    var p := RecentFor(now - timeRangeMinutes * 60, tankId);
    var f := Filter(p, alerts);
    if a in alerts && p(a) {
      FilterKeeps(p, alerts, a);
    }
    if a in f {
      FilterSound(p, alerts, a);
    }
    assert a in SelectAlerts(alerts, tankId, timeRangeMinutes, now) <==> a in multiset(f);
  }

  // ---------------------------------------------------------------------------
  // Parsing, the retention sweep and the history update, as functions
  // ---------------------------------------------------------------------------

  /** What `_parse_tank_data` does with a message before the alert check. */
  datatype ParseOutcome = Raised | Empty | Parsed(record: Record)

  /** The standardised record of a message, or the exception, or the empty result when neither temperature nor level is present. */
  function Standardize(tankId: string, m: map<string, Json>, now: int): (o: ParseOutcome)
    ensures o.Raised? <==> ExtractReadings(m).None?
    ensures o.Parsed? ==> o.record.readings == ExtractReadings(m).value
    ensures o.Parsed? ==> o.record.readings.temperature.Some? || o.record.readings.level.Some?
    ensures o.Empty? ==> ExtractReadings(m).value.temperature.None? && ExtractReadings(m).value.level.None?
    ensures o.Parsed? ==> o.record.tankId == tankId && o.record.timestamp == now && o.record.raw == m
  {
    match ExtractReadings(m)
    case None => Raised
    case Some(r) =>
      if r.temperature.Some? || r.level.Some? then Parsed(Record(tankId, now, r, Normal, [], m))
      else Empty
  }

  /** The sweep selects every tank when no id (or "") is given, else only the named tank. */
  predicate Selected(only: Option<string>, k: string) {
    !Given(only) || k == only.value
  }

  /** `_cleanup_expired_data` on the history map. */
  function Sweep(hist: map<string, seq<HistoryEntry>>, only: Option<string>, cutoff: int): (r: map<string, seq<HistoryEntry>>)
    ensures r.Keys == hist.Keys
  {
    map k | k in hist :: if Selected(only, k) then KeepSince(hist[k], cutoff) else hist[k]
  }

  /** A second sweep with the same cutoff changes nothing. */
  lemma SweepIdempotent(hist: map<string, seq<HistoryEntry>>, only: Option<string>, cutoff: int)
    ensures Sweep(Sweep(hist, only, cutoff), only, cutoff) == Sweep(hist, only, cutoff)
  {
    var once := Sweep(hist, only, cutoff);
    var twice := Sweep(once, only, cutoff);
    forall k | k in twice
      ensures twice[k] == once[k]
    {
      if Selected(only, k) {
        KeepSinceIdempotent(hist[k], cutoff);
      }
    }
    assert twice.Keys == once.Keys;
  }

  /** A sweep for one named tank leaves every other tank's history as it was. */
  lemma SweepTouchesOnlyNamed(hist: map<string, seq<HistoryEntry>>, id: string, cutoff: int, k: string)
    requires id != "" && k in hist && k != id
    ensures Sweep(hist, Some(id), cutoff)[k] == hist[k]
  {
  }

  function Prior(hist: map<string, seq<HistoryEntry>>, id: string): seq<HistoryEntry> {
    if id in hist then hist[id] else []
  }

  /** The history map after `update_tank_data`: append, cap to the tail, then sweep that tank. */
  function HistoryAfterUpdate(hist: map<string, seq<HistoryEntry>>, id: string, e: HistoryEntry, maxPoints: int, cutoff: int)
    : (r: map<string, seq<HistoryEntry>>)
    ensures r.Keys == hist.Keys + {id}
  {
    Sweep(hist[id := TailSlice(Prior(hist, id) + [e], maxPoints)], Some(id), cutoff)
  }

  /** Keeping a suffix whose last element passes the test keeps that element last. */
  lemma FilterKeepsLast<T>(p: T -> bool, s: seq<T>)
    requires s != [] && p(s[|s| - 1])
    ensures Filter(p, s) != [] && Filter(p, s)[|Filter(p, s)| - 1] == s[|s| - 1]
  {
  }

  /** `update_tank_data` on the history: the tank's new history is the newest `maxPoints` of the old one plus the entry, swept, and stays within the cap. */
  lemma HistoryUpdateCapped(hist: map<string, seq<HistoryEntry>>, id: string, e: HistoryEntry, maxPoints: int, cutoff: int)
    requires maxPoints > 0
    ensures var r := HistoryAfterUpdate(hist, id, e, maxPoints, cutoff);
      && r[id] == KeepSince(LastN(Prior(hist, id) + [e], maxPoints), cutoff)
      && |r[id]| <= maxPoints
  {
  }

  /** The new entry ends the tank's history unless it is already older than the cutoff. */
  lemma HistoryUpdateEndsWithEntry(hist: map<string, seq<HistoryEntry>>, id: string, e: HistoryEntry, maxPoints: int, cutoff: int)
    requires maxPoints > 0 && e.timestamp >= cutoff
    ensures var r := HistoryAfterUpdate(hist, id, e, maxPoints, cutoff);
      r[id] != [] && r[id][|r[id]| - 1] == e
  {
    var t := LastN(Prior(hist, id) + [e], maxPoints);
    assert t[|t| - 1] == e;
    FilterKeepsLast(AtOrAfter(cutoff), t);
    HistoryUpdateCapped(hist, id, e, maxPoints, cutoff);
  }

  /** Other tanks' histories are untouched by an update of a named tank. */
  lemma HistoryUpdateOthers(hist: map<string, seq<HistoryEntry>>, id: string, e: HistoryEntry, maxPoints: int, cutoff: int, k: string)
    requires id != "" && k in hist && k != id
    ensures HistoryAfterUpdate(hist, id, e, maxPoints, cutoff)[k] == hist[k]
  {
  }

  /** The id and the standardised record a message yields when it reaches `update_tank_data`; None where processing returns None. */
  function Ingest(topic: string, payload: Option<Json>, now: int): (r: Option<(string, Record)>)
    ensures r.Some? ==> payload.Some? && payload.value.JObj?
    ensures r.Some? ==> r.value.0 != "" && Some(r.value.0) == ExtractTankId(topic, payload.value.fields)
    ensures r.Some? ==> Standardize(r.value.0, payload.value.fields, now) == Parsed(r.value.1)
  {
    if payload.None? || !payload.value.JObj? then None
    else
      var m := payload.value.fields;
      match ExtractTankId(topic, m)
      case None => None
      case Some(id) =>
        if id == "" then None
        else match Standardize(id, m, now)
          case Parsed(rec) => Some((id, rec))
          case _ => None
  }

  /** A message that is valid JSON but not an object never updates anything. */
  lemma NonObjectIgnored(topic: string, payload: Json, now: int)
    requires !payload.JObj?
    ensures Ingest(topic, Some(payload), now).None?
  {
  }

  /** An object with a tank id and a usable temperature or level always gets through. */
  lemma ObjectWithReadingIngested(topic: string, m: map<string, Json>, now: int)
    requires ExtractTankId(topic, m).Some? && ExtractTankId(topic, m).value != ""
    requires ExtractReadings(m).Some?
    requires ExtractReadings(m).value.temperature.Some? || ExtractReadings(m).value.level.Some?
    ensures Ingest(topic, Some(JObj(m)), now).Some?
  {
  }

  /** The thresholds after `set_thresholds`: each given value replaces its threshold. */
  function Overridden(th: Thresholds, tempHigh: Option<real>, tempLow: Option<real>, levelHigh: Option<real>,
                      levelLow: Option<real>, error: Option<real>): (r: Thresholds)
    ensures tempHigh.None? ==> r.tempHigh == th.tempHigh
    ensures tempLow.None? ==> r.tempLow == th.tempLow
    ensures levelHigh.None? ==> r.levelHigh == th.levelHigh
    ensures levelLow.None? ==> r.levelLow == th.levelLow
    ensures error.None? ==> r.error == th.error
    ensures tempHigh.Some? ==> r.tempHigh == tempHigh.value
    ensures tempLow.Some? ==> r.tempLow == tempLow.value
    ensures levelHigh.Some? ==> r.levelHigh == levelHigh.value
    ensures levelLow.Some? ==> r.levelLow == levelLow.value
    ensures error.Some? ==> r.error == error.value
  {
    Thresholds(
      if tempHigh.Some? then tempHigh.value else th.tempHigh,
      if tempLow.Some? then tempLow.value else th.tempLow,
      if levelHigh.Some? then levelHigh.value else th.levelHigh,
      if levelLow.Some? then levelLow.value else th.levelLow,
      if error.Some? then error.value else th.error)
  }

  /** The alerts a re-check of the records raises, in the order of `keys`. */
  function RaisedAll(data: map<string, Record>, keys: seq<string>, th: Thresholds, now: int): (s: seq<Alert>)
    requires forall i :: 0 <= i < |keys| ==> keys[i] in data
    ensures |s| <= |keys|
    decreases |keys|
  {
    if keys == [] then []
    else RaisedAll(data, keys[..|keys| - 1], th, now) + RaisedBy(data[keys[|keys| - 1]], th, now)
  }

  /** Re-checking one more key appends that record's alerts. */
  lemma RaisedAllSnoc(data: map<string, Record>, keys: seq<string>, k: string, th: Thresholds, now: int)
    requires forall i :: 0 <= i < |keys| ==> keys[i] in data
    requires k in data
    ensures RaisedAll(data, keys + [k], th, now) == RaisedAll(data, keys, th, now) + RaisedBy(data[k], th, now)
  {
    assert (keys + [k])[..|keys|] == keys;
  }

  /** The keys whose record is not normal under th. */
  function Flagged(data: map<string, Record>, th: Thresholds): string -> bool {
    (k: string) => k in data && Checked(data[k], th).status != Normal
  }

  /** One re-check alert per record that is out of the normal state, none for the normal ones. */
  lemma {:induction false} RaisedAllCount(data: map<string, Record>, keys: seq<string>, th: Thresholds, now: int)
    requires forall i :: 0 <= i < |keys| ==> keys[i] in data
    ensures |RaisedAll(data, keys, th, now)| == |Filter(Flagged(data, th), keys)|
    decreases |keys|
  {
    if keys != [] {
      RaisedAllCount(data, keys[..|keys| - 1], th, now);
    }
  }

  /** The history map with the tanks in `done` swept so far. */
  function SweptOnly(hist: map<string, seq<HistoryEntry>>, done: set<string>, cutoff: int): map<string, seq<HistoryEntry>> {
    map k | k in hist :: if k in done then KeepSince(hist[k], cutoff) else hist[k]
  }

  /** Sweeping one more tank. */
  lemma SweptOnlyStep(hist: map<string, seq<HistoryEntry>>, done: set<string>, cutoff: int, k: string)
    requires k in hist && k !in done
    ensures SweptOnly(hist, done + {k}, cutoff) == SweptOnly(hist, done, cutoff)[k := KeepSince(hist[k], cutoff)]
  {
  }

  /** Naming a tank that has no history changes nothing. */
  lemma SweptOnlyAbsent(hist: map<string, seq<HistoryEntry>>, done: set<string>, cutoff: int, k: string)
    requires k !in hist
    ensures SweptOnly(hist, done + {k}, cutoff) == SweptOnly(hist, done, cutoff)
  {
  }

  /** Once every selected tank is done, the partial sweep is the sweep. */
  lemma SweptOnlyComplete(hist: map<string, seq<HistoryEntry>>, done: set<string>, only: Option<string>, cutoff: int)
    requires forall k :: k in hist ==> (k in done <==> Selected(only, k))
    ensures SweptOnly(hist, done, cutoff) == Sweep(hist, only, cutoff)
  {
  }

  /** The sweep never lengthens a history, so a cap that held still holds. */
  lemma SweepKeepsCap(hist: map<string, seq<HistoryEntry>>, only: Option<string>, cutoff: int, n: int)
    requires forall k :: k in hist ==> |hist[k]| <= n
    ensures var r := Sweep(hist, only, cutoff); forall k :: k in r ==> |r[k]| <= n
  {
  }

  /** The history map with the tanks in `done` cut to their newest n entries. */
  function CappedOnly(hist: map<string, seq<HistoryEntry>>, done: set<string>, n: nat): map<string, seq<HistoryEntry>> {
    map k | k in hist :: if k in done then LastN(hist[k], n) else hist[k]
  }

  /** Cutting one more tank. */
  lemma CappedOnlyStep(hist: map<string, seq<HistoryEntry>>, done: set<string>, n: nat, k: string)
    requires k in hist && k !in done
    ensures CappedOnly(hist, done + {k}, n) == CappedOnly(hist, done, n)[k := LastN(hist[k], n)]
  {
  }

  /** After cutting every tank, every history is within n. */
  lemma CappedAll(hist: map<string, seq<HistoryEntry>>, n: nat)
    ensures var r := CappedOnly(hist, hist.Keys, n); forall k :: k in r ==> |r[k]| <= n
  {
  }

  /** The records with those named in `done` re-checked under th. */
  function RecheckedOnly(data: map<string, Record>, done: seq<string>, th: Thresholds): (r: map<string, Record>)
    ensures r.Keys == data.Keys
  {
    map k | k in data :: if k in done then Checked(data[k], th) else data[k]
  }

  /** Re-checking one more record. */
  lemma RecheckedOnlyStep(data: map<string, Record>, done: seq<string>, th: Thresholds, k: string)
    requires k in data && k !in done
    ensures RecheckedOnly(data, done + [k], th) == RecheckedOnly(data, done, th)[k := Checked(data[k], th)]
  {
  }

  /** One step of the re-check loop over `keys`, stated on the loop's prefixes. */
  lemma RecheckStep(data: map<string, Record>, keys: seq<string>, i: nat, th: Thresholds, now: int, before: seq<Alert>)
    requires i < |keys| && NotBefore(keys, i)
    requires forall j :: 0 <= j < |keys| ==> keys[j] in data
    ensures RecheckedOnly(data, keys[..i], th)[keys[i]] == data[keys[i]]
    ensures RecheckedOnly(data, keys[..i + 1], th) == RecheckedOnly(data, keys[..i], th)[keys[i] := Checked(data[keys[i]], th)]
    ensures before + RaisedAll(data, keys[..i + 1], th, now) == before + RaisedAll(data, keys[..i], th, now) + RaisedBy(data[keys[i]], th, now)
  {
    var k := keys[i];
    var done := keys[..i];
    assert keys[..i + 1] == done + [k];
    RecheckedOnlyStep(data, done, th, k);
    RaisedAllSnoc(data, done, k, th, now);
    AppendAssoc(before, RaisedAll(data, done, th, now), RaisedBy(data[k], th, now));
  }

  /** Clamp of `set_max_history_points`. */
  function ClampPoints(points: int): (r: int)
    ensures 100 <= r <= 100000
    ensures 100 <= points <= 100000 ==> r == points
    ensures points < 100 ==> r == 100
    ensures points > 100000 ==> r == 100000
  {
    if points < 100 then 100 else if points > 100000 then 100000 else points
  }

  // ---------------------------------------------------------------------------
  // The data manager
  // ---------------------------------------------------------------------------

  const SecondsPerDay := 86400

  /** The retention cutoff: `now` minus `days` whole days, in seconds. */
  function Cutoff(now: int, days: int): (r: int)
    ensures days >= 0 ==> r <= now
    ensures days == 0 ==> r == now
    ensures days > 0 ==> r <= now - SecondsPerDay
    ensures (now - r) % SecondsPerDay == 0 && (now - r) / SecondsPerDay == days
  {
    now - days * SecondsPerDay
  }

  const AlertCap := 100

  /** What `get_tank_data` returns: one record (or the empty dict) or a copy of the whole map. */
  datatype TankData = One(record: Option<Record>) | All(records: map<string, Record>)

  class DataManager {
    /** The latest standardised record per tank. */
    var tanksData: map<string, Record>
    /** Insertion order of `tanksData`'s keys, as a Python dict keeps it. */
    var order: seq<string>
    var tanksHistory: map<string, seq<HistoryEntry>>
    /** The newest alerts, at most `AlertCap` of them. */
    var alerts: seq<Alert>
    /** Every alert ever raised, in order. */
    ghost var allAlerts: seq<Alert>
    var maxHistoryPoints: int
    var thresholds: Thresholds
    var storageDays: int

    ghost predicate AlertsCapped()
      reads this`alerts, this`allAlerts
    {
      alerts == LastN(allAlerts, AlertCap)
    }

    ghost predicate OrderMatches()
      reads this`tanksData, this`order
    {
      && (forall k :: k in tanksData <==> k in order)
      && (forall i, j :: 0 <= i < j < |order| ==> order[i] != order[j])
    }

    ghost predicate HistoriesCapped()
      reads this`tanksHistory, this`maxHistoryPoints
    {
      maxHistoryPoints > 0 ==> forall k :: k in tanksHistory ==> |tanksHistory[k]| <= maxHistoryPoints
    }

    ghost predicate Valid()
      reads this
    {
      AlertsCapped() && OrderMatches() && HistoriesCapped()
    }

    /** A fresh manager with the default thresholds; `maxHistoryPoints` comes from configuration unchecked. */
    constructor(maxHistoryPoints: int, storageDays: int)
      ensures Valid()
      ensures tanksData == map[] && order == [] && tanksHistory == map[] && alerts == [] && allAlerts == []
      ensures this.maxHistoryPoints == maxHistoryPoints && this.storageDays == storageDays
      ensures thresholds == DefaultThresholds
    {
      tanksData := map[];
      order := [];
      tanksHistory := map[];
      alerts := [];
      allAlerts := [];
      this.maxHistoryPoints := maxHistoryPoints;
      thresholds := DefaultThresholds;
      this.storageDays := storageDays;
    }

    /** `add_alert`: append, then keep only the newest `AlertCap`. */
    method AddAlert(a: Alert)
      requires AlertsCapped()
      modifies this`alerts, this`allAlerts
      ensures AlertsCapped()
      ensures allAlerts == old(allAlerts) + [a]
      ensures |alerts| <= AlertCap && alerts[|alerts| - 1] == a
    {
      LastNAppend(allAlerts, a, AlertCap);
      alerts := alerts + [a];
      allAlerts := allAlerts + [a];
      if |alerts| > AlertCap {
        alerts := alerts[|alerts| - AlertCap..];
      }
    }

    /** `_check_alerts`: classify the record under the current thresholds and raise an alert when it is not normal. */
    method CheckAlerts(record: Record, now: int) returns (checked: Record)
      requires AlertsCapped()
      modifies this`alerts, this`allAlerts
      ensures AlertsCapped()
      ensures checked == Checked(record, thresholds)
      ensures allAlerts == old(allAlerts) + RaisedBy(record, thresholds, now)
    {
      var a := Assess(record.readings, thresholds);
      checked := record.(status := a.status, reasons := a.reasons);
      if a.reasons != [] {
        AddAlert(AlertOf(checked, now));
      }
    }

    /** `_parse_tank_data`: standardise the message and, when it holds a reading, check it for alerts. */
    method ParseTankData(tankId: string, m: map<string, Json>, now: int) returns (o: ParseOutcome)
      requires AlertsCapped()
      modifies this`alerts, this`allAlerts
      ensures AlertsCapped()
      ensures Standardize(tankId, m, now).Parsed? ==> o == Parsed(Checked(Standardize(tankId, m, now).record, thresholds))
      ensures !Standardize(tankId, m, now).Parsed? ==> o == Standardize(tankId, m, now)
      ensures allAlerts == old(allAlerts) +
        if o.Parsed? then RaisedBy(Standardize(tankId, m, now).record, thresholds, now) else []
    {
      o := Standardize(tankId, m, now);
      if o.Parsed? {
        var checked := CheckAlerts(o.record, now);
        o := Parsed(checked);
      }
    }

    /** One step of the sweep: filter one tank's history, storing it only when something was dropped. */
    method SweepTank(tid: string, cutoff: int)
      modifies this`tanksHistory
      ensures tanksHistory == if tid in old(tanksHistory) then old(tanksHistory)[tid := KeepSince(old(tanksHistory)[tid], cutoff)] else old(tanksHistory)
    {
      if tid in tanksHistory {
        var filtered := KeepSince(tanksHistory[tid], cutoff);
        if |filtered| < |tanksHistory[tid]| {
          tanksHistory := tanksHistory[tid := filtered];
        } else {
          FilterSameLength(AtOrAfter(cutoff), tanksHistory[tid]);
        }
      }
    }

    /** `_cleanup_expired_data`: drop every entry older than `storageDays` days, for one tank or for all. */
    method CleanupExpired(tankId: Option<string>, now: int)
      modifies this`tanksHistory
      ensures tanksHistory == Sweep(old(tanksHistory), tankId, Cutoff(now, storageDays))
    {
      var cutoff := Cutoff(now, storageDays);
      var todo := if Given(tankId) then {tankId.value} else tanksHistory.Keys;
      ghost var start := tanksHistory;
      ghost var done: set<string> := {};
      while todo != {}
        invariant tanksHistory == SweptOnly(start, done, cutoff)
        invariant forall k :: k in start ==> (Selected(tankId, k) <==> k in done || k in todo)
        invariant done !! todo
        decreases todo
      {
        var tid :| tid in todo;
        if tid in start {
          SweptOnlyStep(start, done, cutoff, tid);
        } else {
          SweptOnlyAbsent(start, done, cutoff, tid);
        }
        SweepTank(tid, cutoff);
        done := done + {tid};
        todo := todo - {tid};
      }
      SweptOnlyComplete(start, done, tankId, cutoff);
    }

    /** `update_tank_data`: store the record, append its history entry under the cap, and sweep that tank. */
    method UpdateTankData(tankId: string, record: Record, now: int) returns (r: Record)
      requires OrderMatches() && HistoriesCapped()
      modifies this`tanksData, this`order, this`tanksHistory
      ensures OrderMatches() && HistoriesCapped()
      ensures r == record
      ensures tanksData == old(tanksData)[tankId := record]
      ensures order == if tankId in old(tanksData) then old(order) else old(order) + [tankId]
      ensures tanksHistory ==
        HistoryAfterUpdate(old(tanksHistory), tankId, EntryOf(record), maxHistoryPoints, Cutoff(now, storageDays))
    {
      if tankId !in tanksData {
        order := order + [tankId];
      }
      tanksData := tanksData[tankId := record];
      var h := Prior(tanksHistory, tankId) + [EntryOf(record)];
      ghost var full := h;
      if |h| > maxHistoryPoints {
        h := TailSlice(h, maxHistoryPoints);
      }
      assert h == TailSlice(full, maxHistoryPoints);
      tanksHistory := tanksHistory[tankId := h];
      if maxHistoryPoints > 0 {
        SweepKeepsCap(tanksHistory, Some(tankId), Cutoff(now, storageDays), maxHistoryPoints);
      }
      CleanupExpired(Some(tankId), now);
      r := record;
    }

    /** `process_mqtt_message`: decode, find the tank id, parse and check, then update. */
    method ProcessMqttMessage(topic: string, payload: Option<Json>, now: int) returns (r: Option<Record>)
      requires Valid()
      modifies this`tanksData, this`order, this`tanksHistory, this`alerts, this`allAlerts
      ensures Valid()
      ensures r.None? <==> Ingest(topic, payload, now).None?
      ensures r.None? ==> tanksData == old(tanksData) && order == old(order) && tanksHistory == old(tanksHistory)
      ensures r.None? ==> alerts == old(alerts) && allAlerts == old(allAlerts)
      ensures r.Some? ==>
        var (id, rec) := Ingest(topic, payload, now).value;
        && r.value == Checked(rec, thresholds)
        && allAlerts == old(allAlerts) + RaisedBy(rec, thresholds, now)
        && tanksData == old(tanksData)[id := r.value]
        && order == (if id in old(tanksData) then old(order) else old(order) + [id])
        && tanksHistory ==
          HistoryAfterUpdate(old(tanksHistory), id, EntryOf(r.value), maxHistoryPoints, Cutoff(now, storageDays))
    {
      if payload.None? || !payload.value.JObj? {
        return None;
      }
      var m := payload.value.fields;
      var tankId := ExtractTankId(topic, m);
      if tankId.None? || tankId.value == "" {
        return None;
      }
      ghost var std := Standardize(tankId.value, m, now);
      var parsed := ParseTankData(tankId.value, m, now);
      if !parsed.Parsed? {
        assert Ingest(topic, payload, now).None?;
        return None;
      }
      assert Ingest(topic, payload, now) == Some((tankId.value, std.record));
      ghost var captured := alerts;
      var updated := UpdateTankData(tankId.value, parsed.record, now);
      assert alerts == captured;
      r := Some(updated);
    }

    /** `set_thresholds`: replace the given thresholds, then re-check every stored record in insertion order. */
    method SetThresholds(tempHigh: Option<real>, tempLow: Option<real>, levelHigh: Option<real>,
                         levelLow: Option<real>, error: Option<real>, now: int) returns (th: Thresholds)
      requires Valid()
      modifies this`thresholds, this`tanksData, this`alerts, this`allAlerts
      ensures Valid()
      ensures th == thresholds == Overridden(old(thresholds), tempHigh, tempLow, levelHigh, levelLow, error)
      ensures tanksData == RecheckedOnly(old(tanksData), order, th)
      ensures allAlerts == old(allAlerts) + RaisedAll(old(tanksData), order, th, now)
    {
      th := Overridden(thresholds, tempHigh, tempLow, levelHigh, levelLow, error);
      thresholds := th;
      RecheckStored(now);
    }

    /** `set_thresholds` re-checks every stored record, in insertion order, and keeps the order matched. */
    method RecheckStored(now: int)
      requires AlertsCapped() && OrderMatches()
      modifies this`tanksData, this`alerts, this`allAlerts
      ensures AlertsCapped() && OrderMatches()
      ensures tanksData == RecheckedOnly(old(tanksData), order, thresholds)
      ensures allAlerts == old(allAlerts) + RaisedAll(old(tanksData), order, thresholds, now)
    {
      ghost var start := tanksData;
      NewInPrefix(order);
      assert forall j :: 0 <= j < |order| ==> order[j] in start;
      RecheckAll(order, now);
      SameKeysKeepOrder(start, tanksData, order);
    }

    /** The loop of `set_thresholds`: `_check_alerts` on every stored record, in insertion order `keys`. */
    method RecheckAll(keys: seq<string>, now: int)
      requires AlertsCapped()
      requires forall i :: 0 <= i < |keys| ==> keys[i] in tanksData
      requires forall i :: 0 <= i < |keys| ==> NotBefore(keys, i)
      modifies this`tanksData, this`alerts, this`allAlerts
      ensures AlertsCapped()
      ensures tanksData == RecheckedOnly(old(tanksData), keys, thresholds)
      ensures allAlerts == old(allAlerts) + RaisedAll(old(tanksData), keys, thresholds, now)
    {
      ghost var start := tanksData;
      ghost var before := allAlerts;
      var i := 0;
      while i < |keys|
        invariant 0 <= i <= |keys|
        invariant forall j :: 0 <= j < |keys| ==> keys[j] in start
        invariant AlertsCapped()
        invariant tanksData == RecheckedOnly(start, keys[..i], thresholds)
        invariant allAlerts == before + RaisedAll(start, keys[..i], thresholds, now)
        decreases |keys| - i
      {
        RecheckOne(keys, i, now, start, before);
        i := i + 1;
      }
      assert keys[..i] == keys;
    }

    /**
     * One step of the re-check: `_check_alerts` on the record of `keys[i]`, updating it in
     * place. `start` and `before` are the records and alerts the loop began with; the
     * records of `keys[..i]` are already re-checked.
     */
    method RecheckOne(keys: seq<string>, i: nat, now: int, ghost start: map<string, Record>, ghost before: seq<Alert>)
      requires AlertsCapped()
      requires i < |keys| && NotBefore(keys, i)
      requires forall j :: 0 <= j < |keys| ==> keys[j] in start
      requires tanksData == RecheckedOnly(start, keys[..i], thresholds)
      requires allAlerts == before + RaisedAll(start, keys[..i], thresholds, now)
      modifies this`tanksData, this`alerts, this`allAlerts
      ensures AlertsCapped()
      ensures tanksData == RecheckedOnly(start, keys[..i + 1], thresholds)
      ensures allAlerts == before + RaisedAll(start, keys[..i + 1], thresholds, now)
    {
      var k := keys[i];
      ghost var record := start[k];
      ghost var data, raised := tanksData, allAlerts;
      RecheckStep(start, keys, i, thresholds, now, before);
      assert data[k] == record;
      var checked := CheckAlerts(tanksData[k], now);
      tanksData := tanksData[k := checked];
      assert tanksData == data[k := Checked(record, thresholds)];
      assert allAlerts == raised + RaisedBy(record, thresholds, now);
    }

    /** `clear_history`: empty one tank's history, or drop every history when no id (or "") is given. */
    method ClearHistory(tankId: Option<string>) returns (ok: bool)
      requires HistoriesCapped()
      modifies this`tanksHistory
      ensures HistoriesCapped()
      ensures ok
      ensures !Given(tankId) ==> tanksHistory == map[]
      ensures Given(tankId) ==>
        tanksHistory == if tankId.value in old(tanksHistory) then old(tanksHistory)[tankId.value := []] else old(tanksHistory)
    {
      if Given(tankId) {
        if tankId.value in tanksHistory {
          tanksHistory := tanksHistory[tankId.value := []];
        }
      } else {
        tanksHistory := map[];
      }
      ok := true;
    }

    /** `remove_tank`: forget the tank's record and history. */
    method RemoveTank(tankId: string) returns (ok: bool)
      requires OrderMatches() && HistoriesCapped()
      modifies this`tanksData, this`order, this`tanksHistory
      ensures OrderMatches() && HistoriesCapped()
      ensures ok
      ensures tanksData == old(tanksData) - {tankId} && tanksHistory == old(tanksHistory) - {tankId}
      ensures order == Filter(Other(tankId), old(order))
    {
      var kept := Filter(Other(tankId), order);
      forall k ensures k in kept <==> k in order && k != tankId {
        if k in order && k != tankId { FilterKeeps(Other(tankId), order, k); }
        if k in kept { FilterSound(Other(tankId), order, k); }
      }
      FilterDistinct(Other(tankId), order);
      tanksData := tanksData - {tankId};
      tanksHistory := tanksHistory - {tankId};
      order := kept;
      ok := true;
    }

    /** `set_storage_days`: a positive value is stored and swept with at once; anything else is refused. */
    method SetStorageDays(days: int, now: int) returns (r: int)
      requires HistoriesCapped()
      modifies this`storageDays, this`tanksHistory
      ensures HistoriesCapped()
      ensures days > 0 ==> r == days == storageDays && tanksHistory == Sweep(old(tanksHistory), None, Cutoff(now, days))
      ensures days <= 0 ==> r == storageDays == old(storageDays) && tanksHistory == old(tanksHistory)
    {
      if days > 0 {
        storageDays := days;
        CleanupExpired(None, now);
        return days;
      }
      return storageDays;
    }

    /** `set_max_history_points`: clamp the cap, then cut every history to its newest entries. */
    method SetMaxHistoryPoints(points: int) returns (r: int)
      requires HistoriesCapped()
      modifies this`maxHistoryPoints, this`tanksHistory
      ensures HistoriesCapped()
      ensures r == maxHistoryPoints == ClampPoints(points)
      ensures tanksHistory == CappedOnly(old(tanksHistory), old(tanksHistory).Keys, r)
    {
      var n: nat := ClampPoints(points);
      maxHistoryPoints := n;
      var todo := tanksHistory.Keys;
      ghost var start := tanksHistory;
      ghost var done: set<string> := {};
      while todo != {}
        invariant maxHistoryPoints == n
        invariant tanksHistory == CappedOnly(start, done, n)
        invariant done + todo == start.Keys && done !! todo
        decreases todo
      {
        var tid :| tid in todo;
        CappedOnlyStep(start, done, n, tid);
        CapTank(tid, n);
        done := done + {tid};
        todo := todo - {tid};
      }
      assert done == start.Keys;
      CappedAll(start, n);
      r := n;
    }

    /** One step of the cap: cut a history that is longer than n to its newest n entries. */
    method CapTank(tid: string, n: nat)
      requires tid in tanksHistory && n > 0
      modifies this`tanksHistory
      ensures tanksHistory == old(tanksHistory)[tid := LastN(old(tanksHistory)[tid], n)]
    {
      if |tanksHistory[tid]| > n {
        tanksHistory := tanksHistory[tid := TailSlice(tanksHistory[tid], n)];
      } else {
        assert tanksHistory == tanksHistory[tid := tanksHistory[tid]];
      }
    }

    /** `get_tank_data`: one tank's record (None for the empty dict) or, without an id, every record. */
    function GetTankData(tankId: Option<string>): (r: TankData)
      reads this`tanksData
      ensures r.One? <==> Given(tankId)
      ensures r.One? ==> (r.record.Some? <==> tankId.value in tanksData)
      ensures r.One? && r.record.Some? ==> r.record.value == tanksData[tankId.value]
      ensures r.All? ==> r.records == tanksData
    {
      if Given(tankId) then One(if tankId.value in tanksData then Some(tanksData[tankId.value]) else None)
      else All(tanksData)
    }

    /** `get_tank_history`: the stored entries in the window, newest `limit` of them; [] for an unknown tank. */
    function GetTankHistory(tankId: string, start: Option<int>, end: Option<int>, limit: Option<int>): (r: seq<HistoryEntry>)
      reads this`tanksHistory
      ensures tankId !in tanksHistory ==> r == []
      ensures forall e :: e in r ==> e in tanksHistory[tankId]
      ensures |r| <= |Prior(tanksHistory, tankId)|
    {
      if tankId !in tanksHistory then []
      else
        var h := tanksHistory[tankId];
        var w := Window(h, start, end, limit);
        forall e | e in w ensures e in h {
          if e in Window(h, start, end, None) {
            WindowExact(h, start, end, e);
          } else {
            WindowIsSuffix(h, start, end, limit, e);
          }
        }
        w
    }

    /** `get_alerts`: the stored alerts at or after `now - timeRange` minutes, for one tank if named, newest first. */
    method GetAlerts(tankId: Option<string>, timeRange: int, now: int) returns (r: seq<Alert>)
      ensures r == SelectAlerts(alerts, tankId, timeRange, now)
    {
      var cutoff := now - timeRange * 60;
      var filtered := [];
      var i := 0;
      ghost var p := RecentFor(cutoff, tankId);
      while i < |alerts|
        invariant 0 <= i <= |alerts|
        invariant filtered == Filter(p, alerts[..i])
      {
        var a := alerts[i];
        assert alerts[..i + 1] == alerts[..i] + [a];
        FilterSnoc(p, alerts[..i], a);
        if a.timestamp >= cutoff {
          if !Given(tankId) || a.tankId == tankId.value {
            filtered := filtered + [a];
          }
        }
        i := i + 1;
      }
      assert alerts[..i] == alerts;
      assert filtered == Filter(RecentFor(now - timeRange * 60, tankId), alerts);
      r := SortNewestFirst(filtered);
    }
  }

  function Other(id: string): string -> bool {
    k => k != id
  }

  /** Filtering a list without repetitions leaves one without repetitions. */
  lemma {:induction false} FilterDistinct<T>(p: T -> bool, s: seq<T>)
    requires forall i, j :: 0 <= i < j < |s| ==> s[i] != s[j]
    ensures var f := Filter(p, s); forall i, j :: 0 <= i < j < |f| ==> f[i] != f[j]
    decreases |s|
  {
    if s != [] {
      var init := s[..|s| - 1];
      FilterDistinct(p, init);
      var f := Filter(p, init);
      if p(s[|s| - 1]) {
        forall i | 0 <= i < |f| ensures f[i] != s[|s| - 1] {
          FilterSound(p, init, f[i]);
        }
      }
    }
  }

  /** The element at position i does not occur before it. */
  predicate NotBefore<T(==)>(s: seq<T>, i: nat)
    requires i < |s|
  {
    s[i] !in s[..i]
  }

  /** Replacing records without changing their keys keeps them matched with the insertion order. */
  lemma SameKeysKeepOrder<V>(data: map<string, V>, data2: map<string, V>, order: seq<string>)
    requires data2.Keys == data.Keys
    requires forall k :: k in data <==> k in order
    ensures forall k :: k in data2 <==> k in order
  {
  }

  /** In a list without repetitions no element occurs before its own position. */
  lemma NewInPrefix<T>(s: seq<T>)
    requires forall i, j :: 0 <= i < j < |s| ==> s[i] != s[j]
    ensures forall i :: 0 <= i < |s| ==> NotBefore(s, i)
  {
  }

  /** Every entry a limited window returns is in the unlimited window. */
  lemma WindowIsSuffix(h: seq<HistoryEntry>, start: Option<int>, end: Option<int>, limit: Option<int>, e: HistoryEntry)
    requires e in Window(h, start, end, limit)
    ensures e in Window(h, start, end, None)
  {
  }
}
