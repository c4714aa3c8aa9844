/**
 * The live tank table of the web front end: a fixed set of tanks with ids
 * 1..maxTanks, built once and then mutated in place by telemetry messages,
 * adjustment messages and the error-setting endpoint. Emits towards browser
 * clients are recorded in a ghost event log.
 */
module Tanks {
  import opened Json

  /** One row of the table. */
  datatype Tank = Tank(
    id: int,
    name: string,
    temperature: real,
    level: real,
    weight: real,
    height: real,
    highLimit: real,
    alarmShown: bool,
    error: real)

  /** What the table pushes to browser clients. */
  datatype Event =
    | Alarm(tankId: int, tankName: string, level: real, highLimit: real)
    | TankDataUpdate(snapshot: map<int, Tank>)
    | MqttMessage(topic: string, payload: Json)

  /** The table after an operation, with the events it emitted. */
  datatype Effect = Effect(tanks: map<int, Tank>, emitted: seq<Event>)

  /** The table after part of a batch; `aborted` means an exception ended the batch early. */
  datatype Batch = Batch(tanks: map<int, Tank>, emitted: seq<Event>, aborted: bool)

  /** The table after an adjustments list. */
  datatype Applied = Applied(tanks: map<int, Tank>, aborted: bool)

  const TankDataTopic := "tanks/data"
  const AdjustmentsTopic := "tanks/adjustments"

  function TankName(i: nat): string {
    NatToString(i) + "#沥青罐"
  }

  /** Two tables hold the same tanks with the same identity, height and error value. */
  ghost predicate SameIdentity(a: map<int, Tank>, b: map<int, Tank>) {
    && a.Keys == b.Keys
    && forall k :: k in a ==> SameTank(a[k], b[k])
  }

  /** Same id, name, height and error value. */
  ghost predicate SameTank(s: Tank, t: Tank) {
    t.id == s.id && t.name == s.name && t.height == s.height && t.error == s.error
  }

  /** Two tables differ at most in the `error` value of their tanks. */
  ghost predicate OnlyErrorsDiffer(a: map<int, Tank>, b: map<int, Tank>) {
    && a.Keys == b.Keys
    && forall k :: k in a ==> b[k] == a[k].(error := b[k].error)
  }

  // ---------------------------------------------------------------------------
  // Building the table
  // ---------------------------------------------------------------------------

  /** The initial table: ids 1..maxTanks, readings zero, limit at the threshold share of the height. */
  method InitializeTanks(maxTanks: nat, height: real, highPct: real) returns (tanks: map<int, Tank>)
    ensures (forall k :: k in tanks <==> 1 <= k <= maxTanks)
    ensures forall i :: 1 <= i <= maxTanks ==>
      && tanks[i].id == i && tanks[i].name == TankName(i)
      && tanks[i].temperature == 0.0 && tanks[i].level == 0.0 && tanks[i].weight == 0.0
      && tanks[i].height == height && tanks[i].highLimit == height * highPct
      && !tanks[i].alarmShown && tanks[i].error == 0.0
  {
    tanks := map[];
    var i := 1;
    while i <= maxTanks
      invariant 1 <= i <= maxTanks + 1
      invariant forall k :: k in tanks <==> 1 <= k < i
      invariant forall k :: 1 <= k < i ==>
        tanks[k] == Tank(k, TankName(k), 0.0, 0.0, 0.0, height, height * highPct, false, 0.0)
    {
      tanks := tanks[i := Tank(i, TankName(i), 0.0, 0.0, 0.0, height, height * highPct, false, 0.0)];
      i := i + 1;
    }
  }

  // ---------------------------------------------------------------------------
  // One tank: field merge and the high-level latch
  // ---------------------------------------------------------------------------

  /** The outcome of reading one numeric field from a message. */
  datatype FieldRead = Absent | Value(v: real) | Bad

  function ReadFloat(d: map<string, Json>, key: string): (r: FieldRead)
    ensures r.Absent? <==> key !in d
    ensures r.Value? <==> key in d && ToFloat(d[key]).Some?
  {
    if key !in d then Absent
    else match ToFloat(d[key])
      case Some(v) => Value(v)
      case None => Bad
  }

  /** `high_limit` wins over its legacy alias `levelHighLimit`. */
  function HighLimitRead(d: map<string, Json>): (r: FieldRead)
    ensures r.Absent? <==> "high_limit" !in d && "levelHighLimit" !in d
    ensures r.Value? ==>
      || ("high_limit" in d && ToFloat(d["high_limit"]) == Some(r.v))
      || ("high_limit" !in d && "levelHighLimit" in d && ToFloat(d["levelHighLimit"]) == Some(r.v))
  {
    if "high_limit" in d then ReadFloat(d, "high_limit") else ReadFloat(d, "levelHighLimit")
  }

  datatype TankField = Temperature | Level | Weight | HighLimit

  /** t differs from s at most in its readings and its high limit. */
  ghost predicate ReadingsOnly(s: Tank, t: Tank) {
    t.id == s.id && t.name == s.name && t.height == s.height && t.alarmShown == s.alarmShown && t.error == s.error
  }

  function SetField(t: Tank, f: TankField, v: real): (r: Tank)
    ensures ReadingsOnly(t, r)
  {
    match f
    case Temperature => t.(temperature := v)
    case Level => t.(level := v)
    case Weight => t.(weight := v)
    case HighLimit => t.(highLimit := v)
  }

  /** A tank being merged; `completed` turns false at the first failing coercion. */
  datatype Merge = Merge(tank: Tank, completed: bool)

  function Assign(m: Merge, r: FieldRead, f: TankField): (m': Merge)
    ensures ReadingsOnly(m.tank, m'.tank)
    ensures !m.completed || r.Bad? ==> m'.tank == m.tank
    ensures m'.completed <==> m.completed && !r.Bad?
  {
    if !m.completed then m
    else match r
      case Absent => m
      case Bad => Merge(m.tank, false)
      case Value(v) => Merge(SetField(m.tank, f, v), true)
  }

  /** The assignments of one message in source order: temperature, level, weight, limit. */
  function MergeFields(t: Tank, d: map<string, Json>): (m: Merge)
    ensures ReadingsOnly(t, m.tank)
    ensures m.completed <==>
      !ReadFloat(d, "temperature").Bad? && !ReadFloat(d, "level").Bad? && !ReadFloat(d, "weight").Bad? && !HighLimitRead(d).Bad?
    ensures m.completed ==>
      && m.tank.temperature == (if "temperature" in d then ToFloat(d["temperature"]).value else t.temperature)
      && m.tank.level == (if "level" in d then ToFloat(d["level"]).value else t.level)
      && m.tank.weight == (if "weight" in d then ToFloat(d["weight"]).value else t.weight)
  {
    var m1 := Assign(Merge(t, true), ReadFloat(d, "temperature"), Temperature);
    var m2 := Assign(m1, ReadFloat(d, "level"), Level);
    var m3 := Assign(m2, ReadFloat(d, "weight"), Weight);
    Assign(m3, HighLimitRead(d), HighLimit)
  }

  /** The reading a field of the tank holds. */
  function FieldOf(t: Tank, f: TankField): real {
    match f
    case Temperature => t.temperature
    case Level => t.level
    case Weight => t.weight
    case HighLimit => t.highLimit
  }

  /** The fields `process_tank_data` assigns, in source order. */
  const MergeOrder: seq<TankField> := [Temperature, Level, Weight, HighLimit]

  /** What the message offers for each field of MergeOrder. */
  function FieldReads(d: map<string, Json>): (rs: seq<FieldRead>)
    ensures |rs| == |MergeOrder|
  {
    [ReadFloat(d, "temperature"), ReadFloat(d, "level"), ReadFloat(d, "weight"), HighLimitRead(d)]
  }

  /** Position of the first failing read, or the length when none fails. */
  function FirstBad(rs: seq<FieldRead>): (n: nat)
    ensures n <= |rs|
    ensures n < |rs| ==> rs[n].Bad?
    ensures forall j :: 0 <= j < n ==> !rs[j].Bad?
  {
    if rs == [] then 0
    else if rs[0].Bad? then 0
    else 1 + FirstBad(rs[1..])
  }

  /** A merged tank's high limit comes from `high_limit`, else `levelHighLimit`, else stays. */
  lemma HighLimitPrecedence(t: Tank, d: map<string, Json>)
    requires MergeFields(t, d).completed
    ensures "high_limit" in d ==> MergeFields(t, d).tank.highLimit == ToFloat(d["high_limit"]).value
    ensures "high_limit" !in d && "levelHighLimit" in d ==>
      MergeFields(t, d).tank.highLimit == ToFloat(d["levelHighLimit"]).value
    ensures "high_limit" !in d && "levelHighLimit" !in d ==> MergeFields(t, d).tank.highLimit == t.highLimit
  {
  }

  /**
   * A merge stops at the first failing coercion: every field before it that the message
   * carries holds its new value, and every other field keeps the old one.
   */
  lemma MergeKeepsEarlierAssignments(t: Tank, d: map<string, Json>)
    ensures var rs := FieldReads(d);
      var n := FirstBad(rs);
      var m := MergeFields(t, d);
      && (m.completed <==> n == |rs|)
      && forall i :: 0 <= i < |MergeOrder| ==>
           FieldOf(m.tank, MergeOrder[i]) == if i < n && rs[i].Value? then rs[i].v else FieldOf(t, MergeOrder[i])
  {
    var rs := FieldReads(d);
    var n := FirstBad(rs);
    var m1 := Assign(Merge(t, true), rs[0], Temperature);
    var m2 := Assign(m1, rs[1], Level);
    var m3 := Assign(m2, rs[2], Weight);
    var m4 := Assign(m3, rs[3], HighLimit);
    assert MergeFields(t, d) == m4;
    assert MergeOrder == [Temperature, Level, Weight, HighLimit];
    if n == 0 {
      assert m4 == Merge(t, false);
    } else if n == 1 {
      assert m4 == Merge(m1.tank, false);
    } else if n == 2 {
      assert m4 == Merge(m2.tank, false);
    } else if n == 3 {
      assert m4 == Merge(m3.tank, false);
    }
  }

  /** The result of `check_alarm` on one tank. */
  datatype Latched = Latched(tank: Tank, emitted: seq<Event>)

  /** Edge-triggered latch: raise and emit on false-to-true, clear silently on true-to-false. */
  function Latch(id: int, t: Tank): (r: Latched)
    ensures r.tank == t.(alarmShown := t.level > t.highLimit)
    ensures r.emitted == if !t.alarmShown && t.level > t.highLimit
                         then [Alarm(id, t.name, t.level, t.highLimit)] else []
  {
    if t.level > t.highLimit && !t.alarmShown then
      Latched(t.(alarmShown := true), [Alarm(id, t.name, t.level, t.highLimit)])
    else if t.level <= t.highLimit && t.alarmShown then
      Latched(t.(alarmShown := false), [])
    else
      Latched(t, [])
  }

  /** The id a message addresses: `int(data.get('id', 0))`, None when that raises. */
  function TargetId(data: Json): (r: Option<int>)
    ensures r.Some? ==> data.JObj?
  {
    if data.JObj? then ToInt(Get(data.fields, "id", JInt(0))) else None
  }

  /** Merge, then latch only if every coercion succeeded. */
  function UpdateOne(id: int, t: Tank, d: map<string, Json>): (r: Latched)
    ensures r.tank.id == t.id && r.tank.name == t.name && r.tank.height == t.height && r.tank.error == t.error
    ensures |r.emitted| <= 1
  {
    var m := MergeFields(t, d);
    if m.completed then Latch(id, m.tank) else Latched(m.tank, [])
  }

  /** `process_tank_data`: only the addressed tank changes, and nothing at all for an unknown id. */
  function ProcessTank(tanks: map<int, Tank>, data: Json): (r: Effect)
    ensures TargetId(data).Some? && TargetId(data).value in tanks ==>
      var id := TargetId(data).value;
      id in r.tanks && r.tanks == tanks[id := r.tanks[id]] && SameTank(tanks[id], r.tanks[id])
    ensures (TargetId(data).None? || TargetId(data).value !in tanks) ==> r == Effect(tanks, [])
    ensures |r.emitted| <= 1
  {
    match TargetId(data)
    case Some(id) =>
      if id in tanks then
        var u := UpdateOne(id, tanks[id], data.fields);
        Effect(tanks[id := u.tank], u.emitted)
      else Effect(tanks, [])
    case None => Effect(tanks, [])
  }

  /** After a message whose coercions all succeed, the latch reflects `level > high_limit`. */
  lemma ProcessTankLatches(tanks: map<int, Tank>, data: Json)
    requires TargetId(data).Some? && TargetId(data).value in tanks
    requires MergeFields(tanks[TargetId(data).value], data.fields).completed
    ensures var id := TargetId(data).value;
      var t := ProcessTank(tanks, data).tanks[id];
      t.alarmShown == (t.level > t.highLimit)
  {
  }

  /** An alarm event is emitted exactly when the latch goes from false to true. */
  lemma AlarmOnRisingEdgeOnly(tanks: map<int, Tank>, data: Json)
    requires TargetId(data).Some? && TargetId(data).value in tanks
    ensures var id := TargetId(data).value;
      var before := tanks[id];
      var after := ProcessTank(tanks, data).tanks[id];
      |ProcessTank(tanks, data).emitted| == (if !before.alarmShown && after.alarmShown then 1 else 0)
  {
  }

  // ---------------------------------------------------------------------------
  // Batches: positional lists and lists of self-identified tanks
  // ---------------------------------------------------------------------------

  /** Keeping identity is transitive. */
  lemma SameIdentityTrans(a: map<int, Tank>, b: map<int, Tank>, c: map<int, Tank>)
    requires SameIdentity(a, b) && SameIdentity(b, c)
    ensures SameIdentity(a, c)
  {
  }

  /** `process_tank_data` never adds, removes or renames a tank. */
  lemma ProcessTankKeepsIdentity(tanks: map<int, Tank>, data: Json)
    ensures SameIdentity(tanks, ProcessTank(tanks, data).tanks)
  {
  }

  /** The positional element at 0-based index i, with its `id` overwritten to i + 1. */
  function WithId(fields: map<string, Json>, i: nat): Json {
    JObj(fields["id" := JInt(i + 1)])
  }

  /**
   * A list whose first element is an object without `id`: element i updates tank
   * i + 1; elements at index maxTanks and beyond are skipped; an element that is not
   * an object raises and ends the whole batch.
   */
  function Positional(tanks: map<int, Tank>, items: seq<Json>, base: nat, maxTanks: nat): (r: Batch)
    ensures r.tanks.Keys == tanks.Keys
    decreases |items|
  {
    if items == [] then Batch(tanks, [], false)
    else if !(1 <= base + 1 <= maxTanks) then Positional(tanks, items[1..], base + 1, maxTanks)
    else match items[0]
      case JObj(f) =>
        var e := ProcessTank(tanks, WithId(f, base));
        var rest := Positional(e.tanks, items[1..], base + 1, maxTanks);
        Batch(rest.tanks, e.emitted + rest.emitted, rest.aborted)
      case _ => Batch(tanks, [], true)
  }

  /** A positional batch never changes which tanks exist or their identity. */
  lemma {:induction false} PositionalKeepsIdentity(tanks: map<int, Tank>, items: seq<Json>, base: nat, maxTanks: nat)
    ensures SameIdentity(tanks, Positional(tanks, items, base, maxTanks).tanks)
    decreases |items|, 1
  {
    if items == [] || (1 <= base + 1 <= maxTanks && !items[0].JObj?) {
      assert Positional(tanks, items, base, maxTanks).tanks == tanks;
    } else if !(1 <= base + 1 <= maxTanks) {
      PositionalKeepsIdentity(tanks, items[1..], base + 1, maxTanks);
      assert Positional(tanks, items, base, maxTanks) == Positional(tanks, items[1..], base + 1, maxTanks);
    } else {
      PositionalObjectKeepsIdentity(tanks, items, base, maxTanks);
    }
  }

  /** An object at a table position updates at most its own tank, keeping that tank's identity. */
  lemma {:induction false} PositionalObjectKeepsIdentity(tanks: map<int, Tank>, items: seq<Json>, base: nat, maxTanks: nat)
    requires items != [] && 1 <= base + 1 <= maxTanks && items[0].JObj?
    ensures SameIdentity(tanks, Positional(tanks, items, base, maxTanks).tanks)
    decreases |items|, 0
  {
    var e := ProcessTank(tanks, WithId(items[0].fields, base));
    ProcessTankKeepsIdentity(tanks, WithId(items[0].fields, base));
    PositionalKeepsIdentity(e.tanks, items[1..], base + 1, maxTanks);
    var tail := Positional(e.tanks, items[1..], base + 1, maxTanks).tanks;
    SameIdentityTrans(tanks, e.tanks, tail);
    assert Positional(tanks, items, base, maxTanks).tanks == tail;
  }

  /** One step of the positional fold, read off a suffix of the list. */
  lemma PositionalUnfold(tanks: map<int, Tank>, items: seq<Json>, i: nat, maxTanks: nat)
    requires i < |items|
    ensures var r := Positional(tanks, items[i..], i, maxTanks);
      if !(1 <= i + 1 <= maxTanks) then r == Positional(tanks, items[i + 1..], i + 1, maxTanks)
      else if !items[i].JObj? then r == Batch(tanks, [], true)
      else
        var e := ProcessTank(tanks, WithId(items[i].fields, i));
        var rest := Positional(e.tanks, items[i + 1..], i + 1, maxTanks);
        r == Batch(rest.tanks, e.emitted + rest.emitted, rest.aborted)
  {
    assert items[i..][0] == items[i];
    assert items[i..][1..] == items[i + 1..];
  }

  /** Elements at positions maxTanks and beyond never matter. */
  lemma {:induction false} PositionalIgnoresTail(tanks: map<int, Tank>, items: seq<Json>, base: nat, maxTanks: nat)
    requires base <= maxTanks <= base + |items|
    ensures Positional(tanks, items, base, maxTanks) == Positional(tanks, items[..maxTanks - base], base, maxTanks)
    decreases |items|
  {
    if base < maxTanks {
      var short := items[..maxTanks - base];
      assert short[0] == items[0];
      match items[0]
      case JObj(f) =>
        var e := ProcessTank(tanks, WithId(f, base));
        assert short[1..] == items[1..][..maxTanks - (base + 1)];
        PositionalIgnoresTail(e.tanks, items[1..], base + 1, maxTanks);
        var tail := Positional(e.tanks, items[1..], base + 1, maxTanks);
        assert tail == Positional(e.tanks, short[1..], base + 1, maxTanks);
        assert Positional(tanks, items, base, maxTanks) == Batch(tail.tanks, e.emitted + tail.emitted, tail.aborted);
        assert Positional(tanks, short, base, maxTanks) == Batch(tail.tanks, e.emitted + tail.emitted, tail.aborted);
      case _ =>
        assert Positional(tanks, short, base, maxTanks) == Batch(tanks, [], true);
    } else {
      PositionalSkipsAll(tanks, items, base, maxTanks);
    }
  }

  /** Past the last table position nothing is processed. */
  lemma {:induction false} PositionalSkipsAll(tanks: map<int, Tank>, items: seq<Json>, base: nat, maxTanks: nat)
    requires maxTanks <= base
    ensures Positional(tanks, items, base, maxTanks) == Batch(tanks, [], false)
    decreases |items|
  {
    if items != [] {
      PositionalSkipsAll(tanks, items[1..], base + 1, maxTanks);
    }
  }

  /** Tanks outside the positions a positional batch covers are left as they were. */
  lemma {:induction false} PositionalUntouched(tanks: map<int, Tank>, items: seq<Json>, base: nat, maxTanks: nat, id: int)
    requires id in tanks && !(base < id <= base + |items| && id <= maxTanks)
    ensures id in Positional(tanks, items, base, maxTanks).tanks
    ensures Positional(tanks, items, base, maxTanks).tanks[id] == tanks[id]
    decreases |items|
  {
    if items != [] && 1 <= base + 1 <= maxTanks && items[0].JObj? {
      var e := ProcessTank(tanks, WithId(items[0].fields, base));
      assert TargetId(WithId(items[0].fields, base)) == Some(base + 1);
      PositionalUntouched(e.tanks, items[1..], base + 1, maxTanks, id);
    } else if items != [] && !(1 <= base + 1 <= maxTanks) {
      PositionalUntouched(tanks, items[1..], base + 1, maxTanks, id);
    }
  }

  /** The first element of a batch that did not abort is an object, and it updates tank `base + 1` if there is one. */
  lemma PositionalHead(tanks: map<int, Tank>, items: seq<Json>, base: nat, maxTanks: nat)
    requires !Positional(tanks, items, base, maxTanks).aborted
    requires items != [] && base + 1 <= maxTanks
    ensures items[0].JObj?
    ensures var e := ProcessTank(tanks, WithId(items[0].fields, base));
      var rest := Positional(e.tanks, items[1..], base + 1, maxTanks);
      && e.tanks == (if base + 1 in tanks
                     then tanks[base + 1 := UpdateOne(base + 1, tanks[base + 1], items[0].fields["id" := JInt(base + 1)]).tank]
                     else tanks)
      && Positional(tanks, items, base, maxTanks).tanks == rest.tanks
      && !rest.aborted
  {
    assert items[0].JObj?;
    assert TargetId(WithId(items[0].fields, base)) == Some(base + 1);
  }

  /** Tank `base + 1` is what the first element of a batch that did not abort makes of it. */
  lemma PositionalUpdatesFirst(tanks: map<int, Tank>, items: seq<Json>, base: nat, maxTanks: nat, id: int, item: Json)
    requires !Positional(tanks, items, base, maxTanks).aborted
    requires id == base + 1 && id <= base + |items| && id <= maxTanks && id in tanks
    requires item == items[id - base - 1]
    ensures item.JObj?
    ensures Positional(tanks, items, base, maxTanks).tanks[id] == UpdateOne(id, tanks[id], item.fields["id" := JInt(id)]).tank
  {
    PositionalHead(tanks, items, base, maxTanks);
    var e := ProcessTank(tanks, WithId(items[0].fields, base));
    PositionalUntouched(e.tanks, items[1..], base + 1, maxTanks, id);
    assert item == items[0];
  }

  /** Past the first element, a batch that did not abort treats tank `id` as its tail does. */
  lemma PositionalShift(tanks: map<int, Tank>, items: seq<Json>, base: nat, maxTanks: nat, id: int)
    returns (next: map<int, Tank>)
    requires !Positional(tanks, items, base, maxTanks).aborted
    requires base + 1 < id <= base + |items| && id <= maxTanks && id in tanks
    ensures id in next && next[id] == tanks[id]
    ensures items[1..][id - (base + 1) - 1] == items[id - base - 1]
    ensures Positional(tanks, items, base, maxTanks).tanks == Positional(next, items[1..], base + 1, maxTanks).tanks
    ensures !Positional(next, items[1..], base + 1, maxTanks).aborted
  {
    PositionalHead(tanks, items, base, maxTanks);
    next := ProcessTank(tanks, WithId(items[0].fields, base)).tanks;
  }

  /** Tank `id` is what `item`, the element at its position, makes of it, by induction on the list. */
  lemma {:induction false} PositionalUpdatesItem(tanks: map<int, Tank>, items: seq<Json>, base: nat, maxTanks: nat, id: int, item: Json)
    requires !Positional(tanks, items, base, maxTanks).aborted
    requires base < id <= base + |items| && id <= maxTanks && id in tanks
    requires item == items[id - base - 1]
    ensures item.JObj?
    ensures Positional(tanks, items, base, maxTanks).tanks[id] == UpdateOne(id, tanks[id], item.fields["id" := JInt(id)]).tank
    decreases |items|, 1
  {
    if id == base + 1 {
      PositionalUpdatesFirst(tanks, items, base, maxTanks, id, item);
    } else {
      PositionalUpdatesLater(tanks, items, base, maxTanks, id, item);
    }
  }

  /** The induction step: a tank past the first position is treated as the tail treats it. */
  lemma {:induction false} PositionalUpdatesLater(tanks: map<int, Tank>, items: seq<Json>, base: nat, maxTanks: nat, id: int, item: Json)
    requires !Positional(tanks, items, base, maxTanks).aborted
    requires base + 1 < id <= base + |items| && id <= maxTanks && id in tanks
    requires item == items[id - base - 1]
    ensures item.JObj?
    ensures Positional(tanks, items, base, maxTanks).tanks[id] == UpdateOne(id, tanks[id], item.fields["id" := JInt(id)]).tank
    decreases |items|, 0
  {
    var next := PositionalShift(tanks, items, base, maxTanks, id);
    var tail := Positional(next, items[1..], base + 1, maxTanks).tanks;
    PositionalUpdatesItem(next, items[1..], base + 1, maxTanks, id, item);
    assert tail[id] == UpdateOne(id, next[id], item.fields["id" := JInt(id)]).tank;
  }

  /** In a batch that did not abort, tank `id` is what element `id - base - 1` alone makes of it. */
  lemma PositionalUpdatesByIndex(tanks: map<int, Tank>, items: seq<Json>, base: nat, maxTanks: nat, id: int)
    requires !Positional(tanks, items, base, maxTanks).aborted
    requires base < id <= base + |items| && id <= maxTanks && id in tanks
    ensures items[id - base - 1].JObj?
    ensures Positional(tanks, items, base, maxTanks).tanks[id]
         == UpdateOne(id, tanks[id], items[id - base - 1].fields["id" := JInt(id)]).tank
  {
    PositionalUpdatesItem(tanks, items, base, maxTanks, id, items[id - base - 1]);
  }

  /** A non-object element inside the table's positions stops the batch: no later element is applied. */
  lemma {:induction false} PositionalStopsAtNonObject(tanks: map<int, Tank>, items: seq<Json>, base: nat, maxTanks: nat, j: nat)
    requires j < |items| && base + j + 1 <= maxTanks && !items[j].JObj?
    requires forall k :: 0 <= k < j ==> items[k].JObj?
    ensures var r := Positional(tanks, items, base, maxTanks);
      && r.aborted
      && forall id :: id in tanks && base + j < id ==> r.tanks[id] == tanks[id]
    decreases |items|
  {
    if j > 0 {
      var f := items[0].fields;
      var e := ProcessTank(tanks, WithId(f, base));
      assert TargetId(WithId(f, base)) == Some(base + 1);
      PositionalStopsAtNonObject(e.tanks, items[1..], base + 1, maxTanks, j - 1);
    }
  }

  /** A list processed element by element, each by its own `id`; a bad element is skipped. */
  function ById(tanks: map<int, Tank>, items: seq<Json>): (r: Effect)
    ensures r.tanks.Keys == tanks.Keys
    decreases |items|
  {
    if items == [] then Effect(tanks, [])
    else
      var e := ProcessTank(tanks, items[0]);
      var rest := ById(e.tanks, items[1..]);
      Effect(rest.tanks, e.emitted + rest.emitted)
  }

  /** A list of self-identified tanks never changes which tanks exist or their identity. */
  lemma {:induction false} ByIdKeepsIdentity(tanks: map<int, Tank>, items: seq<Json>)
    ensures SameIdentity(tanks, ById(tanks, items).tanks)
    decreases |items|
  {
    if items != [] {
      var e := ProcessTank(tanks, items[0]);
      ProcessTankKeepsIdentity(tanks, items[0]);
      ByIdKeepsIdentity(e.tanks, items[1..]);
      SameIdentityTrans(tanks, e.tanks, ById(e.tanks, items[1..]).tanks);
    }
  }

  /** One step of the by-id fold, read off a suffix of the list. */
  lemma ByIdUnfold(tanks: map<int, Tank>, items: seq<Json>, i: nat)
    requires i < |items|
    ensures var e := ProcessTank(tanks, items[i]);
      var rest := ById(e.tanks, items[i + 1..]);
      ById(tanks, items[i..]) == Effect(rest.tanks, e.emitted + rest.emitted)
  {
    assert items[i..][0] == items[i];
    assert items[i..][1..] == items[i + 1..];
  }

  /** Processing a list by id is processing its two halves one after the other. */
  lemma {:induction false} ByIdAppend(tanks: map<int, Tank>, a: seq<Json>, b: seq<Json>)
    ensures var first := ById(tanks, a);
      var second := ById(first.tanks, b);
      ById(tanks, a + b) == Effect(second.tanks, first.emitted + second.emitted)
    decreases |a|
  {
    if a != [] {
      var e := ProcessTank(tanks, a[0]);
      assert (a + b)[0] == a[0];
      assert (a + b)[1..] == a[1..] + b;
      ByIdAppend(e.tanks, a[1..], b);
      var first := ById(e.tanks, a[1..]);
      AppendAssoc(e.emitted, first.emitted, ById(first.tanks, b).emitted);
    } else {
      assert a + b == b;
    }
  }

  /** An element whose id cannot be read, or names no tank, does not disturb its siblings. */
  lemma ByIdSkipsBadElement(tanks: map<int, Tank>, a: seq<Json>, x: Json, b: seq<Json>)
    requires forall t: map<int, Tank> :: SameIdentity(tanks, t) ==> ProcessTank(t, x) == Effect(t, [])
    ensures ById(tanks, a + [x] + b) == ById(tanks, a + b)
  {
    var first := ById(tanks, a);
    ByIdKeepsIdentity(tanks, a);
    assert ProcessTank(first.tanks, x) == Effect(first.tanks, []);
    assert [x][1..] == [];
    assert ById(first.tanks, [x]) == Effect(first.tanks, []);
    ByIdAppend(tanks, a, [x]);
    var withX := ById(tanks, a + [x]);
    assert withX.tanks == first.tanks && withX.emitted == first.emitted;
    ByIdAppend(tanks, a + [x], b);
    ByIdAppend(tanks, a, b);
  }

  /** `update_tank_data`: classify the payload's shape, process it, then push the table. */
  function UpdateSpec(tanks: map<int, Tank>, data: Json, maxTanks: nat): (r: Effect)
    ensures r.tanks.Keys == tanks.Keys
    decreases data
  {
    match data
    case JObj(f) =>
      if "tanks" in f then
        var inner := UpdateSpec(tanks, f["tanks"], maxTanks);
        Effect(inner.tanks, inner.emitted + [TankDataUpdate(inner.tanks)])
      else
        var e := ProcessTank(tanks, data);
        Effect(e.tanks, e.emitted + [TankDataUpdate(e.tanks)])
    case JArr(items) =>
      if IsPositional(items) then
        var b := Positional(tanks, items, 0, maxTanks);
        Effect(b.tanks, b.emitted + if b.aborted then [] else [TankDataUpdate(b.tanks)])
      else
        var e := ById(tanks, items);
        Effect(e.tanks, e.emitted + [TankDataUpdate(e.tanks)])
    case _ => Effect(tanks, [TankDataUpdate(tanks)])
  }

  /** Whatever shape the payload has, `update_tank_data` never changes which tanks exist or their identity. */
  lemma {:induction false} UpdateSpecKeepsIdentity(tanks: map<int, Tank>, data: Json, maxTanks: nat)
    ensures SameIdentity(tanks, UpdateSpec(tanks, data, maxTanks).tanks)
    decreases data
  {
    match data
    case JObj(f) =>
      if "tanks" in f {
        UpdateSpecKeepsIdentity(tanks, f["tanks"], maxTanks);
      } else {
        ProcessTankKeepsIdentity(tanks, data);
      }
    case JArr(items) =>
      if IsPositional(items) {
        PositionalKeepsIdentity(tanks, items, 0, maxTanks);
      } else {
        ByIdKeepsIdentity(tanks, items);
      }
    case _ =>
  }

  /** A list is positional when its first element is an object without `id`. */
  predicate IsPositional(items: seq<Json>): (b: bool)
    ensures b ==> |items| > 0 && TargetId(items[0]) == Some(0)
  {
    |items| > 0 && items[0].JObj? && "id" !in items[0].fields
  }

  /** The table is pushed to clients after every update, unless a positional batch aborted. */
  lemma {:induction false} UpdatePushesTable(tanks: map<int, Tank>, data: Json, maxTanks: nat)
    requires !(data.JArr? && IsPositional(data.items) && Positional(tanks, data.items, 0, maxTanks).aborted)
    ensures var r := UpdateSpec(tanks, data, maxTanks);
      |r.emitted| > 0 && r.emitted[|r.emitted| - 1] == TankDataUpdate(r.tanks)
  {
  }

  // ---------------------------------------------------------------------------
  // Adjustments and the error endpoint
  // ---------------------------------------------------------------------------

  /** What `len(x)` and `enumerate(x)` see; None when `len` raises. A dict yields its keys, all strings. */
  function Iterated(j: Json): (r: Option<seq<Json>>)
    ensures r.None? <==> j.JNull? || j.JBool? || j.JInt? || j.JFloat?
    ensures j.JArr? ==> r == Some(j.items)
    ensures j.JStr? ==> |r.value| == |j.s|
    ensures j.JObj? ==> |r.value| == |j.fields.Keys|
  {
    match j
    case JArr(items) => Some(items)
    case JStr(s) => Some(seq(|s|, i requires 0 <= i < |s| => JStr([s[i]])))
    case JObj(f) => Some(seq(|f.Keys|, i => JStr("")))
    case _ => None
  }

  /** `float(adjustment.get('adjustmentFactor', 0))`; None when either step raises. */
  function AdjustmentFactor(item: Json): (r: Option<real>)
    ensures r.Some? ==> item.JObj?
    ensures item.JObj? && "adjustmentFactor" !in item.fields ==> r == Some(0.0)
  {
    if item.JObj? then ToFloat(Get(item.fields, "adjustmentFactor", JInt(0))) else None
  }

  /** Element i sets the error of tank base + i + 1; the first bad element inside the table's positions aborts. */
  function AdjustItems(tanks: map<int, Tank>, items: seq<Json>, base: nat, maxTanks: nat): (r: Applied)
    ensures r.tanks.Keys == tanks.Keys
    decreases |items|
  {
    if items == [] then Applied(tanks, false)
    else if !(1 <= base + 1 <= maxTanks) then AdjustItems(tanks, items[1..], base + 1, maxTanks)
    else match AdjustmentFactor(items[0])
      case None => Applied(tanks, true)
      case Some(v) =>
        var next := if base + 1 in tanks then tanks[base + 1 := tanks[base + 1].(error := v)] else tanks;
        AdjustItems(next, items[1..], base + 1, maxTanks)
  }

  lemma OnlyErrorsDifferTrans(a: map<int, Tank>, b: map<int, Tank>, c: map<int, Tank>)
    requires OnlyErrorsDiffer(a, b) && OnlyErrorsDiffer(b, c)
    ensures OnlyErrorsDiffer(a, c)
  {
  }

  /** An adjustments list changes nothing but the tanks' error values. */
  lemma {:induction false} AdjustItemsOnlyErrors(tanks: map<int, Tank>, items: seq<Json>, base: nat, maxTanks: nat)
    ensures OnlyErrorsDiffer(tanks, AdjustItems(tanks, items, base, maxTanks).tanks)
    decreases |items|
  {
    if items != [] {
      if !(1 <= base + 1 <= maxTanks) {
        AdjustItemsOnlyErrors(tanks, items[1..], base + 1, maxTanks);
      } else if AdjustmentFactor(items[0]).Some? {
        var v := AdjustmentFactor(items[0]).value;
        var next := if base + 1 in tanks then tanks[base + 1 := tanks[base + 1].(error := v)] else tanks;
        assert OnlyErrorsDiffer(tanks, next);
        AdjustItemsOnlyErrors(next, items[1..], base + 1, maxTanks);
        OnlyErrorsDifferTrans(tanks, next, AdjustItems(next, items[1..], base + 1, maxTanks).tanks);
      } else {
        assert AdjustItems(tanks, items, base, maxTanks).tanks == tanks;
      }
    } else {
      assert AdjustItems(tanks, items, base, maxTanks).tanks == tanks;
    }
  }

  /** A completed adjustments list sets tank i + 1's error to factor i and leaves every other tank alone. */
  lemma {:induction false} AdjustSetsByIndex(tanks: map<int, Tank>, items: seq<Json>, base: nat, maxTanks: nat)
    requires !AdjustItems(tanks, items, base, maxTanks).aborted
    ensures var r := AdjustItems(tanks, items, base, maxTanks).tanks;
      && (forall k :: 0 <= k < |items| && base + k + 1 <= maxTanks && base + k + 1 in tanks ==>
            AdjustmentFactor(items[k]).Some? && r[base + k + 1] == tanks[base + k + 1].(error := AdjustmentFactor(items[k]).value))
      && (forall id :: id in tanks && !(base < id <= base + |items| && id <= maxTanks) ==> r[id] == tanks[id])
    decreases |items|
  {
    if items != [] {
      var r := AdjustItems(tanks, items, base, maxTanks);
      if !(1 <= base + 1 <= maxTanks) {
        AdjustSkipsAll(tanks, items[1..], base + 1, maxTanks);
      } else {
        var v := AdjustmentFactor(items[0]).value;
        var next := if base + 1 in tanks then tanks[base + 1 := tanks[base + 1].(error := v)] else tanks;
        AdjustSetsByIndex(next, items[1..], base + 1, maxTanks);
        forall k | 0 <= k < |items| && base + k + 1 <= maxTanks && base + k + 1 in tanks
          ensures AdjustmentFactor(items[k]).Some? && r.tanks[base + k + 1] == tanks[base + k + 1].(error := AdjustmentFactor(items[k]).value)
        {
          if k > 0 {
            assert items[k] == items[1..][k - 1];
          }
        }
      }
    }
  }

  /** Past the last table position the adjustments list changes nothing. */
  lemma {:induction false} AdjustSkipsAll(tanks: map<int, Tank>, items: seq<Json>, base: nat, maxTanks: nat)
    requires maxTanks <= base
    ensures AdjustItems(tanks, items, base, maxTanks) == Applied(tanks, false)
    decreases |items|
  {
    if items != [] {
      AdjustSkipsAll(tanks, items[1..], base + 1, maxTanks);
    }
  }

  /** `update_tank_adjustments`: only `{"adjustments": [...]}` is acted on; the table is pushed unless an element raised. */
  function AdjustSpec(tanks: map<int, Tank>, data: Json, maxTanks: nat): (r: Effect)
    ensures !(data.JObj? && "adjustments" in data.fields) ==> r == Effect(tanks, [])
  {
    if data.JObj? && "adjustments" in data.fields then
      match Iterated(data.fields["adjustments"])
      case None => Effect(tanks, [])
      case Some(items) =>
        var a := AdjustItems(tanks, items, 0, maxTanks);
        Effect(a.tanks, if a.aborted then [] else [TankDataUpdate(a.tanks)])
    else Effect(tanks, [])
  }

  /** `update_tank_adjustments` changes nothing but the tanks' error values. */
  lemma AdjustSpecOnlyErrors(tanks: map<int, Tank>, data: Json, maxTanks: nat)
    ensures OnlyErrorsDiffer(tanks, AdjustSpec(tanks, data, maxTanks).tanks)
  {
    if data.JObj? && "adjustments" in data.fields {
      var it := Iterated(data.fields["adjustments"]);
      if it.Some? {
        AdjustItemsOnlyErrors(tanks, it.value, 0, maxTanks);
      }
    }
  }

  /** The stored error after `update_tank_error`: the requested value pulled into [-height, height]. */
  function ClampError(error: real, height: real): (r: real)
    ensures height >= 0.0 ==> r == (if error > height then height else if error < -height then -height else error)
    ensures height >= 0.0 ==> -height <= r <= height
  {
    if error > height || -error > height then (if error > 0.0 then height else -height) else error
  }

  /** A tank's error value, or 0.0 for an id the table does not hold. */
  function ErrorOrZero(tanks: map<int, Tank>, id: int): real {
    if id in tanks then tanks[id].error else 0.0
  }

  function AdjustmentEntry(factor: real): Json {
    JObj(map["adjustmentFactor" := JFloat(factor)])
  }

  /** The adjustments message `update_tank_error` publishes: one entry per table position, in id order. */
  function AdjustmentsMessage(tanks: map<int, Tank>, maxTanks: nat): (r: Json)
    ensures r.JObj? && r.fields.Keys == {"adjustments"} && r.fields["adjustments"].JArr?
    ensures |r.fields["adjustments"].items| == maxTanks
    ensures forall i :: 0 <= i < maxTanks ==>
      AdjustmentFactor(r.fields["adjustments"].items[i]) == Some(ErrorOrZero(tanks, i + 1))
  {
    JObj(map["adjustments" := JArr(seq(maxTanks, i => AdjustmentEntry(ErrorOrZero(tanks, i + 1))))])
  }

  /** Adjustment entries that repeat the table's own error values change nothing. */
  lemma {:induction false} AdjustSameErrors(tanks: map<int, Tank>, items: seq<Json>, base: nat, maxTanks: nat)
    requires forall k :: 0 <= k < |items| ==> items[k] == AdjustmentEntry(ErrorOrZero(tanks, base + k + 1))
    ensures AdjustItems(tanks, items, base, maxTanks) == Applied(tanks, false)
    decreases |items|
  {
    if items != [] {
      assert items[0] == AdjustmentEntry(ErrorOrZero(tanks, base + 1));
      if base + 1 in tanks {
        assert tanks[base + 1 := tanks[base + 1].(error := tanks[base + 1].error)] == tanks;
      }
      forall k | 0 <= k < |items[1..]|
        ensures items[1..][k] == AdjustmentEntry(ErrorOrZero(tanks, (base + 1) + k + 1))
      {
        assert items[1..][k] == items[k + 1];
      }
      AdjustSameErrors(tanks, items[1..], base + 1, maxTanks);
    }
  }

  /**
   * The adjustments message the error endpoint publishes, when it comes back on the
   * adjustments topic, leaves the table as it was and only pushes it to clients again.
   */
  lemma PublishedAdjustmentsRoundTrip(tanks: map<int, Tank>, maxTanks: nat)
    ensures AdjustSpec(tanks, AdjustmentsMessage(tanks, maxTanks), maxTanks) == Effect(tanks, [TankDataUpdate(tanks)])
  {
    var items := seq(maxTanks, i => AdjustmentEntry(ErrorOrZero(tanks, i + 1)));
    AdjustSameErrors(tanks, items, 0, maxTanks);
  }

  /** `on_mqtt_message` once the payload has decoded: dispatch on the topic, then echo the message. */
  function OnMessageSpec(tanks: map<int, Tank>, topic: string, data: Json, maxTanks: nat): (r: Effect)
    ensures topic != TankDataTopic && topic != AdjustmentsTopic ==> r == Effect(tanks, [MqttMessage(topic, data)])
  {
    var e :=
      if topic == TankDataTopic then
        UpdateSpec(tanks, if data.JObj? && "tanks" in data.fields then data.fields["tanks"] else data, maxTanks)
      else if topic == AdjustmentsTopic then AdjustSpec(tanks, data, maxTanks)
      else Effect(tanks, []);
    Effect(e.tanks, e.emitted + [MqttMessage(topic, data)])
  }

  /** A message on either known topic changes identity-preserving or error-only state. */
  lemma OnMessageKeepsTanks(tanks: map<int, Tank>, topic: string, data: Json, maxTanks: nat)
    ensures var r := OnMessageSpec(tanks, topic, data, maxTanks);
      SameIdentity(tanks, r.tanks) || OnlyErrorsDiffer(tanks, r.tanks)
  {
    if topic == TankDataTopic {
      UpdateSpecKeepsIdentity(tanks, if data.JObj? && "tanks" in data.fields then data.fields["tanks"] else data, maxTanks);
    } else if topic == AdjustmentsTopic {
      AdjustSpecOnlyErrors(tanks, data, maxTanks);
    } else {
      assert OnMessageSpec(tanks, topic, data, maxTanks).tanks == tanks;
    }
  }

  // ---------------------------------------------------------------------------
  // The table object
  // ---------------------------------------------------------------------------

  class TankTable {
    const maxTanks: nat
    var tanks: map<int, Tank>
    /** Everything emitted to browser clients, oldest first. */
    ghost var events: seq<Event>

    /** Ingestion never adds or removes tanks, and each tank keeps its id. */
    ghost predicate Valid()
      reads this
    {
      && (forall k :: k in tanks <==> 1 <= k <= maxTanks)
      && forall k :: k in tanks ==> tanks[k].id == k
    }

    constructor (maxTanks: nat, defaultHeight: real, highPct: real)
      ensures Valid()
      ensures this.maxTanks == maxTanks && events == []
      ensures forall i :: 1 <= i <= maxTanks ==>
        tanks[i] == Tank(i, TankName(i), 0.0, 0.0, 0.0, defaultHeight, defaultHeight * highPct, false, 0.0)
    {
      this.maxTanks := maxTanks;
      var t := InitializeTanks(maxTanks, defaultHeight, highPct);
      tanks := t;
      events := [];
    }

    /** `check_alarm(tank_id)`. */
    method CheckAlarm(id: int)
      modifies this
      ensures id in old(tanks) ==> tanks == old(tanks)[id := Latch(id, old(tanks)[id]).tank]
      ensures id in old(tanks) ==> events == old(events) + Latch(id, old(tanks)[id]).emitted
      ensures id !in old(tanks) ==> tanks == old(tanks) && events == old(events)
    {
      if id in tanks {
        var tank := tanks[id];
        if tank.level > tank.highLimit && !tank.alarmShown {
          tanks := tanks[id := tank.(alarmShown := true)];
          events := events + [Alarm(id, tank.name, tank.level, tank.highLimit)];
        } else if tank.level <= tank.highLimit && tank.alarmShown {
          tanks := tanks[id := tank.(alarmShown := false)];
        }
      }
    }

    /** One guarded assignment of `process_tank_data`: store the coerced value; false when coercion raised. */
    method SetReading(id: int, r: FieldRead, f: TankField) returns (ok: bool)
      requires id in tanks
      modifies this
      ensures ok == !r.Bad?
      ensures tanks == old(tanks)[id := Assign(Merge(old(tanks)[id], true), r, f).tank]
      ensures events == old(events)
    {
      match r
      case Absent => ok := true;
      case Bad => ok := false;
      case Value(v) =>
        tanks := tanks[id := SetField(tanks[id], f, v)];
        ok := true;
    }

    /** `process_tank_data(data)`: every failure is caught here and ends this one tank's update. */
    method ProcessTankData(data: Json)
      requires Valid()
      modifies this
      ensures Valid()
      ensures tanks == ProcessTank(old(tanks), data).tanks
      ensures events == old(events) + ProcessTank(old(tanks), data).emitted
    {
      if !data.JObj? { return; }
      var d := data.fields;
      var parsed := ToInt(Get(d, "id", JInt(0)));
      if parsed.None? { return; }
      var id := parsed.value;
      if id !in tanks { return; }
      ghost var start := tanks[id];
      ghost var merged := MergeFields(start, d);
      var ok := MergeReadings(id, d);
      if !ok {
        assert ProcessTank(old(tanks), data) == Effect(old(tanks)[id := merged.tank], []);
        return;
      }
      ghost var latched := Latch(id, merged.tank);
      assert ProcessTank(old(tanks), data) == Effect(old(tanks)[id := latched.tank], latched.emitted);
      CheckAlarm(id);
      assert tanks == old(tanks)[id := latched.tank];
    }

    /** The four guarded assignments of `process_tank_data`, in source order; false once one raised. */
    method MergeReadings(id: int, d: map<string, Json>) returns (ok: bool)
      requires id in tanks
      modifies this
      ensures ok == MergeFields(old(tanks)[id], d).completed
      ensures tanks == old(tanks)[id := MergeFields(old(tanks)[id], d).tank]
      ensures events == old(events)
    {
      ghost var m1 := Assign(Merge(tanks[id], true), ReadFloat(d, "temperature"), Temperature);
      ghost var m2 := Assign(m1, ReadFloat(d, "level"), Level);
      ghost var m3 := Assign(m2, ReadFloat(d, "weight"), Weight);
      ghost var m4 := Assign(m3, HighLimitRead(d), HighLimit);
      assert m4 == MergeFields(old(tanks)[id], d);
      ok := SetReading(id, ReadFloat(d, "temperature"), Temperature);
      if !ok { return; }
      assert tanks == old(tanks)[id := m1.tank];
      ok := SetReading(id, ReadFloat(d, "level"), Level);
      if !ok { return; }
      assert tanks == old(tanks)[id := m2.tank];
      ok := SetReading(id, ReadFloat(d, "weight"), Weight);
      if !ok { return; }
      assert tanks == old(tanks)[id := m3.tank];
      ok := SetReading(id, HighLimitRead(d), HighLimit);
    }

    /** `update_tank_data(data)`. */
    method UpdateTankData(data: Json)
      requires Valid()
      modifies this
      ensures Valid()
      ensures tanks == UpdateSpec(old(tanks), data, maxTanks).tanks
      ensures events == old(events) + UpdateSpec(old(tanks), data, maxTanks).emitted
      decreases data
    {
      match data
      case JObj(f) =>
        if "tanks" in f {
          UpdateTankData(f["tanks"]);
        } else {
          ProcessTankData(data);
        }
        events := events + [TankDataUpdate(tanks)];
      case JArr(items) =>
        if IsPositional(items) {
          var aborted := ProcessPositional(items);
          if aborted { return; }
        } else {
          ProcessEach(items);
        }
        events := events + [TankDataUpdate(tanks)];
      case _ =>
        events := events + [TankDataUpdate(tanks)];
    }

    /** The positional branch of `update_tank_data`: element i is tank i + 1; true when an element raised. */
    method ProcessPositional(items: seq<Json>) returns (aborted: bool)
      requires Valid()
      modifies this
      ensures Valid()
      ensures tanks == Positional(old(tanks), items, 0, maxTanks).tanks
      ensures aborted == Positional(old(tanks), items, 0, maxTanks).aborted
      ensures events == old(events) + Positional(old(tanks), items, 0, maxTanks).emitted
    {
      ghost var goal := Positional(old(tanks), items, 0, maxTanks);
      ghost var rest := goal;
      ghost var done: seq<Event> := [];
      var i := 0;
      while i < |items|
        invariant 0 <= i <= |items|
        invariant Valid()
        invariant rest == Positional(tanks, items[i..], i, maxTanks)
        invariant goal == Batch(rest.tanks, done + rest.emitted, rest.aborted)
        invariant events == old(events) + done
      {
        PositionalUnfold(tanks, items, i, maxTanks);
        if 1 <= i + 1 <= maxTanks {
          if !items[i].JObj? {
            assert done + [] == done;
            return true;
          }
          ghost var e := ProcessTank(tanks, WithId(items[i].fields, i));
          ProcessTankData(WithId(items[i].fields, i));
          rest := Positional(tanks, items[i + 1..], i + 1, maxTanks);
          AppendAssoc(done, e.emitted, rest.emitted);
          done := done + e.emitted;
        } else {
          rest := Positional(tanks, items[i + 1..], i + 1, maxTanks);
        }
        i := i + 1;
      }
      assert items[i..] == [];
      assert done + [] == done;
      return false;
    }

    /** The by-id branch of `update_tank_data`: every element names its own tank. */
    method ProcessEach(items: seq<Json>)
      requires Valid()
      modifies this
      ensures Valid()
      ensures tanks == ById(old(tanks), items).tanks
      ensures events == old(events) + ById(old(tanks), items).emitted
    {
      ghost var goal := ById(old(tanks), items);
      ghost var done: seq<Event> := [];
      var i := 0;
      while i < |items|
        invariant 0 <= i <= |items|
        invariant Valid()
        invariant ById(tanks, items[i..]).tanks == goal.tanks
        invariant events == old(events) + done
        invariant done + ById(tanks, items[i..]).emitted == goal.emitted
      {
        ByIdUnfold(tanks, items, i);
        ghost var e := ProcessTank(tanks, items[i]);
        ghost var rest := ById(e.tanks, items[i + 1..]);
        ProcessTankData(items[i]);
        AppendAssoc(done, e.emitted, rest.emitted);
        AppendAssoc(old(events), done, e.emitted);
        done := done + e.emitted;
        i := i + 1;
      }
      assert items[i..] == [];
    }

    /** `update_tank_adjustments(data)`. */
    method UpdateTankAdjustments(data: Json)
      requires Valid()
      modifies this
      ensures Valid()
      ensures tanks == AdjustSpec(old(tanks), data, maxTanks).tanks
      ensures events == old(events) + AdjustSpec(old(tanks), data, maxTanks).emitted
    {
      if data.JObj? && "adjustments" in data.fields {
        var seen := Iterated(data.fields["adjustments"]);
        if seen.None? { return; }
        var items := seen.value;
        var i := 0;
        while i < |items|
          invariant 0 <= i <= |items|
          invariant OnlyErrorsDiffer(old(tanks), tanks)
          invariant AdjustItems(tanks, items[i..], i, maxTanks) == AdjustItems(old(tanks), items, 0, maxTanks)
          invariant events == old(events)
        {
          assert items[i..][1..] == items[i + 1..];
          var id := i + 1;
          if 1 <= id <= maxTanks {
            var factor := AdjustmentFactor(items[i]);
            if factor.None? { return; }
            if id in tanks {
              tanks := tanks[id := tanks[id].(error := factor.value)];
            }
          }
          i := i + 1;
        }
        events := events + [TankDataUpdate(tanks)];
      }
    }

    /**
     * `update_tank_error(tank_id)`: returns the HTTP status and, when the MQTT link is up,
     * the adjustments message it publishes with every tank's error value.
     */
    method UpdateTankError(tankId: int, body: Json, mqttOnline: bool) returns (status: int, published: Option<Json>)
      requires Valid()
      modifies this
      ensures Valid() && events == old(events)
      ensures var req := if body.JObj? then ToFloat(Get(body.fields, "error", JInt(0))) else None;
        && (req.None? ==> status == 500 && tanks == old(tanks) && published.None?)
        && (req.Some? && tankId !in old(tanks) ==> status == 404 && tanks == old(tanks) && published.None?)
        && (req.Some? && tankId in old(tanks) ==>
              && status == 200
              && tanks == old(tanks)[tankId := old(tanks)[tankId].(error := ClampError(req.value, old(tanks)[tankId].height))]
              && (published.Some? <==> mqttOnline))
      ensures published.Some? ==> published.value == AdjustmentsMessage(tanks, maxTanks)
    {
      published := None;
      if !body.JObj? { return 500, None; }
      var requested := ToFloat(Get(body.fields, "error", JInt(0)));
      if requested.None? { return 500, None; }
      if tankId !in tanks { return 404, None; }
      var height := tanks[tankId].height;
      var error := requested.value;
      if error > height || -error > height {
        error := if error > 0.0 then height else -height;
      }
      tanks := tanks[tankId := tanks[tankId].(error := error)];
      if mqttOnline {
        var message := AdjustmentsToPublish();
        published := Some(message);
      }
      status := 200;
    }

    /** The body `update_tank_error` publishes: `adjustmentFactor` of tanks 1..MAX_TANKS, 0.0 where a tank is missing. */
    method AdjustmentsToPublish() returns (message: Json)
      ensures message == AdjustmentsMessage(tanks, maxTanks)
    {
      var table := tanks;
      var entries: seq<Json> := [];
      var i := 1;
      while i <= maxTanks
        invariant 1 <= i <= maxTanks + 1
        invariant |entries| == i - 1
        invariant forall k :: 0 <= k < i - 1 ==> entries[k] == AdjustmentEntry(ErrorOrZero(table, k + 1))
      {
        entries := entries + [AdjustmentEntry(if i in table then table[i].error else 0.0)];
        i := i + 1;
      }
      assert entries == seq(maxTanks, k => AdjustmentEntry(ErrorOrZero(table, k + 1)));
      message := JObj(map["adjustments" := JArr(entries)]);
    }

    /** `on_mqtt_message`: `decoded` is None when the payload is not UTF-8 JSON, which is logged and dropped. */
    method OnMqttMessage(topic: string, decoded: Option<Json>)
      requires Valid()
      modifies this
      ensures Valid()
      ensures decoded.None? ==> tanks == old(tanks) && events == old(events)
      ensures decoded.Some? ==> tanks == OnMessageSpec(old(tanks), topic, decoded.value, maxTanks).tanks
      ensures decoded.Some? ==> events == old(events) + OnMessageSpec(old(tanks), topic, decoded.value, maxTanks).emitted
    {
      if decoded.None? { return; }
      var data := decoded.value;
      if topic == TankDataTopic {
        if data.JObj? && "tanks" in data.fields {
          UpdateTankData(data.fields["tanks"]);
        } else {
          UpdateTankData(data);
        }
      } else if topic == AdjustmentsTopic {
        UpdateTankAdjustments(data);
      }
      events := events + [MqttMessage(topic, data)];
    }
  }
}
