/**
 * `write`: the record-to-wire transformation. A bunyan record becomes the
 * object that is serialised and handed to `send`. Both copies of the stream
 * build the same object; they differ in how a numeric level is looked up and
 * in how `@timestamp` is obtained.
 */
module Transform {
  import opened Wrappers
  import opened JsValues
  import opened Settings
  import Decimal

  /** What `write` throws before anything is sent. */
  datatype WriteError =
    | TypeError   // `rec.time.toISOString` is not a function (ES5 copy)
    | RangeError  // toISOString of an invalid or out-of-range date

  /** The level table of the src copy, a Map keyed by numbers. */
  const Levels: map<int, string> :=
    map[10 := "trace", 20 := "debug", 30 := "info", 40 := "warn", 50 := "error", 60 := "fatal"]

  /** The level table of the ES5 copy, a plain object keyed by property names. */
  const LevelsByKey: map<string, string> :=
    map["10" := "trace", "20" := "debug", "30" := "info", "40" := "warn", "50" := "error", "60" := "fatal"]

  /** The record fields that never pass through to the wire. */
  const Stripped: set<string> := {"time", "msg", "v", "level"}

  /** The fields the stream computes itself. */
  const ComputedFields: set<string> := {"@timestamp", "message", "tags", "source", "level"}

  /** `rec.k`: Undefined when the record has no such field. */
  function Field(rec: map<string, Value>, k: string): Value {
    if k in rec then rec[k] else Undefined
  }

  /**
   * src copy: `levels.has(level) ? levels.get(level) : level`. Map.has
   * compares without conversion, so only the numbers 10..60 are named.
   */
  function LevelName(level: Value): (r: Value)
    ensures r != level <==> level.Num? && level.n in Levels
    ensures r != level ==> r == Str(Levels[level.n])
  {
    if level.Num? && level.n in Levels then Str(Levels[level.n]) else level
  }

  /**
   * ES5 copy: `levels.hasOwnProperty(level) ? levels[level] : level`. The
   * level is converted to a property name first, so any value whose text is
   * one of "10".."60" is named.
   */
  function LevelNameEs5(level: Value): (r: Value)
    ensures r != level <==> Text(level).Some? && Text(level).value in LevelsByKey
    ensures r != level ==> r == Str(LevelsByKey[Text(level).value])
  {
    var key := Text(level);
    if key.Some? && key.value in LevelsByKey then
      assert level.Str? ==> level.s == key.value;
      Str(LevelsByKey[key.value])
    else level
  }

  /** The six bunyan levels get their names; 51 and names stay as they are. */
  lemma KnownLevels()
    ensures LevelName(Num(10)) == Str("trace") && LevelName(Num(20)) == Str("debug")
    ensures LevelName(Num(30)) == Str("info") && LevelName(Num(40)) == Str("warn")
    ensures LevelName(Num(50)) == Str("error") && LevelName(Num(60)) == Str("fatal")
    ensures LevelName(Num(51)) == Num(51) && LevelName(Str("debug")) == Str("debug")
  {
  }

  /** The ES5 table's keys are exactly the texts of the src table's numbers, with the same names. */
  lemma LevelKeysAreTexts()
    ensures forall m :: m in Levels ==> Decimal.IntText(m) in LevelsByKey && LevelsByKey[Decimal.IntText(m)] == Levels[m]
    ensures forall key :: key in LevelsByKey ==> exists m :: m in Levels && Decimal.IntText(m) == key
  {
    assert Decimal.IntText(10) == "10" && Decimal.IntText(20) == "20";
    assert Decimal.IntText(30) == "30" && Decimal.IntText(40) == "40";
    assert Decimal.IntText(50) == "50" && Decimal.IntText(60) == "60";
  }

  /** The two copies name exactly the same numbers. */
  lemma LevelCopiesAgreeOnNumbers(n: int)
    ensures LevelNameEs5(Num(n)) == LevelName(Num(n))
  {
    LevelKeysAreTexts();
    var key := Decimal.IntText(n);
    if key in LevelsByKey {
      var m :| m in Levels && Decimal.IntText(m) == key;
      Decimal.IntTextInjective(n, m);
    }
  }

  /** The ES5 copy also names a numeric string or a one-element array; the src copy does not. */
  lemma LevelCopiesDifferOnText()
    ensures LevelNameEs5(Str("10")) == Str("trace") && LevelName(Str("10")) == Str("10")
    ensures LevelNameEs5(Arr([Num(60)])) == Str("fatal") && LevelName(Arr([Num(60)])) == Arr([Num(60)])
  {
    assert Decimal.IntText(60) == "60";
  }

  /**
   * The base object: `@timestamp`, `message`, `tags`, `source`, `level`, and
   * `type` only when the configured type is a string.
   */
  function Base(c: Config, stamp: string, message: Value, level: Value): (b: map<string, Value>)
    ensures b.Keys == ComputedFields + (if c.wireType.Str? then {"type"} else {})
    ensures b["@timestamp"] == Str(stamp) && b["message"] == message && b["tags"] == c.tags
    ensures b["source"] == Str(c.server + "/" + c.application) && b["level"] == level
    ensures "type" in b ==> b["type"] == c.wireType
  {
    var b := map["@timestamp" := Str(stamp), "message" := message, "tags" := c.tags,
                 "source" := Str(c.server + "/" + c.application), "level" := level];
    if c.wireType.Str? then b["type" := c.wireType] else b
  }

  /** How the field names relate: only `level` is both computed and stripped. */
  lemma FieldNames()
    ensures "level" in ComputedFields && "level" in Stripped
    ensures "time" !in ComputedFields && "msg" !in ComputedFields && "v" !in ComputedFields
    ensures "type" !in Stripped && "pid" !in Stripped && "type" !in ComputedFields
    ensures "time" in Stripped && "msg" in Stripped && "v" in Stripped
    ensures "time" != "pid" && "msg" != "pid" && "v" != "pid" && "level" != "pid"
    ensures "time" != "type" && "msg" != "type" && "v" != "type"
  {
  }

  /**
   * `_.extend({}, msg, rec)` after `rec` lost `time`, `msg`, `v`, `level`
   * and had `pid` set: the record's fields over the base, the pid forced.
   */
  function Assemble(c: Config, rec: map<string, Value>, stamp: string, level: Value): (w: map<string, Value>)
    ensures var b := Base(c, stamp, Field(rec, "msg"), level);
            w.Keys == b.Keys + (rec.Keys - Stripped) + {"pid"}
    ensures "pid" in w && w["pid"] == c.pid
    ensures forall k :: k in rec && k !in Stripped && k != "pid" ==> k in w && w[k] == rec[k]
    ensures var b := Base(c, stamp, Field(rec, "msg"), level);
            forall k :: k in b && k !in rec && k != "pid" ==> k in w && w[k] == b[k]
    ensures "level" in w && w["level"] == level
    ensures "time" !in w && "msg" !in w && "v" !in w
  {
    FieldNames();
    var b := Base(c, stamp, Field(rec, "msg"), level);
    var rest := (rec - Stripped)["pid" := c.pid];
    assert "level" in b && "level" !in rest;
    assert "time" !in b && "msg" !in b && "v" !in b;
    assert "time" !in rest && "msg" !in rest && "v" !in rest;
    assert rest.Keys == (rec.Keys - Stripped) + {"pid"};
    assert (b + rest).Keys == b.Keys + rest.Keys;
    b + rest
  }

  /** `new Date(0).toISOString()`. */
  const EpochText: string := "1970-01-01T00:00:00.000Z"

  /**
   * `new Date(time).toISOString()` in the src copy. A missing (undefined)
   * time always makes an Invalid Date, whose `toISOString` throws; null is
   * the epoch. Any other value is converted and formatted by `isoOf`, which
   * yields nothing when the date is invalid.
   */
  function Timestamp(time: Value, isoOf: Value -> Option<string>): (stamp: Option<string>)
    ensures time.Undefined? ==> stamp == None
    ensures time.Null? ==> stamp == Some(EpochText)
    ensures !time.Undefined? && !time.Null? ==> stamp == isoOf(time)
  {
    match time
    case Undefined => None
    case Null => Some(EpochText)
    case _ => isoOf(time)
  }

  /**
   * src copy of `write` up to `send`: `@timestamp` is the ISO text of
   * `new Date(rec.time)`; `write` throws a RangeError when there is none.
   */
  function WireMessage(c: Config, rec: map<string, Value>, isoOf: Value -> Option<string>): (r: Result<map<string, Value>, WriteError>)
    ensures r.Failure? <==> Timestamp(Field(rec, "time"), isoOf).None?
    ensures r.Failure? ==> r.error == RangeError
    ensures r.Success? ==> r.value == Assemble(c, rec, Timestamp(Field(rec, "time"), isoOf).value, LevelName(Field(rec, "level")))
  {
    match Timestamp(Field(rec, "time"), isoOf)
    case None => Failure(RangeError)
    case Some(stamp) => Success(Assemble(c, rec, stamp, LevelName(Field(rec, "level"))))
  }

  /** In the src copy a record without `time` is never sent, whatever the date formatting does. */
  lemma MissingTimeFails(c: Config, rec: map<string, Value>, isoOf: Value -> Option<string>)
    requires "time" !in rec || rec["time"] == Undefined
    ensures WireMessage(c, rec, isoOf) == Failure(RangeError)
  {
  }

  /**
   * ES5 copy of `write` up to `send`: `rec.time.toISOString()` exists only
   * on a Date; on anything else, a missing `time` included, it throws.
   */
  function WireMessageEs5(c: Config, rec: map<string, Value>, isoOf: Value -> Option<string>): (r: Result<map<string, Value>, WriteError>)
    ensures !Field(rec, "time").Date? ==> r == Failure(TypeError)
    ensures Field(rec, "time").Date? ==> (r.Failure? <==> isoOf(rec["time"]).None?)
    ensures r.Success? ==> r.value == Assemble(c, rec, isoOf(rec["time"]).value, LevelNameEs5(Field(rec, "level")))
  {
    var time := Field(rec, "time");
    if !time.Date? then Failure(TypeError)
    else match isoOf(time)
      case None => Failure(RangeError)
      case Some(stamp) => Success(Assemble(c, rec, stamp, LevelNameEs5(Field(rec, "level"))))
  }

  /** The wire `pid` is the configured one, whatever pid the record carries. */
  lemma PidIsConfigured(c: Config, rec: map<string, Value>, isoOf: Value -> Option<string>)
    ensures WireMessage(c, rec, isoOf).Success? ==> WireMessage(c, rec, isoOf).value["pid"] == c.pid
    ensures WireMessageEs5(c, rec, isoOf).Success? ==> WireMessageEs5(c, rec, isoOf).value["pid"] == c.pid
  {
  }

  /**
   * When the record has no `type` field, the wire message has one exactly
   * when the configured type is a string, and then it is that string.
   */
  lemma TypeOnlyWhenString(c: Config, rec: map<string, Value>, stamp: string, level: Value)
    requires "type" !in rec
    ensures var w := Assemble(c, rec, stamp, level);
            ("type" in w <==> c.wireType.Str?) && ("type" in w ==> w["type"] == c.wireType)
  {
  }

  /**
   * Record fields win over the computed ones: a record that carries
   * `@timestamp`, `tags`, `source` or `message` sees its own value on the
   * wire, while `level` is always the resolved level of the record.
   */
  lemma RecordFieldsOverride(c: Config, rec: map<string, Value>, stamp: string, level: Value)
    ensures var w := Assemble(c, rec, stamp, level);
            forall k :: k in ComputedFields - {"level"} && k in rec ==> w[k] == rec[k]
    ensures var w := Assemble(c, rec, stamp, level);
            forall k :: k in ComputedFields - {"level"} && k !in rec ==> w[k] == Base(c, stamp, Field(rec, "msg"), level)[k]
    ensures Assemble(c, rec, stamp, level)["level"] == level
  {
  }
}
