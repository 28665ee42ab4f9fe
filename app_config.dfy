/**
 * The persisted configuration record: eight named fields with defaults,
 * read from and written to a flat key-value map (the JSON object of the
 * configuration file).
 *
 * Python does not check the types of dataclass fields, so every field
 * holds a dynamically typed `Value`. `FieldDescriptor(name)` stands for
 * the dataclass `Field` object that `from_dict` stores for a missing key.
 */
module AppConfig {

  datatype Value =
    | Str(s: string)
    | Num(r: real)
    | Int(i: int)
    | Bool(b: bool)
    | FieldDescriptor(name: string)

  datatype Config = Config(
    csvInput: Value,
    csvFolder: Value,
    csvLog: Value,
    deviceName: Value,
    ntToVolt: Value,
    interval: Value,
    voltageLimit: Value,
    logFlushInterval: Value)

  /** The field names. */
  const FieldSet: set<string> := {
    "csv_input", "csv_folder", "csv_log", "device_name",
    "nt_to_volt", "interval", "voltage_limit", "log_flush_interval"}

  /** `AppConfig()`: 1 V per 10000 nT, a 60 s interval, a 10 V limit, a flush every 10 rows. */
  const Default: Config := Config(
    Str("None"), Str("data"), Str("output_log.csv"), Str("Dev1"),
    Num(1.0 / 10000.0), Num(60.0), Num(10.0), Int(10))

  /** The attribute called `name`. */
  function Field(c: Config, name: string): Value
    requires name in FieldSet
  {
    if name == "csv_input" then c.csvInput
    else if name == "csv_folder" then c.csvFolder
    else if name == "csv_log" then c.csvLog
    else if name == "device_name" then c.deviceName
    else if name == "nt_to_volt" then c.ntToVolt
    else if name == "interval" then c.interval
    else if name == "voltage_limit" then c.voltageLimit
    else c.logFlushInterval
  }

  /** Two records with the same value under every field name are the same record. */
  lemma FieldsDetermineConfig(c: Config, d: Config)
    requires forall k :: k in FieldSet ==> Field(c, k) == Field(d, k)
    ensures c == d
  {
    assert Field(c, "csv_input") == Field(d, "csv_input");
    assert Field(c, "csv_folder") == Field(d, "csv_folder");
    assert Field(c, "csv_log") == Field(d, "csv_log");
    assert Field(c, "device_name") == Field(d, "device_name");
    assert Field(c, "nt_to_volt") == Field(d, "nt_to_volt");
    assert Field(c, "interval") == Field(d, "interval");
    assert Field(c, "voltage_limit") == Field(d, "voltage_limit");
    assert Field(c, "log_flush_interval") == Field(d, "log_flush_interval");
  }

  /** `to_dict`: the instance dictionary, one entry per field and no other key. */
  function ToDict(c: Config): (m: map<string, Value>)
    ensures m.Keys == FieldSet
    ensures forall k :: k in m ==> m[k] == Field(c, k)
  {
    map k | k in FieldSet :: Field(c, k)
  }

  /** What `config_dict.get(k, v)` yields for field `k` when `v` is the field's descriptor. */
  function GetOrDescriptor(m: map<string, Value>, k: string): Value {
    if k in m then m[k] else FieldDescriptor(k)
  }

  /**
   * `from_dict`: every field takes the map's value when the map has the
   * key; a missing key leaves the field holding its descriptor (the
   * dataclass field object), not its default.
   */
  function FromDict(m: map<string, Value>): (c: Config)
    ensures forall k :: k in FieldSet && k in m ==> Field(c, k) == m[k]
    ensures forall k :: k in FieldSet && k !in m ==> Field(c, k) == FieldDescriptor(k)
  {
    Config(
      GetOrDescriptor(m, "csv_input"), GetOrDescriptor(m, "csv_folder"),
      GetOrDescriptor(m, "csv_log"), GetOrDescriptor(m, "device_name"),
      GetOrDescriptor(m, "nt_to_volt"), GetOrDescriptor(m, "interval"),
      GetOrDescriptor(m, "voltage_limit"), GetOrDescriptor(m, "log_flush_interval"))
  }

  /** Writing a record out and reading it back gives the same record. */
  lemma FromDictToDict(c: Config)
    ensures FromDict(ToDict(c)) == c
  {
    FieldsDetermineConfig(FromDict(ToDict(c)), c);
  }

  /** A map that has every field name reads back, after a round trip, as itself without its unknown keys. */
  lemma ToDictFromDict(m: map<string, Value>)
    requires FieldSet <= m.Keys
    ensures ToDict(FromDict(m)) == map k | k in m && k in FieldSet :: m[k]
  {
  }

  /** Keys that are not field names have no effect on `from_dict`. */
  lemma FromDictIgnoresUnknownKeys(m: map<string, Value>, k: string, v: Value)
    requires k !in FieldSet
    ensures FromDict(m[k := v]) == FromDict(m)
  {
    FieldsDetermineConfig(FromDict(m[k := v]), FromDict(m));
  }

  /** As written, reading an empty map does not give the default record. */
  lemma FromDictEmptyIsNotDefault()
    ensures FromDict(map[]) != Default
  {
    assert FromDict(map[]).interval == FieldDescriptor("interval");
  }

  /** `config_dict.get(k, default)` with the field's default value. */
  function GetOrDefault(m: map<string, Value>, k: string): Value
    requires k in FieldSet
  {
    if k in m then m[k] else Field(Default, k)
  }

  /** `from_dict` as evidently intended: a missing key takes the field's default. */
  function FromDictOrDefault(m: map<string, Value>): (c: Config)
    ensures forall k :: k in FieldSet && k in m ==> Field(c, k) == m[k]
    ensures forall k :: k in FieldSet && k !in m ==> Field(c, k) == Field(Default, k)
  {
    Config(
      GetOrDefault(m, "csv_input"), GetOrDefault(m, "csv_folder"),
      GetOrDefault(m, "csv_log"), GetOrDefault(m, "device_name"),
      GetOrDefault(m, "nt_to_volt"), GetOrDefault(m, "interval"),
      GetOrDefault(m, "voltage_limit"), GetOrDefault(m, "log_flush_interval"))
  }

  /** With defaults for missing keys, an empty map reads as the default record... */
  lemma FromDictOrDefaultEmpty()
    ensures FromDictOrDefault(map[]) == Default
  {
    FieldsDetermineConfig(FromDictOrDefault(map[]), Default);
  }

  /** ...and a full map still round-trips. */
  lemma FromDictOrDefaultToDict(c: Config)
    ensures FromDictOrDefault(ToDict(c)) == c
  {
    FieldsDetermineConfig(FromDictOrDefault(ToDict(c)), c);
  }

  /** The numeric value of an `int` or `float` field. */
  function AsReal(v: Value): real
    requires v.Num? || v.Int?
  {
    if v.Num? then v.r else v.i as real
  }

  /** A record whose fields have the types the controller uses them at. */
  predicate WellTyped(c: Config) {
    && c.deviceName.Str?
    && (c.ntToVolt.Num? || c.ntToVolt.Int?)
    && (c.interval.Num? || c.interval.Int?)
    && c.logFlushInterval.Int?
  }
}
