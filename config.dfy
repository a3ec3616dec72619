/** `Config`: the application's single settings object, a mutable key/value map,
    and the storage keys derived from its prefix. */
module AppConfig {
  import opened Wrappers

  /** The values the settings hold: strings, numbers and booleans. */
  datatype Value = Text(s: string) | Number(n: int) | Flag(b: bool)

  /** The settings the constructor installs. */
  function InitialSettings(): (m: map<string, Value>)
    ensures "storagePrefix" in m && m["storagePrefix"] == Text("easyConsult_")
  {
    map[
      "appName" := Text("EasyConsult"),
      "version" := Text("1.0.0"),
      "storagePrefix" := Text("easyConsult_"),
      "dateFormat" := Text("dd/MM/yyyy"),
      "timeFormat" := Text("HH:mm"),
      "maxConsultasPerDay" := Number(20),
      "debugMode" := Flag(false)]
  }

  /** Decimal digits of a natural number, as `String(n)` writes them. */
  function NatToDecimal(n: nat): (r: string)
    ensures |r| >= 1
    ensures forall i :: 0 <= i < |r| ==> '0' <= r[i] <= '9'
  {
    var d := ['0' + (n % 10) as char];
    if n < 10 then d else NatToDecimal(n / 10) + d
  }

  /** Template-literal interpolation `${v}` of a setting (`undefined` when absent). */
  function Interpolate(v: Option<Value>): string {
    match v
    case None => "undefined"
    case Some(Text(s)) => s
    case Some(Number(n)) => if n < 0 then "-" + NatToDecimal(-n) else NatToDecimal(n)
    case Some(Flag(b)) => if b then "true" else "false"
  }

  /** `_config[key]` on a settings map. */
  function Lookup(settings: map<string, Value>, key: string): (r: Option<Value>)
    ensures r.Some? <==> key in settings
    ensures r.Some? ==> r.value == settings[key]
  {
    if key in settings then Some(settings[key]) else None
  }

  /** `${storagePrefix}${name}` on a settings map. */
  function StorageKeyOf(settings: map<string, Value>, name: string): (r: string)
    ensures |r| >= |name| && r[|r| - |name|..] == name
  {
    Interpolate(Lookup(settings, "storagePrefix")) + name
  }

  /** After `set(k, v)`, `get(k)` is `v` and every other key reads as before. */
  lemma LookupAfterSet(settings: map<string, Value>, k: string, v: Value, other: string)
    ensures Lookup(settings[k := v], k) == Some(v)
    ensures other != k ==> Lookup(settings[k := v], other) == Lookup(settings, other)
  {
  }

  /** Under one prefix, distinct entity names give distinct storage keys. */
  lemma {:induction false} StorageKeyInjective(settings: map<string, Value>, a: string, b: string)
    requires StorageKeyOf(settings, a) == StorageKeyOf(settings, b)
    ensures a == b
  {
    var p := Interpolate(Lookup(settings, "storagePrefix"));
    assert |a| == |b|;
    assert a == (p + a)[|p|..];
    assert b == (p + b)[|p|..];
  }

  /** With the initial prefix the patients' key is "easyConsult_pacientes". */
  lemma InitialPatientsKey()
    ensures StorageKeyOf(InitialSettings(), "pacientes") == "easyConsult_pacientes"
  {
  }

  /** `formatTime(time)`: `time || ''`. */
  function FormatTime(time: Option<string>): (r: string)
    ensures time.Some? ==> r == time.value
    ensures time.None? ==> r == ""
  {
    if time.Some? && time.value != "" then time.value else ""
  }

  class Config {
    var settings: map<string, Value>

    constructor ()
      ensures settings == InitialSettings()
    {
      settings := InitialSettings();
    }

    /** `get(key)`. */
    function Get(key: string): (r: Option<Value>)
      reads this
      ensures r.Some? <==> key in settings
      ensures r.Some? ==> r.value == settings[key]
    {
      Lookup(settings, key)
    }

    /** `set(key, value)`: the one key is overwritten and the object itself is
        returned, so calls chain. */
    method Set(key: string, value: Value) returns (self: Config)
      modifies this
      ensures settings == old(settings)[key := value]
      ensures Get(key) == Some(value)
      ensures forall k :: k != key ==> Get(k) == old(Get(k))
      ensures self == this
    {
      settings := settings[key := value];
      self := this;
    }

    /** `getStorageKey(name)`. */
    function GetStorageKey(name: string): (r: string)
      reads this
      ensures r == StorageKeyOf(settings, name)
    {
      Interpolate(Get("storagePrefix")) + name
    }
  }
}
