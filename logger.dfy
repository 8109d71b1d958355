/** logger/logger.py: a JSON logger with a level threshold and extra fields
    merged into every entry. Entries are returned instead of printed, and the
    timestamp is a parameter. */
module Logging {
  import opened Replies

  const Trace := 0
  const Debug := 1
  const Info := 2
  const Warning := 3
  const Error := 4

  const LevelNames: seq<string> := ["TRACE", "DEBUG", "INFO", "WARNING", "ERROR"]

  /** `__level_str`: an unknown level prints as INFO. */
  function LevelStr(level: int): (s: string)
    ensures s in LevelNames
    ensures Trace <= level <= Error ==> s == LevelNames[level]
    ensures !(Trace <= level <= Error) ==> s == "INFO"
  {
    if level == Trace then "TRACE"
    else if level == Debug then "DEBUG"
    else if level == Info then "INFO"
    else if level == Warning then "WARNING"
    else if level == Error then "ERROR"
    else "INFO"
  }

  /** `__level_int`: an unknown name is INFO. */
  function LevelInt(name: string): (n: int)
    ensures Trace <= n <= Error
    ensures name in LevelNames ==> LevelNames[n] == name
    ensures name !in LevelNames ==> n == Info
  {
    if name == "TRACE" then Trace
    else if name == "DEBUG" then Debug
    else if name == "INFO" then Info
    else if name == "WARNING" then Warning
    else if name == "ERROR" then Error
    else Info
  }

  /** The two mappings are inverse on the five levels. */
  lemma LevelRoundTrip(n: int, name: string)
    ensures Trace <= n <= Error ==> LevelInt(LevelStr(n)) == n
    ensures name in LevelNames ==> LevelStr(LevelInt(name)) == name
  {
  }

  /** `extra(key, value, map)`: a non-empty map is merged, its keys winning,
      and then key and value are ignored; otherwise the pair is set only when
      both are non-empty. */
  function Merged(data: map<string, string>, key: Option<string>, value: Option<string>,
                  m: Option<map<string, string>>): (r: map<string, string>)
    ensures m.Some? && m.value != map[] ==>
      r.Keys == data.Keys + m.value.Keys &&
      (forall k | k in m.value :: r[k] == m.value[k]) &&
      (forall k | k in data && k !in m.value :: r[k] == data[k])
    ensures !(m.Some? && m.value != map[]) && !(key.Some? && key.value != "" && value.Some? && value.value != "") ==>
      r == data
    ensures !(m.Some? && m.value != map[]) && key.Some? && key.value != "" && value.Some? && value.value != "" ==>
      r.Keys == data.Keys + {key.value} && r[key.value] == value.value &&
      (forall k | k in data && k != key.value :: r[k] == data[k])
  {
    if m.Some? && m.value != map[] then data + m.value
    else if key.Some? && key.value != "" && value.Some? && value.value != "" then data[key.value := value.value]
    else data
  }

  /** Merging the same extra data twice is the same as merging it once. */
  lemma MergedIdempotent(data: map<string, string>, key: Option<string>, value: Option<string>,
                         m: Option<map<string, string>>)
    ensures Merged(Merged(data, key, value, m), key, value, m) == Merged(data, key, value, m)
  {
  }

  class Logger {
    var level: int
    var extraData: map<string, string>

    ghost predicate Valid()
      reads this
    {
      Trace <= level <= Error
    }

    /** `Logger(level)`: the name is turned into its number, and there is no extra data. */
    constructor(name: string)
      ensures level == LevelInt(name) && extraData == map[]
      ensures Valid()
    {
      level := LevelInt(name);
      extraData := map[];
    }

    /** `new()`: a logger at the same level, built from the level's name, without the extra data. */
    method New() returns (l: Logger)
      requires Valid()
      ensures fresh(l) && l.Valid()
      ensures l.level == level && l.extraData == map[]
    {
      l := new Logger(LevelStr(level));
    }

    /** `extra(...)`: updates the extra data and returns the same logger. */
    method Extra(key: Option<string>, value: Option<string>, m: Option<map<string, string>>) returns (self: Logger)
      modifies this
      ensures self == this
      ensures extraData == Merged(old(extraData), key, value, m)
      ensures level == old(level)
    {
      extraData := Merged(extraData, key, value, m);
      self := this;
    }

    /** `__log`: nothing below the threshold; otherwise time, level name and
        message, overwritten by any extra field of the same name. */
    function Entry(at: int, msg: string, now: string): (e: Option<map<string, string>>)
      reads this
      ensures e.Some? <==> at >= level
      ensures e.Some? ==> e.value.Keys == {"time", "level", "message"} + extraData.Keys
      ensures e.Some? ==> forall k | k in extraData :: e.value[k] == extraData[k]
      ensures e.Some? && "message" !in extraData ==> e.value["message"] == msg
      ensures e.Some? && "level" !in extraData ==> e.value["level"] == LevelStr(at)
      ensures e.Some? && "time" !in extraData ==> e.value["time"] == now
    {
      if level > at then None
      else Some(map["time" := now, "level" := LevelStr(at), "message" := msg] + extraData)
    }
  }

  /** Raising the threshold only ever drops entries. */
  lemma ThresholdMonotone(low: Logger, high: Logger, at: int, msg: string, now: string)
    requires low.level <= high.level && low.extraData == high.extraData
    ensures high.Entry(at, msg, now).Some? ==> low.Entry(at, msg, now) == high.Entry(at, msg, now)
  {
  }
}
