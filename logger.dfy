/** The structured logger (backend/src/utils/logger.js): a level gate set once
    from the `LOG_LEVEL` environment variable and a record builder. The clock
    and the console are outside the model; the timestamp is a parameter. */
module Logger {
  import opened Values

  /** `levels[name]`, undefined for any other name. */
  function LevelValue(name: string): Option<nat>
  {
    if name == "debug" then Some(0)
    else if name == "info" then Some(1)
    else if name == "warn" then Some(2)
    else if name == "error" then Some(3)
    else None
  }

  /** `currentLevel` for the environment variable `env`: the named level when
      it names one and is not 0, otherwise `levels.info`. Because 0 is falsy,
      "debug" falls back to info too. */
  function CurrentLevel(env: Option<string>): (level: nat)
    ensures 1 <= level <= 3
  {
    var name := if Filled(env) then env.value else "info";
    var configured := LevelValue(name);
    if configured.Some? && configured.value != 0 then configured.value else 1
  }

  /** `shouldLog(level)`: `undefined >= n` is false, so unknown names never log. */
  predicate ShouldLog(level: string, env: Option<string>)
  {
    LevelValue(level).Some? && LevelValue(level).value >= CurrentLevel(env)
  }

  /** The threshold is info unless the variable says "warn" or "error". */
  lemma CurrentLevelCases(env: Option<string>)
    ensures CurrentLevel(env) == 3 <==> env == Some("error")
    ensures CurrentLevel(env) == 2 <==> env == Some("warn")
    ensures CurrentLevel(env) == 1 <==> env != Some("error") && env != Some("warn")
    ensures CurrentLevel(Some("debug")) == CurrentLevel(None) == 1
  {
  }

  /** `logger.debug` never writes, whatever the environment says. */
  lemma DebugNeverLogs(env: Option<string>)
    ensures !ShouldLog("debug", env)
  {
  }

  /** `logger.error` always writes: 3 is the highest threshold. */
  lemma ErrorAlwaysLogs(env: Option<string>)
    ensures ShouldLog("error", env)
  {
  }

  /** Logging is upward closed: a level that is logged drags every higher
      level along. */
  lemma LoggingIsUpwardClosed(lower: string, higher: string, env: Option<string>)
    requires ShouldLog(lower, env)
    requires LevelValue(higher).Some? && LevelValue(lower).value <= LevelValue(higher).value
    ensures ShouldLog(higher, env)
  {
  }

  /** `formatLog(level, message, data)` before `JSON.stringify`: the record
      has a `data` key only when `data` is truthy. */
  function FormatLog(timestamp: string, level: string, message: string, data: Option<Json>): (record: map<string, Json>)
    ensures record.Keys == {"timestamp", "level", "message"} + (if Truthy(data) then {"data"} else {})
    ensures record["level"] == JStr(level) && record["message"] == JStr(message)
    ensures "data" in record ==> Some(record["data"]) == data
  {
    var base := map["timestamp" := JStr(timestamp), "level" := JStr(level), "message" := JStr(message)];
    if Truthy(data) then base["data" := data.value] else base
  }

  /** `logger.debug/info/warn(message, data)`: the record written, if any. */
  function Log(level: string, message: string, data: Option<Json>, env: Option<string>, timestamp: string)
    : (line: Option<map<string, Json>>)
    ensures line.Some? <==> ShouldLog(level, env)
    ensures line.Some? ==> line.value == FormatLog(timestamp, level, message, data)
  {
    if ShouldLog(level, env) then Some(FormatLog(timestamp, level, message, data)) else None
  }

  /** The `{ error: err?.message, stack: err?.stack }` object; undefined
      members disappear when it is serialised. */
  function ErrorData(errMessage: Option<string>, errStack: Option<string>): (data: Json)
    ensures data.JObj? && data.fields.Keys <= {"error", "stack"}
  {
    var withMessage := if errMessage.Some? then map["error" := JStr(errMessage.value)] else map[];
    JObj(if errStack.Some? then withMessage["stack" := JStr(errStack.value)] else withMessage)
  }

  /** `logger.error(message, err)`: always written, and always with a `data`
      key, because the object is truthy even when the error is missing. */
  function LogError(message: string, errMessage: Option<string>, errStack: Option<string>,
                    env: Option<string>, timestamp: string): (line: Option<map<string, Json>>)
    ensures line.Some? && "data" in line.value && line.value["data"] == ErrorData(errMessage, errStack)
  {
    Log("error", message, Some(ErrorData(errMessage, errStack)), env, timestamp)
  }
}
