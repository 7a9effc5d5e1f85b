// The structured logger (src/vscsim/utils/logger.py): four named levels,
// a threshold fixed at construction, records {level, message, **extra},
// and the optional module-wide logger. What a logger writes to stdout is
// modelled as the list of records it has emitted; the text and JSON-line
// renderings are not modelled.

module Logging {
  import opened Common

  /** LOG_LEVELS.get(name): error 40, warning 30, info 20, debug 10. */
  function LevelValue(name: string): (r: Option<int>)
    ensures r.Some? <==> name in Severity
    ensures forall i :: 0 <= i < |Severity| && Severity[i] == name ==> r == Some(10 * (i + 1))
  {
    if name == "error" then Some(40)
    else if name == "warning" then Some(30)
    else if name == "info" then Some(20)
    else if name == "debug" then Some(10)
    else None
  }

  /** The level names from least to most severe. */
  const Severity: seq<string> := ["debug", "info", "warning", "error"]

  /** The filter of _should_log: a message passes a threshold exactly when
      its level is at least as severe as the threshold's level in the order
      debug < info < warning < error. */
  lemma PassesIffAsSevere(msgLevel: string, threshold: string)
    requires msgLevel in Severity && threshold in Severity
    ensures LevelValue(msgLevel).Some? && LevelValue(threshold).Some?
    ensures LevelValue(msgLevel).value >= LevelValue(threshold).value
            <==> exists i, j :: 0 <= j <= i < |Severity| && Severity[i] == msgLevel && Severity[j] == threshold
  {
    var s := Severity;
    var i :| 0 <= i < |s| && s[i] == msgLevel;
    var j :| 0 <= j < |s| && s[j] == threshold;
    assert forall k :: 0 <= k < |s| ==> LevelValue(s[k]) == Some(10 * (k + 1));
    assert forall k, l :: 0 <= k < |s| && 0 <= l < |s| && s[k] == s[l] ==> k == l;
  }

  /** The record of a message: "level" (lower-cased) and "message" first,
      then the extras via record.update(extra). */
  function Record(levelLc: string, message: string, extra: Dict<Value>): (r: Dict<Value>)
    ensures |r| >= 2 && r[0].0 == "level" && r[1].0 == "message"
  {
    PutAllKeysPrefix([("level", VStr(levelLc)), ("message", VStr(message))], extra);
    PutAll([("level", VStr(levelLc)), ("message", VStr(message))], extra)
  }

  /** A record holds the level and message given and every extra, with
      distinct keys, "level" and "message" first. The extras cannot hide
      the two fields: a keyword named like a parameter does not reach the
      dict (see Outcome). */
  lemma RecordFacts(levelLc: string, message: string, extra: Dict<Value>)
    requires Unique(extra) && !HasKey(extra, "level") && !HasKey(extra, "message")
    ensures var r := Record(levelLc, message, extra);
            && Unique(r) && |r| >= 2 && r[0].0 == "level" && r[1].0 == "message"
            && Get(r, "level") == Some(VStr(levelLc)) && Get(r, "message") == Some(VStr(message))
            && forall k :: HasKey(extra, k) ==> Get(r, k) == Get(extra, k)
  {
    var base: Dict<Value> := [("level", VStr(levelLc)), ("message", VStr(message))];
    assert Get(base, "level") == Some(VStr(levelLc));
    assert Get(base, "message") == Some(VStr(message)) by {
      assert IndexOf(base, "message") == 1;
    }
    PutAllFacts(base, extra);
    PutAllUnique(base, extra);
    PutAllKeysPrefix(base, extra);
    assert Keys(base) == ["level", "message"];
    var r := Record(levelLc, message, extra);
    assert Keys(r)[..2] == ["level", "message"];
    assert Keys(r)[0] == "level" && Keys(r)[1] == "message";
  }

  /** A keyword argument that Python binds to a declared parameter of the
      called function: passing it again in **extra raises TypeError before
      the body runs. */
  predicate Clashes(extra: Dict<Value>, parameters: set<string>)
  {
    exists k :: k in parameters && HasKey(extra, k)
  }

  /** The result of log(level, message, **extra) for any threshold: a
      keyword "self", "level" or "message" raises TypeError, an unknown level
      ValueError, whether or not the message would have been filtered. */
  function Outcome(level: string, extra: Dict<Value>): (r: Result<()>)
    ensures r.Err? ==> r.error == TypeError || r.error == ValueError
  {
    if Clashes(extra, {"self", "level", "message"}) then Err(TypeError)
    else if LevelValue(Lower(level)).None? then Err(ValueError)
    else Ok(())
  }

  /** The records log(level, message, **extra) emits at threshold value
      threshold: none on an error or below the threshold, else one. */
  function Emitted(threshold: int, level: string, message: string, extra: Dict<Value>): (out: seq<Dict<Value>>)
    ensures |out| <= 1
    ensures out != [] ==> Outcome(level, extra).Ok?
  {
    if Outcome(level, extra).Err? then []
    else if LevelValue(Lower(level)).value >= threshold then [Record(Lower(level), message, extra)]
    else []
  }

  /** Case does not matter for the level check: "INFO" is accepted or
      rejected exactly like "info". */
  lemma LevelCaseInsensitive(extra: Dict<Value>)
    ensures Outcome("INFO", extra) == Outcome("info", extra)
  {
    LowerIdempotent("INFO");
    assert Lower("INFO") == "info" by {
      assert Lower("INFO")[0] == 'i' && Lower("INFO")[1] == 'n' && Lower("INFO")[2] == 'f' && Lower("INFO")[3] == 'o';
    }
  }

  /** Case does not matter for emission either: "Error" emits what "error"
      emits, and the record carries the lower-cased name. */
  lemma EmittedCaseInsensitive(threshold: int, message: string, extra: Dict<Value>)
    ensures Emitted(threshold, "Error", message, extra) == Emitted(threshold, "error", message, extra)
  {
    LowerIdempotent("Error");
    assert Lower("Error") == "error" by {
      assert Lower("Error")[0] == 'e';
      assert forall i :: 1 <= i < 5 ==> Lower("Error")[i] == "Error"[i];
    }
  }

  /** An error message is emitted at every threshold. */
  lemma ErrorAlwaysEmitted(threshold: string, message: string, extra: Dict<Value>)
    requires LevelValue(threshold).Some? && !Clashes(extra, {"self", "level", "message"})
    ensures |Emitted(LevelValue(threshold).value, "error", message, extra)| == 1
  {
    LowerFixed("error");
    assert Outcome("error", extra) == Ok(());
    assert LevelValue(threshold).value <= 40;
  }

  /** A debug message is emitted only at the debug threshold. */
  lemma DebugOnlyAtDebug(threshold: string, message: string, extra: Dict<Value>)
    requires LevelValue(threshold).Some? && !Clashes(extra, {"self", "level", "message"})
    ensures |Emitted(LevelValue(threshold).value, "debug", message, extra)| == 1 <==> threshold == "debug"
  {
    LowerFixed("debug");
    assert Outcome("debug", extra) == Ok(());
    assert LevelValue(threshold).value == 10 <==> threshold == "debug";
  }

  /** A string without upper-case letters is its own lower-case form. */
  lemma LowerFixed(s: string)
    requires forall i :: 0 <= i < |s| ==> !('A' <= s[i] <= 'Z')
    ensures Lower(s) == s
  {
    assert forall i :: 0 <= i < |s| ==> Lower(s)[i] == s[i];
  }

  /** Logger: the level name as given, the output format flag, the
      threshold value, and the records emitted so far. */
  class Logger {
    var level: string
    var useJson: bool
    var levelValue: int
    var emitted: seq<Dict<Value>>

    /** __post_init__ for a known level. */
    constructor (level: string, useJson: bool)
      requires LevelValue(Lower(level)).Some?
      ensures this.level == level && this.useJson == useJson
      ensures levelValue == LevelValue(Lower(level)).value && emitted == []
    {
      this.level := level;
      this.useJson := useJson;
      levelValue := LevelValue(Lower(level)).value;
      emitted := [];
    }

    /** Logger(level, use_json): ValueError unless the lower-cased level is
      one of the four names; otherwise a logger with that threshold. */
    static method New(level: string, useJson: bool) returns (r: Result<Logger>)
      ensures r.Err? <==> LevelValue(Lower(level)).None?
      ensures r.Err? ==> r.error == ValueError
      ensures r.Ok? ==> && fresh(r.value) && r.value.level == level && r.value.useJson == useJson
                        && r.value.levelValue == LevelValue(Lower(level)).value && r.value.emitted == []
    {
      if LevelValue(Lower(level)).None? {
        return Err(ValueError);
      }
      var logger := new Logger(level, useJson);
      return Ok(logger);
    }

    /** _should_log for a known message level. */
    predicate ShouldLog(msgLevel: string): (b: bool)
      reads this
      requires LevelValue(msgLevel).Some?
      ensures msgLevel == "error" && levelValue <= 40 ==> b
      ensures msgLevel == "debug" ==> (b <==> levelValue <= 10)
    {
      LevelValue(msgLevel).value >= levelValue
    }

    /** log(level, message, **extra): Outcome's result; the record is
      emitted when the level is known and passes the threshold. */
    method Log(level: string, message: string, extra: Dict<Value>) returns (r: Result<()>)
      modifies this`emitted
      ensures r == Outcome(level, extra)
      ensures emitted == old(emitted) + Emitted(levelValue, level, message, extra)
    {
      if Clashes(extra, {"self", "level", "message"}) {
        return Err(TypeError);
      }
      var levelLc := Lower(level);
      if LevelValue(levelLc).None? {
        return Err(ValueError);
      }
      if !ShouldLog(levelLc) {
        return Ok(());
      }
      var record := PutAll([("level", VStr(levelLc)), ("message", VStr(message))], extra);
      emitted := emitted + [record];
      return Ok(());
    }

    /** error(msg, **extra): a keyword "self" or "msg" raises TypeError here; then
      log("error", msg, **extra). */
    method LogError(msg: string, extra: Dict<Value>) returns (r: Result<()>)
      modifies this`emitted
      ensures Clashes(extra, {"self", "msg"}) ==> r == Err(TypeError) && emitted == old(emitted)
      ensures !Clashes(extra, {"self", "msg"}) ==>
                r == Outcome("error", extra) && emitted == old(emitted) + Emitted(levelValue, "error", msg, extra)
    {
      if Clashes(extra, {"self", "msg"}) {
        return Err(TypeError);
      }
      r := Log("error", msg, extra);
    }

    /** warning(msg, **extra) */
    method LogWarning(msg: string, extra: Dict<Value>) returns (r: Result<()>)
      modifies this`emitted
      ensures Clashes(extra, {"self", "msg"}) ==> r == Err(TypeError) && emitted == old(emitted)
      ensures !Clashes(extra, {"self", "msg"}) ==>
                r == Outcome("warning", extra) && emitted == old(emitted) + Emitted(levelValue, "warning", msg, extra)
    {
      if Clashes(extra, {"self", "msg"}) {
        return Err(TypeError);
      }
      r := Log("warning", msg, extra);
    }

    /** info(msg, **extra) */
    method LogInfo(msg: string, extra: Dict<Value>) returns (r: Result<()>)
      modifies this`emitted
      ensures Clashes(extra, {"self", "msg"}) ==> r == Err(TypeError) && emitted == old(emitted)
      ensures !Clashes(extra, {"self", "msg"}) ==>
                r == Outcome("info", extra) && emitted == old(emitted) + Emitted(levelValue, "info", msg, extra)
    {
      if Clashes(extra, {"self", "msg"}) {
        return Err(TypeError);
      }
      r := Log("info", msg, extra);
    }

    /** debug(msg, **extra) */
    method LogDebug(msg: string, extra: Dict<Value>) returns (r: Result<()>)
      modifies this`emitted
      ensures Clashes(extra, {"self", "msg"}) ==> r == Err(TypeError) && emitted == old(emitted)
      ensures !Clashes(extra, {"self", "msg"}) ==>
                r == Outcome("debug", extra) && emitted == old(emitted) + Emitted(levelValue, "debug", msg, extra)
    {
      if Clashes(extra, {"self", "msg"}) {
        return Err(TypeError);
      }
      r := Log("debug", msg, extra);
    }
  }

  /** The level a configuration asks for: str(config.get("log_level",
      "info")).lower() for a string; None for any other value, whose text
      ("none", "true", a number, a list) names no level. */
  function ConfigLevel(config: Dict<Value>): (r: Option<string>)
    ensures !HasKey(config, "log_level") ==> r == Some("info")
  {
    var v := Get(config, "log_level");
    if v.None? then Some("info")
    else if v.value.VStr? then Some(Lower(v.value.s))
    else None
  }

  /** bool(config.get("log_json", False)) */
  predicate ConfigJson(config: Dict<Value>)
  {
    match Get(config, "log_json")
    case None => false
    case Some(v) => Truthy(v)
  }

  /** The module-wide state: _global_logger. */
  class Registry {
    var global: Option<Logger>

    /** At import no global logger is set. */
    constructor ()
      ensures global == None
    {
      global := None;
    }

    /** set_global_logger(logger) */
    method SetGlobalLogger(logger: Logger)
      modifies this
      ensures global == Some(logger)
    {
      global := Some(logger);
    }

    /** global_log(level, msg, **extra): a keyword "level" or "msg" raises
      TypeError; with no global logger nothing happens; otherwise the
      global logger's log, where a keyword "self" raises TypeError (see
      Outcome). */
    method GlobalLog(level: string, msg: string, extra: Dict<Value>) returns (r: Result<()>)
      modifies if global.Some? then {global.value} else {}
      ensures global == old(global)
      ensures global.Some? ==>
                && global.value.level == old(global.value.level)
                && global.value.useJson == old(global.value.useJson)
                && global.value.levelValue == old(global.value.levelValue)
      ensures Clashes(extra, {"level", "msg"}) ==> r == Err(TypeError)
      ensures !Clashes(extra, {"level", "msg"}) && global.None? ==> r == Ok(())
      ensures !Clashes(extra, {"level", "msg"}) && global.Some? ==>
                && r == Outcome(level, extra)
                && global.value.emitted == old(global.value.emitted) + Emitted(global.value.levelValue, level, msg, extra)
      ensures (Clashes(extra, {"level", "msg"}) || global.None?) && old(global).Some? ==>
                global.value.emitted == old(global.value.emitted)
    {
      if Clashes(extra, {"level", "msg"}) {
        return Err(TypeError);
      }
      if global.None? {
        return Ok(());
      }
      r := global.value.Log(level, msg, extra);
    }

    /** configure_global_logger_from_config(config): nothing for None or an
      empty dict; otherwise a new global logger with the configured level
      (default "info", lower-cased) and JSON flag (default False), or
      ValueError, leaving the global logger as it was, when the level is
      not one of the four names. */
    method ConfigureGlobalLoggerFromConfig(config: Option<Dict<Value>>) returns (r: Result<()>)
      modifies this
      ensures config.None? || config.value == [] ==> r == Ok(()) && global == old(global)
      ensures config.Some? && config.value != [] ==>
                var lv := ConfigLevel(config.value);
                && (r.Ok? <==> lv.Some? && LevelValue(lv.value).Some?)
                && (r.Err? ==> r == Err(ValueError) && global == old(global))
                && (r.Ok? ==> && global.Some? && fresh(global.value)
                              && global.value.level == lv.value
                              && global.value.levelValue == LevelValue(lv.value).value
                              && global.value.useJson == ConfigJson(config.value)
                              && global.value.emitted == [])
    {
      if config.None? || config.value == [] {
        return Ok(());
      }
      var logger :- LoggerFromConfig(config.value);
      SetGlobalLogger(logger);
      return Ok(());
    }
  }

  /** The logger a non-empty configuration describes: Logger(level,
      use_json) with the configured level and flag. */
  method LoggerFromConfig(config: Dict<Value>) returns (r: Result<Logger>)
    ensures var lv := ConfigLevel(config);
            && (r.Ok? <==> lv.Some? && LevelValue(lv.value).Some?)
            && (r.Err? ==> r.error == ValueError)
            && (r.Ok? ==> && fresh(r.value) && r.value.level == lv.value
                          && r.value.levelValue == LevelValue(lv.value).value
                          && r.value.useJson == ConfigJson(config) && r.value.emitted == [])
  {
    var lv := ConfigLevel(config);
    if lv.None? {
      return Err(ValueError);
    }
    var name := lv.value;
    var raw := Get(config, "log_level");
    if raw.None? {
      LowerFixed("info");
    } else {
      LowerIdempotent(raw.value.s);
    }
    assert Lower(name) == name;
    r := Logger.New(name, ConfigJson(config));
  }

  /** A configured level is already lower-case, so Logger's own lower()
      does not change it. */
  lemma LowerIdempotent(s: string)
    ensures Lower(Lower(s)) == Lower(s)
  {
    var l := Lower(s);
    forall i | 0 <= i < |s|
      ensures Lower(l)[i] == l[i]
    {
      assert l[i] == LowerChar(s[i]);
    }
  }
}
