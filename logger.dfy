/**
 * The logger package: level names and numbers, the line length cap, the
 * default logger name and the bounds of the cloud upload level. Formatting
 * of the arguments and the native printer are outside the model; what
 * reaches the printer is described by `NativePrint`.
 */
module Logger {
  import opened Common

  /** The keys of the level table, in declaration order (what `Object.keys` returns). */
  const LevelNames: seq<string> := ["verbose", "debug", "info", "warn", "error"]

  /** The level table: name to level number. */
  const LogLevels: map<string, int> :=
    map["verbose" := 1, "debug" := 2, "info" := 3, "warn" := 4, "error" := 5]

  const DefaultLevel := 3
  const MaxLineLength := 1024
  const Ellipsis := "..."
  const UploadMinLevel := 0
  const UploadMaxLevel := 5

  /**
   * The level a logging function prints at: the table entry for `name`,
   * or `info` (3) when the name is unknown or its entry is out of range.
   */
  function LevelOf(name: string): (level: int)
    ensures 1 <= level <= 5
    ensures forall i :: 0 <= i < |LevelNames| && LevelNames[i] == name ==> level == i + 1
    ensures name !in LevelNames ==> level == DefaultLevel
  {
    var looked := if name in LogLevels then LogLevels[name] else 0;
    if looked == 0 || looked < 1 || looked > 5 then DefaultLevel else looked
  }

  /**
   * The fallback printer's name for a level: `Object.keys(logLevels)[lvl - 1]`,
   * `undefined` outside 1..5.
   */
  function NameOf(level: int): (name: Option<string>)
    ensures name.Some? <==> 1 <= level <= |LevelNames|
    ensures name.Some? ==> name.value in LogLevels && LogLevels[name.value] == level
  {
    if 1 <= level <= |LevelNames| then Some(LevelNames[level - 1]) else None
  }

  /** The printer's level-to-name map is the inverse of the name-to-level table. */
  lemma {:induction false} NameOfLevelOf(name: string)
    requires name in LogLevels
    ensures NameOf(LevelOf(name)) == Some(name)
  {
    assert name in LevelNames;
  }

  lemma {:induction false} LevelOfNameOf(level: int)
    requires 1 <= level <= 5
    ensures NameOf(level).Some? && LevelOf(NameOf(level).value) == level
  {
    assert LevelNames[level - 1] in LevelNames;
  }

  /** A line of 1024 characters or more is cut to its first 1024 and marked with `...`. */
  function Truncate(line: string): (r: string)
    ensures |line| < MaxLineLength ==> r == line
    ensures |line| >= MaxLineLength ==>
      |r| == MaxLineLength + |Ellipsis| && r[..MaxLineLength] == line[..MaxLineLength] && r[MaxLineLength..] == Ellipsis
    ensures |r| <= MaxLineLength + |Ellipsis|
  {
    if |line| >= MaxLineLength then line[..MaxLineLength] + Ellipsis else line
  }

  /** `new Logger(name)`: a missing or empty name becomes `'default'`. */
  function LoggerName(name: Option<string>): (r: string)
    ensures r != ""
    ensures Truthy(name) ==> r == name.value
    ensures !Truthy(name) ==> r == "default"
  {
    if Truthy(name) then name.value else "default"
  }

  /** The level name each method of a logger passes to the level table (`log` prints as `info`). */
  function MethodLevelName(methodName: string): (r: Option<string>)
    ensures r.Some? <==> methodName in {"verbose", "debug", "log", "info", "warn", "error"}
    ensures r.Some? ==> r.value in LogLevels
  {
    if methodName == "log" then Some("info")
    else if methodName in LogLevels then Some(methodName)
    else None
  }

  /** What a logging call hands to the native printer. */
  datatype NativePrint = NativePrint(level: int, tag: string, line: string)

  /**
   * A call of logger method `methodName` on a logger created with `name`, after
   * the arguments have been formatted into `line`.
   */
  function Log(name: Option<string>, methodName: string, line: string): (p: Option<NativePrint>)
    ensures p.Some? <==> MethodLevelName(methodName).Some?
    ensures p.Some? ==> 1 <= p.value.level <= 5 && p.value.tag == LoggerName(name)
    ensures p.Some? ==> |p.value.line| <= MaxLineLength + |Ellipsis|
    ensures p.Some? && |line| < MaxLineLength ==> p.value.line == line
    ensures p.Some? ==> p.value.level == LevelOf(MethodLevelName(methodName).value) && p.value.line == Truncate(line)
  {
    match MethodLevelName(methodName)
    case None => None
    case Some(levelName) => Some(NativePrint(LevelOf(levelName), LoggerName(name), Truncate(line)))
  }

  datatype UploadResult = EnableCloud(level: int, authorization: string) | UploadError(message: string)

  /** `setGlobalUploadLevel`: throws outside [0, 5], otherwise forwards the level to the native side. */
  function SetGlobalUploadLevel(uploadLevel: int, authorization: string): (r: UploadResult)
    ensures r.EnableCloud? <==> UploadMinLevel <= uploadLevel <= UploadMaxLevel
    ensures r.EnableCloud? ==> r.level == uploadLevel && r.authorization == authorization
    ensures r.UploadError? ==> r.message == "upload level should between 0,5"
  {
    if uploadLevel > UploadMaxLevel || uploadLevel < UploadMinLevel then
      UploadError("upload level should between " + NatToString(UploadMinLevel) + "," + NatToString(UploadMaxLevel))
    else
      EnableCloud(uploadLevel, authorization)
  }
}
