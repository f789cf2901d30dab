/**
 * The decision part of the bot's message handler (`handle` in User_awareness/telegram_bot.py):
 * from the tokens of one text message to what the bot does with it.  The HTTP requests and
 * the replies built from their answers are not part of this model; the decision records the
 * request (or the usage message) the handler produces.
 */
module Commands {
  import Alerts

  /** What the handler does with one tokenised message. */
  datatype Decision =
    | Ignored                                   // no tokens: no reply
    | Help(chat: Alerts.ChatId)                 // /start, /help: register the chat, send the command list
    | Status                                    // /status: fetch and format the snapshot
    | ListLabs                                  // /list_labs
    | Usage(message: string)                    // wrong number of arguments
    | SendCommand(lab: string, actuator: string, action: string)
    | SwitchAll(lab: string, action: string)    // /turn_on_all, /turn_off_all
    | AddLab(lab: string, name: string, notes: string)
    | RemoveLab(lab: string)
    | AddSensor(lab: string, sensor: string, sensorType: string)
    | RemoveSensor(sensor: string)
    | AddActuator(lab: string, actuator: string, actuatorType: string)
    | RemoveActuator(actuator: string)
    | Unknown                                   // "Unknown command. Use /help"

  // ---------------------------------------------------------------------------
  // Strings
  // ---------------------------------------------------------------------------

  function LowerChar(c: char): char {
    if 'A' <= c <= 'Z' then (c as int + 32) as char else c
  }

  /** `str.lower()`, on ASCII letters. */
  function Lower(s: string): (r: string)
    ensures |r| == |s|
    ensures forall i :: 0 <= i < |s| ==> r[i] == LowerChar(s[i])
    decreases |s|
  {
    if s == [] then [] else [LowerChar(s[0])] + Lower(s[1..])
  }

  /** Lower-casing twice is lower-casing once. */
  lemma LowerIdempotent(s: string)
    ensures Lower(Lower(s)) == Lower(s)
  {
    assert forall i :: 0 <= i < |s| ==> LowerChar(LowerChar(s[i])) == LowerChar(s[i]);
  }

  /** `" ".join(ts)`. */
  function JoinSpaces(ts: seq<string>): string
    decreases |ts|
  {
    if ts == [] then ""
    else if |ts| == 1 then ts[0]
    else ts[0] + " " + JoinSpaces(ts[1..])
  }

  /** `s.split(" ")`: the pieces between single spaces (empty pieces kept). */
  function SplitSpaces(s: string): (r: seq<string>)
    ensures |r| >= 1
    decreases |s|
  {
    if s == [] then [""]
    else
      var rest := SplitSpaces(s[1..]);
      if s[0] == ' ' then [""] + rest
      else [[s[0]] + rest[0]] + rest[1..]
  }

  lemma {:induction false} SplitWithoutSpace(t: string)
    requires ' ' !in t
    ensures SplitSpaces(t) == [t]
    decreases |t|
  {
    if t != [] {
      SplitWithoutSpace(t[1..]);
      assert [t[0]] + t[1..] == t;
    }
  }

  lemma {:induction false} SplitAfterWord(t: string, rest: string)
    requires ' ' !in t
    ensures SplitSpaces(t + " " + rest) == [t] + SplitSpaces(rest)
    decreases |t|
  {
    var s := t + " " + rest;
    if t == [] {
      assert s == " " + rest;
      assert s[1..] == rest;
    } else {
      assert s[1..] == t[1..] + " " + rest;
      SplitAfterWord(t[1..], rest);
      assert [t[0]] + t[1..] == t;
    }
  }

  /** The notes of /add_lab are recovered from the joined text when no token holds a space. */
  lemma {:induction false} SplitJoin(ts: seq<string>)
    requires |ts| >= 1
    requires forall i :: 0 <= i < |ts| ==> ' ' !in ts[i]
    ensures SplitSpaces(JoinSpaces(ts)) == ts
    decreases |ts|
  {
    if |ts| == 1 {
      SplitWithoutSpace(ts[0]);
    } else {
      SplitJoin(ts[1..]);
      SplitAfterWord(ts[0], JoinSpaces(ts[1..]));
      assert [ts[0]] + ts[1..] == ts;
    }
  }

  /** Every usage reply is "Usage: " followed by the command's syntax. */
  function UsageLine(syntax: string): Decision {
    Usage("Usage: " + syntax)
  }

  // ---------------------------------------------------------------------------
  // The handler's branching
  // ---------------------------------------------------------------------------

  /** The verbs the handler answers; any other first token is an unknown command. */
  const VERBS: set<string> := {
    "/start", "/help", "/status", "/list_labs", "/turn_on", "/turn_off", "/turn_on_all",
    "/turn_off_all", "/add_lab", "/remove_lab", "/add_sensor", "/remove_sensor",
    "/add_actuator", "/remove_actuator"
  }

  /**
   * The handler on one tokenised message: no tokens, no reply; otherwise the verb is the
   * first token lower-cased, each command checks its exact token count (at least three for
   * /add_lab) and otherwise answers with its usage line, and any other verb is unknown.
   */
  function Translate(parts: seq<string>, chatId: Alerts.ChatId): (d: Decision)
    ensures d.Ignored? <==> parts == []
    ensures d.Unknown? <==> parts != [] && Lower(parts[0]) !in VERBS
    ensures d.Help? <==> parts != [] && Lower(parts[0]) in {"/start", "/help"}
    ensures d.Help? ==> d.chat == chatId
    ensures d.Status? <==> parts != [] && Lower(parts[0]) == "/status"
    ensures d.ListLabs? <==> parts != [] && Lower(parts[0]) == "/list_labs"
    ensures d.SendCommand? <==> |parts| == 3 && Lower(parts[0]) in {"/turn_on", "/turn_off"}
    ensures d.SendCommand? ==> d.lab == parts[1] && d.actuator == parts[2]
    ensures d.SendCommand? ==> (d.action == "ON" <==> Lower(parts[0]) == "/turn_on")
    ensures d.SendCommand? || d.SwitchAll? ==> d.action in {"ON", "OFF"}
    ensures d.SwitchAll? <==> |parts| == 2 && Lower(parts[0]) in {"/turn_on_all", "/turn_off_all"}
    ensures d.SwitchAll? ==> d.lab == parts[1] && (d.action == "ON" <==> Lower(parts[0]) == "/turn_on_all")
    ensures d.AddLab? <==> |parts| >= 3 && Lower(parts[0]) == "/add_lab"
    ensures d.AddLab? ==> d.lab == parts[1] && d.name == parts[2] && d.notes == JoinSpaces(parts[3..])
    ensures d.RemoveLab? <==> |parts| == 2 && Lower(parts[0]) == "/remove_lab"
    ensures d.RemoveLab? ==> d.lab == parts[1]
    ensures d.AddSensor? <==> |parts| == 4 && Lower(parts[0]) == "/add_sensor"
    ensures d.AddSensor? ==> d.lab == parts[1] && d.sensor == parts[2] && d.sensorType == parts[3]
    ensures d.RemoveSensor? <==> |parts| == 2 && Lower(parts[0]) == "/remove_sensor"
    ensures d.RemoveSensor? ==> d.sensor == parts[1]
    ensures d.AddActuator? <==> |parts| == 4 && Lower(parts[0]) == "/add_actuator"
    ensures d.AddActuator? ==> d.lab == parts[1] && d.actuator == parts[2] && d.actuatorType == parts[3]
    ensures d.RemoveActuator? <==> |parts| == 2 && Lower(parts[0]) == "/remove_actuator"
    ensures d.RemoveActuator? ==> d.actuator == parts[1]
    ensures d.Usage? ==> parts != [] && Lower(parts[0]) in VERBS && |d.message| > 7 && d.message[..7] == "Usage: "
  {
    if parts == [] then Ignored
    else
      var args := parts[1..];
      assert forall k :: 0 <= k < |args| ==> args[k] == parts[k + 1];
      assert |parts| >= 3 ==> args[2..] == parts[3..];
      Dispatch(Lower(parts[0]), args, chatId)
  }

  /** The registry-editing verbs: /add_lab, /remove_lab, /add_sensor, /remove_sensor, /add_actuator, /remove_actuator. */
  const REGISTRY_VERBS: set<string> := {
    "/add_lab", "/remove_lab", "/add_sensor", "/remove_sensor", "/add_actuator", "/remove_actuator"
  }

  /** The branches on the lower-cased verb `cmd`, given the tokens after it. */
  function Dispatch(cmd: string, args: seq<string>, chatId: Alerts.ChatId): (d: Decision)
    ensures d.Unknown? <==> cmd !in VERBS
    ensures d.Help? <==> cmd in {"/start", "/help"}
    ensures d.Help? ==> d.chat == chatId
    ensures d.Status? <==> cmd == "/status"
    ensures d.ListLabs? <==> cmd == "/list_labs"
    ensures d.SendCommand? <==> |args| == 2 && cmd in {"/turn_on", "/turn_off"}
    ensures d.SendCommand? ==> d.lab == args[0] && d.actuator == args[1]
    ensures d.SendCommand? ==> (d.action == "ON" <==> cmd == "/turn_on")
    ensures d.SendCommand? || d.SwitchAll? ==> d.action in {"ON", "OFF"}
    ensures d.SwitchAll? <==> |args| == 1 && cmd in {"/turn_on_all", "/turn_off_all"}
    ensures d.SwitchAll? ==> d.lab == args[0] && (d.action == "ON" <==> cmd == "/turn_on_all")
    ensures cmd in REGISTRY_VERBS ==> d == Registry(cmd, args)
    ensures cmd !in REGISTRY_VERBS ==> !(d.AddLab? || d.RemoveLab? || d.AddSensor? || d.RemoveSensor? || d.AddActuator? || d.RemoveActuator?)
    ensures d.Usage? ==> cmd in VERBS && |d.message| > 7 && d.message[..7] == "Usage: "
    ensures !d.Ignored?
  {
    var n := |args| + 1;
    if cmd == "/start" || cmd == "/help" then Help(chatId)
    else if cmd == "/status" then Status
    else if cmd == "/list_labs" then ListLabs
    else if cmd == "/turn_on" || cmd == "/turn_off" then
      if n != 3 then UsageLine(cmd + " <lab> <actuator>")
      else SendCommand(args[0], args[1], if cmd == "/turn_on" then "ON" else "OFF")
    else if cmd == "/turn_on_all" || cmd == "/turn_off_all" then
      if n != 2 then UsageLine(cmd + " <lab>")
      else SwitchAll(args[0], if cmd == "/turn_on_all" then "ON" else "OFF")
    else if cmd in REGISTRY_VERBS then Registry(cmd, args)
    else Unknown
  }

  /** The registry-editing branches, each with its token count and its usage line. */
  function Registry(cmd: string, args: seq<string>): (d: Decision)
    requires cmd in REGISTRY_VERBS
    ensures d.AddLab? <==> |args| >= 2 && cmd == "/add_lab"
    ensures d.AddLab? ==> d.lab == args[0] && d.name == args[1] && d.notes == JoinSpaces(args[2..])
    ensures d.RemoveLab? <==> |args| == 1 && cmd == "/remove_lab"
    ensures d.RemoveLab? ==> d.lab == args[0]
    ensures d.AddSensor? <==> |args| == 3 && cmd == "/add_sensor"
    ensures d.AddSensor? ==> d.lab == args[0] && d.sensor == args[1] && d.sensorType == args[2]
    ensures d.RemoveSensor? <==> |args| == 1 && cmd == "/remove_sensor"
    ensures d.RemoveSensor? ==> d.sensor == args[0]
    ensures d.AddActuator? <==> |args| == 3 && cmd == "/add_actuator"
    ensures d.AddActuator? ==> d.lab == args[0] && d.actuator == args[1] && d.actuatorType == args[2]
    ensures d.RemoveActuator? <==> |args| == 1 && cmd == "/remove_actuator"
    ensures d.RemoveActuator? ==> d.actuator == args[0]
    ensures d.AddLab? || d.RemoveLab? || d.AddSensor? || d.RemoveSensor? || d.AddActuator? || d.RemoveActuator? || d.Usage?
    ensures d.Usage? ==> |d.message| > 7 && d.message[..7] == "Usage: "
  {
    var n := |args| + 1;
    if cmd == "/add_lab" then
      if n < 3 then UsageLine("/add_lab <lab_id> \"<name>\" [notes]")
      else AddLab(args[0], args[1], if n > 3 then JoinSpaces(args[2..]) else "")
    else if cmd == "/remove_lab" then
      if n != 2 then UsageLine("/remove_lab <lab_id>")
      else RemoveLab(args[0])
    else if cmd == "/add_sensor" then
      if n != 4 then UsageLine("/add_sensor <lab_id> <sensor_id> <type>")
      else AddSensor(args[0], args[1], args[2])
    else if cmd == "/remove_sensor" then
      if n != 2 then UsageLine("/remove_sensor <sensor_id>")
      else RemoveSensor(args[0])
    else if cmd == "/add_actuator" then
      if n != 4 then UsageLine("/add_actuator <lab_id> <actuator_id> <type>")
      else AddActuator(args[0], args[1], args[2])
    else
      if n != 2 then UsageLine("/remove_actuator <actuator_id>")
      else RemoveActuator(args[0])
  }

  /** /turn_on and /turn_off with a token count other than 3 answer with their usage line. */
  lemma SwitchUsage(parts: seq<string>, chatId: Alerts.ChatId)
    requires parts != [] && Lower(parts[0]) in {"/turn_on", "/turn_off"} && |parts| != 3
    ensures Translate(parts, chatId) == Usage("Usage: " + Lower(parts[0]) + " <lab> <actuator>")
  {
  }

  /** The registry-editing verbs answer a wrong token count with their own usage line. */
  lemma RegistryUsage(cmd: string, args: seq<string>)
    requires cmd in REGISTRY_VERBS
    ensures cmd == "/add_lab" && |args| < 2 ==> Registry(cmd, args) == UsageLine("/add_lab <lab_id> \"<name>\" [notes]")
    ensures cmd == "/remove_lab" && |args| != 1 ==> Registry(cmd, args) == UsageLine("/remove_lab <lab_id>")
    ensures cmd == "/add_sensor" && |args| != 3 ==> Registry(cmd, args) == UsageLine("/add_sensor <lab_id> <sensor_id> <type>")
    ensures cmd == "/remove_sensor" && |args| != 1 ==> Registry(cmd, args) == UsageLine("/remove_sensor <sensor_id>")
    ensures cmd == "/add_actuator" && |args| != 3 ==> Registry(cmd, args) == UsageLine("/add_actuator <lab_id> <actuator_id> <type>")
    ensures cmd == "/remove_actuator" && |args| != 1 ==> Registry(cmd, args) == UsageLine("/remove_actuator <actuator_id>")
  {
  }

  /** Every wrong token count answers with the command's own usage line. */
  lemma UsageReplies(parts: seq<string>, chatId: Alerts.ChatId)
    requires parts != []
    ensures Lower(parts[0]) in {"/turn_on_all", "/turn_off_all"} && |parts| != 2 ==>
      Translate(parts, chatId) == UsageLine(Lower(parts[0]) + " <lab>")
    ensures Lower(parts[0]) == "/add_lab" && |parts| < 3 ==>
      Translate(parts, chatId) == UsageLine("/add_lab <lab_id> \"<name>\" [notes]")
    ensures Lower(parts[0]) == "/remove_lab" && |parts| != 2 ==>
      Translate(parts, chatId) == UsageLine("/remove_lab <lab_id>")
    ensures Lower(parts[0]) == "/add_sensor" && |parts| != 4 ==>
      Translate(parts, chatId) == UsageLine("/add_sensor <lab_id> <sensor_id> <type>")
    ensures Lower(parts[0]) == "/remove_sensor" && |parts| != 2 ==>
      Translate(parts, chatId) == UsageLine("/remove_sensor <sensor_id>")
    ensures Lower(parts[0]) == "/add_actuator" && |parts| != 4 ==>
      Translate(parts, chatId) == UsageLine("/add_actuator <lab_id> <actuator_id> <type>")
    ensures Lower(parts[0]) == "/remove_actuator" && |parts| != 2 ==>
      Translate(parts, chatId) == UsageLine("/remove_actuator <actuator_id>")
  {
    var cmd, args := Lower(parts[0]), parts[1..];
    assert Translate(parts, chatId) == Dispatch(cmd, args, chatId);
    if cmd in REGISTRY_VERBS {
      RegistryUsage(cmd, args);
    }
  }

  /**
   * /add_lab with at least three tokens: the notes are the remaining tokens joined by single
   * spaces ("" when there are none); when no note token holds a space, splitting the notes at
   * spaces gives those tokens back.
   */
  lemma AddLabNotes(parts: seq<string>, chatId: Alerts.ChatId)
    requires |parts| >= 3 && Lower(parts[0]) == "/add_lab"
    ensures Translate(parts, chatId).AddLab?
    ensures Translate(parts, chatId).notes == JoinSpaces(parts[3..])
    ensures |parts| > 3 && (forall i :: 3 <= i < |parts| ==> ' ' !in parts[i]) ==>
      SplitSpaces(Translate(parts, chatId).notes) == parts[3..]
  {
    if |parts| > 3 && forall i :: 3 <= i < |parts| ==> ' ' !in parts[i] {
      assert forall i :: 0 <= i < |parts[3..]| ==> parts[3..][i] == parts[i + 3];
      SplitJoin(parts[3..]);
    }
  }

  /** Verbs are case-insensitive: only the lower-cased first token matters. */
  lemma CaseInsensitive(parts: seq<string>, chatId: Alerts.ChatId)
    requires parts != []
    ensures Translate([Lower(parts[0])] + parts[1..], chatId) == Translate(parts, chatId)
  {
    LowerIdempotent(parts[0]);
    assert ([Lower(parts[0])] + parts[1..])[1..] == parts[1..];
  }
}
