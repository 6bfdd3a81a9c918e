/**
 * The engine of the bot-control backend: the dispatcher that reads control
 * messages coming from the browser, keeps the engine's run/stop flag and
 * answers with messages for the browser, and the parser that splits an
 * in-world location and position into a region name and coordinates.
 */
module Engine {
  import opened Wrappers
  import opened GoStrings

  /**
   * A message received from the browser. Each of the four JSON fields may
   * be null, and null is distinct from the empty string.
   */
  datatype WsMessage = WsMessage(
    msgType: Option<string>,
    subType: Option<string>,
    text: Option<string>,
    id: Option<string>)

  /**
   * A message sent to the browser: the four strings handed to
   * sendMessageToBrowser, in the order type, subtype, text, id.
   */
  datatype Outbound = Outbound(msgType: string, subType: string, text: string, id: string)

  /** The nil UUID, substituted for both fields of a form submission without text. */
  const NullUUID: string := "00000000-0000-0000-0000-000000000000"

  /** What the engine announces when it starts. */
  const StartingNotice := Outbound("status", "", "this is the engine <b>starting</b><br />", "")

  /** An absent type or subtype is read as the literal "empty". */
  function OrEmpty(field: Option<string>): string {
    field.GetOr("empty")
  }

  /** The text of a form submission; an absent text stands for two nil UUIDs. */
  function FormText(text: Option<string>): string {
    text.GetOr(NullUUID + "|" + NullUUID)
  }

  /** The button pair sent by engineControl: `started` disables start and enables stop. */
  function ControlPair(started: bool): seq<Outbound> {
    if started then
      [Outbound("htmlControl", "disable", "", "startEngine"), Outbound("htmlControl", "enable", "", "stopEngine")]
    else
      [Outbound("htmlControl", "enable", "", "startEngine"), Outbound("htmlControl", "disable", "", "stopEngine")]
  }

  /**
   * The button pair sent on status/ready. When stopped, the stop button
   * gets the subtype "false" rather than "disable".
   */
  function ReadyPair(running: bool): seq<Outbound> {
    if running then
      ControlPair(true)
    else
      [Outbound("htmlControl", "enable", "", "startEngine"), Outbound("htmlControl", "false", "", "stopEngine")]
  }

  /** The status line echoing a form submission. */
  function Echo(destination: string, agent: string): Outbound {
    Outbound("status", "info", "Received '" + destination + "|" + agent + "'<br />", "")
  }

  /** The status line closing every engineControl message. */
  function ControlNotice(subType: string): Outbound {
    Outbound("status", "info", "Engine " + subType + "<br />", "")
  }

  /**
   * The effect of handling messages: the new value of the run flag, the
   * messages sent to the browser in order, and whether the handler panicked
   * (which ends the process).
   */
  datatype Outcome = Outcome(running: bool, emitted: seq<Outbound>, crashed: bool)

  /**
   * The branch of the dispatcher an inbound message takes, once an absent
   * type or subtype has been read as "empty".
   */
  datatype Branch =
    | ReadyStatus
    | OtherStatus(subType: string)
    | FormPost(text: Option<string>)
    | ControlCommand(subType: string)
    | UnknownKind(msgType: string)

  function BranchOf(m: WsMessage): Branch {
    var messageType := OrEmpty(m.msgType);
    var messageSubType := OrEmpty(m.subType);
    if messageType == "status" then
      if messageSubType == "ready" then ReadyStatus else OtherStatus(messageSubType)
    else if messageType == "formSubmit" then FormPost(m.text)
    else if messageType == "engineControl" then ControlCommand(messageSubType)
    else UnknownKind(messageType)
  }

  /** The dispatch table: what one inbound message does, given the current flag. */
  function Step(running: bool, m: WsMessage): Outcome {
    match BranchOf(m)
    case ReadyStatus => Outcome(running, ReadyPair(running), false)
    case OtherStatus(_) => Outcome(running, [], false)
    case FormPost(text) =>
      var fields := Split(FormText(text), '|');
      if |fields| < 2 then Outcome(running, [], true)
      else Outcome(running, [Echo(fields[0], fields[1])], false)
    case ControlCommand(subType) =>
      var started := subType == "start";
      Outcome(started, ControlPair(started) + [ControlNotice(subType)], false)
    case UnknownKind(_) => Outcome(running, [], false)
  }

  /**
   * The effect of handling a sequence of messages: as for one message, plus
   * the number of messages taken off the channel.
   */
  datatype Trace = Trace(running: bool, emitted: seq<Outbound>, crashed: bool, handled: nat)

  /**
   * Handling a sequence of messages in arrival order from flag `running`;
   * handling stops at the first message whose handler panics.
   */
  function Run(running: bool, msgs: seq<WsMessage>): Trace
  {
    if |msgs| == 0 then Trace(running, [], false, 0)
    else Extend(Run(running, msgs[..|msgs| - 1]), msgs[|msgs| - 1])
  }

  /** Handling message `m` after trace `t`; nothing is handled after a panic. */
  function Extend(t: Trace, m: WsMessage): Trace
  {
    if t.crashed then t
    else
      var step := Step(t.running, m);
      Trace(step.running, t.emitted + step.emitted, step.crashed, t.handled + 1)
  }

  /**
   * The subtype of the last engineControl message decides the flag:
   * true iff it is "start"; with no engineControl message the flag is `initial`.
   */
  function LastControl(initial: bool, msgs: seq<WsMessage>): bool
  {
    if |msgs| == 0 then initial
    else
      var m := msgs[|msgs| - 1];
      if OrEmpty(m.msgType) == "engineControl" then OrEmpty(m.subType) == "start"
      else LastControl(initial, msgs[..|msgs| - 1])
  }

  // ---------------------------------------------------------------------
  // The runtime: the shared run flag and the channel to the browser
  // ---------------------------------------------------------------------

  class Runtime {
    /** engineRunning */
    var running: bool
    /** Every message sent towards the browser so far, oldest first. */
    var outbox: seq<Outbound>

    /** The engine starts running and announces itself. */
    constructor ()
      ensures running
      ensures outbox == [StartingNotice]
    {
      running := true;
      outbox := [];
      new;
      Send("status", "", "this is the engine <b>starting</b><br />", "");
    }

    /** sendMessageToBrowser: one message appended to the channel; the flag is untouched. */
    method Send(msgType: string, msgSubType: string, msgText: string, msgId: string)
      modifies this
      ensures outbox == old(outbox) + [Outbound(msgType, msgSubType, msgText, msgId)]
      ensures running == old(running)
    {
      outbox := outbox + [Outbound(msgType, msgSubType, msgText, msgId)];
    }

    /**
     * One iteration of the dispatcher loop. `crashed` reports the panic of
     * a form submission whose text has no "|"; nothing is sent then.
     */
    method Dispatch(m: WsMessage) returns (crashed: bool)
      modifies this
      ensures var o := Step(old(running), m);
        && crashed == o.crashed
        && running == o.running
        && outbox == old(outbox) + o.emitted
    {
      var messageType, messageSubType;
      if m.msgType.Some? {
        messageType := m.msgType.value;
      } else {
        messageType := "empty";
      }
      if m.subType.Some? {
        messageSubType := m.subType.value;
      } else {
        messageSubType := "empty";
      }
      crashed := false;

      if messageType == "status" {
        if messageSubType == "ready" {
          if running {
            Send("htmlControl", "disable", "", "startEngine");
            Send("htmlControl", "enable", "", "stopEngine");
          } else {
            Send("htmlControl", "enable", "", "startEngine");
            Send("htmlControl", "false", "", "stopEngine");
          }
        }
        // "gone" and every other subtype are only logged
      } else if messageType == "formSubmit" {
        var messageText;
        if m.text.Some? {
          messageText := m.text.value;
        } else {
          messageText := NullUUID + "|" + NullUUID;
        }
        var returnValues := Split(messageText, '|');
        if |returnValues| < 2 {
          // returnValues[1] is out of range: the goroutine panics
          crashed := true;
          return;
        }
        var destination := returnValues[0];
        var agent := returnValues[1];
        Send("status", "info", "Received '" + destination + "|" + agent + "'<br />", "");
      } else if messageType == "engineControl" {
        if messageSubType == "start" {
          Send("htmlControl", "disable", "", "startEngine");
          Send("htmlControl", "enable", "", "stopEngine");
          running := true;
        } else if messageSubType == "stop" {
          Send("htmlControl", "enable", "", "startEngine");
          Send("htmlControl", "disable", "", "stopEngine");
          running := false;
        } else {
          // anything else stops the engine too
          Send("htmlControl", "enable", "", "startEngine");
          Send("htmlControl", "disable", "", "stopEngine");
          running := false;
        }
        Send("status", "info", "Engine " + messageSubType + "<br />", "");
      }
      // any other type is only logged
    }

    /**
     * The dispatcher loop over the messages that arrive on the inbound
     * channel, in order. It stops at a message whose handler panics;
     * `consumed` is the number of messages taken off the channel.
     */
    method Serve(inbox: seq<WsMessage>) returns (consumed: nat)
      modifies this
      ensures consumed <= |inbox|
      ensures running == Run(old(running), inbox).running
      ensures outbox == old(outbox) + Run(old(running), inbox).emitted
      ensures consumed < |inbox| ==> Run(old(running), inbox).crashed
      ensures Run(old(running), inbox[..consumed]) == Run(old(running), inbox)
      ensures consumed == Run(old(running), inbox).handled
    {
      ghost var initial := running;
      ghost var sent := outbox;
      ghost var trace := Run(initial, []);
      consumed := 0;
      var crashed := false;
      while consumed < |inbox| && !crashed
        invariant 0 <= consumed <= |inbox|
        invariant trace == Run(initial, inbox[..consumed])
        invariant running == trace.running && crashed == trace.crashed
        invariant outbox == sent + trace.emitted
        invariant consumed == trace.handled
      {
        var m := inbox[consumed];
        assert inbox[..consumed + 1][..consumed] == inbox[..consumed];
        crashed := Dispatch(m);
        trace := Extend(trace, m);
        consumed := consumed + 1;
      }
      if consumed < |inbox| {
        RunStopsAtCrash(initial, inbox[..consumed], inbox[consumed..]);
        assert inbox[..consumed] + inbox[consumed..] == inbox;
      } else {
        assert inbox[..consumed] == inbox;
      }
    }
  }

  // ---------------------------------------------------------------------
  // Properties of the dispatch table
  // ---------------------------------------------------------------------

  /** Once a handler has panicked, later messages are never handled. */
  lemma {:induction false} RunStopsAtCrash(running: bool, done: seq<WsMessage>, later: seq<WsMessage>)
    requires Run(running, done).crashed
    ensures Run(running, done + later) == Run(running, done)
    decreases |later|
  {
    if |later| == 0 {
      assert done + later == done;
    } else {
      var all := done + later;
      assert all[..|all| - 1] == done + later[..|later| - 1];
      RunStopsAtCrash(running, done, later[..|later| - 1]);
    }
  }

  /**
   * The number of messages a run takes off the channel: all of them when
   * none panics, and otherwise exactly those up to and including the first
   * that panics.
   */
  lemma {:induction false} RunHandled(running: bool, msgs: seq<WsMessage>)
    ensures var t := Run(running, msgs);
      && t.handled <= |msgs|
      && (t.handled < |msgs| ==> t.crashed)
      && Run(running, msgs[..t.handled]) == t
      && (0 < t.handled ==> !Run(running, msgs[..t.handled - 1]).crashed)
  {
    if |msgs| > 0 {
      var prefix := msgs[..|msgs| - 1];
      RunHandled(running, prefix);
      var before := Run(running, prefix);
      if before.crashed {
        assert msgs[..before.handled] == prefix[..before.handled];
        if 0 < before.handled {
          assert msgs[..before.handled - 1] == prefix[..before.handled - 1];
        }
      } else {
        assert msgs[..|msgs|] == msgs;
        assert before.handled == |prefix|;
      }
    }
  }

  /** A message without a type falls to the unknown-type branch: nothing changes, nothing is sent. */
  lemma AbsentTypeIgnored(running: bool, m: WsMessage)
    requires m.msgType.None?
    ensures Step(running, m) == Outcome(running, [], false)
  {
  }

  /**
   * engineControl/start sets the flag and sends, in order: disable start,
   * enable stop, then the notice "Engine start".
   */
  lemma EngineStart(running: bool, m: WsMessage)
    requires m.msgType == Some("engineControl") && m.subType == Some("start")
    ensures Step(running, m) == Outcome(true, [
      Outbound("htmlControl", "disable", "", "startEngine"),
      Outbound("htmlControl", "enable", "", "stopEngine"),
      Outbound("status", "info", "Engine start<br />", "")], false)
  {
    assert "Engine " + "start" + "<br />" == "Engine start<br />";
  }

  /**
   * engineControl with any other subtype, an absent one included (read as
   * "empty"), clears the flag and sends: enable start, disable stop, then
   * the notice naming the subtype.
   */
  lemma EngineStopOrOther(running: bool, m: WsMessage)
    requires m.msgType == Some("engineControl") && m.subType != Some("start")
    ensures Step(running, m) == Outcome(false, [
      Outbound("htmlControl", "enable", "", "startEngine"),
      Outbound("htmlControl", "disable", "", "stopEngine"),
      Outbound("status", "info", "Engine " + OrEmpty(m.subType) + "<br />", "")], false)
    ensures m.subType.None? ==> Step(running, m).emitted[2].text == "Engine empty<br />"
  {
  }

  /**
   * status/ready keeps the flag and sends a pair that depends on the flag
   * alone: disable start and enable stop when running; enable start and
   * subtype "false" for stop when stopped.
   */
  lemma StatusReady(running: bool, m: WsMessage)
    requires m.msgType == Some("status") && m.subType == Some("ready")
    ensures Step(running, m).running == running && !Step(running, m).crashed
    ensures running ==> Step(running, m).emitted == [
      Outbound("htmlControl", "disable", "", "startEngine"),
      Outbound("htmlControl", "enable", "", "stopEngine")]
    ensures !running ==> Step(running, m).emitted == [
      Outbound("htmlControl", "enable", "", "startEngine"),
      Outbound("htmlControl", "false", "", "stopEngine")]
  {
  }

  /** Two status/ready messages in a row send the same pair twice and keep the flag. */
  lemma StatusReadyTwice(running: bool, m: WsMessage)
    requires m.msgType == Some("status") && m.subType == Some("ready")
    ensures Run(running, [m, m]) == Trace(running, ReadyPair(running) + ReadyPair(running), false, 2)
  {
    assert [m, m][..1] == [m];
    assert [m][..0] == [];
    assert Run(running, []) == Trace(running, [], false, 0);
    assert Run(running, [m]) == Trace(running, ReadyPair(running), false, 1);
  }

  /** status with any subtype but "ready" (gone, absent, ...) changes nothing and sends nothing. */
  lemma StatusOtherSilent(running: bool, m: WsMessage)
    requires m.msgType == Some("status") && m.subType != Some("ready")
    ensures Step(running, m) == Outcome(running, [], false)
  {
  }

  /** A type outside status, formSubmit and engineControl changes nothing and sends nothing. */
  lemma UnknownTypeSilent(running: bool, m: WsMessage)
    requires OrEmpty(m.msgType) !in {"status", "formSubmit", "engineControl"}
    ensures Step(running, m) == Outcome(running, [], false)
  {
  }

  /**
   * formSubmit never touches the flag. It panics exactly when its text is
   * present and holds no "|"; otherwise it sends one status/info echo of
   * the first two "|"-separated fields.
   */
  lemma FormSubmit(running: bool, m: WsMessage)
    requires m.msgType == Some("formSubmit")
    ensures var o := Step(running, m);
      && o.running == running
      && (o.crashed <==> (m.text.Some? && '|' !in m.text.value))
      && (!o.crashed ==> |o.emitted| == 1 && o.emitted[0].msgType == "status" && o.emitted[0].subType == "info")
      && (!o.crashed ==>
            var f := Split(FormText(m.text), '|');
            o.emitted == [Outbound("status", "info", "Received '" + f[0] + "|" + f[1] + "'<br />", "")])
  {
    var text := FormText(m.text);
    SplitCount(text, '|');
    CountZero(text, '|');
    if m.text.None? {
      assert text == NullUUID + "|" + NullUUID;
      assert text[|NullUUID|] == '|';
    }
  }

  /** A form text with exactly one "|" is echoed verbatim. */
  lemma FormSubmitOnePipe(running: bool, m: WsMessage, text: string)
    requires m.msgType == Some("formSubmit") && m.text == Some(text)
    requires Count(text, '|') == 1
    ensures Step(running, m) == Outcome(running, [Outbound("status", "info", "Received '" + text + "'<br />", "")], false)
  {
    var f := Split(text, '|');
    SplitCount(text, '|');
    JoinSplit(text, '|');
    assert |f| == 2;
    assert Join(f, '|') == f[0] + "|" + f[1];
    assert "Received '" + f[0] + "|" + f[1] + "'<br />" == "Received '" + text + "'<br />";
  }

  /** A form submission without text echoes the two nil UUIDs. */
  lemma FormSubmitAbsentText(running: bool, m: WsMessage)
    requires m.msgType == Some("formSubmit") && m.text.None?
    ensures Step(running, m) == Outcome(running, [Echo(NullUUID, NullUUID)], false)
  {
    var text := NullUUID + "|" + NullUUID;
    assert '|' !in NullUUID;
    SplitJoin([NullUUID, NullUUID], '|');
    assert Join([NullUUID, NullUUID], '|') == text;
  }

  /** Only engineControl messages change the flag. */
  lemma OnlyEngineControlChangesFlag(running: bool, m: WsMessage)
    requires Step(running, m).running != running
    ensures OrEmpty(m.msgType) == "engineControl"
  {
  }

  /**
   * After any sequence of messages handled without a panic, the flag is
   * decided by the last engineControl message, and is the initial flag
   * when there was none.
   */
  lemma {:induction false} RunFlag(initial: bool, msgs: seq<WsMessage>)
    requires !Run(initial, msgs).crashed
    ensures Run(initial, msgs).running == LastControl(initial, msgs)
  {
    if |msgs| > 0 {
      var prefix, last := msgs[..|msgs| - 1], msgs[|msgs| - 1];
      assert msgs == prefix + [last];
      assert msgs[..|msgs| - 1] == prefix;
      RunFlag(initial, prefix);
    }
  }

  /** The engine is still running after any messages without an engineControl among them. */
  lemma {:induction false} RunningWithoutControl(msgs: seq<WsMessage>)
    requires forall k :: 0 <= k < |msgs| ==> OrEmpty(msgs[k].msgType) != "engineControl"
    requires !Run(true, msgs).crashed
    ensures Run(true, msgs).running
  {
    RunFlag(true, msgs);
    LastControlWithoutControl(true, msgs);
  }

  lemma {:induction false} LastControlWithoutControl(initial: bool, msgs: seq<WsMessage>)
    requires forall k :: 0 <= k < |msgs| ==> OrEmpty(msgs[k].msgType) != "engineControl"
    ensures LastControl(initial, msgs) == initial
  {
    if |msgs| > 0 {
      LastControlWithoutControl(initial, msgs[..|msgs| - 1]);
    }
  }

  // ---------------------------------------------------------------------
  // convertLocPos
  // ---------------------------------------------------------------------

  /** The characters strings.Trim strips from a position. */
  const PositionCutset: set<char> := {'(', ')', ' ', '\t', '\n', '\r'}

  datatype LocPos = LocPos(regionName: string, xyz: seq<string>)

  /**
   * convertLocPos: the region name is everything before the first "(" of
   * the location except the one character just before it; the position,
   * trimmed of brackets and white space, is split at its commas. The
   * location must hold a "(" after its first character (Go's slice bound
   * is negative otherwise).
   */
  function ConvertLocPos(location: string, position: string): (r: LocPos)
    requires Index(location, '(') >= 1
    ensures var i := Index(location, '(');
      && |r.regionName| == i - 1
      && r.regionName + [location[i - 1], '('] == location[..i + 1]
      && '(' !in r.regionName
    ensures var coords := Trim(position, PositionCutset);
      && Join(r.xyz, ',') == coords
      && |r.xyz| == Count(coords, ',') + 1
      && (forall k :: 0 <= k < |r.xyz| ==> ',' !in r.xyz[k])
  {
    var i := Index(location, '(');
    var regionName := location[..i - 1];
    var coords := Trim(position, PositionCutset);
    var xyz := Split(coords, ',');
    assert location[..i + 1] == location[..i - 1] + [location[i - 1], location[i]];
    JoinSplit(coords, ',');
    SplitCount(coords, ',');
    LocPos(regionName, xyz)
  }

  /**
   * A typical location and position. The literals are parameters fixed by
   * `requires` so that the solver does not unfold the string functions on
   * them until the helper lemmas below ask it to.
   */
  lemma ConvertLocPosExample(location: string, position: string)
    requires location == "Ada (1, 2, 3)" && position == "(1.5, 2, 3)"
    ensures Index(location, '(') == 4
    ensures ConvertLocPos(location, position) == LocPos("Ada", ["1.5", " 2", " 3"])
  {
    ExampleRegion(location, position);
    ExampleCoordinates(location, position);
  }

  lemma ExampleRegion(location: string, position: string)
    requires location == "Ada (1, 2, 3)"
    ensures Index(location, '(') == 4
    ensures ConvertLocPos(location, position).regionName == "Ada"
  {
    ExampleIndex();
    assert ConvertLocPos(location, position).regionName == location[..5][..3];
  }

  lemma ExampleCoordinates(location: string, position: string)
    requires location == "Ada (1, 2, 3)" && position == "(1.5, 2, 3)"
    ensures Index(location, '(') >= 1
    ensures ConvertLocPos(location, position).xyz == ["1.5", " 2", " 3"]
  {
    ExampleIndex();
    var xyz := ConvertLocPos(location, position).xyz;
    ExampleTrim();
    ExampleSplit();
    SplitJoin(xyz, ',');
  }

  lemma ExampleIndex()
    ensures Index("Ada (1, 2, 3)", '(') == 4
  {
    var location := "Ada (1, 2, 3)";
    assert location == "Ada " + location[4..] && location[4] == '(';
    assert '(' !in "Ada ";
  }

  lemma ExampleTrim()
    ensures Trim("(1.5, 2, 3)", PositionCutset) == "1.5, 2, 3"
  {
    var position := "(1.5, 2, 3)";
    assert '(' in PositionCutset && ')' in PositionCutset;
    assert '1' !in PositionCutset && '3' !in PositionCutset;
    assert SkipLeading(position, PositionCutset, 1) == 1;
    assert SkipLeading(position, PositionCutset, 0) == 1;
    assert SkipTrailing(position, PositionCutset, 1, 10) == 10;
    assert SkipTrailing(position, PositionCutset, 1, 11) == 10;
    assert position[1..10] == "1.5, 2, 3";
  }

  lemma ExampleSplit()
    ensures Split("1.5, 2, 3", ',') == ["1.5", " 2", " 3"]
  {
    assert Join(["1.5", " 2", " 3"], ',') == "1.5, 2, 3";
    SplitJoin(["1.5", " 2", " 3"], ',');
  }
}
