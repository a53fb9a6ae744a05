/** The mirror command handler: it never executes a command, it only confirms what Agent Mesh already did. */
module Commands {
  import opened Wrappers
  import opened Tables
  import Outbox

  const AGENT_PROMPT_CAPABILITY := "agent.prompt.submit"
  const DISPLAY_CAPABILITY := "display.text.render"
  const PROMPT_BYTES := 32768
  const DISPLAY_BYTES := 4096

  /** A parameter that is no text keeps no value here. */
  datatype Parameter = TextParameter(text: string) | OtherParameter

  datatype Command = Command(
    commandId: string,
    idempotencyKey: string,
    targetNodeId: string,
    sessionId: string,
    correlationId: string,
    causationId: Option<string>,
    action: string,
    parameters: map<string, Parameter>,
    expiresAt: int)

  /** The registered nodes, and the Agent Mesh session each agent node stands for. */
  datatype Mapping = Mapping(nodes: set<string>, agentSessions: map<string, string>)

  // ---------------------------------------------------------------- parameters

  /** White space and line terminators, as `String.prototype.trim` removes them. */
  predicate IsTrimmed(c: char) {
    || '\t' <= c <= '\r' || c == ' ' || c == '\U{A0}' || c == '\U{1680}' || '\U{2000}' <= c <= '\U{200A}'
    || c == '\U{2028}' || c == '\U{2029}' || c == '\U{202F}' || c == '\U{205F}' || c == '\U{3000}' || c == '\U{FEFF}'
  }

  predicate IsBlank(s: string) { forall i :: 0 <= i < |s| ==> IsTrimmed(s[i]) }

  function Utf8Length(s: string): nat {
    if s == "" then 0
    else
      (if s[0] < '\U{80}' then 1 else if s[0] < '\U{800}' then 2 else if s[0] < '\U{10000}' then 3 else 4) +
        Utf8Length(s[1..])
  }

  /** The parameter of that name, when it is the only one and a text that is neither blank nor too long. */
  function ExactText(parameters: map<string, Parameter>, name: string, maximumBytes: nat): (text: Option<string>)
    ensures text.Some? <==>
              exists t :: parameters == map[name := TextParameter(t)] && !IsBlank(t) && Utf8Length(t) <= maximumBytes
    ensures text.Some? ==> parameters == map[name := TextParameter(text.value)]
  {
    OnlyKey(parameters, name);
    if |parameters| != 1 || name !in parameters then None
    else
      match parameters[name]
      case OtherParameter => None
      case TextParameter(t) => if IsBlank(t) || Utf8Length(t) > maximumBytes then None else Some(t)
  }

  lemma OnlyKey(parameters: map<string, Parameter>, name: string)
    ensures |parameters| == 1 && name in parameters <==>
            name in parameters && parameters == map[name := parameters[name]]
  {
    if name in parameters {
      var only := map[name := parameters[name]];
      assert only.Keys == {name} && |only.Keys| == |only|;
      if |parameters| == 1 {
        assert |parameters.Keys - {name}| == |parameters.Keys| - 1 && |parameters.Keys| == |parameters|;
        assert parameters.Keys == {name};
      }
    }
  }

  // ---------------------------------------------------------------- the decision

  /** The terminal stage of a command, why, and the route to remember. */
  datatype Verdict = Verdict(stage: Stage, code: string, route: Option<(string, Route)>)

  ghost function Caused(s: Store, c: Command): Option<Receipt> {
    if c.causationId.None? then None else ReceiptForMessage(s, c.causationId.value)
  }

  ghost function JudgePrompt(s: Store, c: Command, m: Mapping, now: int, sha: string -> string): Verdict {
    var prompt, receipt := ExactText(c.parameters, "prompt", PROMPT_BYTES), Caused(s, c);
    if c.targetNodeId !in m.agentSessions then Verdict(Rejected, "TARGET_UNKNOWN", None)
    else if prompt.None? then Verdict(Rejected, "INVALID_PARAMETERS", None)
    else if receipt.None? || receipt.value.kind != IntentKind || !receipt.value.alreadyDispatched then
      Verdict(Rejected, "COMPATIBILITY_MIRROR_ONLY", None)
    else if receipt.value.sessionId != Some(m.agentSessions[c.targetNodeId]) then
            Verdict(Rejected, "MIRROR_TARGET_MISMATCH", None)
    else if receipt.value.semanticSha256 != sha(prompt.value) then Verdict(Rejected, "MIRROR_PAYLOAD_MISMATCH", None)
    else
      var route := if receipt.value.dispatchedSessionId.None? then None
                   else Some((receipt.value.dispatchedSessionId.value, Route(c.targetNodeId, c.correlationId, now)));
      Verdict(Succeeded, "AGENT_MESH_ALREADY_DISPATCHED", route)
  }

  ghost function JudgeDisplay(s: Store, c: Command, m: Mapping, sha: string -> string): Verdict {
    var text, receipt := ExactText(c.parameters, "text", DISPLAY_BYTES), Caused(s, c);
    if c.targetNodeId !in m.nodes then Verdict(Rejected, "TARGET_UNKNOWN", None)
    else if text.None? then Verdict(Rejected, "INVALID_PARAMETERS", None)
    else if receipt.None? || receipt.value.kind != CompletionKind || !receipt.value.legacyDisplayDelivered ||
            receipt.value.semanticSha256 != sha(text.value) then
      Verdict(Rejected, "DISPLAY_SINK_UNAVAILABLE", None)
    else Verdict(Succeeded, "DISPLAY_ALREADY_PROJECTED", None)
  }

  ghost function Judge(s: Store, c: Command, m: Mapping, now: int, sha: string -> string): Verdict {
    if c.expiresAt <= now then Verdict(TimedOut, "COMMAND_EXPIRED", None)
    else if c.action == AGENT_PROMPT_CAPABILITY then JudgePrompt(s, c, m, now, sha)
    else if c.action == DISPLAY_CAPABILITY then JudgeDisplay(s, c, m, sha)
    else Verdict(Rejected, "CAPABILITY_UNSUPPORTED", None)
  }

  /** What a receipt has to say for a prompt command to count as done. */
  ghost predicate MirrorsPrompt(receipt: Receipt, c: Command, m: Mapping, sha: string -> string) {
    && receipt.kind == IntentKind && receipt.alreadyDispatched
    && c.targetNodeId in m.agentSessions && receipt.sessionId == Some(m.agentSessions[c.targetNodeId])
    && exists prompt :: c.parameters == map["prompt" := TextParameter(prompt)] && !IsBlank(prompt) &&
                        Utf8Length(prompt) <= PROMPT_BYTES && receipt.semanticSha256 == sha(prompt)
  }

  ghost predicate MirrorsDisplay(receipt: Receipt, c: Command, m: Mapping, sha: string -> string) {
    && receipt.kind == CompletionKind && receipt.legacyDisplayDelivered && c.targetNodeId in m.nodes
    && exists text :: c.parameters == map["text" := TextParameter(text)] && !IsBlank(text) &&
                      Utf8Length(text) <= DISPLAY_BYTES && receipt.semanticSha256 == sha(text)
  }

  /** A command succeeds exactly when it is in time and its causing message left a receipt that mirrors it. */
  lemma SucceedsExactly(s: Store, c: Command, m: Mapping, now: int, sha: string -> string)
    ensures Judge(s, c, m, now, sha).stage == Succeeded <==>
              now < c.expiresAt && Caused(s, c).Some? &&
              (|| (c.action == AGENT_PROMPT_CAPABILITY && MirrorsPrompt(Caused(s, c).value, c, m, sha))
               || (c.action == DISPLAY_CAPABILITY && MirrorsDisplay(Caused(s, c).value, c, m, sha)))
  {
    hide Caused, JudgePrompt, JudgeDisplay, MirrorsPrompt, MirrorsDisplay;
    assert AGENT_PROMPT_CAPABILITY[0] != DISPLAY_CAPABILITY[0];
    PromptSucceeds(s, c, m, now, sha);
    DisplaySucceeds(s, c, m, sha);
  }

  lemma PromptSucceeds(s: Store, c: Command, m: Mapping, now: int, sha: string -> string)
    ensures JudgePrompt(s, c, m, now, sha).stage == Succeeded <==>
            Caused(s, c).Some? && MirrorsPrompt(Caused(s, c).value, c, m, sha)
  {
    hide Caused, Utf8Length, IsBlank;
    if prompt :| c.parameters == map["prompt" := TextParameter(prompt)] {
      assert c.parameters["prompt"].text == prompt;
    }
  }

  lemma DisplaySucceeds(s: Store, c: Command, m: Mapping, sha: string -> string)
    ensures JudgeDisplay(s, c, m, sha).stage == Succeeded <==>
            Caused(s, c).Some? && MirrorsDisplay(Caused(s, c).value, c, m, sha)
  {
    hide Caused, Utf8Length, IsBlank;
    if text :| c.parameters == map["text" := TextParameter(text)] { assert c.parameters["text"].text == text; }
  }

  /**
   * Every verdict ends the command, and exactly a successful prompt whose cause was dispatched to a session leaves a
   * route, from that session to the command's target.
   */
  lemma VerdictTerminal(s: Store, c: Command, m: Mapping, now: int, sha: string -> string)
    ensures var v := Judge(s, c, m, now, sha);
            && IsTerminal(v.stage)
            && (v.route.Some? <==>
                  v.stage == Succeeded && c.action == "agent.prompt.submit" && Caused(s, c).Some? &&
                  Caused(s, c).value.dispatchedSessionId.Some?)
            && (v.route.Some? && Caused(s, c).Some? ==>
                  Some(v.route.value.0) == Caused(s, c).value.dispatchedSessionId &&
                  v.route.value.1 == Route(c.targetNodeId, c.correlationId, now))
  {
    hide Caused, ExactText;
  }

  predicate OnlyText(c: Command, name: string, maximumBytes: nat) {
    && |c.parameters| == 1 && name in c.parameters && c.parameters[name].TextParameter?
    && !IsBlank(c.parameters[name].text) && Utf8Length(c.parameters[name].text) <= maximumBytes
  }

  /** Why a prompt command in time is not done, or that it is. */
  ghost predicate PromptCode(s: Store, c: Command, m: Mapping, sha: string -> string, code: string) {
    var receipt := Caused(s, c);
    var mirrored := receipt.Some? && receipt.value.kind.IntentKind? && receipt.value.alreadyDispatched;
    if c.targetNodeId !in m.agentSessions then code == "TARGET_UNKNOWN"
    else if !OnlyText(c, "prompt", 32768) then code == "INVALID_PARAMETERS"
    else if !mirrored then code == "COMPATIBILITY_MIRROR_ONLY"
    else if receipt.value.sessionId != Some(m.agentSessions[c.targetNodeId]) then code == "MIRROR_TARGET_MISMATCH"
    else if receipt.value.semanticSha256 != sha(c.parameters["prompt"].text) then code == "MIRROR_PAYLOAD_MISMATCH"
    else code == "AGENT_MESH_ALREADY_DISPATCHED"
  }

  ghost predicate DisplayCode(s: Store, c: Command, m: Mapping, sha: string -> string, code: string) {
    var receipt := Caused(s, c);
    var shown := receipt.Some? && receipt.value.kind.CompletionKind? && receipt.value.legacyDisplayDelivered;
    if c.targetNodeId !in m.nodes then code == "TARGET_UNKNOWN"
    else if !OnlyText(c, "text", 4096) then code == "INVALID_PARAMETERS"
    else if shown && receipt.value.semanticSha256 == sha(c.parameters["text"].text) then
      code == "DISPLAY_ALREADY_PROJECTED"
    else code == "DISPLAY_SINK_UNAVAILABLE"
  }

  /** The code says why, and the stage follows from the code. */
  lemma VerdictExplained(s: Store, c: Command, m: Mapping, now: int, sha: string -> string)
    ensures var v := Judge(s, c, m, now, sha);
            && (c.expiresAt <= now <==> v.code == "COMMAND_EXPIRED")
            && (now < c.expiresAt && c.action == "agent.prompt.submit" ==> PromptCode(s, c, m, sha, v.code))
            && (now < c.expiresAt && c.action == "display.text.render" ==> DisplayCode(s, c, m, sha, v.code))
            && (now < c.expiresAt && c.action != "agent.prompt.submit" && c.action != "display.text.render" ==>
                  v.code == "CAPABILITY_UNSUPPORTED")
            && v.stage ==
               (if v.code == "COMMAND_EXPIRED" then TimedOut
                else if v.code == "AGENT_MESH_ALREADY_DISPATCHED" || v.code == "DISPLAY_ALREADY_PROJECTED" then
                  Succeeded
                else Rejected)
  {
    hide Caused, Utf8Length, IsBlank, ExactText, PromptCode, DisplayCode, JudgePrompt, JudgeDisplay;
    PromptExplained(s, c, m, now, sha);
    DisplayExplained(s, c, m, sha);
    assert AGENT_PROMPT_CAPABILITY[0] != DISPLAY_CAPABILITY[0];
  }

  lemma TextExactly(c: Command, name: string, maximumBytes: nat)
    ensures ExactText(c.parameters, name, maximumBytes) ==
            if OnlyText(c, name, maximumBytes) then Some(c.parameters[name].text) else None
  {
    hide Utf8Length, IsBlank;
  }

  lemma PromptExplained(s: Store, c: Command, m: Mapping, now: int, sha: string -> string)
    ensures var v := JudgePrompt(s, c, m, now, sha);
            && PromptCode(s, c, m, sha, v.code) && v.code != "COMMAND_EXPIRED"
            && (v.stage == Succeeded || v.stage == Rejected)
            && (v.stage == Succeeded <==> v.code == "AGENT_MESH_ALREADY_DISPATCHED")
            && v.code != "DISPLAY_ALREADY_PROJECTED"
  {
    hide Caused, OnlyText, ExactText;
    TextExactly(c, "prompt", PROMPT_BYTES);
    assert "COMPATIBILITY_MIRROR_ONLY"[0] != "DISPLAY_ALREADY_PROJECTED"[0];
  }

  lemma DisplayExplained(s: Store, c: Command, m: Mapping, sha: string -> string)
    ensures var v := JudgeDisplay(s, c, m, sha);
            && DisplayCode(s, c, m, sha, v.code) && v.code != "COMMAND_EXPIRED"
            && (v.stage == Succeeded || v.stage == Rejected)
            && (v.stage == Succeeded <==> v.code == "DISPLAY_ALREADY_PROJECTED")
            && v.code != "AGENT_MESH_ALREADY_DISPATCHED"
  {
    hide Caused, OnlyText, ExactText;
    TextExactly(c, "text", DISPLAY_BYTES);
  }

  /** The lifecycles a verdict is reported with; a success is accepted first. */
  function Reports(c: Command, v: Verdict): seq<Lifecycle> {
    var end := Lifecycle(c.commandId, v.stage, c.sessionId, Some(v.code));
    if v.stage == Succeeded then [Lifecycle(c.commandId, Accepted, c.sessionId, None), end] else [end]
  }

  // ---------------------------------------------------------------- one delivery of a command

  predicate SameOperation(row: CommandRow, c: Command) {
    row.idempotencyKey == c.idempotencyKey && row.targetNodeId == c.targetNodeId && row.correlationId == c.correlationId
  }

  function NewRow(c: Command, now: int): CommandRow {
    CommandRow(c.idempotencyKey, c.targetNodeId, Dispatched, c.correlationId, now)
  }

  function Remember(s: Store, route: Option<(string, Route)>): Store {
    if route.None? then s else RecordRoute(s, route.value.0, route.value.1)
  }

  ghost function Finished(s: Store, c: Command, v: Verdict, now: int): Store {
    UpdateCommand(Remember(s, v.route), c.commandId, v.stage, now)
  }

  /** The lifecycles to enqueue, or None for a throw. */
  ghost function Answer(s: Store, c: Command, m: Mapping, now: int, sha: string -> string): Option<seq<Lifecycle>> {
    if c.commandId in s.commands then
      if !SameOperation(s.commands[c.commandId], c) then None
      else if IsTerminal(s.commands[c.commandId].stage) then Some([])
      else Some(Reports(c, Judge(s, c, m, now, sha)))
    else if IdempotencyUsed(s, c.idempotencyKey) then None
    else Some(Reports(c, Judge(s, c, m, now, sha)))
  }

  ghost function Handled(s: Store, c: Command, m: Mapping, now: int, sha: string -> string): Store {
    if Answer(s, c, m, now, sha) == None || Answer(s, c, m, now, sha) == Some([]) then s
    else Finished(Tables.RecordCommand(s, c.commandId, NewRow(c, now)), c, Judge(s, c, m, now, sha), now)
  }

  /** A delivery that returned leaves the command stored, as the same operation, in a terminal stage. */
  lemma HandledTerminal(s: Store, c: Command, m: Mapping, now: int, sha: string -> string)
    requires Answer(s, c, m, now, sha).Some?
    ensures var t := Handled(s, c, m, now, sha);
            c.commandId in t.commands && SameOperation(t.commands[c.commandId], c) &&
              IsTerminal(t.commands[c.commandId].stage)
  {
    hide Judge, Answer, Handled;
    VerdictTerminal(s, c, m, now, sha);
    DeliveryExactly(s, c, m, now, sha);
  }

  /**
   * What one delivery does, in full: nothing when it throws or is silent, and otherwise it stores the verdict's stage
   * with the time, remembers its route, and answers with its lifecycles.
   */
  lemma DeliveryExactly(s: Store, c: Command, m: Mapping, now: int, sha: string -> string)
    ensures var v, t, answer := Judge(s, c, m, now, sha), Handled(s, c, m, now, sha), Answer(s, c, m, now, sha);
            var same := c.commandId in s.commands &&
              s.commands[c.commandId].idempotencyKey == c.idempotencyKey &&
              s.commands[c.commandId].targetNodeId == c.targetNodeId &&
              s.commands[c.commandId].correlationId == c.correlationId;
            if same && s.commands[c.commandId].stage in {Succeeded, Failed, Cancelled, TimedOut, Rejected} then
              answer == Some([]) && t == s
            else if (if c.commandId in s.commands then !same
                     else exists d :: d in s.commands && s.commands[d].idempotencyKey == c.idempotencyKey) then
              answer == None && t == s
            else
              && answer == Some((if v.stage == Succeeded then [Lifecycle(c.commandId, Accepted, c.sessionId, None)]
                                 else []) + [Lifecycle(c.commandId, v.stage, c.sessionId, Some(v.code))])
              && t.commands == s.commands[c.commandId :=
                   CommandRow(c.idempotencyKey, c.targetNodeId, v.stage, c.correlationId, now)]
              && t.routes == (if v.route.None? then s.routes else s.routes[v.route.value.0 := v.route.value.1])
              && t == s.(commands := t.commands, routes := t.routes)
  {
    hide Judge, Reports, Finished, Tables.RecordCommand, IdempotencyUsed;
    ReportsListed(c, Judge(s, c, m, now, sha));
    UsedExactly(s, c.idempotencyKey);
    var finishes := if c.commandId in s.commands then SameOperation(s.commands[c.commandId], c)
                    else !IdempotencyUsed(s, c.idempotencyKey);
    if finishes {
      FinishedRow(s, c, Judge(s, c, m, now, sha), now);
    }
  }

  lemma UsedExactly(s: Store, key: string)
    ensures IdempotencyUsed(s, key) <==> exists d :: d in s.commands && s.commands[d].idempotencyKey == key
  {
  }

  lemma FinishedRow(s: Store, c: Command, v: Verdict, now: int)
    requires if c.commandId in s.commands then SameOperation(s.commands[c.commandId], c)
             else !IdempotencyUsed(s, c.idempotencyKey)
    ensures Finished(Tables.RecordCommand(s, c.commandId, NewRow(c, now)), c, v, now) ==
            s.(commands := s.commands[c.commandId :=
                 CommandRow(c.idempotencyKey, c.targetNodeId, v.stage, c.correlationId, now)],
               routes := if v.route.None? then s.routes else s.routes[v.route.value.0 := v.route.value.1])
  {
    var t := Tables.RecordCommand(s, c.commandId, NewRow(c, now));
    if c.commandId !in s.commands {
      assert t.commands == s.commands[c.commandId := NewRow(c, now)];
      var row := CommandRow(c.idempotencyKey, c.targetNodeId, v.stage, c.correlationId, now);
      assert t.commands[c.commandId := row] == s.commands[c.commandId := row];
    }
  }

  lemma ReportsListed(c: Command, v: Verdict)
    ensures Reports(c, v) != [] && Reports(c, v) ==
            (if v.stage == Succeeded then [Lifecycle(c.commandId, Accepted, c.sessionId, None)] else []) +
            [Lifecycle(c.commandId, v.stage, c.sessionId, Some(v.code))]
  {
  }

  /** After any delivery that returned, a redelivery of the same operation changes nothing and reports nothing. */
  lemma RedeliverySilent(s: Store, c: Command, m: Mapping, now: int, again: Command, n: Mapping, later: int,
      sha: string -> string)
    requires Answer(s, c, m, now, sha).Some?
    requires again.commandId == c.commandId && again.idempotencyKey == c.idempotencyKey
    requires again.targetNodeId == c.targetNodeId && again.correlationId == c.correlationId
    ensures Answer(Handled(s, c, m, now, sha), again, n, later, sha) == Some([])
    ensures Handled(Handled(s, c, m, now, sha), again, n, later, sha) == Handled(s, c, m, now, sha)
  {
    hide Answer, Handled;
    HandledTerminal(s, c, m, now, sha);
    SilentOnceTerminal(Handled(s, c, m, now, sha), again, n, later, sha);
  }

  lemma SilentOnceTerminal(s: Store, c: Command, m: Mapping, now: int, sha: string -> string)
    requires c.commandId in s.commands && SameOperation(s.commands[c.commandId], c) &&
             IsTerminal(s.commands[c.commandId].stage)
    ensures Answer(s, c, m, now, sha) == Some([]) && Handled(s, c, m, now, sha) == s
  {
  }

  class MirrorCommandHandler {
    const outbox: Outbox.BridgeOutbox
    /** The semantic hash; nothing about it is assumed. */
    const sha: string -> string

    constructor (outbox: Outbox.BridgeOutbox, sha: string -> string)
      ensures this.outbox == outbox && this.sha == sha
    {
      this.outbox, this.sha := outbox, sha;
    }

    method Handle(c: Command, m: Mapping, now: int) returns (answer: Option<seq<Lifecycle>>)
      requires Consistent(outbox.Contents())
      modifies outbox
      ensures answer == Answer(old(outbox.Contents()), c, m, now, sha)
      ensures outbox.Contents() == Handled(old(outbox.Contents()), c, m, now, sha) && Consistent(outbox.Contents())
    {
      hide Judge, Consistent;
      var existing := outbox.Command(c.commandId);
      if existing.Some? {
        if !SameOperation(existing.value, c) {
          return None;
        }
        if IsTerminal(existing.value.stage) {
          return Some([]);
        }
        var again := Finish(c, m, now);
        return Some(again);
      }
      var recorded := outbox.RecordCommand(c.commandId, NewRow(c, now));
      if recorded.None? {
        return None;
      }
      JudgeIgnoresCommands(old(outbox.Contents()), outbox.Contents(), c, m, now, sha);
      var first := Finish(c, m, now);
      answer := Some(first);
    }

    method Finish(c: Command, m: Mapping, now: int) returns (reports: seq<Lifecycle>)
      requires Consistent(outbox.Contents()) && c.commandId in outbox.commands
      modifies outbox
      ensures var v := Judge(old(outbox.Contents()), c, m, now, sha);
              reports == Reports(c, v) && outbox.Contents() == Finished(old(outbox.Contents()), c, v, now)
      ensures Consistent(outbox.Contents())
    {
      hide JudgePrompt, JudgeDisplay, Consistent;
      if c.expiresAt <= now {
        var timedOut := Terminal(c, Verdict(TimedOut, "COMMAND_EXPIRED", None), now);
        return [timedOut];
      }
      if c.action == AGENT_PROMPT_CAPABILITY {
        reports := AgentPrompt(c, m, now);
        return;
      }
      if c.action == DISPLAY_CAPABILITY {
        reports := Display(c, m, now);
        return;
      }
      var unsupported := Terminal(c, Verdict(Rejected, "CAPABILITY_UNSUPPORTED", None), now);
      reports := [unsupported];
    }

    method AgentPrompt(c: Command, m: Mapping, now: int) returns (reports: seq<Lifecycle>)
      requires Consistent(outbox.Contents()) && c.commandId in outbox.commands
      modifies outbox
      ensures var v := JudgePrompt(old(outbox.Contents()), c, m, now, sha);
              reports == Reports(c, v) && outbox.Contents() == Finished(old(outbox.Contents()), c, v, now)
      ensures Consistent(outbox.Contents())
    {
      hide Tables.ReceiptForMessage, Consistent;
      if c.targetNodeId !in m.agentSessions {
        var unknown := Terminal(c, Verdict(Rejected, "TARGET_UNKNOWN", None), now);
        return [unknown];
      }
      var prompt := ExactText(c.parameters, "prompt", PROMPT_BYTES);
      if prompt.None? {
        var invalid := Terminal(c, Verdict(Rejected, "INVALID_PARAMETERS", None), now);
        return [invalid];
      }
      var receipt: Option<Receipt> := None;
      if c.causationId.Some? {
        receipt := outbox.ReceiptForMessage(c.causationId.value);
      }
      if receipt.None? || receipt.value.kind != IntentKind || !receipt.value.alreadyDispatched {
        var mirrorOnly := Terminal(c, Verdict(Rejected, "COMPATIBILITY_MIRROR_ONLY", None), now);
        return [mirrorOnly];
      }
      if receipt.value.sessionId != Some(m.agentSessions[c.targetNodeId]) {
        var otherTarget := Terminal(c, Verdict(Rejected, "MIRROR_TARGET_MISMATCH", None), now);
        return [otherTarget];
      }
      if receipt.value.semanticSha256 != sha(prompt.value) {
        var otherPayload := Terminal(c, Verdict(Rejected, "MIRROR_PAYLOAD_MISMATCH", None), now);
        return [otherPayload];
      }
      if receipt.value.dispatchedSessionId.Some? {
        outbox.RecordAgentRoute(receipt.value.dispatchedSessionId.value, Route(c.targetNodeId, c.correlationId, now));
        SameTables(old(outbox.Contents()), outbox.Contents());
      }
      var succeeded := Terminal(c, Verdict(Succeeded, "AGENT_MESH_ALREADY_DISPATCHED", None), now);
      reports := [Lifecycle(c.commandId, Accepted, c.sessionId, None), succeeded];
    }

    method Display(c: Command, m: Mapping, now: int) returns (reports: seq<Lifecycle>)
      requires Consistent(outbox.Contents()) && c.commandId in outbox.commands
      modifies outbox
      ensures var v := JudgeDisplay(old(outbox.Contents()), c, m, sha);
              reports == Reports(c, v) && outbox.Contents() == Finished(old(outbox.Contents()), c, v, now)
      ensures Consistent(outbox.Contents())
    {
      hide Tables.ReceiptForMessage, Consistent;
      if c.targetNodeId !in m.nodes {
        var unknown := Terminal(c, Verdict(Rejected, "TARGET_UNKNOWN", None), now);
        return [unknown];
      }
      var text := ExactText(c.parameters, "text", DISPLAY_BYTES);
      if text.None? {
        var invalid := Terminal(c, Verdict(Rejected, "INVALID_PARAMETERS", None), now);
        return [invalid];
      }
      var receipt: Option<Receipt> := None;
      if c.causationId.Some? {
        receipt := outbox.ReceiptForMessage(c.causationId.value);
      }
      if receipt.None? || receipt.value.kind != CompletionKind || !receipt.value.legacyDisplayDelivered ||
         receipt.value.semanticSha256 != sha(text.value) {
        var unavailable := Terminal(c, Verdict(Rejected, "DISPLAY_SINK_UNAVAILABLE", None), now);
        return [unavailable];
      }
      var succeeded := Terminal(c, Verdict(Succeeded, "DISPLAY_ALREADY_PROJECTED", None), now);
      reports := [Lifecycle(c.commandId, Accepted, c.sessionId, None), succeeded];
    }

    /** Stores the terminal stage, then builds its report. */
    method Terminal(c: Command, v: Verdict, now: int) returns (report: Lifecycle)
      requires Consistent(outbox.Contents()) && c.commandId in outbox.commands
      modifies outbox
      ensures outbox.Contents() == Tables.UpdateCommand(old(outbox.Contents()), c.commandId, v.stage, now)
      ensures Consistent(outbox.Contents())
      ensures report == Lifecycle(c.commandId, v.stage, c.sessionId, Some(v.code))
    {
      var _ := outbox.UpdateCommand(c.commandId, v.stage, now);
      report := Lifecycle(c.commandId, v.stage, c.sessionId, Some(v.code));
    }
  }

  /** The verdict depends on the receipts only. */
  lemma JudgeIgnoresCommands(s: Store, t: Store, c: Command, m: Mapping, now: int, sha: string -> string)
    requires Consistent(s) && Consistent(t) && s.events == t.events && s.accepted == t.accepted
    ensures Judge(s, c, m, now, sha) == Judge(t, c, m, now, sha)
  {
    hide ExactText, Tables.ReceiptForMessage, Consistent;
    if c.causationId.Some? { SameReceipts(s, t, c.causationId.value); }
  }

  lemma SameReceipts(s: Store, t: Store, messageId: string)
    requires Consistent(s) && Consistent(t) && s.events == t.events && s.accepted == t.accepted
    ensures ReceiptForMessage(s, messageId) == ReceiptForMessage(t, messageId)
  {
    hide Consistent;
    if f :| f in s.events && s.events[f].frame.messageId == messageId {
      PendingUnique(s, f);
      PendingUnique(t, f);
    }
  }
}
