/**
 * The preset builders.  Each is a constructor of the operation-style
 * builder with a fixed message type; the broadcast ones then call a setter
 * that the enable switch gates, so what they set depends on the switch at
 * construction time.  In the model each preset is a factory method that
 * returns a fresh `SLog`.
 */
module SLogPresets {
  import opened Wrappers
  import opened Escaping
  import opened Wire
  import opened UserData
  import opened SLogs

  /** How a task or operation argument shows in the line: escaped, or its sentinel when null or empty. */
  function Shown(v: Option<string>, sentinel: string): string {
    if v.None? || v.value == [] then sentinel else Escape(v.value)
  }

  /** The three fields every preset line opens with. */
  function Opening(task: Option<string>, operation: Option<string>, m: MessageType): string {
    "$SPG$+T=" + Shown(task, MissingTask) + ";+O=" + Shown(operation, MissingOperation) + ";+M=" + m.Letter() + ";"
  }

  /** Escaping keeps a string non-empty exactly when it was. */
  lemma EscapeEmpty(s: string)
    ensures Escape(s) == [] <==> s == []
  {
  }

  /** The task and operation `Build` writes for a freshly constructed builder. */
  lemma NormalizeInitial(task: Option<string>, operation: Option<string>, m: Option<MessageType>)
    ensures var n := Normalize(Initial(task, operation, m));
      n.task == Some(Shown(task, MissingTask)) && n.operation == Some(Shown(operation, MissingOperation))
  {
    if task.Some? {
      EscapeEmpty(task.value);
    }
    if operation.Some? {
      EscapeEmpty(operation.value);
    }
  }

  /**
   * The line of a builder that holds only what a preset can set: the
   * opening fields, then the alias when present, then `+MC=1;` when the
   * multicast flag is set, and nothing else.
   */
  lemma PresetLine(task: Option<string>, operation: Option<string>, m: MessageType, alias: Option<string>, multicast: bool)
    ensures Render(Initial(task, operation, Some(m)).(operationAlias := alias, multicast := multicast))
      == Opening(task, operation, m)
        + (if alias.Some? then "+OA=" + alias.value + ";" else "")
        + (if multicast then "+MC=1;" else "")
  {
    var e := Initial(task, operation, Some(m)).(operationAlias := alias, multicast := multicast);
    var n := Normalize(e);
    NormalizeInitial(task, operation, Some(m));
    var mc: Option<string> := if multicast then Some("1") else None;
    var p1 := Base(n) + Opt(OperationAliasKey, alias);
    var p3 := p1 + Opt(ComponentKey, None) + Opt(InstrumentationKey, None);
    assert Render(e) == Line(Tokens(p1 + Opt(MulticastKey, mc), Token)) by {
      assert p3 == p1;
      assert Header(n) == p3 + Opt(MulticastKey, mc);
      assert Pairs(n.userData) == [];
      assert Fields(n) == Tokens(Header(n), Token);
    }
    assert Line(Tokens(Base(n), Token)) == Opening(task, operation, m) by {
      OpeningText(n, task, operation, m);
    }
    var aliasText := if alias.Some? then "+OA=" + alias.value + ";" else "";
    var mcText := if multicast then "+MC=1;" else "";
    assert Line(Tokens(p1, Token)) == Opening(task, operation, m) + aliasText by {
      LineExtendOpt(Base(n), OperationAliasKey, alias, Token);
      if alias.Some? {
        assert FieldText((Token(OperationAliasKey), alias.value)) == aliasText;
      }
    }
    assert Line(Tokens(p1 + Opt(MulticastKey, mc), Token)) == Line(Tokens(p1, Token)) + mcText by {
      LineExtendOpt(p1, MulticastKey, mc, Token);
      if multicast {
        assert FieldText((Token(MulticastKey), "1")) == mcText;
      }
    }
  }

  lemma OpeningText(n: Event, task: Option<string>, operation: Option<string>, m: MessageType)
    requires n.task == Some(Shown(task, MissingTask)) && n.operation == Some(Shown(operation, MissingOperation))
    requires n.messageType == m
    ensures Line(Tokens(Base(n), Token)) == Opening(task, operation, m)
  {
    BaseLine(n);
  }

  /**
   * The line of a fresh `SLogStart` (A), `SLogCall` (S) or `SLogStop` (F):
   * exactly the opening fields, with the sentinels for a null or empty task
   * or operation.
   */
  lemma PlainPresetLine(task: Option<string>, operation: Option<string>, m: MessageType)
    ensures Render(Initial(task, operation, Some(m))) == Opening(task, operation, m)
  {
    PresetLine(task, operation, m, None, false);
    assert Initial(task, operation, Some(m)).(operationAlias := None, multicast := false) == Initial(task, operation, Some(m));
  }

  /** The line of a fresh `SLogBroadcastSend`: `+MC=1;` follows the opening fields exactly when the switch was on. */
  lemma BroadcastSendLine(task: Option<string>, broadcastId: Option<string>, enabled: bool)
    ensures Render(Initial(task, broadcastId, Some(S)).(multicast := enabled))
      == Opening(task, broadcastId, S) + (if enabled then "+MC=1;" else "")
  {
    PresetLine(task, broadcastId, S, None, enabled);
    assert Initial(task, broadcastId, Some(S)).(operationAlias := None, multicast := enabled)
      == Initial(task, broadcastId, Some(S)).(multicast := enabled);
  }

  /**
   * The line of a fresh `SLogBroadcastStart` (A) or `SLogBroadcastStop` (F):
   * the escaped operation follows the opening fields as `+OA=` exactly when
   * the switch was on and the operation is non-null (an empty operation
   * gives `+OA=;`); there is never a `+MC` field.
   */
  lemma BroadcastAliasLine(task: Option<string>, broadcastId: Option<string>, operation: Option<string>, m: MessageType, enabled: bool)
    ensures Render(Initial(task, broadcastId, Some(m)).(operationAlias := if enabled then EscapeNullable(operation) else None))
      == Opening(task, broadcastId, m)
        + (if enabled && operation.Some? then "+OA=" + Escape(operation.value) + ";" else "")
  {
    var alias := if enabled then EscapeNullable(operation) else None;
    PresetLine(task, broadcastId, m, alias, false);
    assert Initial(task, broadcastId, Some(m)).(operationAlias := alias, multicast := false)
      == Initial(task, broadcastId, Some(m)).(operationAlias := alias);
  }

  /** `SLogStart`: message type A; task and operation stored escaped whatever the switch says. */
  method SLogStart(task: Option<string>, operation: Option<string>) returns (log: SLog)
    ensures fresh(log) && log.Valid()
    ensures log.State() == Initial(task, operation, Some(A))
  {
    log := new SLog(task, operation, Some(A));
  }

  /** `SLogCall`: message type S; task and operation stored escaped whatever the switch says. */
  method SLogCall(task: Option<string>, operation: Option<string>) returns (log: SLog)
    ensures fresh(log) && log.Valid()
    ensures log.State() == Initial(task, operation, Some(S))
  {
    log := new SLog(task, operation, Some(S));
  }

  /** `SLogStop`: message type F; task and operation stored escaped whatever the switch says. */
  method SLogStop(task: Option<string>, operation: Option<string>) returns (log: SLog)
    ensures fresh(log) && log.Valid()
    ensures log.State() == Initial(task, operation, Some(F))
  {
    log := new SLog(task, operation, Some(F));
  }

  /** `SLogBroadcastSend`: message type S, the broadcast id as the operation, multicast set only while the switch is on. */
  method SLogBroadcastSend(sw: EnableSwitch, task: Option<string>, broadcastId: Option<string>) returns (log: SLog)
    ensures fresh(log) && log.Valid()
    ensures log.State() == Initial(task, broadcastId, Some(S)).(multicast := sw.isEnabled)
  {
    log := new SLog(task, broadcastId, Some(S));
    log.WithMulticast(sw, true);
  }

  /** `SLogBroadcastStart`: message type A, the broadcast id as the operation, the operation as alias only while the switch is on. */
  method SLogBroadcastStart(sw: EnableSwitch, task: Option<string>, broadcastId: Option<string>, operation: Option<string>) returns (log: SLog)
    ensures fresh(log) && log.Valid()
    ensures log.State() == Initial(task, broadcastId, Some(A)).(operationAlias := if sw.isEnabled then EscapeNullable(operation) else None)
  {
    log := new SLog(task, broadcastId, Some(A));
    log.WithOperationAlias(sw, operation);
  }

  /** `SLogBroadcastStop`: message type F, the broadcast id as the operation, the operation as alias only while the switch is on. */
  method SLogBroadcastStop(sw: EnableSwitch, task: Option<string>, broadcastId: Option<string>, operation: Option<string>) returns (log: SLog)
    ensures fresh(log) && log.Valid()
    ensures log.State() == Initial(task, broadcastId, Some(F)).(operationAlias := if sw.isEnabled then EscapeNullable(operation) else None)
  {
    log := new SLog(task, broadcastId, Some(F));
    log.WithOperationAlias(sw, operation);
  }
}
