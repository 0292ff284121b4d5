/**
 * The operation-style builder: an event with a task, an operation, a
 * message type, optional alias and overrides, a multicast flag and user
 * data, rendered as
 *   `$SPG$+T=<task>;+O=<operation>;+M=<S|A|F>;` then `+OA=`, `+C^=`, `+I^=`
 *   when present, `+MC=1;` when multicast, then the user pairs.
 * Every setter and `Build` are gated by a process-wide enable switch, which
 * the model passes explicitly as an `EnableSwitch` object.
 */
module SLogs {
  import opened Wrappers
  import opened Escaping
  import opened Instrumentation
  import opened Wire
  import opened UserData

  /** The message phase: send, acknowledge, finish. */
  datatype MessageType = S | A | F {
    function Letter(): string {
      match this
      case S => "S"
      case A => "A"
      case F => "F"
    }
  }

  /** The field keys, declared in the order fields are written. */
  datatype Key = TaskKey | OperationKey | MessageTypeKey | OperationAliasKey | ComponentKey | InstrumentationKey | MulticastKey {
    /** The position of the key in the fixed field order. */
    function Rank(): nat {
      match this
      case TaskKey => 0
      case OperationKey => 1
      case MessageTypeKey => 2
      case OperationAliasKey => 3
      case ComponentKey => 4
      case InstrumentationKey => 5
      case MulticastKey => 6
    }
  }

  /** The token written for a key. */
  function Token(k: Key): string {
    match k
    case TaskKey => "$SPG$+T"
    case OperationKey => "+O"
    case MessageTypeKey => "+M"
    case OperationAliasKey => "+OA"
    case ComponentKey => "+C^"
    case InstrumentationKey => "+I^"
    case MulticastKey => "+MC"
  }

  const MissingTask := "_MISSING_TASK_"
  const MissingOperation := "_MISSING_OPERATION_"

  /** The state of one builder; a `None` string field is a Java null. */
  datatype Event = Event(
    task: Option<string>,
    operation: Option<string>,
    operationAlias: Option<string>,
    componentOverride: Option<string>,
    instrumentationOverride: Option<string>,
    userData: seq<Option<string>>,
    messageType: MessageType,
    multicast: bool)
  {
    /** Every stored string is in escaped form and the user data is a list of pairs. */
    predicate WellFormed() {
      && EscapedOrNull(task)
      && EscapedOrNull(operation)
      && EscapedOrNull(operationAlias)
      && EscapedOrNull(componentOverride)
      && EscapedOrNull(instrumentationOverride)
      && UserData.WellFormed(userData)
    }
  }

  predicate EscapedOrNull(v: Option<string>) {
    v.Some? ==> IsEscaped(v.value)
  }

  /** The state the constructor leaves: task and operation escaped, a null message type read as S. */
  function Initial(task: Option<string>, operation: Option<string>, msgType: Option<MessageType>): (e: Event)
    ensures e.WellFormed()
  {
    Event(EscapeNullable(task), EscapeNullable(operation), None, None, None, [], msgType.GetOr(S), false)
  }

  /** The state after `Build` has written the sentinels for a null or empty task and operation. */
  function Normalize(e: Event): Event {
    e.(task := OrSentinel(e.task, MissingTask), operation := OrSentinel(e.operation, MissingOperation))
  }

  /** The fixed-order fields before the user data. */
  function Header(e: Event): seq<(Key, string)>
    requires e.task.Some? && e.operation.Some?
  {
    Base(e)
    + Opt(OperationAliasKey, e.operationAlias)
    + Opt(ComponentKey, e.componentOverride)
    + Opt(InstrumentationKey, e.instrumentationOverride)
    + Opt(MulticastKey, if e.multicast then Some("1") else None)
  }

  /** What each key should carry for event `e`: a reference for the header, field by field. */
  function ValueOf(e: Event, k: Key): Option<string> {
    match k
    case TaskKey => e.task
    case OperationKey => e.operation
    case MessageTypeKey => Some(e.messageType.Letter())
    case OperationAliasKey => e.operationAlias
    case ComponentKey => e.componentOverride
    case InstrumentationKey => e.instrumentationOverride
    case MulticastKey => if e.multicast then Some("1") else None
  }

  function RankOf(k: Key): int {
    k.Rank()
  }

  function Fields(e: Event): seq<Field>
    requires e.task.Some? && e.operation.Some? && |e.userData| % 2 == 0
  {
    Tokens(Header(e), Token) + Pairs(e.userData)
  }

  /** The line `Build` returns for an event in state `e`. */
  function Render(e: Event): string
    requires |e.userData| % 2 == 0
  {
    Line(Fields(Normalize(e)))
  }

  /** After `Build`, task and operation are non-empty; nothing else changes, and well-formedness is kept. */
  lemma NormalizeSpec(e: Event)
    ensures var n := Normalize(e);
      && n.task.Some? && n.task.value != [] && n.operation.Some? && n.operation.value != []
      && (e.task.Some? && e.task.value != [] ==> n.task == e.task)
      && (e.task.None? || e.task.value == [] ==> n.task == Some(MissingTask))
      && (e.operation.Some? && e.operation.value != [] ==> n.operation == e.operation)
      && (e.operation.None? || e.operation.value == [] ==> n.operation == Some(MissingOperation))
      && n.(task := e.task, operation := e.operation) == e
      && (e.WellFormed() ==> n.WellFormed())
  {
    SentinelsAreEscaped();
  }

  lemma SentinelsAreEscaped()
    ensures IsEscaped(MissingTask) && IsEscaped(MissingOperation)
  {
    SentinelsAreClean();
    CleanIsEscaped(MissingTask);
    CleanIsEscaped(MissingOperation);
  }

  lemma SentinelsAreClean()
    ensures IsClean(MissingTask) && IsClean(MissingOperation)
  {
  }

  /**
   * The header opens with task, operation and message type; every key
   * carries the value the event gives it and appears exactly when that value
   * is present; and the keys follow the fixed order, whatever order the
   * setters were called in.
   */
  lemma HeaderLayout(e: Event)
    requires e.task.Some? && e.operation.Some?
    ensures var h := Header(e);
      && |h| >= 3
      && h[0] == (TaskKey, e.task.value)
      && h[1] == (OperationKey, e.operation.value)
      && h[2] == (MessageTypeKey, e.messageType.Letter())
      && InOrder(h, RankOf)
      && forall k :: Lookup(h, k) == ValueOf(e, k)
  {
    HeaderInOrder(e);
    forall k
      ensures Lookup(Header(e), k) == ValueOf(e, k)
    {
      HeaderLookup(e, k);
    }
  }

  /** The three fields every line opens with. */
  function Base(e: Event): seq<(Key, string)>
    requires e.task.Some? && e.operation.Some?
  {
    [(TaskKey, e.task.value), (OperationKey, e.operation.value), (MessageTypeKey, e.messageType.Letter())]
  }

  lemma BaseInOrder(e: Event)
    requires e.task.Some? && e.operation.Some?
    ensures InOrder(Base(e), RankOf) && RanksBelow(Base(e), RankOf, 3)
  {
    var b := Base(e);
    assert RankOf(b[0].0) == 0 && RankOf(b[1].0) == 1 && RankOf(b[2].0) == 2;
  }

  lemma BaseLookup(e: Event, k: Key)
    requires e.task.Some? && e.operation.Some?
    ensures Lookup(Base(e), k) == if k.Rank() < 3 then ValueOf(e, k) else None
  {
    var b := Base(e);
    var b1 := [(OperationKey, e.operation.value), (MessageTypeKey, e.messageType.Letter())];
    var b2 := [(MessageTypeKey, e.messageType.Letter())];
    assert b[1..] == b1 && b1[1..] == b2 && b2[1..] == [];
    assert Lookup(b, k) == if k == TaskKey then e.task else Lookup(b1, k);
    assert Lookup(b1, k) == if k == OperationKey then e.operation else Lookup(b2, k);
    assert Lookup(b2, k) == if k == MessageTypeKey then Some(e.messageType.Letter()) else Lookup([], k);
  }

  lemma HeaderInOrder(e: Event)
    requires e.task.Some? && e.operation.Some?
    ensures InOrder(Header(e), RankOf)
  {
    var mcValue: Option<string> := if e.multicast then Some("1") else None;
    var p1 := Base(e) + Opt(OperationAliasKey, e.operationAlias);
    var p2 := p1 + Opt(ComponentKey, e.componentOverride);
    var p3 := p2 + Opt(InstrumentationKey, e.instrumentationOverride);
    assert Header(e) == p3 + Opt(MulticastKey, mcValue);
    BaseInOrder(e);
    InOrderExtend(Base(e), RankOf, OperationAliasKey, e.operationAlias);
    InOrderExtend(p1, RankOf, ComponentKey, e.componentOverride);
    InOrderExtend(p2, RankOf, InstrumentationKey, e.instrumentationOverride);
    InOrderExtend(p3, RankOf, MulticastKey, mcValue);
  }

  lemma HeaderLookup(e: Event, k: Key)
    requires e.task.Some? && e.operation.Some?
    ensures Lookup(Header(e), k) == ValueOf(e, k)
  {
    var mcValue: Option<string> := if e.multicast then Some("1") else None;
    var p1 := Base(e) + Opt(OperationAliasKey, e.operationAlias);
    var p2 := p1 + Opt(ComponentKey, e.componentOverride);
    var p3 := p2 + Opt(InstrumentationKey, e.instrumentationOverride);
    assert Header(e) == p3 + Opt(MulticastKey, mcValue);
    BaseLookup(e, k);
    LookupAppend(Base(e), Opt(OperationAliasKey, e.operationAlias), k);
    LookupAppend(p1, Opt(ComponentKey, e.componentOverride), k);
    LookupAppend(p2, Opt(InstrumentationKey, e.instrumentationOverride), k);
    LookupAppend(p3, Opt(MulticastKey, mcValue), k);
    LookupOpt(OperationAliasKey, e.operationAlias, k);
    LookupOpt(ComponentKey, e.componentOverride, k);
    LookupOpt(InstrumentationKey, e.instrumentationOverride, k);
    LookupOpt(MulticastKey, mcValue, k);
  }

  /** The three opening fields written out. */
  lemma BaseText(e: Event)
    requires e.task.Some? && e.operation.Some?
    ensures Line(Tokens(Base(e), Token))
      == FieldText((Token(TaskKey), e.task.value))
        + FieldText((Token(OperationKey), e.operation.value))
        + FieldText((Token(MessageTypeKey), e.messageType.Letter()))
  {
    var f := Tokens(Base(e), Token);
    var f0 := (Token(TaskKey), e.task.value);
    var f1 := (Token(OperationKey), e.operation.value);
    var f2 := (Token(MessageTypeKey), e.messageType.Letter());
    assert f == [f0, f1, f2];
    assert f[1..] == [f1, f2] && f[1..][1..] == [f2] && f[1..][1..][1..] == [];
    assert Line([f2]) == FieldText(f2);
    assert Line([f1, f2]) == FieldText(f1) + FieldText(f2);
  }

  /** The three opening fields as literal text. */
  lemma BaseLine(e: Event)
    requires e.task.Some? && e.operation.Some?
    ensures Line(Tokens(Base(e), Token))
      == "$SPG$+T=" + e.task.value + ";+O=" + e.operation.value + ";+M=" + e.messageType.Letter() + ";"
  {
    BaseText(e);
  }

  /** The header of a well-formed event carries only escaped values. */
  lemma HeaderEscaped(e: Event)
    requires e.WellFormed() && e.task.Some? && e.operation.Some?
    ensures ValuesEscaped(Header(e))
  {
    var p0 := Base(e);
    assert ValuesEscaped(p0) by {
      assert IsClean(e.messageType.Letter());
      CleanIsEscaped(e.messageType.Letter());
    }
    OptEscaped(p0, OperationAliasKey, e.operationAlias);
    var p1 := p0 + Opt(OperationAliasKey, e.operationAlias);
    OptEscaped(p1, ComponentKey, e.componentOverride);
    var p2 := p1 + Opt(ComponentKey, e.componentOverride);
    OptEscaped(p2, InstrumentationKey, e.instrumentationOverride);
    var p3 := p2 + Opt(InstrumentationKey, e.instrumentationOverride);
    assert IsClean("1");
    CleanIsEscaped("1");
    OptEscaped(p3, MulticastKey, if e.multicast then Some("1") else None);
  }

  /** Every token is in escaped form. */
  lemma TokenIsEscaped(k: Key)
    ensures IsEscaped(Token(k))
  {
    assert IsClean(Token(k));
    CleanIsEscaped(Token(k));
  }

  /**
   * A consumer splitting the line at its unescaped `=` and `;` recovers
   * exactly the fields: the header tokens with their values, then the user
   * pairs in insertion order.
   */
  lemma RenderReadsBack(e: Event)
    requires e.WellFormed()
    ensures var n := Normalize(e);
      ParseLine(Render(e)) == Some(Tokens(Header(n), Token) + Pairs(n.userData))
  {
    var n := Normalize(e);
    assert n.WellFormed() && n.task.Some? && n.operation.Some? by {
      NormalizeSpec(e);
    }
    var h := Header(n);
    assert FieldsEscaped(Tokens(h, Token)) by {
      HeaderEscaped(n);
      forall i | 0 <= i < |h|
        ensures IsEscaped(Token(h[i].0))
      {
        TokenIsEscaped(h[i].0);
      }
      TokensEscaped(h, Token);
    }
    assert FieldsEscaped(Fields(n)) by {
      PairsEscaped(n.userData);
      FieldsEscapedAppend(Tokens(h, Token), Pairs(n.userData));
    }
    ParseLineInverse(Fields(n));
  }

  /** Distinct keys have distinct tokens. */
  lemma TokenInjective()
    ensures forall x, y :: Token(x) == Token(y) ==> x == y
  {
  }

  /**
   * A reader of the line finds, under each key's token, the value the event
   * gives that key whenever it gives one, since the header comes before any
   * user pair.
   */
  lemma RenderReadsKey(e: Event, k: Key)
    requires e.WellFormed()
    ensures var n := Normalize(e);
      var read := ParseLine(Render(e));
      read.Some? && (ValueOf(n, k).Some? ==> Lookup(read.value, Token(k)) == ValueOf(n, k))
  {
    var n := Normalize(e);
    NormalizeSpec(e);
    RenderReadsBack(e);
    HeaderLookup(n, k);
    TokenInjective();
    TokensLookup(Header(n), Token, k);
    LookupAppend(Tokens(Header(n), Token), Pairs(n.userData), Token(k));
  }

  /** The line opens with the task, operation and message type fields. */
  lemma RenderPrefix(e: Event)
    requires |e.userData| % 2 == 0
    ensures var n := Normalize(e);
      var p := "$SPG$+T=" + n.task.value + ";+O=" + n.operation.value + ";+M=" + n.messageType.Letter() + ";";
      |p| <= |Render(e)| && Render(e)[..|p|] == p
  {
    var n := Normalize(e);
    NormalizeSpec(e);
    var p := "$SPG$+T=" + n.task.value + ";+O=" + n.operation.value + ";+M=" + n.messageType.Letter() + ";";
    var b := Tokens(Base(n), Token);
    var fs := Fields(n);
    BaseLine(n);
    assert Render(e) == Line(b) + Line(fs[3..]) by {
      assert fs == b + fs[3..];
      LineAppend(b, fs[3..]);
    }
  }

  /**
   * The whole line written out: task, operation (with their sentinels) and
   * message type, then `+OA=`, `+C^=`, `+I^=` for each field that is
   * non-null, `+MC=1;` when multicast, then the user pairs.
   */
  lemma RenderText(e: Event)
    requires |e.userData| % 2 == 0
    ensures var n := Normalize(e);
      Render(e) == "$SPG$+T=" + n.task.value + ";+O=" + n.operation.value + ";+M=" + n.messageType.Letter() + ";"
        + OptText("+OA", n.operationAlias)
        + OptText("+C^", n.componentOverride)
        + OptText("+I^", n.instrumentationOverride)
        + OptText("+MC", if n.multicast then Some("1") else None)
        + Line(Pairs(n.userData))
  {
    var n := Normalize(e);
    assert n.task.Some? && n.operation.Some? && n.userData == e.userData by {
      NormalizeSpec(e);
    }
    var mc: Option<string> := if n.multicast then Some("1") else None;
    var p1 := Base(n) + Opt(OperationAliasKey, n.operationAlias);
    var p2 := p1 + Opt(ComponentKey, n.componentOverride);
    var p3 := p2 + Opt(InstrumentationKey, n.instrumentationOverride);
    var p4 := p3 + Opt(MulticastKey, mc);
    assert Render(e) == Line(Tokens(p4, Token)) + Line(Pairs(n.userData)) by {
      assert Header(n) == p4;
      LineAppend(Tokens(Header(n), Token), Pairs(n.userData));
    }
    var t1 := "$SPG$+T=" + n.task.value + ";+O=" + n.operation.value + ";+M=" + n.messageType.Letter() + ";"
      + OptText("+OA", n.operationAlias);
    assert Line(Tokens(p1, Token)) == t1 by {
      BaseLine(n);
      LineExtendOptText(Base(n), OperationAliasKey, n.operationAlias, Token);
    }
    var t2 := t1 + OptText("+C^", n.componentOverride);
    assert Line(Tokens(p2, Token)) == t2 by {
      LineExtendOptText(p1, ComponentKey, n.componentOverride, Token);
    }
    var t3 := t2 + OptText("+I^", n.instrumentationOverride);
    assert Line(Tokens(p3, Token)) == t3 by {
      LineExtendOptText(p2, InstrumentationKey, n.instrumentationOverride, Token);
    }
    assert Line(Tokens(p4, Token)) == t3 + OptText("+MC", mc) by {
      LineExtendOptText(p3, MulticastKey, mc, Token);
    }
  }

  /** The line closes with the user pairs, in insertion order. */
  lemma RenderSuffix(e: Event)
    requires |e.userData| % 2 == 0
    ensures var u := Line(Pairs(e.userData));
      |u| <= |Render(e)| && Render(e)[|Render(e)| - |u|..] == u
  {
    var n := Normalize(e);
    NormalizeSpec(e);
    LineAppend(Tokens(Header(n), Token), Pairs(n.userData));
  }

  /** A second build with no mutation in between returns the same line. */
  lemma RenderIdempotent(e: Event)
    requires |e.userData| % 2 == 0
    ensures Render(Normalize(e)) == Render(e)
  {
    NormalizeSpec(e);
    NormalizeSpec(Normalize(e));
  }

  /** The header fields in their fixed order, each appended only when present. */
  method WriteHeader(n: Event) returns (line: string)
    requires n.task.Some? && n.operation.Some?
    ensures line == Line(Tokens(Header(n), Token))
  {
    // Each append below writes one whole `token=value;` field.
    line := FieldText((Token(TaskKey), n.task.value))
      + FieldText((Token(OperationKey), n.operation.value))
      + FieldText((Token(MessageTypeKey), n.messageType.Letter()));
    ghost var h := Base(n);
    assert line == Line(Tokens(h, Token)) by { BaseText(n); }
    if n.operationAlias.Some? {
      line := line + FieldText((Token(OperationAliasKey), n.operationAlias.value));
    }
    assert line == Line(Tokens(h + Opt(OperationAliasKey, n.operationAlias), Token)) by {
      LineExtendOpt(h, OperationAliasKey, n.operationAlias, Token);
    }
    h := h + Opt(OperationAliasKey, n.operationAlias);
    if n.componentOverride.Some? {
      line := line + FieldText((Token(ComponentKey), n.componentOverride.value));
    }
    assert line == Line(Tokens(h + Opt(ComponentKey, n.componentOverride), Token)) by {
      LineExtendOpt(h, ComponentKey, n.componentOverride, Token);
    }
    h := h + Opt(ComponentKey, n.componentOverride);
    if n.instrumentationOverride.Some? {
      line := line + FieldText((Token(InstrumentationKey), n.instrumentationOverride.value));
    }
    assert line == Line(Tokens(h + Opt(InstrumentationKey, n.instrumentationOverride), Token)) by {
      LineExtendOpt(h, InstrumentationKey, n.instrumentationOverride, Token);
    }
    h := h + Opt(InstrumentationKey, n.instrumentationOverride);
    ghost var mcValue: Option<string> := if n.multicast then Some("1") else None;
    if n.multicast {
      line := line + FieldText((Token(MulticastKey), "1"));
    }
    assert line == Line(Tokens(h + Opt(MulticastKey, mcValue), Token)) by {
      LineExtendOpt(h, MulticastKey, mcValue, Token);
    }
    h := h + Opt(MulticastKey, mcValue);
    assert h == Header(n);
  }

  /**
   * The appending half of `Build`, once the sentinels are in place: the
   * header fields in their fixed order, then every user pair.
   */
  method WriteFields(n: Event) returns (line: string)
    requires n.task.Some? && n.operation.Some? && |n.userData| % 2 == 0
    ensures line == Line(Fields(n))
  {
    var ud := n.userData;
    line := WriteHeader(n);
    ghost var head := Tokens(Header(n), Token);
    assert line == Line(head + Pairs(ud[..0])) by {
      assert Pairs(ud[..0]) == [];
      assert head + Pairs(ud[..0]) == head;
    }
    var i := 0;
    while i < |ud|
      invariant 0 <= i <= |ud| && i % 2 == 0
      invariant line == Line(head + Pairs(ud[..i]))
    {
      PairsSnoc(head, ud, i);
      line := line + FieldText((NullText(ud[i]), NullText(ud[i + 1])));
      i := i + 2;
    }
    assert ud[..i] == ud;
  }

  /** The process-wide switch that gates every setter and `Build`; enabled by default. */
  class EnableSwitch {
    var isEnabled: bool

    constructor ()
      ensures isEnabled
    {
      isEnabled := true;
    }

    method SetEnabled(value: bool)
      modifies this
      ensures isEnabled == value
    {
      isEnabled := value;
    }
  }

  class SLog {
    var task: Option<string>
    var operation: Option<string>
    var operationAlias: Option<string>
    var componentOverride: Option<string>
    var instrumentationOverride: Option<string>
    var userData: seq<Option<string>>
    var messageType: MessageType
    var multicast: bool

    function State(): Event
      reads this
    {
      Event(task, operation, operationAlias, componentOverride, instrumentationOverride, userData, messageType, multicast)
    }

    predicate Valid()
      reads this
    {
      State().WellFormed()
    }

    /** Stores task and operation escaped; a null message type becomes S. Not gated by the switch. */
    constructor (task: Option<string>, operation: Option<string>, msgType: Option<MessageType>)
      ensures Valid()
      ensures State() == Initial(task, operation, msgType)
    {
      var escapedTask := EscapeString(task);
      var escapedOperation := EscapeString(operation);
      this.task, this.operation := escapedTask, escapedOperation;
      this.messageType := if msgType.None? then S else msgType.value;
      operationAlias, componentOverride, instrumentationOverride := None, None, None;
      userData, multicast := [], false;
    }

    method WithMulticast(sw: EnableSwitch, value: bool)
      requires Valid()
      modifies this
      ensures Valid()
      ensures State() == if sw.isEnabled then old(State()).(multicast := value) else old(State())
    {
      if !sw.isEnabled { return; }
      multicast := value;
    }

    method WithOperationAlias(sw: EnableSwitch, value: Option<string>)
      requires Valid()
      modifies this
      ensures Valid()
      ensures State() == if sw.isEnabled then old(State()).(operationAlias := EscapeNullable(value)) else old(State())
    {
      if !sw.isEnabled { return; }
      operationAlias := EscapeString(value);
    }

    method WithOperation(sw: EnableSwitch, value: Option<string>)
      requires Valid()
      modifies this
      ensures Valid()
      ensures State() == if sw.isEnabled then old(State()).(operation := EscapeNullable(value)) else old(State())
    {
      if !sw.isEnabled { return; }
      operation := EscapeString(value);
    }

    method WithTask(sw: EnableSwitch, value: Option<string>)
      requires Valid()
      modifies this
      ensures Valid()
      ensures State() == if sw.isEnabled then old(State()).(task := EscapeNullable(value)) else old(State())
    {
      if !sw.isEnabled { return; }
      task := EscapeString(value);
    }

    method WithComponentOverride(sw: EnableSwitch, value: Option<string>)
      requires Valid()
      modifies this
      ensures Valid()
      ensures State() == if sw.isEnabled then old(State()).(componentOverride := EscapeNullable(value)) else old(State())
    {
      if !sw.isEnabled { return; }
      componentOverride := EscapeString(value);
    }

    /** Stores `<value><unit suffix>`; a null unit means milliseconds. */
    method WithInstrumentationOverride(sw: EnableSwitch, value: Int32, timeNotation: Option<TimeNotation>)
      requires Valid()
      modifies this
      ensures Valid()
      ensures State() == if sw.isEnabled then old(State()).(instrumentationOverride := Some(OverrideText(value, timeNotation))) else old(State())
    {
      if !sw.isEnabled { return; }
      var unit := if timeNotation.None? then Millis else timeNotation.value;
      OverrideIsClean(value, timeNotation);
      instrumentationOverride := Some(Decimal.DecimalString(value as int) + unit.Notation());
    }

    /** Appends the escaped key (or `_MISSING_KEY_<pairs so far>`) and then the escaped value. */
    method WithUserData(sw: EnableSwitch, key: Option<string>, value: Option<string>)
      requires Valid()
      modifies this
      ensures Valid()
      ensures State() == if sw.isEnabled then old(State()).(userData := AddPair(old(userData), key, value)) else old(State())
    {
      if !sw.isEnabled { return; }
      var k := key;
      if k.None? || |k.value| == 0 {
        k := Some(MissingKey(|userData| / 2));
      }
      var escapedKey := EscapeString(k);
      var escapedValue := EscapeString(value);
      assert AddPair(userData, key, value) == userData + [escapedKey, escapedValue];
      userData := userData + [escapedKey, escapedValue];
    }

    /** The map form: a no-op for a null or empty map, otherwise the pair form per entry in iteration order. */
    method WithUserDataMap(sw: EnableSwitch, entries: Option<seq<(Option<string>, Option<string>)>>)
      requires Valid()
      modifies this
      ensures Valid()
      ensures State() == if sw.isEnabled && entries.Some?
        then old(State()).(userData := AddPairs(old(userData), entries.value))
        else old(State())
    {
      if !sw.isEnabled || entries.None? || |entries.value| == 0 {
        return;
      }
      var es := entries.value;
      ghost var start := State();
      var i := 0;
      while i < |es|
        invariant 0 <= i <= |es|
        invariant sw.isEnabled && Valid()
        invariant State() == start.(userData := AddPairs(start.userData, es[..i]))
      {
        AddPairsSnoc(start.userData, es, i);
        WithUserData(sw, es[i].0, es[i].1);
        i := i + 1;
      }
      assert es[..|es|] == es;
    }

    /**
     * Writes the sentinels for a null or empty task and operation back into
     * the fields, then emits the fields in the fixed order.  While the
     * switch is off it returns the empty string and changes nothing.
     */
    method Build(sw: EnableSwitch) returns (line: string)
      requires Valid()
      modifies this
      ensures Valid()
      ensures sw.isEnabled ==> State() == Normalize(old(State())) && line == Render(old(State()))
      ensures !sw.isEnabled ==> State() == old(State()) && line == ""
    {
      if !sw.isEnabled { return ""; }
      NormalizeSpec(State());
      if task.None? || |task.value| == 0 {
        task := Some(MissingTask);
      }
      if operation.None? || |operation.value| == 0 {
        operation := Some(MissingOperation);
      }
      line := WriteFields(State());
    }

    /** The string form of the event is its built line. */
    method ToString(sw: EnableSwitch) returns (line: string)
      requires Valid()
      modifies this
      ensures Valid()
      ensures sw.isEnabled ==> State() == Normalize(old(State())) && line == Render(old(State()))
      ensures !sw.isEnabled ==> State() == old(State()) && line == ""
    {
      line := Build(sw);
    }
  }
}
