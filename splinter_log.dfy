/**
 * The request-style builder: a task, a request id, an optional operation,
 * the two overrides and user data, rendered as
 *   `$SPG$_T=<task>;_R=<request>;` then `_O=`, `_C^=`, `_I^=` when present,
 *   then the user pairs.
 * Unlike the operation-style builder it has no message type, no multicast
 * flag and no enable switch, and only task and request get sentinels.
 */
module SplinterLogs {
  import opened Wrappers
  import opened Escaping
  import opened Instrumentation
  import opened Wire
  import opened UserData

  /** The field keys, declared in the order fields are written. */
  datatype Key = TaskKey | RequestKey | OperationKey | ComponentKey | InstrumentationKey {
    /** The position of the key in the fixed field order. */
    function Rank(): nat {
      match this
      case TaskKey => 0
      case RequestKey => 1
      case OperationKey => 2
      case ComponentKey => 3
      case InstrumentationKey => 4
    }
  }

  /** The token written for a key. */
  function Token(k: Key): string {
    match k
    case TaskKey => "$SPG$_T"
    case RequestKey => "_R"
    case OperationKey => "_O"
    case ComponentKey => "_C^"
    case InstrumentationKey => "_I^"
  }

  const MissingTask := "_MISSING_TASK_"
  const MissingRequest := "_MISSING_REQUEST_"

  /** The state of one builder; a `None` string field is a Java null. */
  datatype Request = Request(
    task: Option<string>,
    request: Option<string>,
    operation: Option<string>,
    componentOverride: Option<string>,
    instrumentationOverride: Option<string>,
    userData: seq<Option<string>>)
  {
    /** Every stored string is in escaped form and the user data is a list of pairs. */
    predicate WellFormed() {
      && EscapedOrNull(task)
      && EscapedOrNull(request)
      && EscapedOrNull(operation)
      && EscapedOrNull(componentOverride)
      && EscapedOrNull(instrumentationOverride)
      && UserData.WellFormed(userData)
    }
  }

  predicate EscapedOrNull(v: Option<string>) {
    v.Some? ==> IsEscaped(v.value)
  }

  /** The state the constructors leave: the three arguments escaped, nothing else set. */
  function Initial(task: Option<string>, request: Option<string>, operation: Option<string>): (r: Request)
    ensures r.WellFormed()
    ensures r.task.None? <==> task.None?
    ensures r.request.None? <==> request.None?
    ensures r.operation.None? <==> operation.None?
  {
    Request(EscapeNullable(task), EscapeNullable(request), EscapeNullable(operation), None, None, [])
  }

  /**
   * The state after `Build` has written the sentinels for a null or empty
   * task and request; the operation is left as it is, even when empty.
   */
  function Normalize(r: Request): Request {
    r.(task := OrSentinel(r.task, MissingTask), request := OrSentinel(r.request, MissingRequest))
  }

  /** The two fields every line opens with. */
  function Base(r: Request): seq<(Key, string)>
    requires r.task.Some? && r.request.Some?
  {
    [(TaskKey, r.task.value), (RequestKey, r.request.value)]
  }

  /** The fixed-order fields before the user data. */
  function Header(r: Request): seq<(Key, string)>
    requires r.task.Some? && r.request.Some?
  {
    Base(r)
    + Opt(OperationKey, r.operation)
    + Opt(ComponentKey, r.componentOverride)
    + Opt(InstrumentationKey, r.instrumentationOverride)
  }

  /** What each key should carry for request `r`: a reference for the header, field by field. */
  function ValueOf(r: Request, k: Key): Option<string> {
    match k
    case TaskKey => r.task
    case RequestKey => r.request
    case OperationKey => r.operation
    case ComponentKey => r.componentOverride
    case InstrumentationKey => r.instrumentationOverride
  }

  function RankOf(k: Key): int {
    k.Rank()
  }

  function Fields(r: Request): seq<Field>
    requires r.task.Some? && r.request.Some? && |r.userData| % 2 == 0
  {
    Tokens(Header(r), Token) + Pairs(r.userData)
  }

  /** The line `Build` returns for a builder in state `r`. */
  function Render(r: Request): string
    requires |r.userData| % 2 == 0
  {
    Line(Fields(Normalize(r)))
  }

  lemma SentinelsAreClean()
    ensures IsClean(MissingTask) && IsClean(MissingRequest)
  {
  }

  lemma SentinelsAreEscaped()
    ensures IsEscaped(MissingTask) && IsEscaped(MissingRequest)
  {
    SentinelsAreClean();
    CleanIsEscaped(MissingTask);
    CleanIsEscaped(MissingRequest);
  }

  /**
   * After `Build`, task and request are non-empty; the operation, even an
   * empty one, and everything else are left alone; well-formedness is kept.
   */
  lemma NormalizeSpec(r: Request)
    ensures var n := Normalize(r);
      && n.task.Some? && n.task.value != [] && n.request.Some? && n.request.value != []
      && (r.task.Some? && r.task.value != [] ==> n.task == r.task)
      && (r.task.None? || r.task.value == [] ==> n.task == Some(MissingTask))
      && (r.request.Some? && r.request.value != [] ==> n.request == r.request)
      && (r.request.None? || r.request.value == [] ==> n.request == Some(MissingRequest))
      && n.operation == r.operation
      && n.(task := r.task, request := r.request) == r
      && (r.WellFormed() ==> n.WellFormed())
  {
    SentinelsAreEscaped();
  }

  lemma BaseInOrder(r: Request)
    requires r.task.Some? && r.request.Some?
    ensures InOrder(Base(r), RankOf) && RanksBelow(Base(r), RankOf, 2)
  {
    var b := Base(r);
    assert RankOf(b[0].0) == 0 && RankOf(b[1].0) == 1;
  }

  lemma BaseLookup(r: Request, k: Key)
    requires r.task.Some? && r.request.Some?
    ensures Lookup(Base(r), k) == if k.Rank() < 2 then ValueOf(r, k) else None
  {
    var b := Base(r);
    var b1 := [(RequestKey, r.request.value)];
    assert b[1..] == b1 && b1[1..] == [];
    assert Lookup(b, k) == if k == TaskKey then r.task else Lookup(b1, k);
    assert Lookup(b1, k) == if k == RequestKey then r.request else Lookup([], k);
  }

  lemma HeaderInOrder(r: Request)
    requires r.task.Some? && r.request.Some?
    ensures InOrder(Header(r), RankOf)
  {
    var p1 := Base(r) + Opt(OperationKey, r.operation);
    var p2 := p1 + Opt(ComponentKey, r.componentOverride);
    assert Header(r) == p2 + Opt(InstrumentationKey, r.instrumentationOverride);
    BaseInOrder(r);
    InOrderExtend(Base(r), RankOf, OperationKey, r.operation);
    InOrderExtend(p1, RankOf, ComponentKey, r.componentOverride);
    InOrderExtend(p2, RankOf, InstrumentationKey, r.instrumentationOverride);
  }

  lemma HeaderLookup(r: Request, k: Key)
    requires r.task.Some? && r.request.Some?
    ensures Lookup(Header(r), k) == ValueOf(r, k)
  {
    var p1 := Base(r) + Opt(OperationKey, r.operation);
    var p2 := p1 + Opt(ComponentKey, r.componentOverride);
    assert Header(r) == p2 + Opt(InstrumentationKey, r.instrumentationOverride);
    BaseLookup(r, k);
    LookupAppend(Base(r), Opt(OperationKey, r.operation), k);
    LookupAppend(p1, Opt(ComponentKey, r.componentOverride), k);
    LookupAppend(p2, Opt(InstrumentationKey, r.instrumentationOverride), k);
    LookupOpt(OperationKey, r.operation, k);
    LookupOpt(ComponentKey, r.componentOverride, k);
    LookupOpt(InstrumentationKey, r.instrumentationOverride, k);
  }

  /**
   * The header opens with task and request; every key carries the value the
   * builder holds for it and appears exactly when that value is non-null;
   * and the keys follow the fixed order, whatever order the setters were
   * called in.
   */
  lemma HeaderLayout(r: Request)
    requires r.task.Some? && r.request.Some?
    ensures var h := Header(r);
      && |h| >= 2
      && h[0] == (TaskKey, r.task.value)
      && h[1] == (RequestKey, r.request.value)
      && InOrder(h, RankOf)
      && forall k :: Lookup(h, k) == ValueOf(r, k)
  {
    HeaderInOrder(r);
    forall k
      ensures Lookup(Header(r), k) == ValueOf(r, k)
    {
      HeaderLookup(r, k);
    }
  }

  /** The header of a well-formed request carries only escaped values. */
  lemma HeaderEscaped(r: Request)
    requires r.WellFormed() && r.task.Some? && r.request.Some?
    ensures ValuesEscaped(Header(r))
  {
    var p0 := Base(r);
    assert ValuesEscaped(p0);
    OptEscaped(p0, OperationKey, r.operation);
    var p1 := p0 + Opt(OperationKey, r.operation);
    OptEscaped(p1, ComponentKey, r.componentOverride);
    var p2 := p1 + Opt(ComponentKey, r.componentOverride);
    OptEscaped(p2, InstrumentationKey, r.instrumentationOverride);
  }

  /** Every token is in escaped form. */
  lemma TokenIsEscaped(k: Key)
    ensures IsEscaped(Token(k))
  {
    assert IsClean(Token(k));
    CleanIsEscaped(Token(k));
  }

  /**
   * A consumer splitting the line at its unescaped `=` and `;` recovers
   * exactly the fields: the header tokens with their values, then the user
   * pairs in insertion order.
   */
  lemma RenderReadsBack(r: Request)
    requires r.WellFormed()
    ensures var n := Normalize(r);
      ParseLine(Render(r)) == Some(Tokens(Header(n), Token) + Pairs(n.userData))
  {
    var n := Normalize(r);
    assert n.WellFormed() && n.task.Some? && n.request.Some? by {
      NormalizeSpec(r);
    }
    var h := Header(n);
    assert FieldsEscaped(Tokens(h, Token)) by {
      HeaderEscaped(n);
      forall i | 0 <= i < |h|
        ensures IsEscaped(Token(h[i].0))
      {
        TokenIsEscaped(h[i].0);
      }
      TokensEscaped(h, Token);
    }
    assert FieldsEscaped(Fields(n)) by {
      PairsEscaped(n.userData);
      FieldsEscapedAppend(Tokens(h, Token), Pairs(n.userData));
    }
    ParseLineInverse(Fields(n));
  }

  /** Distinct keys have distinct tokens. */
  lemma TokenInjective()
    ensures forall x, y :: Token(x) == Token(y) ==> x == y
  {
  }

  /**
   * A reader of the line finds, under each key's token, the value the request
   * gives that key whenever it gives one, since the header comes before any
   * user pair.
   */
  lemma RenderReadsKey(r: Request, k: Key)
    requires r.WellFormed()
    ensures var n := Normalize(r);
      var read := ParseLine(Render(r));
      read.Some? && (ValueOf(n, k).Some? ==> Lookup(read.value, Token(k)) == ValueOf(n, k))
  {
    var n := Normalize(r);
    NormalizeSpec(r);
    RenderReadsBack(r);
    HeaderLookup(n, k);
    TokenInjective();
    TokensLookup(Header(n), Token, k);
    LookupAppend(Tokens(Header(n), Token), Pairs(n.userData), Token(k));
  }

  /** The two opening fields written out. */
  lemma BaseText(r: Request)
    requires r.task.Some? && r.request.Some?
    ensures Line(Tokens(Base(r), Token))
      == FieldText((Token(TaskKey), r.task.value)) + FieldText((Token(RequestKey), r.request.value))
  {
    var f := Tokens(Base(r), Token);
    var f0 := (Token(TaskKey), r.task.value);
    var f1 := (Token(RequestKey), r.request.value);
    assert f == [f0, f1];
    assert f[1..] == [f1] && f[1..][1..] == [];
    assert Line([f1]) == FieldText(f1);
  }

  /** The line opens with the task and request fields. */
  lemma RenderPrefix(r: Request)
    requires |r.userData| % 2 == 0
    ensures var n := Normalize(r);
      var p := "$SPG$_T=" + n.task.value + ";_R=" + n.request.value + ";";
      |p| <= |Render(r)| && Render(r)[..|p|] == p
  {
    var n := Normalize(r);
    NormalizeSpec(r);
    var p := "$SPG$_T=" + n.task.value + ";_R=" + n.request.value + ";";
    var b := Tokens(Base(n), Token);
    var fs := Fields(n);
    assert Line(b) == p by { BaseText(n); }
    assert Render(r) == Line(b) + Line(fs[2..]) by {
      assert fs == b + fs[2..];
      LineAppend(b, fs[2..]);
    }
  }

  /** The two opening fields as literal text. */
  lemma BaseLine(r: Request)
    requires r.task.Some? && r.request.Some?
    ensures Line(Tokens(Base(r), Token)) == "$SPG$_T=" + r.task.value + ";_R=" + r.request.value + ";"
  {
    BaseText(r);
  }

  /**
   * The whole line written out: task and request (with their sentinels),
   * then `_O=`, `_C^=`, `_I^=` for each field that is non-null, then the
   * user pairs.
   */
  lemma RenderText(r: Request)
    requires |r.userData| % 2 == 0
    ensures var n := Normalize(r);
      Render(r) == "$SPG$_T=" + n.task.value + ";_R=" + n.request.value + ";"
        + OptText("_O", n.operation)
        + OptText("_C^", n.componentOverride)
        + OptText("_I^", n.instrumentationOverride)
        + Line(Pairs(n.userData))
  {
    var n := Normalize(r);
    NormalizeSpec(r);
    var p1 := Base(n) + Opt(OperationKey, n.operation);
    var p2 := p1 + Opt(ComponentKey, n.componentOverride);
    var p3 := p2 + Opt(InstrumentationKey, n.instrumentationOverride);
    assert Render(r) == Line(Tokens(p3, Token)) + Line(Pairs(n.userData)) by {
      assert Header(n) == p3;
      LineAppend(Tokens(Header(n), Token), Pairs(n.userData));
    }
    BaseLine(n);
    LineExtendOptText(Base(n), OperationKey, n.operation, Token);
    LineExtendOptText(p1, ComponentKey, n.componentOverride, Token);
    LineExtendOptText(p2, InstrumentationKey, n.instrumentationOverride, Token);
  }

  /** The line closes with the user pairs, in insertion order. */
  lemma RenderSuffix(r: Request)
    requires |r.userData| % 2 == 0
    ensures var u := Line(Pairs(r.userData));
      |u| <= |Render(r)| && Render(r)[|Render(r)| - |u|..] == u
  {
    var n := Normalize(r);
    NormalizeSpec(r);
    LineAppend(Tokens(Header(n), Token), Pairs(n.userData));
  }

  /** A second build with no mutation in between returns the same line. */
  lemma RenderIdempotent(r: Request)
    requires |r.userData| % 2 == 0
    ensures Render(Normalize(r)) == Render(r)
  {
    NormalizeSpec(r);
    NormalizeSpec(Normalize(r));
  }

  /** The header fields in their fixed order, each optional one appended only when present. */
  method WriteHeader(n: Request) returns (line: string)
    requires n.task.Some? && n.request.Some?
    ensures line == Line(Tokens(Header(n), Token))
  {
    // Each append below writes one whole `token=value;` field.
    line := FieldText((Token(TaskKey), n.task.value)) + FieldText((Token(RequestKey), n.request.value));
    ghost var h := Base(n);
    assert line == Line(Tokens(h, Token)) by { BaseText(n); }
    if n.operation.Some? {
      line := line + FieldText((Token(OperationKey), n.operation.value));
    }
    assert line == Line(Tokens(h + Opt(OperationKey, n.operation), Token)) by {
      LineExtendOpt(h, OperationKey, n.operation, Token);
    }
    h := h + Opt(OperationKey, n.operation);
    if n.componentOverride.Some? {
      line := line + FieldText((Token(ComponentKey), n.componentOverride.value));
    }
    assert line == Line(Tokens(h + Opt(ComponentKey, n.componentOverride), Token)) by {
      LineExtendOpt(h, ComponentKey, n.componentOverride, Token);
    }
    h := h + Opt(ComponentKey, n.componentOverride);
    if n.instrumentationOverride.Some? {
      line := line + FieldText((Token(InstrumentationKey), n.instrumentationOverride.value));
    }
    assert line == Line(Tokens(h + Opt(InstrumentationKey, n.instrumentationOverride), Token)) by {
      LineExtendOpt(h, InstrumentationKey, n.instrumentationOverride, Token);
    }
    h := h + Opt(InstrumentationKey, n.instrumentationOverride);
    assert h == Header(n);
  }

  /**
   * The appending half of `Build`, once the sentinels are in place: the
   * header fields in their fixed order, then every user pair.
   */
  method WriteFields(n: Request) returns (line: string)
    requires n.task.Some? && n.request.Some? && |n.userData| % 2 == 0
    ensures line == Line(Fields(n))
  {
    var ud := n.userData;
    line := WriteHeader(n);
    ghost var head := Tokens(Header(n), Token);
    assert line == Line(head + Pairs(ud[..0])) by {
      assert Pairs(ud[..0]) == [];
      assert head + Pairs(ud[..0]) == head;
    }
    var i := 0;
    while i < |ud|
      invariant 0 <= i <= |ud| && i % 2 == 0
      invariant line == Line(head + Pairs(ud[..i]))
    {
      PairsSnoc(head, ud, i);
      line := line + FieldText((NullText(ud[i]), NullText(ud[i + 1])));
      i := i + 2;
    }
    assert ud[..i] == ud;
  }

  class SplinterLog {
    var task: Option<string>
    var request: Option<string>
    var operation: Option<string>
    var componentOverride: Option<string>
    var instrumentationOverride: Option<string>
    var userData: seq<Option<string>>

    function State(): Request
      reads this
    {
      Request(task, request, operation, componentOverride, instrumentationOverride, userData)
    }

    predicate Valid()
      reads this
    {
      State().WellFormed()
    }

    /** Stores task, request id and operation, each escaped. */
    constructor (task: Option<string>, requestId: Option<string>, operation: Option<string>)
      ensures Valid()
      ensures State() == Initial(task, requestId, operation)
    {
      var escapedTask := EscapeString(task);
      var escapedRequest := EscapeString(requestId);
      var escapedOperation := EscapeString(operation);
      this.task, this.request, this.operation := escapedTask, escapedRequest, escapedOperation;
      componentOverride, instrumentationOverride, userData := None, None, [];
    }

    /** The one-argument form: as the three-argument one with a null request id and operation. */
    constructor OfTask(task: Option<string>)
      ensures Valid()
      ensures State() == Initial(task, None, None)
    {
      var escapedTask := EscapeString(task);
      var escapedRequest := EscapeString(None);
      var escapedOperation := EscapeString(None);
      this.task, this.request, this.operation := escapedTask, escapedRequest, escapedOperation;
      componentOverride, instrumentationOverride, userData := None, None, [];
    }

    /** The two-argument form: as the three-argument one with a null operation. */
    constructor OfTaskAndRequest(task: Option<string>, requestId: Option<string>)
      ensures Valid()
      ensures State() == Initial(task, requestId, None)
    {
      var escapedTask := EscapeString(task);
      var escapedRequest := EscapeString(requestId);
      var escapedOperation := EscapeString(None);
      this.task, this.request, this.operation := escapedTask, escapedRequest, escapedOperation;
      componentOverride, instrumentationOverride, userData := None, None, [];
    }

    method WithRequestId(value: Option<string>)
      requires Valid()
      modifies this
      ensures Valid()
      ensures State() == old(State()).(request := EscapeNullable(value))
    {
      request := EscapeString(value);
    }

    method WithOperation(value: Option<string>)
      requires Valid()
      modifies this
      ensures Valid()
      ensures State() == old(State()).(operation := EscapeNullable(value))
    {
      operation := EscapeString(value);
    }

    method WithTask(value: Option<string>)
      requires Valid()
      modifies this
      ensures Valid()
      ensures State() == old(State()).(task := EscapeNullable(value))
    {
      task := EscapeString(value);
    }

    method WithComponentOverride(value: Option<string>)
      requires Valid()
      modifies this
      ensures Valid()
      ensures State() == old(State()).(componentOverride := EscapeNullable(value))
    {
      componentOverride := EscapeString(value);
    }

    /** Stores `<value><unit suffix>`; a null unit means milliseconds. */
    method WithInstrumentationOverride(value: Int32, timeNotation: Option<TimeNotation>)
      requires Valid()
      modifies this
      ensures Valid()
      ensures State() == old(State()).(instrumentationOverride := Some(OverrideText(value, timeNotation)))
    {
      var unit := if timeNotation.None? then Millis else timeNotation.value;
      OverrideIsClean(value, timeNotation);
      instrumentationOverride := Some(Decimal.DecimalString(value as int) + unit.Notation());
    }

    /** Appends the escaped key (or `_MISSING_KEY_<pairs so far>`) and then the escaped value. */
    method WithUserData(key: Option<string>, value: Option<string>)
      requires Valid()
      modifies this
      ensures Valid()
      ensures State() == old(State()).(userData := AddPair(old(userData), key, value))
    {
      var k := key;
      if k.None? || |k.value| == 0 {
        k := Some(MissingKey(|userData| / 2));
      }
      var escapedKey := EscapeString(k);
      var escapedValue := EscapeString(value);
      assert AddPair(userData, key, value) == userData + [escapedKey, escapedValue];
      userData := userData + [escapedKey, escapedValue];
    }

    /** The map form: a no-op for a null or empty map, otherwise the pair form per entry in iteration order. */
    method WithUserDataMap(entries: Option<seq<(Option<string>, Option<string>)>>)
      requires Valid()
      modifies this
      ensures Valid()
      ensures State() == if entries.Some?
        then old(State()).(userData := AddPairs(old(userData), entries.value))
        else old(State())
    {
      if entries.None? || |entries.value| == 0 {
        return;
      }
      var es := entries.value;
      ghost var start := State();
      var i := 0;
      while i < |es|
        invariant 0 <= i <= |es|
        invariant Valid()
        invariant State() == start.(userData := AddPairs(start.userData, es[..i]))
      {
        AddPairsSnoc(start.userData, es, i);
        WithUserData(es[i].0, es[i].1);
        i := i + 1;
      }
      assert es[..|es|] == es;
    }

    /**
     * Writes the sentinels for a null or empty task and request back into
     * the fields, then emits the fields in the fixed order.
     */
    method Build() returns (line: string)
      requires Valid()
      modifies this
      ensures Valid()
      ensures State() == Normalize(old(State())) && line == Render(old(State()))
    {
      NormalizeSpec(State());
      if task.None? || |task.value| == 0 {
        task := Some(MissingTask);
      }
      if request.None? || |request.value| == 0 {
        request := Some(MissingRequest);
      }
      line := WriteFields(State());
    }

    /** The string form of the builder is its built line. */
    method ToString() returns (line: string)
      requires Valid()
      modifies this
      ensures Valid()
      ensures State() == Normalize(old(State())) && line == Render(old(State()))
    {
      line := Build();
    }
  }
}
