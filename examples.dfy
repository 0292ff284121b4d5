/**
 * Concrete runs of both builders: the lines the repository's tests pin,
 * and the switch-dependent behaviour of the operation-style builder and
 * its presets, each stated as the exact string produced.
 *
 * The inputs are named constants: the escaper is recursive, and naming its
 * arguments keeps the verifier from unfolding it character by character.
 */
module Scenarios {
  import opened Wrappers
  import opened Escaping
  import opened Wire
  import opened UserData
  import opened Instrumentation
  import SplinterLogs
  import SLogs
  import SLogPresets

  const Abcd := "abcd"
  const NewlineIn := "ab\ncd"
  const EqualsIn := "ab=cd"
  const SemicolonIn := "ab;cd"
  const BackslashIn := "ab\\cd"
  const Ab := "ab"
  const Cd := "cd"

  /** A string with one reserved character between two clean parts is escaped at that character only. */
  lemma EscapeOne(pre: string, c: char, post: string)
    requires IsClean(pre) && IsClean(post) && IsReserved(c)
    ensures Escape(pre + [c] + post) == pre + EscapeChar(c) + post
  {
    assert Escape(pre + [c]) == pre + EscapeChar(c) by {
      CleanIsEscaped(pre);
      EscapeAppend(pre, [c]);
      assert Escape([c]) == EscapeChar(c) + Escape([]);
    }
    assert Escape(pre + [c] + post) == Escape(pre + [c]) + post by {
      CleanIsEscaped(post);
      EscapeAppend(pre + [c], post);
    }
  }

  lemma VectorsSplit()
    ensures IsClean(Abcd) && IsClean(Ab) && IsClean(Cd)
    ensures NewlineIn == Ab + ['\n'] + Cd
    ensures EqualsIn == Ab + ['='] + Cd
    ensures SemicolonIn == Ab + [';'] + Cd
    ensures BackslashIn == Ab + ['\\'] + Cd
  {
  }

  lemma VectorsJoin()
    ensures Ab + EscapeChar('\n') + Cd == "ab\\ncd"
    ensures Ab + EscapeChar('=') + Cd == "ab\\=cd"
    ensures Ab + EscapeChar(';') + Cd == "ab\\;cd"
    ensures Ab + EscapeChar('\\') + Cd == "ab\\\\cd"
  {
  }

  /** The escaper on the repository's test vectors. */
  method EscapeVectors() returns (a: Option<string>, b: Option<string>, c: Option<string>, d: Option<string>,
                                  e: Option<string>, f: Option<string>, g: Option<string>)
    ensures a == Some("abcd")
    ensures b == Some("ab\\ncd")
    ensures c == None
    ensures d == Some("")
    ensures e == Some("ab\\=cd")
    ensures f == Some("ab\\;cd")
    ensures g == Some("ab\\\\cd")
  {
    VectorsSplit();
    VectorsJoin();
    a := EscapeString(Some(Abcd));
    CleanIsEscaped(Abcd);
    b := EscapeString(Some(NewlineIn));
    EscapeOne(Ab, '\n', Cd);
    c := EscapeString(None);
    d := EscapeString(Some(""));
    e := EscapeString(Some(EqualsIn));
    EscapeOne(Ab, '=', Cd);
    f := EscapeString(Some(SemicolonIn));
    EscapeOne(Ab, ';', Cd);
    g := EscapeString(Some(BackslashIn));
    EscapeOne(Ab, '\\', Cd);
  }

  const FileOpened := "file opened"
  const One := "1"
  const Open := "open"
  const Rsr := "rsr"
  const LogPath := "/Users/dimitarz/filename.log"

  /** The sunny-day inputs contain no reserved character, so they are stored as they are. */
  lemma SunnyInputs()
    ensures Escape(FileOpened) == FileOpened && Escape(One) == One && Escape(Open) == Open
    ensures Escape(Rsr) == Rsr && Escape(LogPath) == LogPath
    ensures FileOpened != [] && One != [] && Rsr != []
  {
    assert IsClean(FileOpened) && IsClean(One) && IsClean(Open) && IsClean(Rsr) && IsClean(LogPath);
    CleanIsEscaped(FileOpened);
    CleanIsEscaped(One);
    CleanIsEscaped(Open);
    CleanIsEscaped(Rsr);
    CleanIsEscaped(LogPath);
  }

  /** Adding one pair whose key and value need no escaping to an empty list stores them as they are. */
  lemma OnePairAdded(key: string, value: string)
    requires key != [] && Escape(key) == key && Escape(value) == value
    ensures AddPair([], Some(key), Some(value)) == [Some(key), Some(value)]
  {
    var r := AddPair([], Some(key), Some(value));
    assert r[0] == Some(key) && r[1] == Some(value);
  }

  /** A map with a single entry adds the same pair as the pair form. */
  lemma SingleEntry(ud: seq<Option<string>>, key: Option<string>, value: Option<string>)
    ensures AddPairs(ud, [(key, value)]) == AddPair(ud, key, value)
  {
    assert [(key, value)][..0] == [];
  }

  /** The line written for a single user pair. */
  lemma OnePair(key: string, value: string)
    ensures Line(Pairs([Some(key), Some(value)])) == key + "=" + value + ";"
  {
    var ud := [Some(key), Some(value)];
    assert ud[..0] == [];
    assert Pairs(ud) == [(key, value)];
    assert Line([(key, value)]) == FieldText((key, value)) + Line([]);
  }

  /** The line of a request with no overrides and one user pair, in terms of its normalized fields. */
  lemma OnePairLine(r: SplinterLogs.Request, key: string, value: string)
    requires r.componentOverride == None && r.instrumentationOverride == None
    requires r.userData == [Some(key), Some(value)]
    ensures var n := SplinterLogs.Normalize(r);
      SplinterLogs.Render(r) == "$SPG$_T=" + n.task.value + ";_R=" + n.request.value + ";" + OptText("_O", r.operation)
        + (key + "=" + value + ";")
  {
    SplinterLogs.NormalizeSpec(r);
    SplinterLogs.RenderText(r);
    OnePair(key, value);
  }

  const RsrPair := "rsr=/Users/dimitarz/filename.log;"

  /** The line of the sunny-day test. */
  const SunnyLine := "$SPG$_T=file opened;_R=1;" + "_O=open;" + RsrPair

  lemma RsrPairText()
    ensures Rsr + "=" + LogPath + ";" == RsrPair
  {
  }

  lemma SunnyDayText()
    ensures "$SPG$_T=" + FileOpened + ";_R=" + One + ";" + OptText("_O", Some(Open)) + RsrPair == SunnyLine
  {
    assert "$SPG$_T=" + FileOpened + ";_R=" + One + ";" == "$SPG$_T=file opened;_R=1;";
    assert OptText("_O", Some(Open)) == "_O=open;";
  }

  /** The state the sunny-day test reaches, and its line. */
  lemma SunnyDayLine(r: SplinterLogs.Request)
    requires r == SplinterLogs.Initial(Some(FileOpened), Some(One), Some(Open)).(userData := AddPair([], Some(Rsr), Some(LogPath)))
    ensures SplinterLogs.Render(r) == SunnyLine
  {
    SunnyInputs();
    OnePairAdded(Rsr, LogPath);
    OnePairLine(r, Rsr, LogPath);
    RsrPairText();
    SunnyDayText();
  }

  /** Task, request id, operation and one user pair. */
  method SunnyDay() returns (line: string)
    ensures line == SunnyLine
  {
    var log := new SplinterLogs.SplinterLog(Some(FileOpened), Some(One), Some(Open));
    log.WithUserData(Some(Rsr), Some(LogPath));
    ghost var r := log.State();
    line := log.ToString();
    SunnyDayLine(r);
  }

  /** The map form with a single entry writes the same line as the pair form. */
  method SunnyDayMap() returns (line: string)
    ensures line == SunnyLine
  {
    var log := new SplinterLogs.SplinterLog(Some(FileOpened), Some(One), Some(Open));
    log.WithUserDataMap(Some([(Some(Rsr), Some(LogPath))]));
    ghost var r := log.State();
    line := log.Build();
    SingleEntry([], Some(Rsr), Some(LogPath));
    SunnyDayLine(r);
  }

  const DisplayGraph := "display graph"
  const Seven := "7"
  const OtherComp := "OtherComp"
  const DisplayOpening := "$SPG$_T=display graph;_R=7;"

  lemma DisplayInputs()
    ensures Escape(DisplayGraph) == DisplayGraph && Escape(Seven) == Seven && Escape(OtherComp) == OtherComp
    ensures DisplayGraph != [] && Seven != []
  {
    assert IsClean(DisplayGraph) && IsClean(Seven) && IsClean(OtherComp);
    CleanIsEscaped(DisplayGraph);
    CleanIsEscaped(Seven);
    CleanIsEscaped(OtherComp);
  }

  /** The line of a request with a task, a request id, no operation and no user data. */
  lemma OverrideLine(r: SplinterLogs.Request, task: string, request: string)
    requires r.task == Some(task) && r.request == Some(request) && task != [] && request != []
    requires r.operation == None && r.userData == []
    ensures SplinterLogs.Render(r) == "$SPG$_T=" + task + ";_R=" + request + ";"
      + OptText("_C^", r.componentOverride) + OptText("_I^", r.instrumentationOverride)
  {
    var n := SplinterLogs.Normalize(r);
    assert n == r by {
      SplinterLogs.NormalizeSpec(r);
    }
    var head := "$SPG$_T=" + task + ";_R=" + request + ";";
    assert OptText("_O", None) == "";
    assert Line(Pairs([])) == "" by {
      assert Pairs([]) == [];
    }
    SplinterLogs.RenderText(r);
    assert SplinterLogs.Render(r) == head + "" + OptText("_C^", r.componentOverride) + OptText("_I^", r.instrumentationOverride) + "";
  }

  lemma DisplayOpeningText()
    ensures "$SPG$_T=" + DisplayGraph + ";_R=" + Seven + ";" == DisplayOpening
  {
  }

  /** 2001 microseconds as the override text. */
  const MicrosOverride := "2001\U{03BC}s"
  const MicrosField := "_I^=2001\U{03BC}s;"

  lemma MicrosOverrideText()
    ensures OverrideText(2001, Some(Micros)) == MicrosOverride
  {
    assert Decimal.Digits(2001) == "2001";
    assert Decimal.DecimalString(2001) == "2001";
  }

  lemma MicrosFieldText()
    ensures OptText("_I^", Some(MicrosOverride)) == MicrosField
  {
  }

  /** The line of the instrumentation-override scenario. */
  const MicrosLine := DisplayOpening + MicrosField

  lemma MicrosLineOf(r: SplinterLogs.Request)
    requires r == SplinterLogs.Request(Some(DisplayGraph), Some(Seven), None, None, Some(MicrosOverride), [])
    ensures SplinterLogs.Render(r) == MicrosLine
  {
    OverrideLine(r, DisplayGraph, Seven);
    DisplayOpeningText();
    MicrosFieldText();
    assert OptText("_C^", None) == "";
  }

  /** An instrumentation override in microseconds. */
  method InstrumentationInMicros() returns (line: string)
    ensures line == MicrosLine
  {
    var log := new SplinterLogs.SplinterLog.OfTaskAndRequest(Some(DisplayGraph), Some(Seven));
    log.WithInstrumentationOverride(2001, Some(Micros));
    ghost var r := log.State();
    line := log.Build();
    DisplayInputs();
    MicrosOverrideText();
    MicrosLineOf(r);
  }

  /** 2001 microseconds under the request-style builder's own suffix table. */
  const MicrosAsWritten := "2001\U{00CE}\U{00BC}s"
  const MicrosAsWrittenField := "_I^=2001\U{00CE}\U{00BC}s;"

  lemma MicrosAsWrittenText()
    ensures RequestTableOverrideText(2001, Some(Micros)) == MicrosAsWritten
    ensures OptText("_I^", Some(MicrosAsWritten)) == MicrosAsWrittenField
  {
    assert Decimal.Digits(2001) == "2001";
    assert Decimal.DecimalString(2001) == "2001";
  }

  /**
   * The microsecond scenario with that table as written: the stored override
   * is `2001` followed by U+00CE U+00BC `s`, so the line is not the expected one.
   */
  lemma MicrosAsWrittenLine(r: SplinterLogs.Request)
    requires r == SplinterLogs.Request(Some(DisplayGraph), Some(Seven), None, None, Some(RequestTableOverrideText(2001, Some(Micros))), [])
    ensures SplinterLogs.Render(r) == DisplayOpening + MicrosAsWrittenField
    ensures SplinterLogs.Render(r) != MicrosLine
  {
    MicrosAsWrittenText();
    OverrideLine(r, DisplayGraph, Seven);
    DisplayOpeningText();
    assert OptText("_C^", None) == "";
    assert |MicrosAsWrittenField| == |MicrosField| + 1;
  }

  const ComponentField := "_C^=OtherComp;"

  /** The line of the component-override scenario. */
  const ComponentLine := DisplayOpening + ComponentField

  lemma ComponentFieldText()
    ensures OptText("_C^", Some(OtherComp)) == ComponentField
  {
  }

  lemma ComponentLineOf(r: SplinterLogs.Request)
    requires r == SplinterLogs.Request(Some(DisplayGraph), Some(Seven), None, Some(OtherComp), None, [])
    ensures SplinterLogs.Render(r) == ComponentLine
  {
    OverrideLine(r, DisplayGraph, Seven);
    DisplayOpeningText();
    ComponentFieldText();
    assert OptText("_I^", None) == "";
  }

  /** A component override. */
  method ComponentOverride() returns (line: string)
    ensures line == ComponentLine
  {
    var log := new SplinterLogs.SplinterLog.OfTaskAndRequest(Some(DisplayGraph), Some(Seven));
    log.WithComponentOverride(Some(OtherComp));
    ghost var r := log.State();
    line := log.Build();
    DisplayInputs();
    ComponentLineOf(r);
  }

  /** The line of the missing-task test. */
  const NullTaskLine := "$SPG$_T=_MISSING_TASK_;_R=1;" + "_O=open;" + RsrPair

  lemma NullTaskText()
    ensures "$SPG$_T=" + SplinterLogs.MissingTask + ";_R=" + One + ";" + OptText("_O", Some(Open)) + RsrPair == NullTaskLine
  {
    assert "$SPG$_T=" + SplinterLogs.MissingTask + ";_R=" + One + ";" == "$SPG$_T=_MISSING_TASK_;_R=1;";
    assert OptText("_O", Some(Open)) == "_O=open;";
  }

  lemma NullTaskLineOf(r: SplinterLogs.Request)
    requires r == SplinterLogs.Initial(None, Some(One), Some(Open)).(userData := AddPair([], Some(Rsr), Some(LogPath)))
    ensures SplinterLogs.Render(r) == NullTaskLine
  {
    SunnyInputs();
    OnePairAdded(Rsr, LogPath);
    SplinterLogs.NormalizeSpec(r);
    OnePairLine(r, Rsr, LogPath);
    RsrPairText();
    NullTaskText();
  }

  /** A null task is written as its sentinel. */
  method NullTask() returns (line: string)
    ensures line == NullTaskLine
  {
    var log := new SplinterLogs.SplinterLog(None, Some(One), Some(Open));
    log.WithUserData(Some(Rsr), Some(LogPath));
    ghost var r := log.State();
    line := log.Build();
    NullTaskLineOf(r);
  }

  /** The opening of a line whose task, request and operation were all given empty. */
  const EmptyOpening := "$SPG$_T=_MISSING_TASK_;_R=_MISSING_REQUEST_;" + "_O=;"

  lemma EmptyOpeningText()
    ensures "$SPG$_T=" + SplinterLogs.MissingTask + ";_R=" + SplinterLogs.MissingRequest + ";" + OptText("_O", Some(""))
      == EmptyOpening
  {
    assert "$SPG$_T=" + SplinterLogs.MissingTask + ";_R=" + SplinterLogs.MissingRequest + ";"
      == "$SPG$_T=_MISSING_TASK_;_R=_MISSING_REQUEST_;";
    assert OptText("_O", Some("")) == "_O=;";
  }

  /** The line of a request with an empty task, request and operation and one user pair. */
  lemma EmptyWithPair(r: SplinterLogs.Request, key: string)
    requires r == SplinterLogs.Initial(Some(""), Some(""), Some("")).(userData := [Some(key), Some(LogPath)])
    ensures SplinterLogs.Render(r) == EmptyOpening + (key + "=" + LogPath + ";")
  {
    assert Escape("") == "";
    SplinterLogs.NormalizeSpec(r);
    OnePairLine(r, key, LogPath);
    EmptyOpeningText();
  }

  /** The line of the test with every argument empty. */
  const AllEmptyLine := EmptyOpening + RsrPair

  /** Empty task and request get their sentinels; the empty operation is kept and written `_O=;`. */
  method AllEmpty() returns (line: string)
    ensures line == AllEmptyLine
  {
    var log := new SplinterLogs.SplinterLog(Some(""), Some(""), Some(""));
    log.WithUserData(Some(Rsr), Some(LogPath));
    ghost var r := log.State();
    line := log.Build();
    SunnyInputs();
    OnePairAdded(Rsr, LogPath);
    EmptyWithPair(r, Rsr);
    RsrPairText();
  }

  const MissingKeyZero := "_MISSING_KEY_0"
  const KeyZeroPair := "_MISSING_KEY_0=/Users/dimitarz/filename.log;"

  lemma FirstMissingKey()
    ensures MissingKey(0) == MissingKeyZero
  {
    assert Decimal.Digits(0) == "0";
    assert Decimal.DecimalString(0) == "0";
  }

  lemma KeyZeroPairText()
    ensures MissingKeyZero + "=" + LogPath + ";" == KeyZeroPair
  {
  }

  /** The line of the test with a null key. */
  const NullKeyLine := EmptyOpening + KeyZeroPair

  lemma NullKeyAdded()
    ensures AddPair([], None, Some(LogPath)) == [Some(MissingKeyZero), Some(LogPath)]
  {
    SunnyInputs();
    FirstMissingKey();
    var r := AddPair([], None, Some(LogPath));
    assert r[0] == Some(MissingKeyZero) && r[1] == Some(LogPath);
  }

  /** A null key at pair index 0 becomes `_MISSING_KEY_0`. */
  method NullKey() returns (line: string)
    ensures line == NullKeyLine
  {
    var log := new SplinterLogs.SplinterLog(Some(""), Some(""), Some(""));
    log.WithUserData(None, Some(LogPath));
    ghost var r := log.State();
    line := log.Build();
    NullKeyAdded();
    EmptyWithPair(r, MissingKeyZero);
    KeyZeroPairText();
  }

  const SemicolonTask := "file; opened"
  const EqualsKey := "r=sr"
  const SemicolonPath := "/Users/dimitarz/;filename.log"
  const BackslashOperation := "\\open"
  const EqualsRequest := "=1"

  const EscapedTask := "file\\; opened"
  const EscapedKey := "r\\=sr"
  const EscapedPath := "/Users/dimitarz/\\;filename.log"
  const EscapedOperation := "\\\\open"
  const EscapedRequest := "\\=1"

  const File := "file"
  const Opened := " opened"
  const R := "r"
  const Sr := "sr"
  const UsersDir := "/Users/dimitarz/"
  const FileName := "filename.log"

  /** Each escaping-test argument is one reserved character between two clean parts. */
  lemma EscapingSplit()
    ensures IsClean(File) && IsClean(Opened) && IsClean(R) && IsClean(Sr) && IsClean(UsersDir) && IsClean(FileName)
    ensures IsClean(Open) && IsClean(One) && IsClean("")
    ensures SemicolonTask == File + [';'] + Opened
    ensures EqualsKey == R + ['='] + Sr
    ensures SemicolonPath == UsersDir + [';'] + FileName
    ensures BackslashOperation == "" + ['\\'] + Open
    ensures EqualsRequest == "" + ['='] + One
  {
  }

  lemma EscapingJoin()
    ensures File + EscapeChar(';') + Opened == EscapedTask
    ensures R + EscapeChar('=') + Sr == EscapedKey
    ensures UsersDir + EscapeChar(';') + FileName == EscapedPath
    ensures "" + EscapeChar('\\') + Open == EscapedOperation
    ensures "" + EscapeChar('=') + One == EscapedRequest
  {
  }

  /** The escaper on the escaping test's arguments. */
  lemma EscapingInputs()
    ensures Escape(SemicolonTask) == EscapedTask && Escape(EqualsKey) == EscapedKey && Escape(SemicolonPath) == EscapedPath
    ensures Escape(BackslashOperation) == EscapedOperation && Escape(EqualsRequest) == EscapedRequest
  {
    EscapingSplit();
    EscapingJoin();
    EscapeOne(File, ';', Opened);
    EscapeOne(R, '=', Sr);
    EscapeOne(UsersDir, ';', FileName);
    EscapeOne("", '\\', Open);
    EscapeOne("", '=', One);
  }

  const EscapingOpening := "$SPG$_T=file\\; opened;_R=\\=1;"
  const EscapingOperation := "_O=\\\\open;"
  const EscapingPair := "r\\=sr=/Users/dimitarz/\\;filename.log;"

  /** The line of the escaping test. */
  const EscapingLine := EscapingOpening + EscapingOperation + EscapingPair

  lemma EscapingOpeningText()
    ensures "$SPG$_T=" + EscapedTask + ";_R=" + EscapedRequest + ";" == EscapingOpening
  {
  }

  lemma EscapingOperationText()
    ensures OptText("_O", Some(EscapedOperation)) == EscapingOperation
  {
  }

  lemma EscapingPairText()
    ensures EscapedKey + "=" + EscapedPath + ";" == EscapingPair
  {
  }

  /** The state the escaping test reaches, and its line. */
  lemma EscapingLineOf(r: SplinterLogs.Request)
    requires r == SplinterLogs.Initial(Some(SemicolonTask), None, None)
      .(userData := AddPair([], Some(EqualsKey), Some(SemicolonPath)))
      .(operation := EscapeNullable(Some(BackslashOperation)))
      .(request := EscapeNullable(Some(EqualsRequest)))
      .(task := EscapeNullable(Some(SemicolonTask)))
    ensures SplinterLogs.Render(r) == EscapingLine
  {
    EscapingInputs();
    assert AddPair([], Some(EqualsKey), Some(SemicolonPath)) == [Some(EscapedKey), Some(EscapedPath)] by {
      var u := AddPair([], Some(EqualsKey), Some(SemicolonPath));
      assert u[0] == Some(EscapedKey) && u[1] == Some(EscapedPath);
    }
    SplinterLogs.NormalizeSpec(r);
    OnePairLine(r, EscapedKey, EscapedPath);
    EscapingOpeningText();
    EscapingOperationText();
    EscapingPairText();
  }

  /** Reserved characters in every argument are escaped; setting the task again replaces it. */
  method EscapingLog() returns (line: string)
    ensures line == EscapingLine
  {
    var log := new SplinterLogs.SplinterLog.OfTask(Some(SemicolonTask));
    log.WithUserData(Some(EqualsKey), Some(SemicolonPath));
    log.WithOperation(Some(BackslashOperation));
    log.WithRequestId(Some(EqualsRequest));
    log.WithTask(Some(SemicolonTask));
    ghost var r := log.State();
    line := log.Build();
    EscapingLineOf(r);
  }

  const Brew := "brew"
  const Pump := "pump"
  const Broadcast := "b7"
  const Chime := "chime"

  lemma PresetInputs()
    ensures Escape(Brew) == Brew && Escape(Pump) == Pump && Escape(Broadcast) == Broadcast && Escape(Chime) == Chime
    ensures Brew != [] && Pump != [] && Broadcast != []
  {
    assert IsClean(Brew) && IsClean(Pump) && IsClean(Broadcast) && IsClean(Chime);
    CleanIsEscaped(Brew);
    CleanIsEscaped(Pump);
    CleanIsEscaped(Broadcast);
    CleanIsEscaped(Chime);
  }

  /** While the switch is off no setter changes anything and `Build` returns the empty string. */
  method SwitchedOff() returns (log: SLogs.SLog, line: string)
    ensures line == ""
    ensures log.State() == SLogs.Initial(Some(Brew), Some(Pump), Some(SLogs.MessageType.A))
  {
    var sw := new SLogs.EnableSwitch();
    sw.SetEnabled(false);
    log := SLogPresets.SLogStart(Some(Brew), Some(Pump));
    log.WithUserData(sw, Some(Rsr), Some(LogPath));
    log.WithTask(sw, None);
    log.WithMulticast(sw, true);
    line := log.Build(sw);
  }

  /** The opening fields of a preset whose task and operation need no escaping. */
  lemma OpeningOf(task: string, operation: string, m: SLogs.MessageType)
    requires task != [] && Escape(task) == task && operation != [] && Escape(operation) == operation
    ensures SLogPresets.Opening(Some(task), Some(operation), m)
      == "$SPG$+T=" + task + ";+O=" + operation + ";+M=" + m.Letter() + ";"
  {
  }

  const SendOpening := "$SPG$+T=brew;+O=b7;+M=S;"
  const StartOpening := "$SPG$+T=brew;+O=b7;+M=A;"
  const StopWithoutTask := "$SPG$+T=_MISSING_TASK_;+O=pump;+M=F;"
  const StopWithTask := "$SPG$+T=brew;+O=pump;+M=F;"

  lemma SendOpeningText()
    ensures "$SPG$+T=" + Brew + ";+O=" + Broadcast + ";+M=" + SLogs.MessageType.S.Letter() + ";" == SendOpening
  {
  }

  lemma StartOpeningText()
    ensures "$SPG$+T=" + Brew + ";+O=" + Broadcast + ";+M=" + SLogs.MessageType.A.Letter() + ";" == StartOpening
  {
  }

  lemma StopOpeningTexts()
    ensures "$SPG$+T=" + SLogs.MissingTask + ";+O=" + Pump + ";+M=" + SLogs.MessageType.F.Letter() + ";" == StopWithoutTask
    ensures "$SPG$+T=" + Brew + ";+O=" + Pump + ";+M=" + SLogs.MessageType.F.Letter() + ";" == StopWithTask
  {
    assert SLogs.MessageType.F.Letter() == "F";
    assert "$SPG$+T=" + SLogs.MissingTask + ";+O=" + Pump + ";+M=" == "$SPG$+T=_MISSING_TASK_;+O=pump;+M=";
  }

  lemma PresetOpenings()
    ensures SLogPresets.Opening(Some(Brew), Some(Broadcast), SLogs.MessageType.S) == SendOpening
    ensures SLogPresets.Opening(Some(Brew), Some(Broadcast), SLogs.MessageType.A) == StartOpening
    ensures SLogPresets.Opening(None, Some(Pump), SLogs.MessageType.F) == StopWithoutTask
    ensures SLogPresets.Opening(Some(Brew), Some(Pump), SLogs.MessageType.F) == StopWithTask
  {
    PresetInputs();
    SendOpeningText();
    StartOpeningText();
    StopOpeningTexts();
    OpeningOf(Brew, Broadcast, SLogs.MessageType.S);
    OpeningOf(Brew, Broadcast, SLogs.MessageType.A);
    OpeningOf(Brew, Pump, SLogs.MessageType.F);
  }

  /** A broadcast send made while the switch is on carries `+MC=1;`. */
  method BroadcastSendEnabled() returns (line: string)
    ensures line == SendOpening + "+MC=1;"
  {
    var sw := new SLogs.EnableSwitch();
    var log := SLogPresets.SLogBroadcastSend(sw, Some(Brew), Some(Broadcast));
    line := log.Build(sw);
    SLogPresets.BroadcastSendLine(Some(Brew), Some(Broadcast), true);
    PresetOpenings();
  }

  /** A broadcast send made while the switch was off has no `+MC` field, even when built after the switch is back on. */
  method BroadcastSendMadeWhileOff() returns (line: string)
    ensures line == SendOpening
  {
    var sw := new SLogs.EnableSwitch();
    sw.SetEnabled(false);
    var log := SLogPresets.SLogBroadcastSend(sw, Some(Brew), Some(Broadcast));
    sw.SetEnabled(true);
    line := log.Build(sw);
    SLogPresets.BroadcastSendLine(Some(Brew), Some(Broadcast), false);
    PresetOpenings();
  }

  lemma StartAliasLine()
    ensures SLogs.Render(SLogs.Initial(Some(Brew), Some(Broadcast), Some(SLogs.MessageType.A)).(operationAlias := EscapeNullable(Some(Chime))))
      == StartOpening + "+OA=chime;"
  {
    var alias := "+OA=" + Escape(Chime) + ";";
    assert alias == "+OA=chime;" by {
      PresetInputs();
    }
    assert SLogPresets.Opening(Some(Brew), Some(Broadcast), SLogs.MessageType.A) == StartOpening by {
      PresetOpenings();
    }
    SLogPresets.BroadcastAliasLine(Some(Brew), Some(Broadcast), Some(Chime), SLogs.MessageType.A, true);
  }

  /** A broadcast start carries the escaped operation as its alias. */
  method BroadcastStartAlias() returns (line: string)
    ensures line == StartOpening + "+OA=chime;"
  {
    var sw := new SLogs.EnableSwitch();
    var log := SLogPresets.SLogBroadcastStart(sw, Some(Brew), Some(Broadcast), Some(Chime));
    line := log.Build(sw);
    StartAliasLine();
  }

  /** The state after the first build of a stop with no task, and a new task set on it. */
  lemma RetaskedState()
    ensures SLogs.Normalize(SLogs.Initial(None, Some(Pump), Some(SLogs.MessageType.F))).(task := EscapeNullable(Some(Brew)))
      == SLogs.Initial(Some(Brew), Some(Pump), Some(SLogs.MessageType.F))
  {
    PresetInputs();
    SLogs.NormalizeSpec(SLogs.Initial(None, Some(Pump), Some(SLogs.MessageType.F)));
  }

  /**
   * `Build` writes the task sentinel back into the builder; a later
   * `WithTask` replaces it and the next line carries the new task.
   */
  method StopThenRetask() returns (first: string, second: string)
    ensures first == StopWithoutTask
    ensures second == StopWithTask
  {
    var sw := new SLogs.EnableSwitch();
    var log := SLogPresets.SLogStop(None, Some(Pump));
    first := log.Build(sw);
    log.WithTask(sw, Some(Brew));
    RetaskedState();
    second := log.Build(sw);
    SLogPresets.PlainPresetLine(None, Some(Pump), SLogs.MessageType.F);
    SLogPresets.PlainPresetLine(Some(Brew), Some(Pump), SLogs.MessageType.F);
    PresetOpenings();
  }
}
