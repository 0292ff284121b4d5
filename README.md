# Splinter log lines in Dafny

Splinter is a tiny Java library that builds tracing lines. A process writes these lines
to its ordinary log, and a separate tool joins them into a graph of components talking
to each other. A line is a run of `key=value;` fields. The first field's key carries the
marker `$SPG$`, which marks the line. Keys and values never contain a bare `\`,
`;`, `=` or newline: the builders escape those four characters with a backslash, and a
newline is written as `\n`.

The library has two builders.

- `SplinterLog` is request-style. It writes `$SPG$_T=<task>;_R=<request>;`, then
  `_O=`, `_C^=` and `_I^=` for the operation, the component override and the
  instrumentation override when each is present, then the user pairs.
- `SLog` is operation-style. It writes `$SPG$+T=<task>;+O=<operation>;+M=<S|A|F>;`,
  then `+OA=`, `+C^=` and `+I^=` when present, `+MC=1;` when the multicast flag is
  set, then the user pairs. Every `SLog` setter, and its `build`, does nothing while
  a process-wide switch is off.

Six `SLog` subclasses are presets. `SLogStart`, `SLogCall` and `SLogStop` fix the
message type. The three broadcast presets also set the multicast flag or the operation
alias.

The model consists of these modules:

- `Escaping`: the escaper as a specification function `Escape`, its loop `EscapeString`,
  and the consumer-side decoder `Unescape`. The two are proved mutually inverse.
- `Wire`: the line as a sequence of fields, `Line`, and the reader `ParseLine`. The
  reader recovers every line of escaped fields.
- `Decimal` and `Instrumentation`: the `%d%s` override text and its reader.
- `UserData`: the flat key/value list and how each pair is added and written.
- `SplinterLogs` and `SLogs`: each builder is a class whose fields the setters update.
  `Build` is proved against a rendering function. Lemmas about that function state
  the field order, the sentinels, what is read back from the line, and idempotence.
- `SLogPresets`: the six preset constructors, with the line each one builds.
- `Scenarios`: the repository's test scenarios from `SplinterLogTest.java`, each proved to
  produce the expected line, and the model's own scenarios for the enable switch, the
  broadcast presets, a rebuilt `SLogStop` and the escaper.

A Java `null` string is `None`, and the empty string is `Some("")`. The library
distinguishes the two, and so does the model.

## Model

| member | source | states |
|---|---|---|
| Escaping.EscapeNullable | src/main/java/com/splinter/graphing/SLog.java:333-336 | null stays null and empty stays empty; every result is in escaped form and decodes back to the input |
| Escaping.Escape | src/main/java/com/splinter/graphing/SLog.java:338-348 | the output is one character longer per reserved character, a string without reserved characters is returned unchanged, and no raw newline survives |
| Escaping.EscapeString | src/main/java/com/splinter/graphing/SLog.java:333-363 | the two-pass loop (count, then copy with a backslash before `\`, `;`, `=` and `n` for a newline) returns exactly the escaped form of a nullable string |
| Escaping.CountReserved | src/main/java/com/splinter/graphing/SLog.java:338-344 | the number of reserved characters never exceeds the length |
| Escaping.CountReservedAppend | src/main/java/com/splinter/graphing/SLog.java:339-344 | counting distributes over concatenation |
| Escaping.EscapeAppend | src/main/java/com/splinter/graphing/SLog.java:351-361 | escaping works character by character, so it distributes over concatenation |
| Escaping.CleanIsEscaped | src/main/java/com/splinter/graphing/SLog.java:346-348 | a string with no reserved character is returned as it is, and it is already in escaped form |
| Escaping.EscapeIsEscaped | src/main/java/com/splinter/graphing/SLog.java:351-361 | every output has each backslash starting a valid escape, and no bare `;`, `=` or newline |
| Escaping.UnescapeEscape | src/main/java/com/splinter/graphing/SLog.java:333-363 | decoding undoes escaping, for every string |
| Escaping.EscapeUnescape | src/main/java/com/splinter/graphing/SLog.java:333-363 | escaping undoes decoding on every string in escaped form, so the two are inverse bijections |
| Escaping.EscapeInjective | src/main/java/com/splinter/graphing/SplinterLog.java:246-276 | different inputs give different escaped texts, so no two values are confused in a line |
| Decimal.Digits | src/main/java/com/splinter/graphing/SLog.java:285 | the `%d` digits of a non-negative number are non-empty decimal digits with no leading zero |
| Decimal.DecimalString | src/main/java/com/splinter/graphing/SLog.java:285 | the `%d` text is non-empty digits and minus signs, and starts with `-` exactly for a negative number |
| Decimal.DecimalRoundTrip | src/main/java/com/splinter/graphing/SLog.java:285 | reading the `%d` text back gives the number |
| Decimal.DecimalInjective | src/main/java/com/splinter/graphing/SplinterLog.java:200 | different numbers have different `%d` texts |
| Instrumentation.OverrideRoundTrip | src/main/java/com/splinter/graphing/SLog.java:279-287 | the override text `<value><unit>` determines the value and the unit, and a null unit reads back as milliseconds |
| Instrumentation.OverrideIsClean | src/main/java/com/splinter/graphing/SplinterLog.java:196-202 | the override text has no reserved character, which is why the source stores it without escaping |
| Instrumentation.RequestMicrosMismatch | src/main/java/com/splinter/graphing/SplinterLog.java:55-61 | with the request-style table as written, every unit except MICROS gives the same override text as the corrected table; a MICROS override differs for every value and cannot be read back |
| Instrumentation.NumericPrefixOf | src/main/java/com/splinter/graphing/SLog.java:105-111 | no unit suffix starts with a digit or a minus sign, so the number ends where the suffix starts |
| Wire.ScanToken | src/main/java/com/splinter/graphing/SLog.java:398 | the reader that goes with the `token=value;` text written here (it is not part of the library): a token it finds is followed by its delimiter in the input |
| Wire.LineAppend | src/main/java/com/splinter/graphing/SLog.java:398-413 | the text of a list of fields is the concatenation of the texts of its parts |
| Wire.ScanEscaped | src/main/java/com/splinter/graphing/SLog.java:398-412 | a token in escaped form ends exactly at the `=` or `;` written after it |
| Wire.ParseLineInverse | src/main/java/com/splinter/graphing/SLog.java:396-415 | a line of escaped fields is read back into exactly those fields |
| Wire.LineInjective | src/main/java/com/splinter/graphing/SplinterLog.java:306-321 | two lists of escaped fields give the same line only if they are equal |
| Wire.TokensAppend | src/main/java/com/splinter/graphing/SLog.java:398-406 | keys are replaced by their tokens field by field, so the fields of a joined header are the joined fields, in order |
| Wire.TokensLookup | src/main/java/com/splinter/graphing/SLog.java:398-406 | when distinct keys have distinct tokens, looking a token up in the written fields gives the value of its key |
| Wire.LookupAppend | src/main/java/com/splinter/graphing/SLog.java:398-408 | a key's value in a joined header comes from the first part that has that key |
| Wire.LineExtendOptText | src/main/java/com/splinter/graphing/SLog.java:401-406 | an optional field adds `token=value;` when it is non-null and nothing otherwise |
| Wire.InOrderExtend | src/main/java/com/splinter/graphing/SLog.java:398-408 | appending an optional field of a higher rank keeps the header in the fixed key order |
| Wire.OrSentinel | src/main/java/com/splinter/graphing/SLog.java:382-385 | a null or empty required value is replaced by the sentinel, and any other value is kept |
| UserData.MissingKeyIsClean | src/main/java/com/splinter/graphing/SLog.java:303-305 | the replacement key `_MISSING_KEY_<n>` is non-empty and has no reserved character |
| UserData.AddPair | src/main/java/com/splinter/graphing/SLog.java:297-310 | two entries are appended after the old ones: the escaped key (or `_MISSING_KEY_<pairs so far>` for a null or empty key), then the escaped value; the list stays well formed |
| UserData.AddPairs | src/main/java/com/splinter/graphing/SLog.java:317-326 | adding the entries one by one appends two entries per entry after the old list and keeps it well formed |
| UserData.AddPairsSnoc | src/main/java/com/splinter/graphing/SLog.java:322-324 | each loop step adds the next entry with the pair form |
| UserData.Pairs | src/main/java/com/splinter/graphing/SLog.java:411-413 | the j-th written pair is entries 2j and 2j+1, and a null entry is written `null` |
| UserData.PairsAppend | src/main/java/com/splinter/graphing/SplinterLog.java:317-319 | a newly added pair is written after all earlier pairs, so pairs appear in insertion order |
| UserData.PairsEscaped | src/main/java/com/splinter/graphing/SplinterLog.java:219-220 | the pairs of a well-formed list are written as escaped fields |
| SLogs.Initial | src/main/java/com/splinter/graphing/SLog.java:195-199 | the constructed state is well formed |
| SLogs.NormalizeSpec | src/main/java/com/splinter/graphing/SLog.java:381-385 | after `build`, task and operation are non-empty; a null or empty one is replaced by its sentinel; nothing else changes, and well-formedness is kept |
| SLogs.HeaderLayout | src/main/java/com/splinter/graphing/SLog.java:398-408 | the header opens with task, operation and message type; each key carries its value and appears exactly when that value is present; keys follow the fixed order whatever order the setters ran in |
| SLogs.TokenIsEscaped | src/main/java/com/splinter/graphing/SLog.java:129-137 | every key token is in escaped form, so a reader can split on it |
| SLogs.RenderReadsBack | src/main/java/com/splinter/graphing/SLog.java:378-416 | reading the built line back recovers exactly the header fields, followed by the user pairs in insertion order |
| SLogs.RenderReadsKey | src/main/java/com/splinter/graphing/SLog.java:398-413 | a reader of the built line finds, under each key's token, the value the event gives that key whenever it gives one, because the header precedes the user pairs |
| SLogs.RenderPrefix | src/main/java/com/splinter/graphing/SLog.java:398-400 | the line opens with `$SPG$+T=<task>;+O=<operation>;+M=<letter>;` |
| SLogs.RenderText | src/main/java/com/splinter/graphing/SLog.java:398-413 | the whole line spelled out: the opening, then `+OA`, `+C^` and `+I^` when non-null, `+MC=1;` when multicast, then the pairs |
| SLogs.RenderSuffix | src/main/java/com/splinter/graphing/SLog.java:411-413 | the line closes with the user pairs |
| SLogs.RenderIdempotent | src/main/java/com/splinter/graphing/SLog.java:382-385 | a second `build` with no mutation in between returns the same line |
| SLogs.WriteHeader | src/main/java/com/splinter/graphing/SLog.java:397-408 | the appends of the header write exactly the header fields |
| SLogs.WriteFields | src/main/java/com/splinter/graphing/SLog.java:396-415 | the appends, including the user-data loop, write exactly the line of the normalized fields |
| SLogs.EnableSwitch.constructor | src/main/java/com/splinter/graphing/SLog.java:169 | the switch starts enabled |
| SLogs.EnableSwitch.SetEnabled | src/main/java/com/splinter/graphing/SLog.java:184-186 | the switch takes the given value |
| SLogs.SLog.constructor | src/main/java/com/splinter/graphing/SLog.java:195-199 | task and operation are stored escaped, a null message type becomes S, and nothing is gated by the switch |
| SLogs.SLog.WithMulticast | src/main/java/com/splinter/graphing/SLog.java:207-212 | while enabled, only the flag changes; while disabled, nothing changes |
| SLogs.SLog.WithOperationAlias | src/main/java/com/splinter/graphing/SLog.java:224-229 | while enabled, only the alias changes, to the escaped value; while disabled, nothing changes |
| SLogs.SLog.WithOperation | src/main/java/com/splinter/graphing/SLog.java:239-244 | while enabled, only the operation is replaced, by the escaped value; while disabled, nothing changes |
| SLogs.SLog.WithTask | src/main/java/com/splinter/graphing/SLog.java:253-258 | while enabled, only the task is replaced, by the escaped value; while disabled, nothing changes |
| SLogs.SLog.WithComponentOverride | src/main/java/com/splinter/graphing/SLog.java:265-270 | while enabled, only the component override changes, to the escaped value; while disabled, nothing changes |
| SLogs.SLog.WithInstrumentationOverride | src/main/java/com/splinter/graphing/SLog.java:279-287 | while enabled, only the instrumentation override changes, to `<value><unit>` with a null unit read as milliseconds; while disabled, nothing changes |
| SLogs.SLog.WithUserData | src/main/java/com/splinter/graphing/SLog.java:297-310 | while enabled, only the user data changes, by one pair; while disabled, nothing changes |
| SLogs.SLog.WithUserDataMap | src/main/java/com/splinter/graphing/SLog.java:317-326 | while enabled, each entry is added in iteration order, and a null or empty map changes nothing; while disabled, nothing changes |
| SLogs.SLog.Build | src/main/java/com/splinter/graphing/SLog.java:378-416 | while enabled, the sentinels are stored and the rendered line is returned; while disabled, the state is untouched and the line is empty |
| SLogs.SLog.ToString | src/main/java/com/splinter/graphing/SLog.java:369-372 | the same as `Build` |
| SplinterLogs.Initial | src/main/java/com/splinter/graphing/SplinterLog.java:134-138 | the constructed state is well formed, and each field is null exactly when its argument is |
| SplinterLogs.NormalizeSpec | src/main/java/com/splinter/graphing/SplinterLog.java:292-296 | after `build`, task and request are non-empty; a null or empty one is replaced by its sentinel; nothing else changes, not even an empty operation |
| SplinterLogs.HeaderLayout | src/main/java/com/splinter/graphing/SplinterLog.java:308-315 | the header opens with task and request; each key carries its value and appears exactly when that value is present; keys follow the fixed order |
| SplinterLogs.TokenIsEscaped | src/main/java/com/splinter/graphing/SplinterLog.java:79-84 | every key token is in escaped form |
| SplinterLogs.RenderReadsBack | src/main/java/com/splinter/graphing/SplinterLog.java:291-322 | reading the built line back recovers exactly the header fields, followed by the user pairs in insertion order |
| SplinterLogs.RenderReadsKey | src/main/java/com/splinter/graphing/SplinterLog.java:308-319 | a reader of the built line finds, under each key's token, the value the request gives that key whenever it gives one |
| SplinterLogs.RenderPrefix | src/main/java/com/splinter/graphing/SplinterLog.java:308-309 | the line opens with `$SPG$_T=<task>;_R=<request>;` |
| SplinterLogs.RenderText | src/main/java/com/splinter/graphing/SplinterLog.java:308-319 | the whole line spelled out: the opening, then `_O`, `_C^` and `_I^` when non-null, then the pairs |
| SplinterLogs.RenderSuffix | src/main/java/com/splinter/graphing/SplinterLog.java:317-319 | the line closes with the user pairs |
| SplinterLogs.RenderIdempotent | src/main/java/com/splinter/graphing/SplinterLog.java:293-296 | a second `build` with no mutation in between returns the same line |
| SplinterLogs.WriteHeader | src/main/java/com/splinter/graphing/SplinterLog.java:307-315 | the appends of the header write exactly the header fields |
| SplinterLogs.WriteFields | src/main/java/com/splinter/graphing/SplinterLog.java:306-321 | the appends, including the user-data loop, write exactly the line of the normalized fields |
| SplinterLogs.SplinterLog.constructor | src/main/java/com/splinter/graphing/SplinterLog.java:134-138 | task, request id and operation are stored escaped |
| SplinterLogs.SplinterLog.OfTask | src/main/java/com/splinter/graphing/SplinterLog.java:113-115 | the same as the three-argument form, with a null request id and a null operation |
| SplinterLogs.SplinterLog.OfTaskAndRequest | src/main/java/com/splinter/graphing/SplinterLog.java:123-125 | the same as the three-argument form, with a null operation |
| SplinterLogs.SplinterLog.WithRequestId | src/main/java/com/splinter/graphing/SplinterLog.java:149-152 | only the request is replaced, by the escaped value |
| SplinterLogs.SplinterLog.WithOperation | src/main/java/com/splinter/graphing/SplinterLog.java:162-165 | only the operation is replaced, by the escaped value |
| SplinterLogs.SplinterLog.WithTask | src/main/java/com/splinter/graphing/SplinterLog.java:174-177 | only the task is replaced, by the escaped value |
| SplinterLogs.SplinterLog.WithComponentOverride | src/main/java/com/splinter/graphing/SplinterLog.java:184-187 | only the component override changes, to the escaped value |
| SplinterLogs.SplinterLog.WithInstrumentationOverride | src/main/java/com/splinter/graphing/SplinterLog.java:196-202 | only the instrumentation override changes, to `<value><unit>` with a null unit read as milliseconds |
| SplinterLogs.SplinterLog.WithUserData | src/main/java/com/splinter/graphing/SplinterLog.java:212-223 | only the user data changes, by one pair |
| SplinterLogs.SplinterLog.WithUserDataMap | src/main/java/com/splinter/graphing/SplinterLog.java:230-239 | each entry is added in iteration order, and a null or empty map changes nothing |
| SplinterLogs.SplinterLog.Build | src/main/java/com/splinter/graphing/SplinterLog.java:291-322 | the sentinels are stored and the rendered line is returned |
| SplinterLogs.SplinterLog.ToString | src/main/java/com/splinter/graphing/SplinterLog.java:283-285 | the same as `Build` |
| SLogPresets.NormalizeInitial | src/main/java/com/splinter/graphing/SLog.java:195-199 | a fresh builder shows each of task and operation escaped, or as its sentinel when null or empty |
| SLogPresets.PresetLine | src/main/java/com/splinter/graphing/SLog.java:398-413 | a builder holding only what a preset sets writes the opening, then `+OA=` when an alias is set and `+MC=1;` when multicast, and nothing else |
| SLogPresets.PlainPresetLine | src/main/java/com/splinter/graphing/SLogStart.java:12-14 | a fresh builder writes exactly its three opening fields |
| SLogPresets.BroadcastSendLine | src/main/java/com/splinter/graphing/SLogBroadcastSend.java:16-19 | a fresh broadcast send writes `+MC=1;` after the opening exactly when the switch was on at construction |
| SLogPresets.BroadcastAliasLine | src/main/java/com/splinter/graphing/SLogBroadcastStart.java:17-20 | a fresh broadcast start or stop writes `+OA=<escaped operation>;` exactly when the switch was on and the operation is non-null, and never `+MC` |
| SLogPresets.SLogStart | src/main/java/com/splinter/graphing/SLogStart.java:12-14 | message type A, with task and operation stored escaped |
| SLogPresets.SLogCall | src/main/java/com/splinter/graphing/SLogCall.java:11-13 | message type S, with task and operation stored escaped |
| SLogPresets.SLogStop | src/main/java/com/splinter/graphing/SLogStop.java:16-18 | message type F, with task and operation stored escaped |
| SLogPresets.SLogBroadcastSend | src/main/java/com/splinter/graphing/SLogBroadcastSend.java:16-19 | message type S, the broadcast id as the operation, and multicast set only while the switch is on |
| SLogPresets.SLogBroadcastStart | src/main/java/com/splinter/graphing/SLogBroadcastStart.java:17-20 | message type A, the broadcast id as the operation, and the escaped operation as the alias only while the switch is on |
| SLogPresets.SLogBroadcastStop | src/main/java/com/splinter/graphing/SLogBroadcastStop.java:12-15 | message type F, the broadcast id as the operation, and the escaped operation as the alias only while the switch is on |
| Scenarios.EscapeOne | src/main/java/com/splinter/graphing/SplinterLog.java:264-274 | one reserved character between two clean parts is escaped there and nowhere else |
| Scenarios.EscapeVectors | src/test/java/com/splinter/graphing/SplinterLogTest.java:55-63 | the escaper's test vectors: clean, newline, null, empty, `=`, `;` and backslash |
| Scenarios.SunnyDay | src/test/java/com/splinter/graphing/SplinterLogTest.java:12-15 | task, request id, operation and one pair give `$SPG$_T=file opened;_R=1;_O=open;rsr=/Users/dimitarz/filename.log;` |
| Scenarios.SunnyDayMap | src/test/java/com/splinter/graphing/SplinterLogTest.java:17-20 | the single-entry map form gives the same line |
| Scenarios.SingleEntry | src/main/java/com/splinter/graphing/SplinterLog.java:235-237 | a map with one entry adds the same pair as the pair form |
| Scenarios.InstrumentationInMicros | src/test/java/com/splinter/graphing/SplinterLogTest.java:25-28 | an override of 2001 microseconds gives `$SPG$_T=display graph;_R=7;_I^=2001μs;` |
| Scenarios.MicrosAsWrittenLine | src/main/java/com/splinter/graphing/SplinterLog.java:57 | with the request-style suffix table as written, the microsecond scenario writes `_I^=2001` followed by U+00CE U+00BC `s;`, which is not the expected line |
| Scenarios.ComponentOverride | src/test/java/com/splinter/graphing/SplinterLogTest.java:30-33 | a component override gives `$SPG$_T=display graph;_R=7;_C^=OtherComp;` |
| Scenarios.NullTask | src/test/java/com/splinter/graphing/SplinterLogTest.java:38-41 | a null task is written `_MISSING_TASK_` |
| Scenarios.AllEmpty | src/test/java/com/splinter/graphing/SplinterLogTest.java:43-46 | empty task and request get their sentinels, and the empty operation is written `_O=;` |
| Scenarios.NullKey | src/test/java/com/splinter/graphing/SplinterLogTest.java:48-51 | a null key for the first pair becomes `_MISSING_KEY_0` |
| Scenarios.EscapingLog | src/test/java/com/splinter/graphing/SplinterLogTest.java:66-74 | reserved characters in every argument are escaped, and setting the task again replaces it |
| Scenarios.SwitchedOff | src/main/java/com/splinter/graphing/SLog.java:208 | while the switch is off, no setter changes the builder and `build` returns the empty string |
| Scenarios.BroadcastSendEnabled | src/main/java/com/splinter/graphing/SLogBroadcastSend.java:16-19 | a broadcast send made while the switch is on ends in `+MC=1;` |
| Scenarios.BroadcastSendMadeWhileOff | src/main/java/com/splinter/graphing/SLog.java:207-212 | a broadcast send made while the switch was off has no `+MC` field, even when built after the switch is back on |
| Scenarios.BroadcastStartAlias | src/main/java/com/splinter/graphing/SLogBroadcastStart.java:17-20 | a broadcast start carries the operation as `+OA=` |
| Scenarios.StopThenRetask | src/main/java/com/splinter/graphing/SLog.java:382-383 | the first `build` stores `_MISSING_TASK_`; a later `withTask` replaces it, and the next line shows the new task |

## Left out

- The static `log(...)` shorthands of the preset classes, and the multi-argument `build`/`escapeUserData` helpers some of them call, are not part of this model.
- The capacity computed for `StringBuilder` is left out. It only sizes a buffer and never changes the line.
- The `this` that every setter returns for chaining is left out: the model's setters return nothing, and chained calls are written as consecutive calls on the same object.
- A `Map` is modelled as a sequence of entries in its iteration order. `HashMap`'s order is not specified, so a line built from a map with several entries has its pairs in whatever order that sequence gives.
- `String.format("%d%s", ...)` is modelled for the default locale, as ASCII digits and an optional minus sign. Locale-specific digits are not modelled.
- The builders use the `MICROS` suffix of `SLog.java:107`, U+03BC followed by `s`, for both builders. The suffix as written in `SplinterLog.java:57` is modelled apart; see "## Findings".
- Java strings are sequences of UTF-16 code units, while a Dafny `string` holds Unicode scalar values, so a lone surrogate has no counterpart in the model. The escaper only looks for four ASCII characters, so this does not change any result.
- The process-wide switch is an object passed to every gated call. Concurrent toggling of the switch while a builder is in use, and thread safety in general, are not modelled.
- The value of an instrumentation override is a 32-bit `Int32`. The wrap-around of Java arithmetic on it never arises, because the value is only formatted.
- Handing the finished line to a logger is I/O outside the library, and is left out.

## Findings

| source | as written | input that shows it | evidently intended | confidence | as-written member | corrected member |
|---|---|---|---|---|---|---|
| src/main/java/com/splinter/graphing/SplinterLog.java:57 | the MICROS suffix of the request-style builder is the bytes `C3 8E C2 BC 73`, the code points U+00CE U+00BC U+0073 in UTF-8, so `SplinterLog` does not write `μs` | `withInstrumentationOverride(2001, MICROS)` stores `2001` followed by U+00CE U+00BC `s`, so `testOptionalParams` (src/test/java/com/splinter/graphing/SplinterLogTest.java:25-28), which expects `_I^=2001μs;`, fails against the code as it stands | U+03BC followed by `s`, as in `SLog.java:107` and the test | high (not executed) | Instrumentation.RequestMicrosMismatch, Scenarios.MicrosAsWrittenLine | Instrumentation.OverrideRoundTrip, Scenarios.InstrumentationInMicros |
