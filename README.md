# FluentControl automation client: a Dafny model

This project models the deterministic layer of a small Python client for
the REST API of a FluentControl liquid-handling instrument, and proves
properties of that model. The layer covers:

- **Instrument client** (`FluentAutomation`). This is the client class:
  - base-URL normalisation and the authentication-mode precedence
    (API key, then username and password, then none);
  - the endpoint paths, including the session-scoped start, status and
    cancel paths;
  - the pass/fail rule for a response status;
  - the two POST payloads (deck layout and transfer session), and the JSON
    encoding of a layout as written and as intended.

  The module also holds the labware and transfer records with their
  defaults, the standard 96-well layout builder, the default
  transfer-parameter builder, and the workflow of `main` with its bounded
  status-polling loop.
- **Example workflows** (`FluentExamples`):
  - the transfer lists built from protocol presets (serial dilution, A-to-B
    pairing, a 48-well row-major plate copy) and the custom six-slot
    layout;
  - `run_complete_workflow`, with its session-id check and its own
    twenty-step polling loop;
  - the credential guard of the examples' `main`, and the order in which
    `main` runs everything.
- **Preset tables** (`FluentConfig`): the liquid-class and tip-type labels;
  the protocol, deck-layout and transfer-pattern tables as association lists
  in declaration order; the `get_*` lookups (`None` for an undeclared name)
  and the `list_available_*` listings.

`Text` models the Python text operations the client uses:
`str.rstrip('/')`, `int()` of a clock reading, and `str()` of an int, with a
reader for decimal text. `JsonModel` models JSON values and `dict.get`.
`Prelude` holds `Option` and `Result`.

The network and the clock are parameters:

- `send: HttpRequest -> Reply` is the instrument's answer to one request.
- `net(n)` answers the n-th request of a workflow.
- `clock(n)` is the workflow's n-th reading of `time.time()`.

A workflow is therefore a function of its inputs. Each imperative part of
the source has a method that does what the source does: the constructor
updates the session headers, the builders append in `for` loops, and the
polling loops return early. Each loop and workflow method is proved equal
to a specification function. The constructors and `Session.UpdateHeaders`
state each field's new value in their own ensures clauses. The properties
sit in lemmas about the specification functions, or in the functions' own
contracts.

Three facts about the code that a reader might not expect:

- **Exhausted polling is not an error.** Neither polling loop
  (fluent_control_automation.py:340-347, fluent_control_examples.py:345-360)
  raises when its bound is used up: the loop just ends. `PollFrom` returns
  `NotReached`, and both workflows treat that as success.
  `PollGivesUpQuietly` and `WorkflowSucceedsWithoutTerminalStatus` state
  this.
- **Only 400-599 raises.** `_make_request` calls `raise_for_status`, which
  raises only for statuses from 400 to 599. A final response with a status
  from 100 to 399, or of 600 and above, yields its body (`RaisesForStatus`,
  `Outcome`). Redirects are followed by the transport, which is not part of
  this model, so a final 3xx is one the transport did not follow.
- **`run_complete_workflow` returns the session id.** It returns the id
  whatever the polling loop observed, including a `failed` status or no
  terminal status at all; only a failing status request fails it
  (`WorkflowReturnsIdWhateverTheStatus`).

## Model

| member | source | states |
|---|---|---|
| Text.TrimTrailing | fluent_control_automation.py:98 | `rstrip('/')` yields a prefix of the URL that does not end in '/' and drops only '/' characters |
| Text.TrimTrailingUnique | fluent_control_automation.py:98 | that prefix is the only one with those two properties, so the normalised URL is fully determined |
| Text.TrimTrailingIdempotent | fluent_control_automation.py:98 | normalising an already normalised URL changes nothing |
| Text.TruncateTowardZero | fluent_control_automation.py:203 | `int(time.time())` truncates toward zero: within one second of the reading, on the zero side |
| Text.IntToDecimal | fluent_control_automation.py:203 | `str()` of an int reads back as that int, carries a '-' exactly for negative values, and has no leading zero and no "-0" |
| Text.CanonicalDigitsUnique | fluent_control_automation.py:203 | the digits without a leading zero that denote n are exactly the decimal text of n |
| Text.CanonicalDecimalUnique | fluent_control_automation.py:203 | any text that reads back as i, has a '-' exactly when i is negative and canonical digits is `str(i)`: the rendering is the only canonical one |
| Text.DecimalRoundTrip | fluent_control_automation.py:203 | decimal digit text of a natural number reads back as that number |
| Text.IntToDecimalInjective | fluent_control_automation.py:203 | different ints never print the same |
| JsonModel.GetFieldOr | fluent_control_examples.py:348 | `dict.get(key, default)`: the stored value for a present key, the default otherwise |
| JsonModel.GetField | fluent_control_automation.py:329 | `dict.get(key)`: a missing key reads as `None` |
| FluentConfig.LiquidClassLabel | fluent_control_config.py:15-24 | the declared value of each liquid class; `LiquidClassLabelRoundTrip` and `LiquidClassLabelsDistinct` prove it one-to-one |
| FluentConfig.LiquidClassFromLabel | fluent_control_config.py:15-24 | a label is mapped back only to a member that carries exactly that label |
| FluentConfig.LiquidClassLabelRoundTrip | fluent_control_config.py:15-24 | every liquid class is recovered from its label |
| FluentConfig.LiquidClassLabelsDistinct | fluent_control_config.py:15-24 | no two liquid classes share a label |
| FluentConfig.TipTypeLabel | fluent_control_config.py:27-35 | the declared value of each tip type; `TipTypeLabelRoundTrip` and `TipTypeLabelsDistinct` prove it one-to-one |
| FluentConfig.TipTypeFromLabel | fluent_control_config.py:27-35 | a label is mapped back only to a tip type that carries exactly that label |
| FluentConfig.TipTypeLabelRoundTrip | fluent_control_config.py:27-35 | every tip type is recovered from its label |
| FluentConfig.TipTypeLabelsDistinct | fluent_control_config.py:27-35 | no two tip types share a label |
| FluentConfig.Keys | fluent_control_config.py:214-226 | `list(table.keys())` has one key per entry, in declaration order |
| FluentConfig.Lookup | fluent_control_config.py:199-211 | `table.get(key)` finds something exactly when the key is declared, and what it finds is stored under that key |
| FluentConfig.LookupDeclared | fluent_control_config.py:199-211 | with distinct keys, the i-th declared key finds the i-th value |
| FluentConfig.LookupFindsEntries | fluent_control_config.py:199-211 | with distinct keys, every declared key finds its own entry |
| FluentConfig.ListAvailableProtocols | fluent_control_config.py:214-216 | the protocol names, exactly and in declaration order |
| FluentConfig.ListAvailableLayouts | fluent_control_config.py:219-221 | the layout names, exactly and in declaration order |
| FluentConfig.ListAvailablePatterns | fluent_control_config.py:224-226 | the pattern names, exactly and in declaration order |
| FluentConfig.GetTransferProtocol | fluent_control_config.py:199-201 | a protocol is found iff its name is listed; a declared name gives its declared entry |
| FluentConfig.GetDeckLayout | fluent_control_config.py:204-206 | a layout is found iff its name is listed; a declared name gives its declared entry |
| FluentConfig.GetTransferPattern | fluent_control_config.py:209-211 | a pattern is found iff its name is listed; a declared name gives its declared entry |
| FluentConfig.StandardWaterIsNamed | fluent_control_config.py:56-58 | "standard_water" is declared, and its protocol is named "Standard Water Transfer" |
| FluentConfig.StandardSlotsDistinct | fluent_control_config.py:121-161 | the eight slot ids A1..A4, B1..B4 are pairwise distinct |
| FluentConfig.LayoutPresetsCoverStandardSlots | fluent_control_config.py:120-162 | every listed layout has 8 positions with ids A1..A4, B1..B4 in order, pairwise distinct |
| FluentConfig.SerialDilutionPatternChains | fluent_control_config.py:167-175 | the "serial_dilution" pattern has 4 transfers, each starting at the previous destination |
| FluentConfig.PatternsMatchTheirDescriptions | fluent_control_config.py:177-195 | every "replicate_transfer" source is A1; every "multi_source_transfer" destination is B1 |
| FluentConfig.ListingsNonEmpty | fluent_control_config.py:214-226 | none of the three listings is empty |
| FluentAutomation.LabwareTypeLabel | fluent_control_automation.py:32-43 | the declared value of each labware type; `LabwareTypeLabelRoundTrip` and `LabwareTypeLabelsDistinct` prove it one-to-one |
| FluentAutomation.LabwareTypeFromLabel | fluent_control_automation.py:32-43 | a label is mapped back only to the labware type with exactly that label |
| FluentAutomation.LabwareTypeLabelRoundTrip | fluent_control_automation.py:32-43 | every labware type is recovered from its label |
| FluentAutomation.LabwareTypeLabelsDistinct | fluent_control_automation.py:32-43 | no two labware types share a label |
| FluentAutomation.PositionStatusLabel | fluent_control_automation.py:46-51 | the declared value of each position status; `PositionStatusLabelRoundTrip` and `PositionStatusLabelsDistinct` prove it one-to-one |
| FluentAutomation.PositionStatusFromLabel | fluent_control_automation.py:46-51 | a label is mapped back only to the status with exactly that label |
| FluentAutomation.PositionStatusLabelRoundTrip | fluent_control_automation.py:46-51 | every position status is recovered from its label |
| FluentAutomation.PositionStatusLabelsDistinct | fluent_control_automation.py:46-51 | no two position statuses share a label |
| FluentAutomation.RecordDefaults | fluent_control_automation.py:54-80 | with only the required fields, a position is empty with no barcode, description or properties, and every tuning field of a transfer is unset |
| FluentAutomation.DeckLayoutBody | fluent_control_automation.py:180-184 | the layout payload keeps the input positions (same length, same order), has version "1.0" and carries the clock reading |
| FluentAutomation.AsDict | fluent_control_automation.py:181 | `asdict(pos)` has the six field names; the labware type and the status stay enum members carrying their declared values; the id, the barcode, the description and the custom properties are plain data, with `None` as null |
| FluentAutomation.EnumValues | fluent_control_automation.py:181 | replacing each enum member by its `.value` keeps the keys, leaves plain data alone and leaves no enum member |
| FluentAutomation.DumpObject | fluent_control_automation.py:137 | `json.dumps` of a dictionary succeeds iff no field is an enum member, and then keeps every key and value |
| FluentAutomation.DumpObjects | fluent_control_automation.py:137 | a dumped list keeps its length, and each element is that element's own dump |
| FluentAutomation.DumpObjectsSucceeds | fluent_control_automation.py:137 | a list of dictionaries dumps iff every element does |
| FluentAutomation.PositionDicts | fluent_control_automation.py:181 | the `positions` list holds `asdict` of each position, in order |
| FluentAutomation.AsWrittenLayoutDumpFails | fluent_control_automation.py:136-137 | the debug dump of a layout's positions fails iff the layout is non-empty |
| FluentAutomation.EncodePosition | fluent_control_automation.py:181 | a position encoded with `.value` has the `asdict` keys, its id, the labels of its labware type and status as strings, its barcode and description as text or null, and its custom properties as an object or null |
| FluentAutomation.EncodePositionRoundTrip | fluent_control_automation.py:181 | decoding the `.value` encoding of any position gives that position back: no field is lost |
| FluentAutomation.EncodedLayoutDecodes | fluent_control_automation.py:181 | the `.value` encoding of any layout always dumps, and every dumped object decodes back to its own position |
| FluentAutomation.SessionIdHint | fluent_control_automation.py:203 | the session name is "session_" followed by the canonical decimal text of the truncated clock reading, which reads back as that number |
| FluentAutomation.SessionIdHintsCollide | fluent_control_automation.py:203 | two session names are equal iff their readings truncate to the same second |
| FluentAutomation.TransferSessionBody | fluent_control_automation.py:201-206 | the session payload keeps the transfers (same length, same order), has status "pending", the name "session_" followed by the canonical decimal of the truncated first reading, and the second reading as timestamp |
| FluentAutomation.RouteOf | fluent_control_automation.py:159-225 | every endpoint path starts with "/api/v1/"; a session-scoped path embeds the id unchanged right after "/api/v1/transfers/session/" |
| FluentAutomation.StartRouteParses | fluent_control_automation.py:214 | the start path of session `id` reads back as starting exactly that session |
| FluentAutomation.StatusRouteParses | fluent_control_automation.py:219 | the status path of session `id` reads back as the status of exactly that session |
| FluentAutomation.CancelRouteParses | fluent_control_automation.py:224 | the cancel path of session `id` reads back as cancelling exactly that session |
| FluentAutomation.ParseRouteInvertsRouteOf | fluent_control_automation.py:212-225 | every route reads back as the operation it came from, so the start/status/cancel suffix and the id are recoverable |
| FluentAutomation.RoutesDistinct | fluent_control_automation.py:159-225 | different operations, including different session ids, never share a method and path |
| FluentAutomation.Outcome | fluent_control_automation.py:139-157 | a reply yields its body iff it arrived with a status outside 400-599; an error status raises with that status and body; a transport failure raises |
| FluentAutomation.ErrorStatusNeverYieldsBody | fluent_control_automation.py:147-157 | a 4xx or 5xx response always fails and reports its own status |
| FluentAutomation.Session.constructor | fluent_control_automation.py:100 | a fresh session has no headers set by the client and no auth |
| FluentAutomation.Session.UpdateHeaders | fluent_control_automation.py:104-113 | `headers.update` overrides the given keys, keeps the others and leaves auth alone |
| FluentAutomation.SelectAuth | fluent_control_automation.py:103-113 | bearer token iff an API key is given; basic auth iff there is no key and both username and password are given; otherwise none |
| FluentAutomation.FluentControlClient.constructor | fluent_control_automation.py:86-113 | the base URL is the input with trailing '/' removed; the timeout is kept (default 30); Content-Type is JSON in every branch; Authorization appears only with an API key; auth is set only for basic auth |
| FluentAutomation.FluentControlClient.BuildRequest | fluent_control_automation.py:132-145 | the URL is the base URL followed by the endpoint; the session's headers and auth and the client timeout go with every request |
| FluentAutomation.FluentControlClient.UrlSeam | fluent_control_automation.py:132 | after normalisation, the base URL and the endpoint meet at exactly one '/' |
| FluentAutomation.FluentControlClient.MakeRequest | fluent_control_automation.py:115-157 | a request succeeds iff the instrument answers with a non-error status, then with that answer's body |
| FluentAutomation.FluentControlClient.Call | fluent_control_automation.py:159-225 | the body-less operations follow the same pass/fail rule on their own route |
| FluentAutomation.FluentControlClient.PostDeckLayout | fluent_control_automation.py:169-188 | posting a layout sends the layout payload to "/api/v1/deck/layout" and follows the pass/fail rule; the positions are taken as encoded by `.value`, the intended encoding (see "## Findings") |
| FluentAutomation.FluentControlClient.PostTransferSession | fluent_control_automation.py:190-210 | posting a session sends the session payload to "/api/v1/transfers/session" and follows the pass/fail rule |
| FluentAutomation.FluentControlClient.PostDeckLayoutAsWritten | fluent_control_automation.py:169-188 | as written, a layout whose dump fails raises `TypeError` without a request; otherwise it is the layout post with request errors wrapped |
| FluentAutomation.FluentControlClient.AsWrittenLayoutPostNeverSends | fluent_control_automation.py:136-152 | as written, posting any non-empty layout raises before any request, whatever the instrument would answer |
| FluentAutomation.FluentControlClient.AsWrittenStandardLayoutPostRaises | fluent_control_automation.py:228-258 | as written, posting the standard layout raises before any request |
| FluentAutomation.CreateStandard96WellLayout | fluent_control_automation.py:228-258 | the append loop returns the standard layout, one occupied, described position per configured slot |
| FluentAutomation.Standard96LayoutShape | fluent_control_automation.py:238-258 | 8 positions A1,A2,A3,A4,B1,B2,B3,B4 in that order, pairwise distinct, all occupied, no barcode or properties |
| FluentAutomation.CreateTransferParameters | fluent_control_automation.py:261-288 | "Standard" liquid class, "Standard_200uL" tips, 3 mix cycles, mix volume half the transfer volume, the fixed speeds, air gap, flags and retract distance; default volume 50 |
| FluentAutomation.IsTerminal | fluent_control_automation.py:344 | a status is terminal iff it is one of the strings "completed", "failed", "cancelled" (the same list the examples use at fluent_control_examples.py:353) |
| FluentAutomation.PollFrom | fluent_control_automation.py:340-347 | a polling loop with bound N makes at most N status calls; a loop that gives up made exactly N |
| FluentAutomation.PollOutcomeExplained | fluent_control_automation.py:340-347 | every poll before the last was non-terminal; a reached status is the last poll's terminal status; giving up means every poll was non-terminal; a failure is the last poll's error |
| FluentAutomation.PollStopsAtFirstTerminal | fluent_control_automation.py:340-347 | k non-terminal polls followed by a terminal one end the loop after exactly k+1 calls with that status |
| FluentAutomation.PollGivesUpQuietly | fluent_control_automation.py:340-347 | N non-terminal polls end the loop after N calls without any error |
| FluentAutomation.MonitorTransfer | fluent_control_automation.py:340-347 | the `for ... break` loop of `main` behaves as the polling definition with bound 10 |
| FluentAutomation.SessionIdOf | fluent_control_automation.py:328-333 | a session id is present iff the response holds a non-empty string under "session_id", and then it is that string |
| FluentAutomation.RunMain | fluent_control_automation.py:307-347 | `main` checks status, posts the standard layout and the three default transfers, and starts and monitors the session only when an id came back; any failure propagates |
| FluentAutomation.MainSkipsMonitoringWithoutSessionId | fluent_control_automation.py:333-347 | without a session id, `main` makes no request after the third, so no later answer can change its result |
| FluentAutomation.MainMonitorsAtMostTenTimes | fluent_control_automation.py:333-347 | monitoring happens iff there is a session id, and then takes between 1 and 10 status calls and never ends in a failed poll |
| FluentExamples.WellName | fluent_control_examples.py:221 | `f"{row}{col}"` is the row followed by the decimal column |
| FluentExamples.WellNameInjective | fluent_control_examples.py:219-222 | with equally long row names, a well name determines its row and column |
| FluentExamples.PresetNamed | fluent_control_examples.py:112 | for a declared name, the preset is what `get_transfer_protocol` returns |
| FluentExamples.FromPreset | fluent_control_examples.py:123-137 | a transfer built from a preset has the given wells and volume and copies the preset's labels and all eight tuning fields |
| FluentExamples.SerialDilutionStepWells | fluent_control_examples.py:119-124 | dilution steps 1 to 5 deliver into A2, A3, A4, A5 and A6 |
| FluentExamples.SerialDilutionDestinations | fluent_control_examples.py:119-138 | the serial dilution has 5 transfers, with destinations A2..A6 in order |
| FluentExamples.SerialDilutionChain | fluent_control_examples.py:116-124 | the first transfer draws from A1; each later one draws from the previous transfer's destination |
| FluentExamples.SerialDilutionVolumes | fluent_control_examples.py:117-137 | volumes are 50, 25, 12.5, 6.25 and 3.125, each half the previous; every transfer copies the preset |
| FluentExamples.BuildSerialDilution | fluent_control_examples.py:115-138 | the `for i in range(1, 6)` append loop builds exactly the serial-dilution list |
| FluentExamples.PairedTransfers | fluent_control_examples.py:172-188 | `zip` pairs the k-th source with the k-th destination, up to the shorter list |
| FluentExamples.BuildCellCultureTransfers | fluent_control_examples.py:166-188 | the `zip` append loop builds exactly the A→B pairing |
| FluentExamples.CellCultureShape | fluent_control_examples.py:169-188 | 4 transfers A_k → B_k for k = 1..4 in order, 50 uL each, the preset copied into each |
| FluentExamples.BuildPlateCopy | fluent_control_examples.py:216-239 | the nested row/column append loops build exactly the 48-well plate copy |
| FluentExamples.PlateCopyEntry | fluent_control_examples.py:219-239 | the transfer at index 12·r + c − 1 copies well (row r, column c) onto itself with 10 uL |
| FluentExamples.PlateWellsDistinct | fluent_control_examples.py:219-239 | no well of the plate copy is visited twice |
| FluentExamples.PlateCopyShape | fluent_control_examples.py:219-239 | 48 transfers in row-major order over rows A-D and columns 1-12; source equals destination; 10 uL each; the preset copied; all wells distinct |
| FluentExamples.CustomDeckLayoutShape | fluent_control_examples.py:264-301 | the custom layout has 6 positions with pairwise distinct ids, all occupied and described |
| FluentExamples.FluentControlExamples.constructor | fluent_control_examples.py:52-68 | the examples hold a client built from the URL and credentials, with the default timeout and the normalised URL; Content-Type is JSON; an API key gives exactly the bearer `Authorization` header, otherwise there is none; basic auth is set only for username and password without a key |
| FluentExamples.FluentControlExamples.DeckSetupSpec | fluent_control_examples.py:70-97 | example 1 succeeds iff posting the standard layout and reading the layout back both succeed, and then returns the post's answer |
| FluentExamples.FluentControlExamples.Example1BasicDeckSetup | fluent_control_examples.py:70-97 | the method behaves as that definition |
| FluentExamples.FluentControlExamples.Example2SerialDilutionProtocol | fluent_control_examples.py:99-148 | example 2 posts exactly the serial-dilution list built from "standard_water" as one session |
| FluentExamples.FluentControlExamples.Example3CellCultureTransfer | fluent_control_examples.py:150-198 | example 3 posts exactly the A→B pairing built from "cell_culture" as one session |
| FluentExamples.FluentControlExamples.Example4DmsoCompoundTransfer | fluent_control_examples.py:200-249 | example 4 posts exactly the 48-well plate copy built from "dmso_transfer" as one session |
| FluentExamples.FluentControlExamples.Example5CustomDeckLayout | fluent_control_examples.py:251-311 | example 5 posts exactly the custom six-slot layout |
| FluentExamples.FluentControlExamples.MonitorProgress | fluent_control_examples.py:345-357 | the workflow's loop, which reads a missing status as "unknown", behaves as the polling definition with bound 20 |
| FluentExamples.FluentControlExamples.RunCompleteWorkflow | fluent_control_examples.py:313-364 | the workflow sets up the deck, posts the dilution session, raises if the response has no session id, starts the session, monitors it and returns its id |
| FluentExamples.FluentControlExamples.WorkflowStopsWithoutSessionId | fluent_control_examples.py:333-340 | a missing or empty session id fails the workflow before `start`: nothing from the fourth request on is sent, so no later answer matters |
| FluentExamples.FluentControlExamples.WorkflowSucceedsWithoutTerminalStatus | fluent_control_examples.py:345-360 | twenty non-terminal polls still return the session id, with no timeout error |
| FluentExamples.FluentControlExamples.WorkflowReturnsIdWhateverTheStatus | fluent_control_examples.py:345-364 | after a started session the workflow returns its id for every poll outcome that is not a request failure, a `failed` status included; a failing status request fails it with that request's error |
| FluentExamples.FluentControlExamples.RunAllExamples | fluent_control_examples.py:390-425 | the method behaves as `RunAllExamplesSpec`: status, examples 1-5 on requests 0-6, then the workflow from request 7 |
| FluentExamples.FluentControlExamples.AllExamplesFinishOnlyIfEverythingSucceeds | fluent_control_examples.py:390-425 | `main` finishes iff the status call, all five examples and the workflow succeed; a workflow failure after them is what it reports; an earlier failure is reported as a request failure |
| FluentExamples.FluentControlExamples.AllExamplesStopAtStatusFailure | fluent_control_examples.py:391-392 | a failing status call ends `main` with that failure, whatever any later request would answer |
| FluentExamples.FluentControlExamples.AllExamplesSkipWorkflowAfterFailure | fluent_control_examples.py:391-419 | after a failure in the status call or an example, the workflow's requests (from number 7 on) cannot change the result |
| FluentExamples.FluentControlExamples.ExamplesUseRequestsUpToSix | fluent_control_examples.py:391-413 | the status call and examples 1-5 depend only on the answers to requests 0 to 6 |
| FluentExamples.MayRunExamples | fluent_control_examples.py:377-379 | the examples run iff a username or an API key is truthy |
| FluentExamples.GuardAdmitsUnauthenticatedRuns | fluent_control_examples.py:377-379 | the guard passes iff the client will authenticate, or a username comes without a password; that case runs with no authentication |

## Left out

- HTTP transport (`requests.Session`, connection pooling, the library's default headers, retries, following redirects): a reply is an abstract status and body, or a connection failure. The per-request timeout is carried in the request but not enforced.
- The `params` argument of `_make_request`: no caller passes one, so it is always `None`.
- JSON parsing: a reply body is already a JSON object. A body that is not an object, or not JSON at all, is not modelled.
- Logging other than the payload dump of `_make_request` (fluent_control_automation.py:136-137), and `time.sleep` between polls: neither changes any result.
- `time.time()`: readings are parameters and reals; IEEE floating point is not modelled. Volumes and speeds are reals too, with no rounding.
- Environment variables, the default instrument URL, `sys.exit`, `sys.path` and the `__main__` guard. `RunMain` and `RunAllExamples` start from an already constructed client or examples object, and the examples' guard is the separate predicate `MayRunExamples`.
- PostDeckLayout: in the source, the debug line of `_make_request` at fluent_control_automation.py:136-137 runs `json.dumps` on the layout body at every log level. That raises `TypeError` for any non-empty layout, because `asdict` leaves the `LabwareType` and `PositionStatus` members in place, and the handler at :152 catches only request errors. So `example_1_basic_deck_setup`, `example_5_custom_deck_layout`, `run_complete_workflow` and both `main`s stop at their first layout post. `PostDeckLayout`, and through it `DeckSetupSpec`, `RunMain`, `CompleteWorkflowSpec` and `RunAllExamplesSpec`, assume that the payload is encoded with `.value` (`EncodePosition`). The as-written behaviour is `PostDeckLayoutAsWritten` (see "## Findings"). The transfer-session payload holds only text, numbers, booleans and `None`, so it encodes as written.
- SessionIdOf: a truthy value under "session_id" that is not a string (a number, a non-empty list) counts as missing. In Python it would pass the check and be formatted into the path.
- PresetNamed: it requires a declared name, so the `AttributeError` Python raises for an undeclared preset is not modelled; all three names the examples use are declared.
- The `progress` field the examples log while polling. (`cancel_transfer_session` is modelled, by `Call(CancelSession(id))`, `RouteOf` and `CancelRouteParses`; no workflow calls it.)
- Thread safety of the client, and the unit tests in test_fluent_control.py.

## Findings

| source | as written | input that shows it | evidently intended | confidence | as-written member | corrected member |
|---|---|---|---|---|---|---|
| fluent_control_automation.py:136-137 | the debug line runs `json.dumps(data)` on the `asdict` layout, which still holds `LabwareType` and `PositionStatus` members; `json.dumps` raises `TypeError`, which the handler at :152 does not catch, so no request is made | `post_deck_layout(create_standard_96_well_layout())`, or any non-empty layout | enum fields encoded by their `.value`, as test_fluent_control.py:238-240 does | not executed | FluentAutomation.FluentControlClient.AsWrittenLayoutPostNeverSends | FluentAutomation.EncodedLayoutDecodes |
