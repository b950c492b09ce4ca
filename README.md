# Nova Poshta client core, modelled in Dafny

This project models the logic at the heart of the Nova Poshta API client and of its MCP bridging server:

- **Request envelopes.** Every remote operation sends `{apiKey?, modelName, calledMethod, methodProperties}`. The `apiKey` key appears only when the credential is truthy.
- **The scan-sheet service** (`ScanSheetGeneral`). It has six remote operations and three convenience wrappers. `getAllScanSheets` asks for pages of 100 until a page is short, empty or failed, and then answers a synthetic success with every item it kept.
- **The return service** (`AdditionalServiceGeneral`). It has four remote operations and the three `createTo*` variants, which fix `OrderType = 'orderCargoReturn'`. It also has the pricing query, the single-order lookups that map a failed or empty listing to `null`, the date-range listing and the legacy aliases.
- **Record helpers.** The remote answers HTTP 200 even when an operation failed and reports the failure inside `data[i]`. These helpers decode that report (`hasInsertErrors`, `hasDeleteError`, `hasRemoveErrors`). They also include the scan-sheet helpers (`isScanSheetEmpty` via `parseInt`, `isScanSheetPrinted`), the validators, the return enumerations and the return-request variant predicates.
- **The mock transport** the test suite plugs into the client. It records every call and answers HTTP 200 with a replaceable canned body.
- **The bridging server's error helpers and tool routing.** These cover `formatError`, `formatResponseErrors`, `toErrorResult`, `isNovaPoshtaError`, `dispatchTool` and `listAllTools`.

Modules:

- `Js` (`js.dfy`) is the slice of JavaScript the code relies on. It covers values with an explicit `undefined`, truthiness, `String(v)`, `join`, `startsWith` and `parseInt(s, 10)`. Numbers are integers. `parseInt` is exact about whether it gives NaN and whether it gives zero; its value is an unbounded integer, whereas JavaScript rounds beyond 2^53.
- `Envelope` holds the request and response envelopes.
- `Transport` holds the mock transport, as a class.
- `ScanSheets` and `Returns` hold the services, as classes whose `Attach` binds a transport.
- `ScanSheetTypes` and `ReturnTypes` hold the pure record helpers.
- `ErrorHandler` and `ToolRouting` hold the server helpers.

The mock transport keeps an extra queue of one-shot replies, which it answers in order before the canned body. `QueueReplies` fills that queue; the test suite's mock has no counterpart to it. With an empty queue the model is exactly the test suite's mock. Against that plain mock the listing either stops after one call or never stops. A queue lets the listing meet a different reply on each call, and lets the proofs speak about any sequence of remote answers.

`getAllScanSheets` is proved against specification functions of that reply sequence:

- `FullPages` counts the 100-item successful pages before the first page that is not one.
- `Collected` gives the items kept.
- `PageCalls` gives the calls for pages 1..n.

The lemmas then state what those functions mean:

- the result is the concatenation of the full pages followed by the last page when it succeeded with items;
- the length is 100 per full page plus the last page;
- a failure keeps the earlier pages;
- a script of N full pages and one short page is collected entirely.

## Model

| member | source | states |
|---|---|---|
| Envelope.Build | packages/novaposhta-api-client/src/services/scanSheetService.ts:61-66 | the envelope carries an `apiKey` exactly when the credential is truthy, and then carries that credential; model name, method and properties are carried unchanged |
| Envelope.AbsentAndEmptyKeyAgree | packages/novaposhta-api-client/src/services/returnService.ts:68-73 | an absent credential and an empty one produce the same envelope, with no `apiKey` key |
| Envelope.SameCallSameEnvelope | packages/novaposhta-api-client/src/services/returnService.ts:68-73 | two credentials with the same truthiness, and equal when truthy, yield identical envelopes |
| Envelope.Succeeded | packages/novaposhta-api-client/src/services/scanSheetService.ts:235-245 | the synthetic listing answer: success, the given data, all eight message and code arrays empty |
| Transport.MockTransport.constructor | packages/novaposhta-api-client/__tests__/mocks/transport.ts:10-16 | a new mock has no calls; its body is the given one, or `{success: true, data: []}` when none is given |
| Transport.MockTransport.Invoke | packages/novaposhta-api-client/__tests__/mocks/transport.ts:18-24 | one invocation appends exactly its arguments to the record and answers status 200 with the body next in line; the canned body is unchanged |
| Transport.MockTransport.SetResponse | packages/novaposhta-api-client/__tests__/mocks/transport.ts:29-31 | only later replies change; the recorded calls are untouched |
| ScanSheets.ScanSheetService.Attach | packages/novaposhta-api-client/src/services/scanSheetService.ts:37-40 | binds the context's transport, base URL and credential |
| ScanSheets.ScanSheetService.InsertDocuments | packages/novaposhta-api-client/src/services/scanSheetService.ts:60-69 | exactly one transport call: model `ScanSheetGeneral`, method `insertDocuments`, the request as properties unchanged; the reply is what the transport answered |
| ScanSheets.ScanSheetService.GetScanSheet | packages/novaposhta-api-client/src/services/scanSheetService.ts:83-92 | one call of `getScanSheet` with the request unchanged |
| ScanSheets.ScanSheetService.GetScanSheetList | packages/novaposhta-api-client/src/services/scanSheetService.ts:106-115 | one call of `getScanSheetList`; with no argument the properties are empty |
| ScanSheets.ScanSheetService.DeleteScanSheet | packages/novaposhta-api-client/src/services/scanSheetService.ts:127-136 | one call of `deleteScanSheet` with the request unchanged |
| ScanSheets.ScanSheetService.RemoveDocuments | packages/novaposhta-api-client/src/services/scanSheetService.ts:150-159 | one call of `removeDocuments` with the request unchanged |
| ScanSheets.ScanSheetService.PrintScanSheet | packages/novaposhta-api-client/src/services/scanSheetService.ts:172-181 | one call of `printScanSheet` with the request unchanged |
| ScanSheets.ScanSheetService.CreateScanSheet | packages/novaposhta-api-client/src/services/scanSheetService.ts:191-193 | one `insertDocuments` call whose properties are `{DocumentRefs}` only |
| ScanSheets.ScanSheetService.AddDocuments | packages/novaposhta-api-client/src/services/scanSheetService.ts:199-204 | one `insertDocuments` call with `{Ref, DocumentRefs}` |
| ScanSheets.ScanSheetService.DeleteSingle | packages/novaposhta-api-client/src/services/scanSheetService.ts:210-212 | one `deleteScanSheet` call with `{ScanSheetRefs: [ref]}` |
| ScanSheets.CreateIsAddWithoutRef | packages/novaposhta-api-client/src/services/scanSheetService.ts:191-204 | creating sends no `Ref` and only `DocumentRefs`; adding sends the same plus the sheet's `Ref` |
| ScanSheets.ScanSheetService.GetAllScanSheets | packages/novaposhta-api-client/src/services/scanSheetService.ts:217-246 | the answer is success with exactly the collected items; the calls are pages 1..N+1 in order, each with `Limit` 100, where N is the number of full pages; one queued reply is consumed per call |
| ScanSheets.EventuallyStopsMeaning | packages/novaposhta-api-client/src/services/scanSheetService.ts:223-232 | the listing can end: some reply of the remote, counted from the first, is not a successful 100-item page |
| ScanSheets.Collected | packages/novaposhta-api-client/src/services/scanSheetService.ts:223-237 | the items kept start with the first reply's items when it succeeded with some, and are empty exactly when it did not |
| ScanSheets.FullPages | packages/novaposhta-api-client/src/services/scanSheetService.ts:223-232 | the number of leading full pages: every one of them is successful with exactly 100 items and the reply after them is not |
| ScanSheets.CollectedIsConcatenation | packages/novaposhta-api-client/src/services/scanSheetService.ts:225-232 | the collected items are the full pages' items in page order, then the items of the page that ended the listing when it succeeded with items |
| ScanSheets.CollectedLength | packages/novaposhta-api-client/src/services/scanSheetService.ts:225-229 | the collection holds 100 items per full page plus the length of the last kept page |
| ScanSheets.PaginationExhaustion | packages/novaposhta-api-client/src/services/scanSheetService.ts:223-232 | N full pages followed by a successful short page: the listing stops, asks N+1 times, and collects every item of every page |
| ScanSheets.TwoPageListingScenario | packages/novaposhta-api-client/src/services/scanSheetService.ts:217-240 | a full page and then a one-item page: pages 1 and 2 are asked for and all items are answered, in order |
| ScanSheets.FailureKeepsEarlierPages | packages/novaposhta-api-client/src/services/scanSheetService.ts:226-237 | a failed reply ends the listing and the items of the full pages before it are still answered |
| ScanSheets.StopsAt | packages/novaposhta-api-client/src/services/scanSheetService.ts:223-232 | a reply sequence with a non-full page in it makes the listing stop |
| ScanSheets.ListingStep | packages/novaposhta-api-client/src/services/scanSheetService.ts:224-232 | one turn of the loop: a full first reply adds its items and leaves one page fewer to go; any other first reply ends the listing with its items kept only when it succeeded with items |
| ScanSheets.ListingAdvance | packages/novaposhta-api-client/src/services/scanSheetService.ts:224-232 | one reply moves the listing on: it continues exactly after a full page, and keeps the reply's items exactly when the reply succeeded with some |
| ScanSheets.FullPagesExact | packages/novaposhta-api-client/src/services/scanSheetService.ts:223-232 | full pages up to position k and a non-full page at k make exactly k full pages |
| ScanSheets.PageCalls | packages/novaposhta-api-client/src/services/scanSheetService.ts:224 | the calls of pages 1..n, page i at position i-1 |
| Returns.EmptyListScenario | packages/novaposhta-api-client/src/services/returnService.ts:207-215 | against the default mock, `getList()` sends one call with empty properties and the test credential and answers success with no items; `getByNumber` then answers null after one more call |
| Returns.ReturnService.Attach | packages/novaposhta-api-client/src/services/returnService.ts:55-58 | binds the context's transport, base URL and credential |
| Returns.ReturnService.GetList | packages/novaposhta-api-client/src/services/returnService.ts:67-76 | one call of model `AdditionalServiceGeneral`, method `getReturnOrdersList`; with no argument the properties are empty |
| Returns.ReturnService.CheckPossibility | packages/novaposhta-api-client/src/services/returnService.ts:85-94 | one call of `CheckPossibilityCreateReturn` with the request unchanged |
| Returns.ReturnService.Create | packages/novaposhta-api-client/src/services/returnService.ts:153-162 | one call of `save` with the request unchanged |
| Returns.ReturnService.Update | packages/novaposhta-api-client/src/services/returnService.ts:171-180 | one call of `update` with the request unchanged |
| Returns.ReturnService.CreateToSenderAddress | packages/novaposhta-api-client/src/services/returnService.ts:103-112 | one `save` call with the caller's fields plus `OrderType = orderCargoReturn` |
| Returns.ReturnService.CreateToNewAddress | packages/novaposhta-api-client/src/services/returnService.ts:121-128 | the same, for a return to a new address |
| Returns.ReturnService.CreateToWarehouse | packages/novaposhta-api-client/src/services/returnService.ts:137-144 | the same, for a return to a warehouse |
| Returns.WithCargoReturn | packages/novaposhta-api-client/src/services/returnService.ts:106-109 | the caller's keys plus `OrderType`, which is `orderCargoReturn`; every other key keeps its value |
| Returns.CargoReturnKeepsVariant | packages/novaposhta-api-client/src/services/returnService.ts:103-144 | fixing the discriminator never changes which kind of return the request is |
| Returns.CargoReturnIdempotent | packages/novaposhta-api-client/src/services/returnService.ts:106-109 | fixing the discriminator twice equals fixing it once |
| Returns.CargoReturnKeepsWellFormed | packages/novaposhta-api-client/src/services/returnService.ts:106-109 | a request that already names `orderCargoReturn` is sent unchanged |
| Returns.ReturnService.GetPricing | packages/novaposhta-api-client/src/services/returnService.ts:189-194 | one `update` call whose properties are the request with `OnlyGetPricing` set to true |
| Returns.PricingOnly | packages/novaposhta-api-client/src/services/returnService.ts:190-193 | the request's keys plus `OnlyGetPricing` = true, every other key unchanged |
| Returns.ReturnService.GetByNumber | packages/novaposhta-api-client/src/services/returnService.ts:207-215 | one listing call with `{Number}`; the answer is null when the listing failed or was empty, its first item otherwise |
| Returns.ReturnService.GetByRef | packages/novaposhta-api-client/src/services/returnService.ts:224-232 | one listing call with `{Ref}`, same answer rule |
| Returns.FirstOrNull | packages/novaposhta-api-client/src/services/returnService.ts:210-214 | null exactly when the listing failed or was empty, otherwise the first item |
| Returns.ReturnService.GetByDateRange | packages/novaposhta-api-client/src/services/returnService.ts:243-253 | one listing call with `BeginDate`, `EndDate` and the options spread over them |
| Returns.DateRangeProps | packages/novaposhta-api-client/src/services/returnService.ts:248-252 | the keys are the two dates plus the options' keys; options keep their values verbatim; a date is kept unless an option overrides it |
| Returns.ReturnService.GetReturnOrdersList | packages/novaposhta-api-client/src/services/returnService.ts:263-265 | exactly the call `getList` makes |
| Returns.ReturnService.CheckPossibilityCreateReturn | packages/novaposhta-api-client/src/services/returnService.ts:271-275 | exactly the call `checkPossibility` makes |
| Returns.ReturnService.Save | packages/novaposhta-api-client/src/services/returnService.ts:281-283 | exactly the call `create` makes |
| ReturnTypes.OnlyCargoReturnType | packages/novaposhta-api-client/src/types/returns.ts:27-30 | the order-type enumeration has the one member `CargoReturn`, standing for "orderCargoReturn" |
| ReturnTypes.StatusWireInjective | packages/novaposhta-api-client/src/types/returns.ts:35-44 | the four statuses are four distinct strings |
| ReturnTypes.IsReturnOrderEditable | packages/novaposhta-api-client/src/types/returns.ts:304-306 | editable exactly when the status is the Accepted value `Прийняте` |
| ReturnTypes.OnlyAcceptedIsEditable | packages/novaposhta-api-client/src/types/returns.ts:304-306 | of the four statuses, only Accepted is editable |
| ReturnTypes.IsReturnToSenderAddress | packages/novaposhta-api-client/src/types/returns.ts:311-313 | true exactly when `ReturnAddressRef` is a key of the request and does not hold `undefined` |
| ReturnTypes.IsReturnToNewAddress | packages/novaposhta-api-client/src/types/returns.ts:318-325 | true exactly when the settlement, street and building keys are all present and the settlement does not hold `undefined` |
| ReturnTypes.IsReturnToWarehouse | packages/novaposhta-api-client/src/types/returns.ts:330-332 | true exactly when `RecipientWarehouse` is a key of the request and does not hold `undefined` |
| ReturnTypes.UndefinedIsAbsent | packages/novaposhta-api-client/src/types/returns.ts:311-313 | sender-address and warehouse returns need their key present and defined; a key holding `undefined` counts as absent |
| ReturnTypes.NewAddressAcceptsUndefinedStreet | packages/novaposhta-api-client/src/types/returns.ts:318-325 | a new-address return needs only the settlement defined; the street and building keys need only be present |
| ReturnTypes.VariantsReadOnlyTheirKeys | packages/novaposhta-api-client/src/types/returns.ts:311-332 | each variant predicate depends on its own keys and nothing else |
| ReturnTypes.VariantsOverlap | packages/novaposhta-api-client/src/types/returns.ts:311-332 | the predicates impose no mutual exclusion: one request can satisfy all three |
| ScanSheetTypes.IsScanSheetEmpty | packages/novaposhta-api-client/src/types/scanSheet.ts:357-360 | empty exactly when `parseInt(Count, 10)` is NaN or 0 |
| ScanSheetTypes.EmptyIffCountZero | packages/novaposhta-api-client/src/types/scanSheet.ts:357-360 | a count written as the decimal numeral of n is empty exactly when n is 0 |
| ScanSheetTypes.EmptyIffNoNonZeroDigit | packages/novaposhta-api-client/src/types/scanSheet.ts:357-360 | empty exactly when the leading digits, after white space and a sign, are all `0` (none at all reads as NaN) |
| ScanSheetTypes.IsScanSheetPrinted | packages/novaposhta-api-client/src/types/scanSheet.ts:365-367 | printed exactly when `Printed` is the string "1" |
| ScanSheetTypes.HasInsertErrors | packages/novaposhta-api-client/src/types/scanSheet.ts:373-381 | false exactly when the top-level and the nested error lists are each absent, null or empty |
| ScanSheetTypes.HasDeleteError | packages/novaposhta-api-client/src/types/scanSheet.ts:386-388 | true exactly when `Error` is `null` or a non-empty string; false when it is missing or empty |
| ScanSheetTypes.HasRemoveErrorsAsWritten | packages/novaposhta-api-client/src/types/scanSheet.ts:393-398 | false without `DocumentRefs`; otherwise a boolean, or `undefined`/`null` when `Errors` is |
| ScanSheetTypes.RemoveErrorsNotBoolean | packages/novaposhta-api-client/src/types/scanSheet.ts:397 | a `DocumentRefs` without `Errors` yields `undefined`, one with `Errors: null` yields `null` |
| ScanSheetTypes.HasRemoveErrors | packages/novaposhta-api-client/src/types/scanSheet.ts:393-398 | false without `DocumentRefs`; otherwise true exactly when `Errors` is a non-empty list |
| ScanSheetTypes.RemoveErrorsAgreeWhenTested | packages/novaposhta-api-client/src/types/scanSheet.ts:393-398 | the written helper's truthiness always equals the corrected boolean |
| ScanSheetTypes.ValidateDocumentRefs | packages/novaposhta-api-client/src/types/scanSheet.ts:403-411 | true exactly for a non-empty array every element of which is a valid ref |
| ScanSheetTypes.ValidateScanSheetRef | packages/novaposhta-api-client/src/types/scanSheet.ts:416-418 | true exactly for a non-empty string |
| ScanSheetTypes.ValidateDocumentRefsAppend | packages/novaposhta-api-client/src/types/scanSheet.ts:403-411 | appending a ref keeps a valid array valid exactly when the new ref is valid |
| ErrorHandler.IsNovaPoshtaError | packages/novaposhta-mcp-server/src/utils/error-handler.ts:42-49 | an `Error` with `code`, or a plain object with both `code` and `message`; `null` and primitives never |
| ErrorHandler.FormatError | packages/novaposhta-mcp-server/src/utils/error-handler.ts:4-15 | a Nova Poshta error gives "Nova Poshta API error (…"; another `Error` gives its message; a string is returned unchanged; anything else gives "Unknown error" |
| ErrorHandler.CodedErrorTakesNovaPoshtaBranch | packages/novaposhta-mcp-server/src/utils/error-handler.ts:5-8 | an `Error` carrying `code` is formatted as "Nova Poshta API error (code): message." plus the context suffix, before the plain `Error` branch |
| ErrorHandler.ContextSuffix | packages/novaposhta-mcp-server/src/utils/error-handler.ts:6 | the suffix is empty exactly when the context is falsy |
| ErrorHandler.NoContextNoSerialisation | packages/novaposhta-mcp-server/src/utils/error-handler.ts:6-7 | without a truthy context the message does not depend on the serialisation |
| ErrorHandler.PlainObjectTakesNovaPoshtaBranch | packages/novaposhta-mcp-server/src/utils/error-handler.ts:5-8 | a plain object with `code` and `message` is formatted as "Nova Poshta API error (code): message." with both values as `String` writes them, plus the context suffix |
| ErrorHandler.PlainObjectNeedsBothKeys | packages/novaposhta-mcp-server/src/utils/error-handler.ts:42-49 | a plain object missing `code` or `message` is an unknown error |
| ErrorHandler.FormatResponseErrors | packages/novaposhta-mcp-server/src/utils/error-handler.ts:23-28 | the fallback for anything but a non-empty array; a one-element array gives that element's text |
| ErrorHandler.StringErrorsJoined | packages/novaposhta-mcp-server/src/utils/error-handler.ts:24-25 | one more string error appends ", " and that error to the message |
| ErrorHandler.StringErrorsLength | packages/novaposhta-mcp-server/src/utils/error-handler.ts:24-25 | the message of n string errors is their total length plus n-1 two-character separators |
| ErrorHandler.ToErrorResult | packages/novaposhta-mcp-server/src/utils/error-handler.ts:30-40 | `isError` is true; exactly one text item; its text is the prefix, ": ", then the formatted error |
| ErrorHandler.ThrownStringReported | packages/novaposhta-mcp-server/src/utils/error-handler.ts:30-35 | with the default prefix, a thrown string reads "Failed to execute tool: " and the string |
| ErrorHandler.ThrownPrimitiveReported | packages/novaposhta-mcp-server/src/utils/error-handler.ts:14 | a thrown value that is neither an error nor a string reads "Failed to execute tool: Unknown error" |
| ToolRouting.Dispatch | packages/novaposhta-mcp-server/src/tools/index.ts:14-29 | a name goes to a handler exactly when it carries that handler's prefix (`track_` or `get_document`; `address_`; `waybill_`; `reference_`); otherwise the error "Unknown tool <name>" |
| ToolRouting.PrefixesDisjoint | packages/novaposhta-mcp-server/src/tools/index.ts:15-26 | no name carries the prefixes of two handlers |
| ToolRouting.OrderIrrelevant | packages/novaposhta-mcp-server/src/tools/index.ts:15-26 | the first match wins, and since at most one matches, any name carrying a handler's prefix goes to that handler |
| ToolRouting.UnroutedGroupsRejected | packages/novaposhta-mcp-server/src/tools/index.ts:28 | `counterparty_`, `contact_person_` and `return_` names are rejected as unknown tools |
| ToolRouting.ListAllTools | packages/novaposhta-mcp-server/src/tools/index.ts:10-12 | tracking, then address, then waybill, then reference tools, each group intact and in order |
| ToolRouting.ListedToolsDispatch | packages/novaposhta-mcp-server/src/tools/index.ts:10-29 | when each group names its tools under its prefixes, every listed tool dispatches to the handler of the group that listed it |
| ToolRouting.DefinedToolsDispatch | packages/novaposhta-mcp-server/src/tools/tracking.ts:17-93 | each tracking tool name the server defines reaches the tracking handler, and each reference tool name the reference handler |
| Js.ParseInt | packages/novaposhta-api-client/src/types/scanSheet.ts:358 | `parseInt(s, 10)` is NaN exactly when no digit follows the leading white space and sign, and reads 0 exactly when those digits are worth 0 |
| Js.ParseIntDecimal | packages/novaposhta-api-client/src/types/scanSheet.ts:358 | `parseInt` reads back every integer written in decimal |
| Js.JoinLength | packages/novaposhta-mcp-server/src/utils/error-handler.ts:25 | a join is as long as its parts plus one separator between each pair |

## Left out

- Response normalisation and the HTTP transport adapter (`toHttpTransport` and the client factory) are not part of this model. Transport replies are taken to be complete response envelopes, and a call record holds the URL and the envelope.
- The optional headers and abort signal of a transport call are not modelled. Neither is the asynchrony of every operation: each call is one sequential step.
- ScanSheets.ScanSheetService.GetAllScanSheets: requires that the remote eventually answers a page that is not a full success (`EventuallyStops`). Otherwise the source loops for ever, as it does against the plain mock when the canned body is a successful 100-item page. The model does not describe that divergence.
- The enumeration values behind `NovaPoshtaModel` and `NovaPoshtaMethod` (`ScanSheetGeneral`, `AdditionalServiceGeneral` and the method names) are not part of this model. They are taken from the service tests.
- JavaScript numbers are modelled as integers. The page numbers, page size and counts the services build are integers. `isScanSheetEmpty` needs only whether `parseInt` gives NaN or zero, and the model is exact about both. Numbers that are not integers are not modelled. They could appear in an error's `code` or in the elements `formatResponseErrors` joins, and these reach text through `String`.
- Js.IntToDecimal: writes every integer in plain decimal. JavaScript's `String(n)` switches to exponent form at 1e21 and above in magnitude, so the two differ there.
- Service methods require an attached transport (`transport != null`). In the source, a call before `attach` throws a `TypeError`; that failure is not modelled.
- ErrorHandler.FormatError: `JSON.stringify` is a parameter, and the model states nothing about the text it produces.
- The tool handler modules (tracking, address, waybill, reference, return, counterparty, contact person) are left out. They are glue that calls the client and formats JSON; only their tool names enter `ToolRouting`.
- Batch tracking and status classification are not part of this model.
- Key order within a property bag is not modelled: bags are maps, so only each key's final value after spreading is kept.

## Findings

| source | as written | input that shows it | evidently intended | confidence | as-written member | corrected member |
|---|---|---|---|---|---|---|
| packages/novaposhta-api-client/src/types/scanSheet.ts:397 | `hasRemoveErrors` returns `Errors && Errors.length > 0`, which is the value of `Errors` itself when that is missing or `null` | `{ DocumentRefs: { Success: [] } }` returns `undefined`, not `false` | a boolean: true exactly when `Errors` is a non-empty list | not executed | ScanSheetTypes.HasRemoveErrorsAsWritten | ScanSheetTypes.HasRemoveErrors |
