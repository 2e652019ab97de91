# Device registry Lambda handlers, modelled in Dafny

This project models the request/response core of a small device registry
served by two AWS Lambda handlers over a DynamoDB table:

- **addDevice** validates a JSON request body into a `Device` and writes it to the table. It answers 400 for a bad request, 500 when the write fails, and 201 with the stored device otherwise.
- **getDeviceById** checks the configuration recorded at start-up, then reads the `id` path parameter and fetches the item stored under it. It answers with 404/500 error envelopes or 200 with the device.

Every answer body is produced by `json.MarshalIndent(v, "", "\t")`. The model builds these bodies byte for byte and proves things about them through independent readers:

- a body reads back as exactly the values written into it;
- the three envelope shapes never read as one another;
- the error messages are pairwise distinct;
- the missing-fields message determines which fields were empty.

Files, one module each:

| file | module | models |
|---|---|---|
| `wrappers.dfy` | `Wrappers` | an `Option` type with failure propagation |
| `types.dfy` | `Types` | the records of `types.go`; the API Gateway request and response |
| `json_text.dfy` | `JsonText` | encoding/json string escaping, decimal integers, and readers for both |
| `envelope.dfy` | `Envelope` | the three tab-indented envelopes and their readers |
| `attributes.dfy` | `Attributes` | `dynamodbattribute.MarshalMap`/`UnmarshalMap` as a five-attribute string map |
| `device_store.dfy` | `DeviceStore` | the DynamoDB table as a class: items by id plus an availability switch |
| `add_device.dfy` | `AddDeviceHandler` | `addDevice.go` |
| `get_device_by_id.dfy` | `GetDeviceByIdHandler` | `getDeviceById.go` |
| `scenarios.dfy` | `Scenarios` | the cases of the two test files as exact bodies; a store-then-fetch client |

`validateInputs` builds its message by successive appends and a flag. It is an imperative method (`ValidateInputs`, with the five checks in `CheckFields`). The method is proved equal to the function `Validate`, and the message properties are lemmas about `Validate`. `AddDevice` is a method that changes the table. The lookup handler never changes anything, so it is a function that reads the table.

## Model

| member | source | states |
|---|---|---|
| Types.Field | src/handlers/types/types.go:5-11 | a Device has exactly the five JSON keys id, deviceModel, name, note, serial; any other key names no field |
| Types.Populate | src/handlers/addDevice/addDevice.go:93 | decoding into an existing Device overwrites each field whose key is present and keeps every other field |
| Types.ZeroDeviceIsEmpty | src/handlers/addDevice/addDevice.go:77-83 | `types.Device{}` (the `ZeroDevice` constant, also returned with every error at lines 89, 97 and 129 and decoded into at getDeviceById.go:146) has every field empty, is not complete, and is unchanged by decoding an empty record |
| Types.Complete | src/handlers/addDevice/addDevice.go:103-128 | a device is complete exactly when none of its five fields is empty, the negation of `errorFlag` after the five checks; MissingKeysExact proves the missing list is empty exactly for complete devices |
| Types.Healthy | src/handlers/getDeviceById/getDeviceById.go:77 | the negation of the guard that rejects a session error or a nil table name in `DatabseStruct` (types.go:24-27); Init states when a start-up is healthy and GetDeviceById answers every unhealthy configuration first |
| Types.FieldsDetermineDevice | src/handlers/types/types.go:5-11 | two devices that agree on the five keys are equal |
| JsonText.EscapeChar | src/handlers/addDevice/addDevice.go:141 | a plain character is written as itself; every other character becomes an escape of 2 to 6 characters starting with a backslash |
| JsonText.EscapePlain | src/handlers/addDevice/addDevice.go:141 | text made of plain characters is written unchanged |
| JsonText.EscapeAppend | src/handlers/addDevice/addDevice.go:141 | escaping distributes over concatenation |
| JsonText.Escape | src/handlers/addDevice/addDevice.go:141 | the body of a string literal: every character written by EscapeChar in turn; never shorter than the text, and read back by ReadEscaped |
| JsonText.Quote | src/handlers/addDevice/addDevice.go:141 | a string value between double quotes with its body escaped; read back by ReadQuoted |
| JsonText.ReadEscapedChar | src/handlers/addDevice/addDevice.go:141 | the JSON reader turns every character's escape back into that character |
| JsonText.ReadEscaped | src/handlers/addDevice/addDevice.go:141 | an escaped text followed by a closing quote reads back as the text and what follows |
| JsonText.ReadQuoted | src/handlers/addDevice/addDevice.go:141 | a quoted string reads back as the original string, whatever follows it |
| JsonText.QuoteInjective | src/handlers/addDevice/addDevice.go:141 | two strings with the same JSON literal are equal |
| JsonText.NatToDecimal | src/handlers/types/types.go:20 | the decimal form of a number is a non-empty run of digits with no leading zero |
| JsonText.IntToDecimal | src/handlers/types/types.go:20 | an int code as MarshalIndent writes it: a minus sign for negatives, then the decimal digits; read back by ReadDecimal |
| JsonText.DigitsValueOfDecimal | src/handlers/types/types.go:20 | the digits written for n have value n |
| JsonText.ReadDecimal | src/handlers/types/types.go:20 | an int code reads back as itself, negative ones included, when no digit follows |
| Envelope.ReadMarshalledError | src/handlers/types/types.go:15-22 | the error envelope reads back as exactly its code and message |
| Envelope.ErrorEnvelopeInjective | src/handlers/types/types.go:15-22 | two error envelopes are the same text only when code and message agree |
| Envelope.MarshalErrorResponse | src/handlers/addDevice/addDevice.go:141 | the tab-indented error envelope: `{`, newline, tab, `"error": {`, then `"code"` and `"message"` one tab deeper, closing braces on their own lines; pinned by ReadMarshalledError and by the byte strings of Scenarios.EmptyBodyCase and Scenarios.EmptyIdCase |
| Envelope.ReadMarshalledMember | src/handlers/types/types.go:6-10 | one `"key": "value"` member reads back as its value |
| Envelope.MarshalDevice | src/handlers/types/types.go:5-11 | the device nested one level deep, its five members in declaration order, each `"key": "value"` on its own line two tabs in; pinned by ReadMarshalledDevice and Scenarios.TestDeviceText |
| Envelope.ReadMarshalledDevice | src/handlers/types/types.go:5-11 | a nested device object, with members in declaration order, reads back as the device |
| Envelope.MarshalStatusResponse | src/handlers/addDevice/addDevice.go:151 | the add success envelope: `"status"` then `"data"` holding MarshalDevice; pinned by ReadMarshalledStatus and Scenarios.SuccessResponseCase |
| Envelope.ReadMarshalledStatus | src/handlers/addDevice/addDevice.go:20-23 | the add success envelope reads back as its status and device |
| Envelope.MarshalDataResponse | src/handlers/getDeviceById/getDeviceById.go:152 | the lookup success envelope: `"data"` holding MarshalDevice; pinned by ReadMarshalledData and Scenarios.FoundItemCase |
| Envelope.ReadMarshalledData | src/handlers/getDeviceById/getDeviceById.go:22-24 | the lookup success envelope reads back as its device |
| Envelope.ShapesDisjoint | src/handlers/getDeviceById/getDeviceById.go:144-154 | no success body reads as an error envelope, no error body as a success, and the two success shapes never read as each other |
| Attributes.MarshalMap | src/handlers/addDevice/addDevice.go:166 | the stored item has exactly the five attributes, each holding the field of the same name |
| Attributes.UnmarshalMap | src/handlers/getDeviceById/getDeviceById.go:146-147 | decoding starts from the zero Device: present attributes fill their field, missing ones leave it "" |
| Attributes.UnmarshalMarshal | src/handlers/getDeviceById/getDeviceById.go:146-147 | a device stored and read back is the same device |
| Attributes.MarshalUnmarshal | src/handlers/addDevice/addDevice.go:166 | an item with exactly the five attributes survives being read and stored again |
| Attributes.UnmarshalIgnoresOtherAttributes | src/handlers/getDeviceById/getDeviceById.go:146-147 | attributes a Device does not have do not affect the decoded device |
| DeviceStore.DeviceTable.PutItem | src/handlers/addDevice/addDevice.go:169-178 | a write fails when the table is unreachable or the item has no id; otherwise it stores the item under its id, replacing any earlier item and leaving all others; the id invariant is kept |
| DeviceStore.DeviceTable.GetItem | src/handlers/getDeviceById/getDeviceById.go:59-69 | a read succeeds exactly when the table is reachable and the key is exactly the id attribute; it returns the stored item, or an empty item when there is none |
| DeviceStore.DeviceTable.StoredItemsAreNonEmpty | src/handlers/getDeviceById/getDeviceById.go:112 | under the id invariant no stored item is empty |
| AddDeviceHandler.CreateErrorResponseJson | src/handlers/addDevice/addDevice.go:138-143 | the body is an error envelope that reads back as exactly the given code and message |
| AddDeviceHandler.CreateSuccessResponseJson | src/handlers/addDevice/addDevice.go:145-157 | status 201 and a body that reads back as "requested item inserted" and the given device |
| AddDeviceHandler.MissingKeys | src/handlers/addDevice/addDevice.go:103-125 | the JSON keys of the empty fields in declaration order; EmptyKeysFilter and MissingKeysExact prove it is exactly that filter of the five keys |
| AddDeviceHandler.ListKeys | src/handlers/addDevice/addDevice.go:104 | each key followed by ", ", the last one included; ListKeysAppend and ReadListedKeys pin the layout |
| AddDeviceHandler.MissingFieldsMessage | src/handlers/addDevice/addDevice.go:100-125 | the prefix of line 100 followed by ListKeys of MissingKeys; CheckFields proves the five appends build exactly this text, and Scenarios.MissingIdCase pins it for one device |
| AddDeviceHandler.EmptyKeysFilter | src/handlers/addDevice/addDevice.go:103-125 | the listed keys are exactly the given keys whose field is empty, kept in the given order |
| AddDeviceHandler.MissingKeysExact | src/handlers/addDevice/addDevice.go:100-125 | the message lists exactly the empty fields, in the order id, deviceModel, name, note, serial; the list is empty exactly when the device is complete |
| AddDeviceHandler.MissingKeysUnrolled | src/handlers/addDevice/addDevice.go:103-125 | the list is the five checks taken one after another |
| AddDeviceHandler.ListKeysAppend | src/handlers/addDevice/addDevice.go:104 | listing one more key appends `key, ` to the text |
| AddDeviceHandler.MissingMessageEndsWithSeparator | src/handlers/addDevice/addDevice.go:100-125 | a message for an incomplete device starts with the prefix and keeps the trailing ", " |
| AddDeviceHandler.ReadListedKeys | src/handlers/addDevice/addDevice.go:103-125 | a list of comma-free keys, each followed by ", ", splits back into those keys |
| AddDeviceHandler.MissingMessageDeterminesFields | src/handlers/addDevice/addDevice.go:100-125 | two devices with the same missing-fields message have the same empty fields |
| AddDeviceHandler.Validate | src/handlers/addDevice/addDevice.go:72-136 | accepts exactly a non-empty, decodable body whose decoded device has no empty field, and then returns that device; every rejection is a code-400 envelope |
| AddDeviceHandler.EmptyBodyRejectedFirst | src/handlers/addDevice/addDevice.go:87-90 | an empty body is rejected with "No inputs provided, ..." whatever the decoder would say |
| AddDeviceHandler.UndecodableBodyRejectedSecond | src/handlers/addDevice/addDevice.go:93-98 | a body that does not decode is rejected with "Wrong format: ..." before any field is checked |
| AddDeviceHandler.IncompleteBodyListsMissingFields | src/handlers/addDevice/addDevice.go:100-130 | a decoded body with empty fields is rejected with the message listing exactly those fields |
| AddDeviceHandler.RejectionMessagesDistinct | src/handlers/addDevice/addDevice.go:88-100 | the three rejection messages differ from one another |
| AddDeviceHandler.CheckFields | src/handlers/addDevice/addDevice.go:100-125 | the five appends build exactly the missing-fields message; the flag is raised exactly when a field is empty |
| AddDeviceHandler.ValidateInputs | src/handlers/addDevice/addDevice.go:72-136 | the imperative validator agrees with Validate; a rejection comes with the zero Device |
| AddDeviceHandler.InsertItemToDatabase | src/handlers/addDevice/addDevice.go:160-179 | the device's attribute map is written under its id when the table is reachable; otherwise nothing changes |
| AddDeviceHandler.AddDevice | src/handlers/addDevice/addDevice.go:35-70 | a rejection gives 400 with the validator's envelope and leaves the table untouched; a failed write gives 500 with the internal-error envelope; otherwise 201 with the device, and the table gains exactly that item under its id |
| GetDeviceByIdHandler.Init | src/handlers/getDeviceById/getDeviceById.go:33-54 | an empty table name leaves none; the configuration is healthy exactly when there is no session error and the name is non-empty |
| GetDeviceByIdHandler.CreateErrorResponseJson | src/handlers/getDeviceById/getDeviceById.go:127-141 | state 1 gives (404, "No ID Field Provided"), state 2 gives (500, "Internal Server's Error occured"), and every other state gives (404, "Desired device with provided id was not founded") |
| GetDeviceByIdHandler.ErrorStatesDistinct | src/handlers/getDeviceById/getDeviceById.go:127-141 | the three error states give three different bodies |
| GetDeviceByIdHandler.CreateSuccessResponseJson | src/handlers/getDeviceById/getDeviceById.go:144-154 | the body reads back as the item decoded into the zero Device; attributes the item lacks come out as "" |
| GetDeviceByIdHandler.ValidateDatabaseResult | src/handlers/getDeviceById/getDeviceById.go:101-124 | a store error gives 500 whatever the item holds; otherwise an empty item gives 404 not-found and any other item gives 200 with its device |
| GetDeviceByIdHandler.PathId | src/handlers/getDeviceById/getDeviceById.go:85 | an absent id path parameter reads as "" |
| GetDeviceByIdHandler.GetFromDatabase | src/handlers/getDeviceById/getDeviceById.go:57-70 | the lookup key is exactly the id attribute; an id with no item gives an empty item, not an error |
| GetDeviceByIdHandler.GetDeviceById | src/handlers/getDeviceById/getDeviceById.go:75-98 | the guards in order: a configuration fault gives status 404 with a code-500 body; then an empty id gives 404 missing-id; then an unreachable table gives 500, an unknown id gives 404 not-found, and a stored id gives 200 with the stored item's device |
| GetDeviceByIdHandler.StoredDeviceIsReturned | src/handlers/getDeviceById/getDeviceById.go:95-97 | a device stored under its id is answered with 200 and exactly that device |
| Scenarios.EmptyBodyCase | src/handlers/addDevice/addDevice_test.go:40-45 | an empty body gives the test's exact code-400 "No inputs provided" body |
| Scenarios.WrongFormatCase | src/handlers/addDevice/addDevice_test.go:46-51 | an undecodable body gives the test's exact "Wrong format" body |
| Scenarios.RejectedForMissing | src/handlers/addDevice/addDevice.go:100-131 | any decoded body whose device lacks fields is rejected with the code-400 envelope whose message is the fixed prefix followed by exactly the listed keys |
| Scenarios.MissingIdCase | src/handlers/addDevice/addDevice_test.go:52-57 | an empty id gives the exact body listing "id, " |
| Scenarios.MissingModelAndNoteCase | src/handlers/addDevice/addDevice_test.go:58-63 | empty deviceModel and note give the exact body listing "deviceModel, note, " |
| Scenarios.MissingModelNameSerialCase | src/handlers/addDevice/addDevice_test.go:65-70 | empty deviceModel, name and serial give the exact body listing them in declaration order |
| Scenarios.ValidDeviceWithoutDatabase | src/handlers/addDevice/addDevice_test.go:72-78 | a complete device with no reachable table gives the test's exact 500 response |
| Scenarios.TestDeviceText | src/handlers/addDevice/addDevice_test.go:112 | the test device nests under "data" exactly as the test expects |
| Scenarios.SuccessResponseCase | src/handlers/addDevice/addDevice_test.go:98-127 | createSuccessResponseJson of the test device gives the test's exact 201 response |
| Scenarios.EmptyIdCase | src/handlers/getDeviceById/getDeviceById_test.go:105-111 | an empty id gives the test's exact 404 "No ID Field Provided" response |
| Scenarios.UnreachableTableCase | src/handlers/getDeviceById/getDeviceById_test.go:112-118 | a configured handler with no reachable table gives the test's exact 500 response |
| Scenarios.MissingTableNameCase | src/handlers/getDeviceById/getDeviceById.go:77-81 | a start-up without a table name gives status 404 with the code-500 internal-error body, for any request |
| Scenarios.DatabaseErrorCase | src/handlers/getDeviceById/getDeviceById_test.go:156-163 | a store error gives the test's exact 500 response |
| Scenarios.EmptyResultCase | src/handlers/getDeviceById/getDeviceById_test.go:164-170 | an empty result gives the test's exact 404 not-found response |
| Scenarios.FoundItemCase | src/handlers/getDeviceById/getDeviceById_test.go:171-176 | the test item gives the test's exact 200 response |
| Scenarios.GetFromDatabaseCases | src/handlers/getDeviceById/getDeviceById_test.go:71-82 | a table holding the test item returns it for "id_test" and an empty item without error for "id_test_no" |
| Scenarios.AddThenGet | src/handlers/getDeviceById/getDeviceById.go:95-97 | a device added through the add handler is then returned by the lookup handler with 200, unchanged |

## Behaviour as written

Where the code departs from what its own comments and messages say, the model follows the code:

- On the lookup path, a configuration fault answers with HTTP status **404**, but the body carries code 500 and the internal-error message (`getDeviceById.go:77-81`). The code's own comment at `getDeviceById.go:76` calls this an internal server error and the body carries code 500, yet the status is 404. `GetDeviceById` and `Scenarios.MissingTableNameCase` state the 404.
- The add path has no configuration check. The `NewSession` error (`addDevice.go:39`) is overwritten by the validator's result at line 47. A missing table name is also passed to `PutItem` unchecked (line 163). Such a name therefore shows only as a failed write, answered with 500. `AddDevice` takes no configuration value.
- `addDevice_test.go:86` assigns `databseStruct`, which `addDevice.go` never declares, so that test file does not compile against the handler as shown. The scenarios use its expected bodies only.

Every expected body in `scenarios.dfy` is the test's byte string written as a sum of shorter literals. The two longer add-path messages are likewise declared in two pieces. The values are unchanged.

## Left out

- AWS SDK calls (`session.NewSession`, `dynamodb.New`, the real `PutItem`/`GetItem`): network I/O. They are replaced by the `DeviceTable` class. Its `available` switch stands for every way a call can fail (network, permissions, missing table).
- `os.Getenv` and `fmt.Println`: the environment values and the session outcome are parameters of `Init`; logging is not modelled.
- `lambda.Start`, `main` and concurrent invocations: runtime wiring outside the core.
- The table name of `insertItemToDatabase` (`addDevice.go:163`) and `getFromDatabase`: the model has one table, and a wrong name shows as an unavailable table.
- The internals of `json.Unmarshal`: it is the parameter `unmarshal`, which yields a failure or the string members whose keys name a Device field. Case-insensitive key matching, `null` and mismatched types are left to it.
- The internals of `dynamodbattribute.MarshalMap`/`UnmarshalMap`: only the five string attributes are modelled, with exact key names; the SDK's case-insensitive fallback (an attribute "ID" filling `id`) is not modelled. Their errors, discarded by the code, are not modelled. DynamoDB's refusal of empty key values is not modelled either; the validator rejects an empty id first.
- The `json.MarshalIndent` error, discarded with `_`: it cannot occur for these types.
- `JsonText.EscapeChar`: does not model Go's replacement of invalid UTF-8, since a Dafny string holds only Unicode scalar values. It writes backspace and form feed as `\u0008` and `\u000c`, as Go did before 1.22; later releases write `\b` and `\f`.
- `GetDeviceByIdHandler.GetDeviceById`: a function, so "no store call is made for a missing id" is not stated as an event. The answer for that case does not depend on the table.
- `validateDatabaseResult` with a nil result and no error would dereference nil in Go. `GetItemResult` always carries an item, so this case is absent.
- The test files as code (fakes, loops, `t.Errorf`): only their expected statuses and bodies are modelled.
- `Scenarios.AddThenGet`: does not restate that the other stored items are unchanged after the add; `AddDeviceHandler.AddDevice` states the whole new table, and the lemma keeps to the round trip.
- What a failed session does at `addDevice.go:41` and `getDeviceById.go:39`: the failed session is handed to `dynamodb.New`, whose behaviour with it is SDK behaviour the model does not capture. The model only records the session error and, on the lookup path, answers it before any store call.
