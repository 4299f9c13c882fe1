# Jenkins CloudMonitor webhook ingestion, modelled in Dafny

This project models the ingestion pipeline of the CloudMonitor webhook server. The server receives
Jenkins build data on `POST /webhook` and runs five stages in order:

1. It checks the freshness of an encrypted timestamp header (`verifyAuthorization`).
2. It compares two SHA-256 checksum headers with the two body fields (`verifyChecksum`).
3. It reshapes the parsed build and pipeline-run JSON into one flat record (`extractRequiredData`).
4. It validates that record strictly against the Joi schema `dataSchema` (`validateData`).
5. It hands the record to the index.

The first stage that fails ends the request.

The model is organised in modules:

- `JsValue` (js_value.dfy): JavaScript values as a datatype.
  - It covers property lookup, `||`, truthiness and nullishness.
  - A `WellFormed` object lists exactly the keys it has.
- `JsParseInt` (parse_int.dfy): `parseInt(text, 10)`, with results `Some(n)` or `None` for `NaN`. Lemmas cover printed numerals, leading white space and text without digits.
- `Joi` (joi.dfy): the part of the Joi validator that `dataSchema` uses, as a schema datatype with builder functions.
  - `Validate` returns every violation, each as a path and a kind (`abortEarly: false`, unknown keys refused).
  - `Accepts` is an independent, declarative reading of the same rules.
  - `ValidateAccepts` proves the two agree on every well-formed value.
- `Schemas` (data_schema.dfy): `stageSchema` and `dataSchema`, written with the builder functions in the source's order.
- `SchemaFacts` (schema_facts.dfy): what conforming to `dataSchema` means, field by field, and which violation each kind of bad input produces.
- `Normalizer` (normalizer.dfy): `extractRequiredData`.
  - It includes the first-match `actions?.find(...)` search with its optional chaining.
  - A record datatype holds the 34 top-level fields and the 9 fields of `wfapi_describe`.
  - The result is a JavaScript object.
- `NormalizerFacts` (normalizer_facts.dfy): where each output field comes from and when normalization throws. It proves that other actions never matter and that well-formed input gives a well-formed output.
- `RecordConformance` (record_conformance.dfy): the whole record schema as one plain condition, `ConformingRecord`, proved equivalent to acceptance. A sample successful build, given as the two parsed JSON values, is proved to normalize into a record the schema accepts.
- `RecordValidation` (record_validation.dfy): normalizer and schema together. For example, the `{}` defaults for `lastBuiltRevision` and `executor` can never pass validation.
- `Server` (server.dfy): the request, the environment, the two checks, `validateData`, and the handler.
  - `Webhook` and `Ingest` are methods that follow the handler statement by statement.
  - Each is proved equal to the functions `Handle` and `Ingestion`.
- `ServerFacts` (server_facts.dfy): the freshness window and its edges, the checksum decision, and the stage ordering of the handler. It also proves that what reaches the index conforms to the schema.

Behaviour of the code worth noting:

- **The normalizer can throw.** `extractRequiredData` is not total. It throws a `TypeError` in four cases:
  - the build data is `null`;
  - the run data is `null`;
  - `actions` is neither nullish nor an array;
  - a `null` action comes before the first match.

  The TypeError escapes the async handler, so no response is sent (`Unhandled`). `NormalizerFacts.ExtractFailsExactly` states exactly when this happens.
- **Absent lists are defaulted.** An absent `actions` list or stage list is not refused. `?.` and `|| []` default it, and validation refuses the result later.
- **One authorization outcome.** The code does not tell "missing credential", "invalid credential" and "stale" apart.
  - A missing or empty header, or a decryption that throws, returns `false`. The reply is then status 400 with an empty body.
  - A timestamp that is stale, in the future or not a number gives "Authorization denied".
- **A non-string body field throws.** If `build_data` or `stage_data` is not a string, the hash throws a TypeError. It escapes the handler, like a `JSON.parse` failure (a `SyntaxError`).

## Model

| member | source | states |
|---|---|---|
| JsParseInt.TrimStart | server.js:36 | the result is a suffix of the input; everything dropped is JavaScript white space, and the result does not start with white space |
| JsParseInt.ParseInt | server.js:36 | `parseInt(text, 10)` (definition; its properties are the `JsParseInt` lemmas below) |
| JsParseInt.DigitPrefix | server.js:36 | the result is the longest prefix of decimal digits |
| JsParseInt.ParseSignedNumeral | server.js:36 | an unsigned numeral followed by a non-digit parses to its value |
| JsParseInt.ParseSignedNegativeNumeral | server.js:36 | a `-` and a numeral followed by a non-digit parse to the negated value |
| JsParseInt.ParseIntDecimalPrefix | server.js:36 | `parseInt` of a printed integer followed by any non-digit text gives that integer |
| JsParseInt.ParseIntDecimal | server.js:36 | `parseInt` of a printed integer gives that integer back (round trip) |
| JsParseInt.ParseIntSkipsWhitespace | server.js:36 | leading white space does not change the result |
| JsParseInt.ParseIntWithoutDigits | server.js:36 | text with no digit parses to `NaN` (`None`) |
| Joi.Undeclared | server.js:124 | the keys of an object that the schema does not declare, exactly |
| Joi.Validate | server.js:124 | `schema.validate` with `abortEarly: false`, collecting every violation (definition; its meaning is stated by `Joi.ValidateAccepts`) |
| Joi.Accepts | dataSchema.js:16-75 | the rules of the Joi features `dataSchema` uses, read declaratively (definition; related to `Validate` by `Joi.ValidateAccepts`) |
| Joi.StringRulesPass | dataSchema.js:40-43 | string rules report nothing iff every rule (`length`, `uri`) holds |
| Joi.Utf16LengthOfBmp | dataSchema.js:40 | a string of characters below U+10000 has as many UTF-16 code units as characters |
| Joi.Utf16LengthBounds | dataSchema.js:40 | a string's UTF-16 length lies between its number of characters and twice that |
| Joi.NumberRulesPass | dataSchema.js:18-27 | number rules report nothing iff every rule (`integer`, `min`, `max`) holds |
| Joi.UnknownViolationsEmpty | server.js:124 | with `allowUnknown: false`, no unknown-key violation iff every undeclared key is matched by a pattern |
| Joi.UnknownViolationsContain | server.js:124 | each undeclared key that no pattern matches is reported as unknown |
| Joi.ValidateAccepts | server.js:124 | for a well-formed value, `validate` reports no violation iff the value conforms to every rule of the schema |
| Joi.ChildrenAccept | dataSchema.js:16-75 | no violation among the declared keys iff every declared key's value conforms to that key's schema |
| Joi.PatternAccepts | dataSchema.js:29-38 | no pattern violation iff every undeclared, pattern-matched key's value conforms to the pattern schema |
| Joi.ItemsAccept | dataSchema.js:73 | no item violation iff every element conforms to the item schema |
| Joi.ChildViolationReported | server.js:124 | with `abortEarly: false`, a violation inside any declared key is reported for the whole object |
| Joi.UnknownKeyReported | server.js:124 | a key of a closed object that the schema does not declare is reported as unknown |
| Joi.ItemViolationReported | dataSchema.js:73 | a violation inside any array element is reported for the array |
| Joi.SparseItemReported | dataSchema.js:41-45 | a hole in an array whose schema has `items` is reported as `array.sparse` at its index |
| Joi.AcceptedChild | dataSchema.js:16-75 | a conforming object's declared keys each conform to their schema |
| Joi.ClosedObjectAccepts | server.js:124 | with `allowUnknown: false`, a keyed object without pattern is accepted iff every declared key conforms and no key is undeclared |
| Joi.MissingRequiredReported | dataSchema.js:17-74 | a required key that is absent is reported as required |
| SchemaFacts.CountAccepts | dataSchema.js:18-27 | `number().integer().min(0).required()` accepts exactly the non-negative integers |
| SchemaFacts.InstantAccepts | dataSchema.js:68-72 | `number().integer().required()` accepts exactly the integers, of either sign |
| SchemaFacts.UtilizationAccepts | dataSchema.js:24 | `executorUtilization` accepts exactly the numbers in [0, 1] |
| SchemaFacts.StageStatusAccepts | dataSchema.js:9 | a stage status is accepted iff it is one of the five listed values |
| SchemaFacts.RunStatusAccepts | dataSchema.js:67 | a run status is accepted iff it is one of the five listed values |
| SchemaFacts.BuildResultAccepts | dataSchema.js:59 | `result` is accepted iff it is absent, `null`, or one of SUCCESS/FAILURE/ABORTED/UNSTABLE |
| SchemaFacts.StatusVocabulariesDiffer | dataSchema.js:67 | stages accept FAILED and refuse FAILURE (line 9); runs accept FAILURE and refuse FAILED |
| SchemaFacts.TagAccepts | dataSchema.js:17 | a class tag accepts exactly its one string |
| SchemaFacts.TextAccepts | dataSchema.js:48 | `string().required()` accepts exactly the non-empty strings |
| SchemaFacts.OptionalTextAccepts | dataSchema.js:44 | `string().allow('')` accepts absence and any string, including '' |
| SchemaFacts.FlagAccepts | dataSchema.js:46 | `boolean().required()` accepts exactly the booleans |
| SchemaFacts.Sha1Accepts | dataSchema.js:40 | `SHA1` accepts exactly the strings whose length is 40 in UTF-16 code units, as JavaScript counts it |
| SchemaFacts.UriAccepts | dataSchema.js:61 | `url` accepts exactly the non-empty strings that are URIs |
| SchemaFacts.UriListAccepts | dataSchema.js:43 | `remoteUrls` accepts exactly the arrays with no holes whose every element is a non-empty URI string |
| SchemaFacts.ListAccepts | dataSchema.js:73 | a required array of items accepts exactly the arrays with no holes whose every element conforms |
| SchemaFacts.BranchMapAccepts | dataSchema.js:29-38 | `buildsByBranchName` accepts exactly the objects whose every key is a non-empty string and whose every value is absent or a conforming branch build |
| SchemaFacts.OpenObjectAccepts | dataSchema.js:5 | `object().unknown(true).required()` accepts exactly the objects, whatever their keys |
| SchemaFacts.ErrorFieldAccepts | dataSchema.js:10 | a stage `error` is accepted iff it is absent, `''` or an object |
| SchemaFacts.ObjectListAccepts | dataSchema.js:41-45 | an array of open objects accepts exactly the arrays with no holes whose every element is an object; when optional, also absence |
| SchemaFacts.StageAccepts | dataSchema.js:4-14 | `stageSchema` accepts exactly absence or an object with no undeclared key whose nine fields hold their conditions |
| SchemaFacts.StageListAccepts | dataSchema.js:73 | `stages` accepts exactly the arrays whose every element is a conforming stage |
| SchemaFacts.RunAccepts | dataSchema.js:64-74 | `wfapi_describe` accepts exactly the objects with no undeclared key whose nine fields hold their conditions |
| SchemaFacts.RevisionAccepts | dataSchema.js:39-42 | `lastBuiltRevision` accepts exactly the objects with only `SHA1` and `branch`, a 40-unit `SHA1` and a `branch` array of objects |
| SchemaFacts.ExecutorAccepts | dataSchema.js:51-53 | `executor` accepts exactly the objects whose only key is `_class`, holding `hudson.model.OneOffExecutor` |
| SchemaFacts.BranchBuildAccepts | dataSchema.js:31-37 | a branch build is accepted iff absent or an object with no undeclared key, the Build tag, an integer `buildNumber`, and object `marked` and `revision` |
| SchemaFacts.SchemaKeyTable | dataSchema.js:16-75 | the record schema declares exactly the 34 keys, in order |
| SchemaFacts.OptionalPositionsNamed | dataSchema.js:44-63 | the optional positions are exactly those of `scmName`, `artifacts`, `description`, `result`, `changeSets`, `culprits` |
| SchemaFacts.RequiredKeyTable | dataSchema.js:17-74 | a key of the record schema is required iff it is not one of the optional ones |
| SchemaFacts.OptionalKeysMayBeAbsent | dataSchema.js:44-63 | a key may be absent iff it is one of the optional ones |
| SchemaFacts.AcceptedClassTags | dataSchema.js:17-28 | a conforming record has the two constant class tags |
| SchemaFacts.AcceptedBlockedCounts | dataSchema.js:18-22 | a conforming record's blocked, buildable and building metrics are non-negative integers |
| SchemaFacts.AcceptedWaitingCounts | dataSchema.js:23-27 | a conforming record's executing, sub-task and waiting metrics are non-negative integers |
| SchemaFacts.AcceptedUtilization | dataSchema.js:24 | a conforming record's `executorUtilization` is a number in [0, 1] |
| SchemaFacts.AcceptedRevision | dataSchema.js:39-42 | a conforming record's `lastBuiltRevision` is an object with a `SHA1` of 40 UTF-16 code units and a `branch` array of objects |
| SchemaFacts.AcceptedRevisionFields | dataSchema.js:39-42 | the same, for a value conforming to the revision schema alone |
| SchemaFacts.AcceptedRemotes | dataSchema.js:29-44 | a conforming record has a conforming branch map, an array of non-empty URI strings, and `scmName` absent or a string |
| SchemaFacts.AcceptedNames | dataSchema.js:46-56 | a conforming record's flags are booleans, and its names and id are non-empty strings |
| SchemaFacts.AcceptedCounters | dataSchema.js:49-60 | a conforming record's durations are non-negative integers; `number`, `queueId` and `timestamp` are integers |
| SchemaFacts.AcceptedOutcome | dataSchema.js:59-61 | a conforming record's `result` is absent or an allowed value, and its `url` is a non-empty URI string |
| SchemaFacts.AcceptedExecutor | dataSchema.js:51-53 | a conforming record's executor is an object tagged `hudson.model.OneOffExecutor` |
| SchemaFacts.AcceptedExecutorFields | dataSchema.js:51-53 | the same, for a value conforming to the executor schema alone |
| SchemaFacts.AcceptedRun | dataSchema.js:64-74 | a conforming record's run is an object with an allowed status and a stage list whose every stage conforms |
| SchemaFacts.AcceptedRunFields | dataSchema.js:64-74 | the same, for a value conforming to the run schema alone |
| SchemaFacts.AcceptedRunTimings | dataSchema.js:68-72 | a conforming run's five timings are integers, with no sign restriction |
| SchemaFacts.AcceptedStage | dataSchema.js:4-14 | a conforming stage is an object with no undeclared key, `_links` an object, non-empty `id` and `name`, `execNode` absent or a string, an allowed status, `error` absent, `''` or an object, an integer start and non-negative integer durations |
| SchemaFacts.RecordSchemaShape | server.js:124 | the record schema is a closed object with no pattern and no allowed values |
| SchemaFacts.MissingKeyReported | dataSchema.js:17-74 | each required key missing from a record is reported |
| SchemaFacts.UnknownRecordKeyReported | server.js:124 | each key outside the schema is reported as unknown |
| SchemaFacts.UtilizationAboveOneReported | dataSchema.js:24 | a utilization above 1 (such as 1.5) is reported as over the maximum |
| SchemaFacts.UtilizationMaxReported | dataSchema.js:24 | the same, for the utilization schema alone |
| SchemaFacts.EmptyRevisionReported | dataSchema.js:39-42 | a `{}` revision is reported as missing both `SHA1` and `branch` |
| SchemaFacts.EmptyExecutorReported | dataSchema.js:51-53 | a `{}` executor is reported as missing `_class` |
| SchemaFacts.FailureStageReported | dataSchema.js:73 | a stage with status FAILURE is reported at its position in the record |
| SchemaFacts.FailureRunStageReported | dataSchema.js:73 | the same, inside the run schema |
| SchemaFacts.FailureStatusReported | dataSchema.js:9 | status FAILURE is reported as not among the allowed stage values |
| Schemas.StageSchema | dataSchema.js:4-14 | `stageSchema` (definition; its meaning is stated by `SchemaFacts.StageAccepts`) |
| Schemas.BranchBuildSchema | dataSchema.js:31-37 | the value schema of `buildsByBranchName` (definition; see `SchemaFacts.BranchBuildAccepts`) |
| Schemas.LastBuiltRevisionSchema | dataSchema.js:39-42 | the `lastBuiltRevision` schema (definition; see `SchemaFacts.RevisionAccepts`) |
| Schemas.ExecutorSchema | dataSchema.js:51-53 | the `executor` schema (definition; see `SchemaFacts.ExecutorAccepts`) |
| Schemas.WfapiSchema | dataSchema.js:64-74 | the `wfapi_describe` schema (definition; see `SchemaFacts.RunAccepts`) |
| Schemas.DataSchema | dataSchema.js:16-75 | `dataSchema` (definition; its meaning is stated by `RecordConformance.RecordAccepts`) |
| RecordConformance.RecordAccepts | dataSchema.js:16-75 | `dataSchema` accepts a value iff it is absent or an object with no undeclared key whose 34 fields hold their conditions, the run conforming with every stage |
| RecordConformance.SampleRecordAccepted | dataSchema.js:16-75 | the record of a sample successful one-stage build is accepted, and validation reports nothing for it |
| RecordConformance.NormalizedFromFound | server.js:68-119 | once both action searches succeed on non-nullish input, the record is the literal over what they found |
| RecordConformance.SampleQueueFound | server.js:71 | the queue search passes over an action of another class and returns the first queue action |
| RecordConformance.SampleBuildDataFound | server.js:83 | the Git search passes over two actions of other classes and returns the BuildData action |
| RecordConformance.SampleNormalized | server.js:68-119 | the sample build JSON, with its absent metrics, lists and Git fields, normalizes into the sample record |
| Normalizer.ExtractRequiredData | server.js:68-119 | the output exists exactly when normalization does not throw; it is an object whose keys are the 34 record keys in order; the only exception is a TypeError |
| Normalizer.Normalize | server.js:68-119 | the body of `extractRequiredData`, throwing as the code does (definition; see `NormalizerFacts.ExtractFailsExactly`) |
| Normalizer.Assemble | server.js:69-118 | the 34 fields, each from its source with its `||` default (definition; see the `NormalizerFacts` field lemmas) |
| Normalizer.FindFirst | server.js:71 | `actions?.find(...)` with the tag test (definition; see `Normalizer.FindFirstMatch` and the lemmas after it) |
| Normalizer.FindFirstMatch | server.js:71 | `find` returns the first action carrying the tag when every earlier action is a non-null non-match |
| Normalizer.FindFirstNone | server.js:71 | `find` returns `undefined` when no action matches and none is nullish |
| Normalizer.FindFirstThrows | server.js:71 | `find` throws iff a nullish action comes before any match |
| Normalizer.FindFirstFound | server.js:71 | what `find` returns, unless `undefined`, is an element of the list and carries the tag |
| Normalizer.FindFirstSkipsOther | server.js:83-86 | inserting a non-null action with another tag anywhere does not change what `find` returns |
| NormalizerFacts.ExtractFailsExactly | server.js:68-119 | normalization throws iff the build or run data is nullish, or one of the two searches throws |
| NormalizerFacts.NothingFound | server.js:71-86 | with no action carrying the tag, the search yields `undefined` |
| NormalizerFacts.QueueMetricsFromFirstAction | server.js:71-80 | each of the ten queue metrics is the first queue action's value when truthy, and 0 otherwise |
| NormalizerFacts.QueueMetricsDefault | server.js:71-80 | with no queue action or no `actions`, all ten metrics are 0 |
| NormalizerFacts.BuildDataFromFirstAction | server.js:83-86 | the four Git fields are the first BuildData action's values when truthy, else `{}`, `{}`, `[]`, `""` |
| NormalizerFacts.BuildDataDefaults | server.js:83-86 | with no BuildData action, the four Git fields are `{}`, `{}`, `[]`, `""` |
| NormalizerFacts.FindActionSkipsOther | server.js:71-86 | inserting a non-null action with another tag does not change either search result |
| NormalizerFacts.InsertKeepsOtherKeys | server.js:71-86 | inserting an action changes no other field of the build data |
| NormalizerFacts.AssembleReadsOtherKeys | server.js:88-105 | the copied fields depend only on the build data's keys other than `actions` |
| NormalizerFacts.NormalizeReadsLookups | server.js:69-118 | normalization depends on `actions` only through the two search results |
| NormalizerFacts.OtherActionsIgnored | server.js:71-86 | inserting an action of any third class does not change the normalized record or whether it throws |
| NormalizerFacts.ConstantTags | server.js:70-82 | `_class` and `_class_buildData` are the two constant tags, whatever the input |
| NormalizerFacts.CopiedVerbatim | server.js:89-103 | the 13 identity and lifecycle fields are the build data's own values, with no default |
| NormalizerFacts.CollectionsDefault | server.js:88-105 | `artifacts`, `changeSets` and `culprits` default to `[]`, and `executor` to `{}` |
| NormalizerFacts.RunDescribed | server.js:107-117 | `wfapi_describe` copies the eight run fields verbatim, and `stages` defaults to `[]` |
| NormalizerFacts.RecordKeysListed | server.js:69-118 | the record object lists exactly the keys it has |
| NormalizerFacts.RunKeysListed | server.js:107-117 | the run object lists exactly the keys it has |
| NormalizerFacts.RecordObjectWellFormed | server.js:69-118 | a record whose field values are well-formed is a well-formed object |
| NormalizerFacts.RunObjectWellFormed | server.js:107-117 | a run whose field values are well-formed is a well-formed object |
| NormalizerFacts.AssembleWellFormed | server.js:69-118 | well-formed sources and found actions give well-formed record fields |
| NormalizerFacts.OutputWellFormed | server.js:68-119 | normalizing well-formed JSON gives a well-formed object |
| RecordValidation.OutputKeysDeclared | server.js:69-118 | the normalizer emits exactly the keys the schema declares, in the same order, so no key is ever unknown |
| RecordValidation.RevisionlessRejected | server.js:84 | without a truthy `lastBuiltRevision`, validation reports missing `SHA1` and `branch` |
| RecordValidation.ExecutorlessRejected | server.js:94 | without a truthy `executor`, validation reports a missing executor `_class` |
| RecordValidation.OverUtilizationRejected | server.js:77 | a first queue action with utilization above 1 makes validation report the maximum |
| RecordValidation.FailedStageRejected | server.js:116 | a run stage with status FAILURE makes validation report that stage's status |
| RecordValidation.ValidatedBuildHadGitAndExecutor | dataSchema.js:39-53 | a build whose record validates had a BuildData action with a revision, and a truthy executor |
| Server.VerifyAuthorization | server.js:26-49 | the step-by-step check returns the authorization result `Authorization` defines |
| Server.Authorization | server.js:26-49 | the result of `verifyAuthorization` (definition; see `ServerFacts.AuthorizedIffFresh` and `ServerFacts.RefusedWithoutMessage`) |
| Server.VerifyChecksum | server.js:52-65 | the check throws a TypeError iff a body field is not a string |
| Server.ValidateData | server.js:123-129 | the value is returned unchanged when valid; otherwise the nonempty list of every violation; for JSON values, valid iff the value conforms to the schema |
| Server.Webhook | server.js:131-170 | the stages that ran are a prefix of the five stages; reply, stages and indexed record are those of `Handle`; how indexing settles does not affect them |
| Server.Ingest | server.js:145-170 | after both checks pass, reply, stages and indexed record are those of `Ingestion` |
| Server.Ingestion | server.js:145-170 | at least three stages run; a record is indexed iff the reply is 200 "Webhook Received!", and what is indexed is the normalized body |
| Server.Handle | server.js:131-170 | the `/webhook` handler as a function (definition; see `ServerFacts.OnlyCompleteRunsIndex`) |
| ServerFacts.AuthorizedIffFresh | server.js:36-44 | authorization succeeds iff the header is non-empty, decrypts, and parses to a time within 600000 ms of now, bounds included |
| ServerFacts.RefusedWithoutMessage | server.js:27-48 | the message-less refusal happens iff the header is missing or empty or decryption fails |
| ServerFacts.FreshnessBoundary | server.js:38-44 | a timestamp sent `offset` ms from now is accepted iff the offset is within ±600000; otherwise "Authorization denied" |
| ServerFacts.NumeralSent | server.js:36 | a plaintext that prints an integer is read back as that timestamp |
| ServerFacts.WindowEdges | server.js:38 | exactly 600000 ms away is accepted; 600001 ms away is denied |
| ServerFacts.GarbledTimestampDenied | server.js:36-44 | a plaintext without digits is `NaN`, and is denied |
| ServerFacts.ChecksumPassesIffBothMatch | server.js:54-64 | for string fields the check passes iff both headers equal the digests of their fields; otherwise it reports the mismatch message |
| ServerFacts.FreshDigestsPass | server.js:56-60 | supplying the freshly computed digests always passes |
| ServerFacts.ChangedDigestFails | server.js:58-63 | changing either checksum header alone makes a passing request fail |
| ServerFacts.OnlyCompleteRunsIndex | server.js:131-170 | a record is indexed iff all five stages ran, iff the reply is 200; any other outcome is a 400 or an unhandled exception |
| ServerFacts.AuthorizationFailureStops | server.js:134-137 | failed authorization replies 400 with its message after one stage; nothing is indexed |
| ServerFacts.ChecksumFailureStops | server.js:140-143 | a failed checksum ends the request after two stages: 400 with the mismatch message, or an unhandled TypeError |
| ServerFacts.ValidationReportsEveryViolation | server.js:150-153 | an invalid record replies 400 with every violation, after four stages; nothing is indexed |
| ServerFacts.IndexedRecordNormalized | server.js:146-163 | what is indexed is the normalizer's output for the two parsed body fields |
| ServerFacts.IndexedRecordWellFormed | server.js:146-163 | for JSON input, what is indexed is a well-formed object |
| ServerFacts.IndexedRecordPassed | server.js:150-163 | what is indexed has passed validation with no violation |
| ServerFacts.IndexedRecordConforms | server.js:150-163 | for JSON input, what is indexed conforms to every rule of `dataSchema` |
| ServerFacts.ValidRecordIndexed | server.js:145-170 | after both checks, a record that passes validation is indexed and answered 200 after all five stages |
| ServerFacts.ConformingRecordValid | server.js:123-129 | a well-formed conforming record passes `validateData` unchanged |
| ServerFacts.ConformingRecordIndexed | server.js:131-170 | after both checks, a JSON build whose record conforms is indexed and answered 200 (the converse of `IndexedRecordConforms`) |
| ServerFacts.SampleRecordIndexed | server.js:131-170 | end to end: after both checks, a request whose fields parse to the sample build JSON is normalized into the sample record, indexed and answered 200 |

## Left out

- Express setup, routing, `dotenv`, `listen` and the environment variables (server.js:1-23) are I/O plumbing. The request is a header map and a parsed body.
- Header names are matched exactly; Express matches them case-insensitively.
- AES-256-CBC decryption is not modelled. It is a pair of parameters (`update` and `final`), each giving text or failing.
- SHA-256 is an uninterpreted function. Collision resistance cannot be stated about it.
- `Date.now()` is a parameter.
- `JSON.parse` is a parameter that gives a value or throws a `SyntaxError`. `ServerFacts.IndexedRecordConforms` assumes it yields well-formed objects.
- Joi's URI grammar is a parameter `isUri`.
- The Elasticsearch client and `index` call (server.js:7-14, 159-168) are network I/O. Only their effect is kept: a failure is caught and the reply is still 200.
- `console.*` and `util.inspect` (server.js:147-148) are logging.
- Async execution and concurrent requests: each request is handled on its own, in one step.
- Numbers are reals, not IEEE-754 doubles. `parseInt` of a numeral too long for a double is exact in the model, and subtraction never rounds.
- Joi.Validate: does not model Joi's default `convert` coercions. In Joi, a numeral string passes `number()` and `"true"` passes `boolean()`; the model refuses both.
- Joi.Validate: does not model `number()` refusing unsafe integers (beyond 2^53).
- Server.ValidateData: errors are violations (a path and a kind), not Joi's message strings. `validateData` returns only the messages.
- Symbols, functions, dates and other non-JSON values are not part of the value model.
- Strings are sequences of Unicode code points. Joi's `length` counts UTF-16 code units, so the model counts a code point above U+FFFF as two. Unpaired surrogates cannot be represented.
- `ServerFacts.ConformingRecordIndexed`, like `IndexedRecordConforms`, assumes `JSON.parse` yields well-formed objects.
