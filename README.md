# A verified model of the Limelight Terraform provider's reconciliation code

This project models the per-resource reconciliation logic of the Limelight
Terraform provider (`terraform-provider-limelight`) in Dafny and proves
properties of that model. Five pieces are covered:

- `Ids` (`ids.dfy`): the composite-ID codec `splitSeparatedPair` /
  `splitSeparatedTriple`. It is built on a model of Go's `strings.SplitN`,
  and `fmt.Sprintf("%s:%s")` / `"%s:%s:%s"` are the joins.
- `Delivery` (`delivery.dfy`): the delivery resource.
  - The protocol-set / option / parameter transcoders, as array-filling loops.
    Each is proved equal to a specification function.
  - Parameter typing by an injected `IsOptionArgumentInteger` oracle together
    with `strconv.Atoi`. `Decimal` (`decimal.dfy`) models `Atoi` and `%v`.
  - Create, read, update and delete.
- `EdgeFunction` (`edgefunction.dfy`): the edge function resource.
  - The `shortname:name` ID and the environment-variable transcoders.
  - Create: it sets the reserved concurrency only when it is positive, and
    rolls back with a single delete if that fails.
  - Update: three guarded steps (code, configuration, concurrency) in
    partial-state mode, stopping at the first failure.
  - Read and delete.
- `EdgeFunctionAlias` (`edgefunction_alias.dfy`): the alias resource, with
  its three-part ID and its create, read, update and delete.
- `StreamingSlot` (`streaming_slot.dfy`): the realtime streaming slot.
  - Its ID and the profile transcoders.
  - The MediaVault flag derivation.
  - The provisioning `Refresh` closure and `StateChangeConf.WaitForState`,
    as a loop over the replies of successive polls.
  - Create, which ignores how the wait ends; read; delete.

The surroundings live in `Sdk` (`sdk.dfy`):

- Terraform's `schema.ResourceData` is a class `ResourceData`. It holds the
  ID, the attribute record, the keys `HasChange` reports, and the
  `Partial`/`SetPartial` bookkeeping.
- The API client is a class `Client`. It records the remote calls made, in
  order.
- Each remote call's outcome is a `Reply` passed in as a parameter.

Every CRUD method is specified by a pure `...Effect` function of the old
state and the replies, via `Sdk.Produced`. The effect covers the calls
issued, the new ID, the new attributes and the returned error. The lemmas
are then stated about those functions.

## Model

| member | source | states |
|---|---|---|
| Ids.SplitN | limelight/utils.go:9 | `strings.SplitN` with n >= 1 gives between one and n parts |
| Ids.SplitNParts | limelight/utils.go:9 | the parts joined with the separator give the input back; every part but the last is separator-free, so the cuts are at the leftmost separators; with fewer than n parts the last one has no separator either |
| Ids.SplitNJoin | limelight/utils.go:9 | joining SplitN's parts with the separator gives the input back |
| Ids.SplitNLeftmost | limelight/utils.go:9 | every part of SplitN but the last is separator-free |
| Ids.SplitNLastPart | limelight/utils.go:9 | when SplitN returns fewer than n parts, the last part has no separator |
| Ids.SplitSeparatedPair | limelight/utils.go:18-26 | on error both parts are empty; on success both parts are non-empty, the first has no separator, and joining them gives the input back |
| Ids.SplitSeparatedTriple | limelight/utils.go:8-16 | on error all three parts are empty; on success all are non-empty, the first two have no separator, and joining them gives the input back |
| Ids.PairRoundTrip | limelight/utils.go:18-26 | for non-empty a without the separator and non-empty b, splitting a+sep+b gives (a, b) |
| Ids.TripleRoundTrip | limelight/utils.go:8-16 | for non-empty a, b without the separator and non-empty c, splitting a+sep+b+sep+c gives (a, b, c) |
| Ids.PairSplitIff | limelight/utils.go:19-23 | a pair split succeeds iff the input is a joined pair with a separator-free non-empty head and a non-empty tail |
| Ids.TripleSplitIff | limelight/utils.go:9-13 | a triple split succeeds iff the input is a joined triple with non-empty parts, the first two separator-free |
| Ids.PairExamples | limelight/utils.go:19-25 | "a:b:c" splits to ("a", "b:c"); "a:" and "abc" are rejected with empty parts |
| Ids.TripleExtraSeparatorExample | limelight/utils.go:9-15 | "acct1:fn1:alias:x" splits to ("acct1", "fn1", "alias:x") |
| Ids.TripleEmptyLastExample | limelight/utils.go:11-12 | "a:b:" is rejected with empty parts |
| Ids.TripleEmptyMiddleExample | limelight/utils.go:11-12 | "a::c" is rejected with empty parts |
| Decimal.AtoiFormatInt | limelight/resource_limelight_delivery.go:237 | `%v` of an int parses back with Atoi to the same int |
| Decimal.FormatIntCanonical | limelight/resource_limelight_delivery.go:237 | `%v` of an int is always in canonical decimal form |
| Decimal.CanonicalRoundTrip | limelight/resource_limelight_delivery.go:291-292 | a canonical decimal string parses, and printing the value gives the string back |
| Decimal.RoundTripIffCanonical | limelight/resource_limelight_delivery.go:291-292 | for a string Atoi accepts, printing the parsed value gives the string back iff the string is canonical |
| Decimal.NonCanonicalExamples | limelight/resource_limelight_delivery.go:291-292 | "007" parses to 7 and prints as "7"; "+5" prints as "5"; "", "-" and "12a" are rejected |
| Delivery.ExpandOptionParameters | limelight/resource_limelight_delivery.go:283-302 | the count and positions are kept; a string parameter keeps its text; an integer parameter is the Atoi value of its text; equals the specification `ExpandedParams` |
| Delivery.ExpandOptions | limelight/resource_limelight_delivery.go:268-281 | the count, order and names of options are kept, and each option's own name is passed to parameter expansion |
| Delivery.ExpandProtocolSets | limelight/resource_limelight_delivery.go:246-266 | the count and order are kept; the protocols are copied; a port of 0 becomes absent and any other port is present with its value |
| Delivery.FlattenOptions | limelight/resource_limelight_delivery.go:229-244 | the count, names and parameter positions are kept, each parameter printed with `%v` |
| Delivery.FlattenProtocolSets | limelight/resource_limelight_delivery.go:214-227 | the count and order are kept; protocols and options are copied; an absent port is written as 0 |
| Delivery.ParamRoundTripIff | limelight/resource_limelight_delivery.go:289-298 | a parameter comes back unchanged after expand and flatten iff it is not turned into an integer or its text is canonical |
| Delivery.ParamsRoundTripIff | limelight/resource_limelight_delivery.go:283-302 | flatten(expand(params)) == params iff every parameter that becomes an integer is canonical |
| Delivery.ProtocolSetsRoundTrip | limelight/resource_limelight_delivery.go:214-302 | flatten(expand(blocks)) == blocks for blocks whose integer-typed parameters are canonical |
| Delivery.ApiProtocolSetsRoundTrip | limelight/resource_limelight_delivery.go:214-302 | expand(flatten(sets)) == sets for API protocol sets with no zero port and parameters typed as the oracle says |
| Delivery.ZeroPortIsDropped | limelight/resource_limelight_delivery.go:257-260 | a port of 0 does not survive flatten then expand: it becomes absent |
| Delivery.TypingFailureIgnored | limelight/resource_limelight_delivery.go:289 | expansion depends only on the oracle's boolean answer, never on its error |
| Delivery.ParameterExamples | limelight/resource_limelight_delivery.go:286-298 | "200" becomes 200 and prints as "200"; "007" becomes 7 and prints as "7"; "abc" stays a string; a string-typed "42" stays a string |
| Delivery.BuildBody | limelight/resource_limelight_delivery.go:109-127 | the request body is built from the declared attributes, with service key "delivery" |
| Delivery.Read | limelight/resource_limelight_delivery.go:141-166 | state and call log change exactly as `ReadEffect` says |
| Delivery.Create | limelight/resource_limelight_delivery.go:106-139 | state and call log change exactly as `CreateEffect` says |
| Delivery.Update | limelight/resource_limelight_delivery.go:168-199 | state and call log change exactly as `UpdateEffect` says |
| Delivery.Delete | limelight/resource_limelight_delivery.go:201-212 | state and call log change exactly as `DeleteEffect` says |
| Delivery.ReadOutcomes | limelight/resource_limelight_delivery.go:145-154 | one read call; no error iff the read succeeded or was a 404; the ID ends up empty iff it was a 404 (or was empty already); any error keeps the attributes |
| Delivery.CreateOutcomes | limelight/resource_limelight_delivery.go:130-138 | the create call carries the declared body; on failure the ID is untouched and the create error is returned; on success the returned UUID is read and adopted |
| Delivery.CreateThenReadRestoresDeclaration | limelight/resource_limelight_delivery.go:106-166 | if the server stores what it was sent, state after create is the declaration (with the server's version), given canonical integer parameters |
| Delivery.UpdateOutcomes | limelight/resource_limelight_delivery.go:168-199 | the update call carries the declared body; a failure leaves state alone and skips the read; success continues as a read |
| Delivery.DeleteOutcomes | limelight/resource_limelight_delivery.go:201-212 | one delete call; state untouched; an error iff the call failed, so not-found is an error for delete though not for read |
| EdgeFunction.SplitId | limelight/resource_limelight_edgefunction.go:284-292 | an error iff the pair split fails, with empty parts; otherwise non-empty parts, a colon-free shortname, and an ID that is their join |
| EdgeFunction.IdRoundTrip | limelight/resource_limelight_edgefunction.go:143 | the ID create stores splits back into shortname and name when the shortname has no colon |
| EdgeFunction.ExpandEnvVars | limelight/resource_limelight_edgefunction.go:320-333 | the count is kept, and each name/value pair is copied |
| EdgeFunction.FlattenEnvVars | limelight/resource_limelight_edgefunction.go:307-318 | the count is kept, and each name/value pair is copied |
| EdgeFunction.EnvVarsRoundTrip | limelight/resource_limelight_edgefunction.go:307-333 | the two transcoders are mutually inverse, so the same multiset of pairs comes back |
| EdgeFunction.Read | limelight/resource_limelight_edgefunction.go:148-183 | state and call log change exactly as `ReadEffect` says |
| EdgeFunction.Delete | limelight/resource_limelight_edgefunction.go:255-272 | state and call log change exactly as `DeleteEffect` says |
| EdgeFunction.ReadOutcomes | limelight/resource_limelight_edgefunction.go:151-180 | a malformed ID fails before any call; otherwise one read; 404 clears the ID without error; shortname and name come from the ID; the archive path is never touched |
| EdgeFunction.DeleteOutcomes | limelight/resource_limelight_edgefunction.go:258-269 | at most one call; state untouched; no error iff the ID splits and the delete succeeds |
| EdgeFunction.CreateAndConfigure | limelight/resource_limelight_edgefunction.go:101-141 | calls and error are exactly those of `CreateStepsOf`: archive load, create, and a positive concurrency with its rollback |
| EdgeFunction.Create | limelight/resource_limelight_edgefunction.go:89-146 | state and call log change exactly as `CreateEffect` says |
| EdgeFunction.CreateRollback | limelight/resource_limelight_edgefunction.go:133-140 | a failed concurrency call is followed by exactly one delete; the concurrency error is returned whatever the delete did; the ID is not set |
| EdgeFunction.CreateCallsConcurrencyOnlyWhenPositive | limelight/resource_limelight_edgefunction.go:129-135 | the concurrency call is made iff the archive loaded, the create succeeded and concurrency > 0; a delete is made iff that call then failed |
| EdgeFunction.CreateSetsId | limelight/resource_limelight_edgefunction.go:143-145 | a create that goes through stores `shortname:<returned name>`, and the read that follows takes both back from it |
| EdgeFunction.ConfigChangedIff | limelight/resource_limelight_edgefunction.go:214 | the seven-way HasChange test holds iff some configuration key changed |
| EdgeFunction.UpdatePlan | limelight/resource_limelight_edgefunction.go:196-248 | code is planned iff function_sha256 changed, config iff a configuration key changed, concurrency iff reserved_concurrency changed, in strictly increasing order |
| EdgeFunction.ArchiveChangeAloneIssuesNothing | limelight/resource_limelight_edgefunction.go:196 | a change to function_archive alone plans no step; adding function_sha256 plans the code step |
| EdgeFunction.GatedRunIsPlanRun | limelight/resource_limelight_edgefunction.go:194-248 | the three guarded blocks run exactly the planned steps in order, stopping at the first failure |
| EdgeFunction.TakeStep | limelight/resource_limelight_edgefunction.go:196-248 | one guarded block issues the calls of `RunStep` and, in partial mode, commits its keys |
| EdgeFunction.TakeSteps | limelight/resource_limelight_edgefunction.go:196-248 | the three blocks together issue the calls, commit the keys and return the error of the gated run |
| EdgeFunction.Update | limelight/resource_limelight_edgefunction.go:185-253 | state, partial mode, committed keys and call log change exactly as `UpdateEffect` says |
| EdgeFunction.RunPlanAllSucceed | limelight/resource_limelight_edgefunction.go:196-252 | if no step fails, every planned call is made and no error is returned |
| EdgeFunction.RunPlanStopsAtFirstFailure | limelight/resource_limelight_edgefunction.go:200-246 | the first failing step's error is returned, and the calls are those up to and including it |
| EdgeFunction.AllCallsFollowPlan | limelight/resource_limelight_edgefunction.go:196-248 | the calls of an ordered plan are in code, config, concurrency order, at most one of each |
| EdgeFunction.FirstFailure | limelight/resource_limelight_edgefunction.go:200-246 | the position of the first failing step: all before it succeed, and it fails unless it is the end |
| EdgeFunction.RunPlanCallOrder | limelight/resource_limelight_edgefunction.go:196-248 | whatever fails, the calls made follow code, config, concurrency order, at most one of each |
| EdgeFunction.UpdateCalls | limelight/resource_limelight_edgefunction.go:185-253 | each step's call is made only if its keys changed, in order; a failure is returned with no read; otherwise the read follows |
| EdgeFunction.UpdatePartialState | limelight/resource_limelight_edgefunction.go:194-250 | partial mode is left on iff a gated step failed; then ID and attributes are untouched and archive and hash are committed iff the code step went through; success ends with partial mode off and nothing committed |
| EdgeFunctionAlias.SplitId | limelight/resource_limelight_edgefunction_alias.go:154-162 | an error iff the triple split fails, with empty parts; otherwise non-empty parts, colon-free shortname and function name, and an ID that is their join |
| EdgeFunctionAlias.IdRoundTrip | limelight/resource_limelight_edgefunction_alias.go:75 | the ID create stores splits back into its three parts when shortname and function name have no colon; the alias name may contain colons |
| EdgeFunctionAlias.PairIdIsMalformed | limelight/resource_limelight_edgefunction_alias.go:155-158 | a two-part ID is rejected |
| EdgeFunctionAlias.Read | limelight/resource_limelight_edgefunction_alias.go:80-109 | state and call log change exactly as `ReadEffect` says |
| EdgeFunctionAlias.Delete | limelight/resource_limelight_edgefunction_alias.go:136-152 | state and call log change exactly as `DeleteEffect` says |
| EdgeFunctionAlias.ReadOutcomes | limelight/resource_limelight_edgefunction_alias.go:83-106 | a malformed ID fails before any call; 404 clears the ID without error; shortname comes from the ID; name, function name, version, description and revision come from the response |
| EdgeFunctionAlias.DeleteOutcomes | limelight/resource_limelight_edgefunction_alias.go:139-149 | no call iff the ID is malformed; state untouched; every failure is returned, not-found included |
| EdgeFunctionAlias.Create | limelight/resource_limelight_edgefunction_alias.go:53-78 | state and call log change exactly as `CreateEffect` says |
| EdgeFunctionAlias.Update | limelight/resource_limelight_edgefunction_alias.go:111-134 | state and call log change exactly as `UpdateEffect` says |
| EdgeFunctionAlias.CreateOutcomes | limelight/resource_limelight_edgefunction_alias.go:62-77 | a failed create leaves the ID alone; a successful one stores the three-part ID and reads back the declared name and function |
| EdgeFunctionAlias.UpdateRequestFromAttrs | limelight/resource_limelight_edgefunction_alias.go:114-131 | the update request comes from the attributes, never from the ID, and carries the stored revision_id; a failure skips the read |
| EdgeFunctionAlias.UpdateSendsBeforeCheckingId | limelight/resource_limelight_edgefunction_alias.go:111-133 | with a malformed ID the update is still sent, and only the read after it fails |
| StreamingSlot.SplitId | limelight/resource_limelight_realtime_streaming_slot.go:214-222 | an error iff the pair split fails, with empty parts; otherwise non-empty parts, a colon-free shortname, and an ID that is their join |
| StreamingSlot.IdRoundTrip | limelight/resource_limelight_realtime_streaming_slot.go:111 | the ID create stores splits back into shortname and slot ID when the shortname has no colon |
| StreamingSlot.ExpandProfiles | limelight/resource_limelight_realtime_streaming_slot.go:252-265 | the count is kept, and each (video, audio) bitrate pair is copied |
| StreamingSlot.FlattenProfiles | limelight/resource_limelight_realtime_streaming_slot.go:239-250 | the count is kept, and each (video, audio) bitrate pair is copied |
| StreamingSlot.ProfilesRoundTrip | limelight/resource_limelight_realtime_streaming_slot.go:239-265 | the two transcoders are mutually inverse, so the same multiset of profiles comes back |
| StreamingSlot.Read | limelight/resource_limelight_realtime_streaming_slot.go:125-157 | state and call log change exactly as `ReadEffect` says |
| StreamingSlot.Delete | limelight/resource_limelight_realtime_streaming_slot.go:159-176 | state and call log change exactly as `DeleteEffect` says |
| StreamingSlot.ReadOutcomes | limelight/resource_limelight_realtime_streaming_slot.go:128-154 | a malformed ID fails before any call; 404 clears the ID without error; state and profiles come from the response; the password is never written |
| StreamingSlot.DeleteOutcomes | limelight/resource_limelight_realtime_streaming_slot.go:162-173 | no call iff the ID is malformed; state untouched; every failure is returned |
| StreamingSlot.RefreshAsWrittenPanics | limelight/resource_limelight_realtime_streaming_slot.go:195-201 | the closure as written crashes on a transport error and on a non-404 failure |
| StreamingSlot.RefreshAgreesWhereDefined | limelight/resource_limelight_realtime_streaming_slot.go:195-201 | the model's Refresh agrees with the closure wherever the closure does not crash; it reports an error iff the read failed, and records "NOT_FOUND" only for a 404 (or a slot whose state reads so) |
| StreamingSlot.Refresh | limelight/resource_limelight_realtime_streaming_slot.go:193-202 | one read of the slot; the state it reports is recorded in the `state` attribute |
| StreamingSlot.ClassifyIff | limelight/resource_limelight_realtime_streaming_slot.go:188-189 | only Pending read without error keeps waiting; the wait is reached iff Ready or Failed is read; every Refresh error, 404 included, ends it |
| StreamingSlot.WaitForState | limelight/resource_limelight_realtime_streaming_slot.go:190-207 | calls, `state` attribute and outcome are exactly those of `Polling` over the replies |
| StreamingSlot.WaitForProvision | limelight/resource_limelight_realtime_streaming_slot.go:178-212 | calls, `state` attribute and outcome are those of `WaitEffect`: first the ID split, then the polling |
| StreamingSlot.PollingStopsAtFirstDecisivePoll | limelight/resource_limelight_realtime_streaming_slot.go:190-207 | the wait reads once per poll up to the first poll that does not keep it waiting, and ends as that poll is judged |
| StreamingSlot.AllPendingTimesOut | limelight/resource_limelight_realtime_streaming_slot.go:188-207 | if every poll reads Pending, the wait reads once per poll and times out, leaving state Pending |
| StreamingSlot.PollingBounds | limelight/resource_limelight_realtime_streaming_slot.go:188-207 | never more reads than polls; a reached state is Ready or Failed and is recorded; a timeout used every poll |
| StreamingSlot.PendingPendingReady | limelight/resource_limelight_realtime_streaming_slot.go:188-201 | Pending, Pending, Ready: three reads, ending Ready |
| StreamingSlot.MediaVaultFlag | limelight/resource_limelight_realtime_streaming_slot.go:92-101 | MediaVault is enabled in the request iff a non-empty secret key is given; the `mediavault_enabled` attribute is not consulted |
| StreamingSlot.CreateSlot | limelight/resource_limelight_realtime_streaming_slot.go:86-111 | one create call with the request built from state; the ID becomes `shortname:<returned id>` only on success |
| StreamingSlot.Provision | limelight/resource_limelight_realtime_streaming_slot.go:113-122 | state and call log change exactly as `ProvisionEffect` says: an optional wait whose outcome is dropped, then the read |
| StreamingSlot.Create | limelight/resource_limelight_realtime_streaming_slot.go:83-123 | state and call log change exactly as `CreateEffect` says |
| StreamingSlot.CreateOutcomes | limelight/resource_limelight_realtime_streaming_slot.go:105-122 | a failed create makes one call and keeps the ID; otherwise polls are read only when waiting is asked for, the last call is the read, and a successful read gives no error and the new ID |
| StreamingSlot.CreateIgnoresWaitFailure | limelight/resource_limelight_realtime_streaming_slot.go:116-122 | when the final read succeeds, Create's error and attributes do not depend on how the wait went |
| Sdk.UnguardedTestPanicsWithoutResponse | limelight/resource_limelight_edgefunction.go:161 | the not-found test as written has no answer (it panics) for a failure without a response |
| Sdk.GuardedTestAgreesWithUnguarded | limelight/resource_limelight_delivery.go:148 | the guarded not-found test is total, and agrees with the unguarded one whenever a response exists |

## Left out

- Schema declarations, validators, ForceNew and the importer are left out. They are framework registration with no logic. The only defaults kept are those that appear as constants: memory 256, timeout 5000, concurrency 0 and service profile "LLNW-Generic".
- `limelight/provider.go`, the IP-ranges data source and `main.go` are not part of this model. They are client construction and plugin serving.
- Remote calls are not made. Their outcomes are `Reply` parameters. `Client` records only which call was made with which arguments.
- The `IsOptionArgumentInteger` oracle is a function parameter. Its queries are not recorded in the call log.
- `loadZipFile` is file I/O. Its outcome is the `ArchiveRead` parameter.
- `log.Printf` is left out. The outcome of the compensating delete in edge function create is only logged, so the model takes its reply and ignores it.
- `schema.Set` hashing, deduplication and ordering are left out. Profiles and environment variables are sequences in `List()` order, and the round-trip lemmas also state multiset equality.
- Flattening writes an absent `source_port` as 0. This assumes Terraform stores a nil `*int` in the map as 0.
- Terraform's type checks in `d.Get`/`d.Set` are left out. So is what Terraform saves under partial mode: the model only tracks the set of committed keys.
- `StateChangeConf` timing is left out: `Delay`, `MinTimeout`, the `Timeout`, `NotFoundChecks` and `ContinuousTargetOccurence`. A timeout is the list of polls running out.
- The text of the wait's error is not modelled. The wait returns a `WaitOutcome` instead, because create only logs it.
- The client library's slot-state strings (`SlotStatePending`, `SlotStateReady`, `SlotStateFailed`) are not visible. They are constructors of their own, and every other state text is `Other`.
- `strconv.Atoi` is modelled on unbounded integers. Its 64-bit range error is left out.
- The Go error strings are modelled as a context message plus the cause (`RemoteError`). The `%s: %v` formatting that joins them is left out.
- The unguarded reads at `limelight/resource_limelight_edgefunction.go:161` and `limelight/resource_limelight_realtime_streaming_slot.go:138` are modelled with the guarded not-found test (see Findings). So are the Refresh error paths at `limelight/resource_limelight_realtime_streaming_slot.go:196-201`. Panics appear only in the as-written members.
- EdgeFunction.CreateSetsId: stated only for a colon-free shortname and a non-empty returned name, because no other ID splits back into its parts.
- EdgeFunctionAlias.CreateOutcomes: stated only for non-empty parts and a colon-free shortname and function name, for the same reason.
- StreamingSlot.CreateOutcomes: stated only for a colon-free shortname and a non-empty returned slot ID, for the same reason.
- StreamingSlot.CreateIgnoresWaitFailure: stated only for a successful final read. After a failed read the stored `state` is still the one the wait recorded.
- A shortname containing ':' is not rejected. It makes the stored ID split differently, and the ID round-trip lemmas require a colon-free shortname and function name.

## Findings

| source | as written | input that shows it | evidently intended | confidence | as-written member | corrected member |
|---|---|---|---|---|---|---|
| limelight/resource_limelight_edgefunction.go:161 | `resp.StatusCode` is read with no `resp != nil` check after a failed GetEdgeFunction | a failure with no HTTP response, e.g. a refused connection (`Failure(cause, None)`) | the guarded test of the delivery and alias reads: only an actual 404 clears the ID, and other failures are errors | medium; not executed, depends on the client returning a nil response with transport errors | Sdk.UnguardedTestPanicsWithoutResponse | Sdk.GuardedTestAgreesWithUnguarded |
| limelight/resource_limelight_realtime_streaming_slot.go:138 | the same unguarded `resp.StatusCode` test in the slot read | a failure with no HTTP response (`Failure(cause, None)`) | the guarded not-found test | medium; not executed, depends on the client returning a nil response with transport errors | Sdk.UnguardedTestPanicsWithoutResponse | Sdk.GuardedTestAgreesWithUnguarded |
| limelight/resource_limelight_realtime_streaming_slot.go:196-201 | Refresh tests `resp.StatusCode` without a nil check; any other failure falls through to `realtimeStreamingSlot.State` | a transport failure (`Failure(cause, None)`), or a 500 (`Failure(cause, Some(500))`), where the slot returned is nil | a failed read other than a 404 returns its error and stops the wait; only a 404 records "NOT_FOUND" | medium; not executed, depends on the client returning a nil slot with an error | StreamingSlot.RefreshAsWrittenPanics | StreamingSlot.RefreshAgreesWhereDefined |
