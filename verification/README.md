# Verified model of the `middle` Gin middleware

The repository is a library of Gin middleware. This project models its four parts that carry real
algorithms or protocols and proves what they guarantee, for all inputs and all runs:

1. **Audit diff** (`audit_diff.dfy`, `audit_meaning.dfy`, `audit_patch.dfy`, `audit_stored.dfy`,
   `audit_paths.dfy`, `audit_wide.dfy`, `audit_skip.dfy`, `audit_private.dfy`, `audit_order.dfy`,
   `audit_normalize.dfy`, `audit_iteration.dfy`, `audit_compress.dfy`, `audit_text.dfy`): the recursive
   difference of two JSON trees, the normalisation before it, and the stored bodies after it. The reference
   for what a difference means is `AuditMeaning.Erase`, which forgets what the diff is meant to ignore.
2. **Audit and usage pipelines** (`audit_pipeline.dfy`, `usage.dfy`, `usage_laws.dfy`, `usage_pipeline.dfy`,
   `redact.dfy`, `gate_meter.dfy`, `meter_laws.dfy`, `gate_witnesses.dfy`): bounded queues as interleaved
   atomic steps with histories, the synchronous fallback, the conservation of usage deltas, the agreement of
   quota gate and meter, and in-place redaction on a heap.
3. **Tenant resolution** (`tenant.dfy`, `tenant_chain.dfy`, `tenant_privilege.dfy`, `tenant_billing.dfy`,
   `tenant_laws.dfy`, `tenant_request.dfy`): requests as mutable objects, each handler proved against a
   function on request values, whole chains served on one object, and properties of chains of any length.
4. **Strings** (`classify.dfy`, `classify_laws.dfy`, `route.dfy`, `glued_route.dfy`, `callback_sign.dfy`):
   the path classifier, the route stripping and the sorted `k=v&…` serialisation with its verifier, over
   unbounded strings.

`text.dfy`, `ordering.dfy` and `json.dfy` hold the shared vocabulary: byte strings with split, join, trim
and contains; byte order and sorting; JSON trees.

Code that updates things step by step is a class or a method proved against a specification function;
the lemmas are about those functions, and the modules whose names end in Laws say what they do in terms of
the request and the settings alone. Map iteration order is an arbitrary choice in every loop over a map.
A step of a pipeline is one read or write of shared state, so the two reads of `auditCh` by one request
(`audit.go:101` and `audit.go:93`) are separate steps.

`dafny verify dfyconfig.toml` checks the whole project.

## Findings

Where a property one would expect does not hold of the code, the code is kept and the exact condition is proved.

- The comment at `oplog.go:182-183` says that a row is queued when the publisher is ready and otherwise
  inserted synchronously. A row that is not critical is lost without a trace, not even counted, exactly when the
  publisher is started between the request's two reads of the channel (`AuditPipeline.SilentLossIff`, with the
  run of `AuditPipeline.RaceLosesRow`).
- The stored diff is a patch exactly when there were at most 80 changes and none of them lies at or below a key
  that holds a dot (`AuditPaths.StoredDiffIsPatchIff`; inputs in `AuditWide.WideDiffIsNoPatch` and
  `AuditWide.DottedKeyIsNoPatch`). That is for trees where nothing changed under the empty key at the top, which
  a path cannot name: with such a change, and no dotted place, there is a patch at most when it clears all
  that is there (`AuditPaths.NamelessPatchClears`, `AuditWide.NamelessIsNoPatch`, `AuditWide.NamelessMayPatch`).
- Pruning keeps secret keys out of the recorded paths (`AuditSkip.StoredPathsClean`), not out of the recorded
  values: a map recorded against a scalar, and any array, is recorded whole. Snapshots that differ in pruned
  entries alone have the same record exactly when none of them is inside such a value that changed
  (`AuditPrivate.SameRecordsIff`, with the inputs `AuditPrivate.SecretMapRecorded` and
  `AuditPrivate.SecretArrayRecorded`).
- A stored update can be read back exactly when its encoding fits in 8192 bytes
  (`AuditCompress.UpdateRoundTrip`, `AuditCompress.LongPathLost`).
- Normalisation depends on Go's map iteration order exactly when two entries write different things to
  one key, for instance `id` and `_id` (`AuditNormalize.OrderIndependentIff`, `AuditIteration.ResultsAreOrders`,
  `AuditNormalize.TwoIds`), and is idempotent exactly when no `_` map holds `_`, `_id` or `logs`
  (`AuditNormalize.NormalizeTwiceIff`, `AuditNormalize.TwoPasses`).
- Writing a login twice differs from writing it once exactly when its merchant has surrounding white space
  and was taken as it stands (`TenantChain.WriteTwiceIff`); a JWT login that may switch gets there when the request
  names no merchant (`TenantChain.PaddedMerchantExists`).
- The quota gate reads the merchant from headers alone, the meter also from the body, the namespace and the
  before document, so a creation can be billed that the gate never asked about. On agreeable routes that happens
  exactly when the headers name no billable merchant and one of the others does (`GateMeter.UnaskedIff`, with the
  requests of `GateWitnesses.BodyMerchantUnasked`); otherwise gate and meter agree (`GateMeter.OperateLog`).
- Stripping the id parameters changes the segments of a route exactly when what is left of a parameter that
  merely starts like an id is glued to a part that is no parameter, unless that only adds a leading version
  (`GluedRoute.StrippedSegmentsIff`, `GateWitnesses.GluedVersion`). On
  `/fs/:idx` the gate asks and the meter is silent (`GateWitnesses.GluedRouteDisagrees`). On a route that is
  stripped away, such as `/:id`, the gate is silent and the meter reads the address
  (`GateMeter.EmptiedRouteIff`, `GateWitnesses.EmptiedRouteDisagrees`).
- A path of the auth service counts as usage when its module happens to be named like a metered resource
  (`GateMeter.MeteredExactly`, `GateWitnesses.AuthModuleIsMetered`).
- A request signed with a listed key that has white space around it is accepted only if some trimmed candidate
  gives the same signature (`CallbackSign.SignedIsGenuineIff`, `CallbackSign.SignedByKeyIff`,
  `CallbackSign.PaddedKeyRefused`). Signatures do not see letter case (`CallbackSign.SignatureIgnoresCase`), and
  a payload can be read back exactly when no key holds a separator and no value an `&`
  (`CallbackSign.PayloadReadBackIff`, `CallbackSign.PayloadCollision`).
- After a bearer token with a merchant a request belongs to that merchant but is billed to the one in the client's
  MerchantID header, unless that is blank or the same (`TenantBilling.BearerBilledIff`,
  `TenantBilling.BearerBillsHeader`); a JWT login and a later binding step set the header
  (`TenantBilling.JwtBilled`, `TenantBilling.BindRestoresBilling`).
- A verified login without a merchant is given none by the client's tenant header unless that may be believed
  (`TenantLaws.MerchantlessLogin`), but a later binding step takes the client's MerchantID header
  (`TenantLaws.MerchantlessThenBound`).
- The absolute value of the smallest int64 is negative; no event carries it (`Usage.BytesNeverNegative`).

## Model

| member | source | states |
|---|---|---|
| `AuditDiff.DiffAuditValue` | audit_compress.go:231-280 | appends to the caller's list exactly the changes of the recursive difference of the two trees, in traversal order over the merged sorted keys, and keeps what was there |
| `AuditDiff.DiffFields` | audit_compress.go:252-269 | the loop over the merged keys appends the changes of every child, in key order, each under its own extended path |
| `AuditDiff.RenderedUnder` | audit_compress.go:264-268 | writing key lists down as dotted paths below a child gives the paths of the parent walk: prefixing a key and rendering commute |
| `AuditMeaning.DiffEmptyIff` | audit_compress.go:231-284 | for all trees and paths the difference is silent if and only if both sides have the same `Erase`: skipped paths, absent against null and null against `{}` do not count, arrays count whole |
| `AuditMeaning.EraseGet` | audit_compress.go:231-269 | erasing a map and reading a key is erasing what the key holds under its own path |
| `AuditMeaning.EraseExtensional` | audit_compress.go:240-269 | two maps whose entries erase alike erase alike, whether the entries are missing, null or empty maps |
| `AuditMeaning.EditsExact` | audit_compress.go:231-280 | a change is recorded if and only if no path on the way to it is skipped, every step leads through a map or nothing on both sides, the sides differ at its end, and there at least one is neither null nor a map |
| `AuditMeaning.IsEditDown` | audit_compress.go:231-269 | a change below a key is a change of the parent exactly when the parent is not skipped and is a map or null on both sides |
| `AuditPatch.EditsPatch` | audit_compress.go:231-280 | setting every recorded place to its after value, creating missing maps, turns before into after up to `Erase`, for all trees and paths |
| `AuditPatch.EditsApart` | audit_compress.go:231-280 | no recorded place is a prefix of another or equal to another |
| `AuditPatch.SetCommutes` | audit_compress.go:231-280 | writes at two places neither of which contains the other commute on any tree, also where they create maps |
| `AuditPatch.AnyOrder` | audit_compress.go:153-154 | changes at places that do not overlap give the same tree in every order of application, so the unstable sort does no harm |
| `AuditStored.PathsReadBack` | audit_compress.go:252-269 | when no recorded place starts with the empty key or holds a dot in a key, reading the stored paths back gives the recorded changes themselves |
| `AuditStored.GoodKeysReadBack` | audit_compress.go:252-269 | so it is when all keys are non-empty and free of dots |
| `AuditStored.DiffIsPatch` | audit_compress.go:231-280 | then any reordering of the recorded path strings is a patch from before to after up to `Erase` |
| `AuditPaths.StoredDiffIsPatchIff` | audit_compress.go:141-154 | what is stored after the cap and the sort is a patch if and only if there were at most 80 changes and no recorded place goes through a key that holds a dot, for any trees that erase alike under the empty key at the top |
| `AuditPaths.GoodKeysPatchIff` | audit_compress.go:141-154 | with keys that are non-empty and free of dots the cap alone decides |
| `AuditPaths.ReadKeys` | audit_compress.go:260-268 | a path whose first key is not empty reads back as written if and only if no key holds a dot, and as more keys otherwise |
| `AuditPaths.UntouchedIsLost` | audit_compress.go:141-154 | a recorded place that every write is apart from is not restored, whatever else is written |
| `AuditPaths.DottedIsLost` | audit_compress.go:260-268 | among kept changes one with a dotted key, with the fewest keys, is apart from everything the stored paths write, in any order |
| `AuditPaths.NamelessPatchClears` | audit_compress.go:260-268 | a change under the empty key at the top, in trees without dotted places, makes the stored diff a patch at most when one recorded change clears all that lies down the empty keys |
| `AuditWide.DottedKeyIsNoPatch` | audit_compress.go:260-268 | one such input, an object with the single key `q.q` created from nothing: one change, and nothing that may be stored is a patch |
| `AuditWide.NamelessIsNoPatch` | audit_compress.go:260-268 | an object with the empty key created from nothing: nothing that may be stored is a patch |
| `AuditWide.NamelessMayPatch` | audit_compress.go:260-268 | emptying that object: what is stored is a patch, so the exception is real |
| `AuditWide.WideDiffIsNoPatch` | audit_compress.go:149-151 | creating an object of more than 80 flat fields from nothing: no list that may be stored is a patch |
| `AuditWide.WideObjectExists` | audit_compress.go:149-151 | there are such objects of every size, 81 fields among them |
| `AuditWide.NewFieldsDiff` | audit_compress.go:240-280 | every kept field that is new where nothing was is one change, no more and no less |
| `AuditStored.StoredChangesSound` | audit_compress.go:231-280 | every stored change is one `IsEdit` describes, on a path that is not skipped; its kind is added exactly when before is null, removed exactly when after is null |
| `AuditStored.SetApartGet` | audit_compress.go:231-280 | a write leaves every place apart from it as it was |
| `AuditSkip.StoredPathsClean` | audit_compress.go:208-269 | with keys free of dots no stored change lies at or below a pruned key, at any depth and in any letter case |
| `AuditSkip.PrunedIff` | audit_compress.go:208-229 | a path is pruned if and only if, in lower case, its last key is one of the listed names, it ends in one of the listed suffixes, or it starts with `logs` or `context.` |
| `AuditSkip.SkipIgnoresCase` | audit_compress.go:208-229 | whether a path is pruned does not depend on letter case anywhere in it |
| `AuditSkip.LastKeyIsLastPart` | audit_compress.go:212-215 | the key the exact list is asked about is the last part of the path between dots |
| `AuditSkip.LastKeyTestRedundant` | audit_compress.go:221 | comparing the last key with a suffix never decides anything: the suffix test on the whole path covers it |
| `AuditPrivate.SameRecordsIff` | audit_compress.go:208-280 | two pairs of snapshots that agree outside pruned places, arrays included, have the same record if and only if at every place the walk reaches with a map against a scalar, or an array, on some side there is no change in either pair or the same one in both |
| `AuditPrivate.SamePlaces` | audit_compress.go:208-280 | of snapshots that agree outside pruned places, what is a change at some place in one pair is a change there in the other, except between two arrays |
| `AuditPrivate.AgreeDown` | audit_compress.go:231-269 | they are walked alike and agree outside pruned places wherever the walk gets |
| `AuditPrivate.SecretMapRecorded` | audit_compress.go:272-279 | a failing input: a number replaced by a map with a password is recorded with the whole map |
| `AuditPrivate.SecretArrayRecorded` | audit_compress.go:235-279 | a failing input: arrays of maps that differ in a password alone are recorded whole, both of them |
| `AuditOrder.BranchesOrdered` | audit_compress.go:260-269 | when keys use only bytes above '.', a smaller key gives a smaller dotted path whatever follows it on either side |
| `AuditOrder.EditsIncrease` | audit_compress.go:252-269 | under that condition the paths of the traversal are strictly increasing |
| `AuditOrder.StrictSortUnique` | audit_compress.go:153 | a strictly increasing list is the only sorted reordering of itself |
| `AuditOrder.StoredInTraversalOrder` | audit_compress.go:147-154 | under that condition the stored list is the traversal cut at 80: the sort is the identity, paths are unique, and each kept path is smaller than each path cut off |
| `AuditNormalize.NormalizeAuditValue` | audit_compress.go:168-206 | for every order the map iterations may take, the result is one `Normalizes` allows; recursion terminates on the tree |
| `AuditNormalize.LiftNested` | audit_compress.go:176-188 | lifts the entries of `_` except `context` and a `meta` that is no map, normalised, over what was there, and touches no other key |
| `AuditNormalize.NormalizedKeys` | audit_compress.go:168-197 | a result has the map's own keys but the four special ones, those of its `_` map but `context` and a `meta` that is no map, and `id` when there is an `_id` |
| `AuditNormalize.NormalizedValue` | audit_compress.go:168-197 | a key with a single source holds that source normalised, or the print of `_id` |
| `AuditIteration.ResultsAreOrders` | audit_compress.go:168-206 | the results `Normalizes` allows for a map are exactly those that visiting its entries in some order leaves, a later write to a key overwriting an earlier one |
| `AuditIteration.OrderIsResult` | audit_compress.go:172-196 | what visiting the entries in any order leaves is one of the results `Normalizes` allows |
| `AuditNormalize.OrderIndependentIff` | audit_compress.go:168-206 | there is one possible result if and only if no two entries anywhere in the tree write different things to the same key |
| `AuditNormalize.TwoIds` | audit_compress.go:190-195 | a failing input, an object with `id` and `_id`: both contents of `id` are possible results |
| `AuditNormalize.DisagreeingResult` | audit_compress.go:168-206 | from any tree with two disagreeing writers, at any depth, a second possible result is built |
| `AuditNormalize.FixedPointsIff` | audit_compress.go:168-206 | normalisation always returns a tree unchanged if and only if no map in it has a key `context`, `logs`, `_` or `_id` |
| `AuditNormalize.NormalizeTwiceIff` | audit_compress.go:168-206 | normalising a second time never changes anything if and only if no `_` map directly holds `_`, `_id` or `logs` |
| `AuditNormalize.TwoPasses` | audit_compress.go:176-195 | a failing input, an object whose `_` map holds `_id`: the first pass lifts it out and the second prints it into `id` |
| `AuditNormalize.TameBecomesNormal` | audit_compress.go:168-206 | under that condition no result holds a special key at any depth |
| `AuditCompress.DiffAuditJSON` | audit_compress.go:141-154 | the result is a sorted permutation of the first 80 changes between normal forms of the two parsed snapshots |
| `AuditCompress.StoredDiffMeaning` | audit_compress.go:141-166 | from raw text to stored list: when map entries do not collide the list is empty if and only if the erasures are equal, and, when nothing changed under the empty key at the top, it is a patch if and only if the cap cut nothing and no recorded place goes through a dotted key |
| `AuditCompress.StoredSize` | audit_compress.go:149-151 | the stored list has as many entries as there are changes, or 80 when there are more |
| `AuditText.DecodedDiff` | audit_compress.go:141-166 | two texts that decode are compared as what they decode to: what is stored is a stored diff of their normal forms, and, where map entries do not collide, empty if and only if these erase alike |
| `AuditText.OneSidedDiff` | audit_compress.go:141-166 | blank text and `null` count as nothing against a text that decodes, on either side |
| `AuditText.UndecodedDiff` | audit_compress.go:156-166 | two texts that do not decode are one change of the whole, of their trimmed selves, unless these are equal |
| `AuditText.NothingDiff` | audit_compress.go:144-146 | two texts that count as nothing have no changes |
| `AuditCompress.TruncateFacts` | audit_compress.go:286-291 | a body is at most the limit plus the three marker bytes, unchanged exactly when it fits or already is a cut body, and cutting twice is cutting once |
| `AuditCompress.UpdateRoundTrip` | audit_compress.go:54-90 | given a JSON library that round-trips the envelope and closes what it opens, reading the stored update back gives exactly the stored changes if and only if the encoding fits in 8192 bytes, and gives nothing otherwise |
| `AuditCompress.ParsedIff` | audit_compress.go:77-90 | a stored body reads as a list of changes if and only if, white space aside, it opens an object that decodes to that list under version `diff_v1` |
| `AuditCompress.UpdateBodyMeaning` | audit_compress.go:57-66 | an update stores nothing without changes, the cut after text when the changes cannot be encoded, and otherwise the encoding of exactly these changes cut at 8192 bytes |
| `AuditCompress.CutBodyUnreadable` | audit_compress.go:77-90 | a body cut at any length ends in the marker and reads back as nothing, as a decoder takes an opened object only when it is closed |
| `AuditCompress.LongPathLost` | audit_compress.go:59-66 | with any library that also writes every path out, changes with a path of more than 8192 bytes are lost |
| `AuditCompress.LibraryExists` | audit_compress.go:59-66 | for any changes there is a library that meets all that is assumed of it |
| `AuditCompress.LookupFold` | audit_compress.go:127-138 | finds the exact key first, else some key equal but for case, and nothing exactly when there is no such key, in any iteration order |
| `AuditCompress.TopFields` | audit_compress.go:105-114 | holds exactly the summary keys that can be found, each with its value, sensitive names masked |
| `AuditCompress.SummaryMeaning` | audit_compress.go:105-119 | a summary holds exactly those of the fifteen names the object has up to letter case, with the value under the exact spelling where there is one; and the merchant of the `_` map in place of its own |
| `AuditCompress.SummaryFields` | audit_compress.go:105-119 | as before, and the merchant of the `_` map overrides the one at the top |
| `AuditCompress.SummaryNeverMasks` | audit_compress.go:105-119 | no summary key is a masked one, so a summary holds just what was found under each key |
| `AuditCompress.CompactSummaryMeaning` | audit_compress.go:92-125 | whatever a summary is of: nothing for blank text, the trimmed and cut text where it is no object, else the encoding of what `SummaryMeaning` describes, or the cut text when there is no encoding |
| `AuditCompress.CompactAuditSummary` | audit_compress.go:92-125 | the encoded summary of an object; the cut text when the body is no object or the encoder fails; nothing for a blank body |
| `AuditCompress.CompressAuditBodies` | audit_compress.go:51-74 | for every action word, case and spacing: what is stored on each side, which side stays empty, and that each side is at most 8192 bytes plus the marker |
| `AuditPipeline.InvRun` | audit.go:64-118 | every step of every interleaving keeps the three invariants: bounded first-in first-out queue, histories that agree with what requests believe, and no critical row given up |
| `AuditPipeline.PipelineSafety` | audit.go:64-118 | at the end of any run: queue within 4096, accepted rows are the consumed ones followed by the queued ones, publishes are a prefix of them, the drop counter is the number of full-queue refusals, accepted and inserted rows are those of the requests that say so, no critical row is given up |
| `AuditPipeline.SilentLossIff` | oplog.go:182-189 | a row ends neither queued nor inserted nor counted if and only if it is not critical and the channel was made between its request's nil read in EnqueueAudit and its read in AuditAsyncReady |
| `AuditPipeline.RaceLosesRow` | audit.go:68-104 | five steps that lose any row that is not critical: arrive, read no channel, set the publisher, make the channel, be told it is ready |
| `AuditPipeline.TaleHolds` | audit.go:92-118 | at every moment of every run the phase of a request tells exactly what its own two reads of the channel variable saw |
| `AuditPipeline.ChannelStays` | audit.go:68-72 | once the channel variable is set it is never unset |
| `AuditPipeline.RequestInvStep` | audit.go:95-118 | a step that moves a request on keeps counters and histories equal to the multisets of requests in each phase |
| `AuditPipeline.QueueInvStep` | audit.go:75-90 | sends append, receives take from the front, and every received row is published once before the next is taken |
| `AuditPipeline.SavedIsHandled` | oplog.go:182-189 | without interruption every row is queued, or inserted, or an uncritical one that was counted; each case with its exact condition and effect |
| `AuditPipeline.AuditQueue.StartAuditPublisher` | audit.go:64-73 | the first call with a publisher makes the queue and starts the loop; any other call changes nothing |
| `AuditPipeline.AuditQueue.EnqueueAudit` | audit.go:95-118 | is the read step followed by the send step: appends to the queue, or refuses, and counts only the refusals of a queue that exists |
| `AuditPipeline.AuditQueue.SaveRow` | oplog.go:182-189 | the fallback over the package variables is the composition of the model's steps; on a full queue deletions and the rows of the ten named resources go to the database at once, and no others |
| `AuditPipeline.FullQueueKeepsPromise` | audit.go:120-133 | on a full queue a row whose action is `delete`, or whose resource is one of ten names, in any letter case and with white space around the name, is inserted; every other row is counted and given up |
| `AuditPipeline.PromiseKept` | oplog.go:182-189 | in no run is such a row given up, and a request that has nothing left to do ended queued or inserted |
| `AuditPipeline.AuditQueue.AuditLoopRound` | audit.go:75-90 | takes the oldest row and publishes it, whatever the publisher answers |
| `Usage.AbsFacts` | usage.go:262-267 | absInt64 is the absolute value on all of int64 except the minimum, which it returns unchanged and negative |
| `Usage.BytesNeverNegative` | usage.go:150-224 | however the size arrives and over all of int64 the bytes of an event are never negative, are set for images only, and are zero for an image exactly when every source is zero or the minimum value |
| `UsageLaws.SizePrecedence` | usage.go:188-196 | a size the handler set comes before one in the before document, and that before the content length |
| `UsageLaws.DocumentSize` | usage.go:198-213 | the document's size is the first of four keys, in order, that says a positive one |
| `UsageLaws.EventSize` | usage.go:167-172 | the event of an image carries exactly the absolute size, other events none |
| `UsageLaws.AnyMeaning` | usage.go:226-260 | how each dynamic type is read: unsigned numbers wrap around, numeric texts are integers first, anything unreadable is zero |
| `Usage.FirstSizeFacts` | usage.go:198-213 | the size read from the before document is never negative and is zero exactly when no size key holds a number with a positive absolute value |
| `Usage.LookupIsBillable` | oplog.go:228-243 | a merchant found in a document, through any nesting of meta maps, is trimmed and billable |
| `UsageLaws.LookupFirst` | oplog.go:228-243 | the merchant of a document is the one named, `merchant_id` before `MerchantID`, at the first level down the `meta` maps that names a billed one |
| `UsageLaws.LookupSomewhere` | oplog.go:228-243 | and when there is one, some level names it and none above does |
| `UsageLaws.BeforeStep` | oplog.go:208-226 | the before document is asked itself first, then its `_` map; a text that is no object names nobody |
| `UsageLaws.UnbilledIff` | usage.go:139-146 | left out of the accounts are the blank, `*`, `share` and `st`, with any white space around them |
| `Usage.BeforeMerchantIsBillable` | oplog.go:193-226 | the event's merchant is unbillable exactly when the request's is and the before document names none |
| `UsagePipeline.EventCarriesWorth` | usage.go:111-174 | what passes all the filters carries plus one for a successful metered create, minus one for a delete, and everything else carries nothing, for every tenant and kind |
| `UsagePipeline.LedgerHolds` | usage.go:82-137 | every step of every interleaving keeps the ledger: deltas in all the places an event can be equal what the saved operations are worth |
| `UsagePipeline.UsageConservation` | usage.go:82-137 | in every run and for every tenant and kind: published, failed, in flight, queued, about to be sent and dropped deltas sum to successful creates minus successful deletes; the queue is bounded and first in, first out |
| `UsagePipeline.MeteredIsHandled` | usage.go:111-137 | without interruption an event is dropped if and only if there is no queue yet or 4096 events wait in it; otherwise it joins the queue |
| `UsagePipeline.UsageQueue.StartUsagePublisher` | usage.go:83-92 | only the first call with a publisher has an effect |
| `UsagePipeline.UsageQueue.Meter` | oplog.go:193-206 | deriving, filtering and queueing an event over the package variables is the save step and, when there is a queue, the send step |
| `UsagePipeline.UsageQueue.UsageLoopRound` | usage.go:94-108 | takes the oldest event and publishes it, whatever the publisher answers |
| `Redact.RedactNonInterference` | oplog.go:701-716 | two bodies redact to the same if and only if they agree along every path that does not go through the value of a case-insensitively sensitive key |
| `Redact.SensitiveIsMasked` | oplog.go:701-716 | after redaction a sensitive key at the end of any path, through maps and arrays, holds the mask |
| `Redact.NamedIsMasked` | oplog.go:37-56 | a key is masked at any depth when its lower-case form is one of eighteen names, and every other key keeps its redacted value |
| `Redact.SpellingIrrelevant` | oplog.go:705 | two spellings of one key are treated alike |
| `Redact.CapitalPassword` | oplog.go:705 | `Password` is masked as `password` is |
| `Redact.RedactTwice` | oplog.go:701-716 | redacting a second time changes nothing |
| `Redact.RedactKeepsPublic` | oplog.go:701-716 | everything visible along a public path is kept as it is |
| `Redact.MaskedDenotes` | oplog.go:701-716 | a heap on which every visited map has its sensitive entries masked shows the redacted tree, also when maps are shared |
| `Redact.RedactTree` | oplog.go:701-716 | in place: the tree on the heap becomes its redacted form, and no map object outside the visited tree changes |
| `Redact.RedactValue` | oplog.go:701-716 | every visited map ends with exactly its sensitive entries masked, starting from any partly masked heap; the frame is the visited maps |
| `Redact.RedactFields` | oplog.go:704-710 | for every iteration order the loop masks or walks each entry once and undoes none |
| `Redact.RedactItems` | oplog.go:711-714 | every element of an array is redacted, and redacting one keeps the others redacted |
| `TenantChain.TenantIsolation` | user.go:143-231 | for any CORS and binding steps, then a JWT step whose login may not switch and has a merchant, then any binding steps, and whatever headers the client sent: merchant, context merchant, MerchantID header, namespace, verified user are the token's, there is no super-admin, and a record is owned exactly by that merchant |
| `TenantChain.JwtSettles` | jwt.go:63-94 | a JWT step with such a login settles the tenant for every later reader, over any earlier state of headers and context |
| `TenantChain.BindKeepsSettled` | jwt.go:140-146 | re-binding from the headers keeps a settled tenant settled |
| `TenantChain.BindsKeepSettled` | jwt.go:140-146 | so does any number of binding steps |
| `TenantChain.RunKeepsAdminHost` | tenant.go:81-91 | no chain of any middleware touches what the super-admin host is read from |
| `TenantChain.HeaderAndContextAgree` | JWTAuthMiddleware.go:83-113 | after a bind, a JWT step or a bearer step that passes, the X-Tenant-ID header and the merchant in the context say the same up to white space and `*` |
| `TenantChain.WrittenMatches` | user.go:143-231 | so they do after writeIntoHeader, for every login, every header and both values of each permission |
| `TenantChain.BearerMatches` | JWTAuthMiddleware.go:83-113 | so they do after any reconciliation that is not a mismatch |
| `TenantChain.WriteTwiceIff` | user.go:143-231 | writing the same login twice is writing it once if and only if the merchant was not taken raw from a login whose merchant has white space around a non-blank name |
| `TenantChain.PaddedMerchantRewritten` | user.go:188-206 | the failing case: a JWT login that may switch, on a request that names no merchant, has its padded merchant written raw the first time and trimmed the second |
| `TenantChain.PaddedMerchantExists` | user.go:188-206 | one such request and login, with the two writings different |
| `TenantChain.WrittenKeepsGate` | user.go:143-231 | writing a login does not change whether it may switch or whether its tenant header is believed |
| `TenantPrivilege.SuperAdminIff` | user.go:127-160 | over any chain of all four middlewares and any headers: a request ends super-admin if and only if the last step that decided it was a JWT step on the super-admin host for a login that may switch |
| `TenantLaws.JwtSuperIff` | tenant.go:81-131 | a JWT step makes a request super-admin if and only if the host that counts, without port and in lower case, is the configured domain or a permitted `super.localhost`, and the login is marked or its trimmed merchant is a configured super merchant |
| `TenantLaws.OtherHostNeverSuper` | tenant.go:81-106 | on any other host no chain makes a request super-admin, whatever headers came; behind a trusted proxy the first forwarded host counts, else the request's own |
| `TenantLaws.UnmarkedNeverSuper` | tenant.go:111-131 | nor does any chain whose logins are neither marked nor of a super merchant |
| `TenantLaws.HeadersNeverGrant` | tenant.go:81-91 | without a trusted proxy, requests that differ in headers alone end every chain of CORS, binding and JWT steps with the same flag |
| `TenantLaws.JwtTenant` | user.go:143-231 | the whole table of a JWT step: a permitted switch wins and `*` clears the tenant; else the login's merchant where it may not switch; else a header that came with the gateway's token or may be believed by configuration; else what the login says |
| `TenantLaws.BoundTenant` | jwt.go:140-146 | binding takes X-Tenant-ID, else MerchantID, and never makes a super-admin |
| `TenantLaws.MerchantlessLogin` | user.go:171-177 | a verified login without a merchant that may not switch, with a header that may not be believed, ends any chain without a tenant: the guard fails and nothing is owned, whatever tenant and switch headers came |
| `TenantLaws.MerchantlessThenBound` | jwt.go:140-146 | binding steps after it take the merchant of the client's MerchantID header: there is a tenant again if and only if that header names one |
| `TenantLaws.BindsBind` | jwt.go:140-146 | any number of binding steps binds to what the headers named before the first |
| `TenantLaws.SwitchedView` | tenantguard/tenant.go:73-90 | a super-admin who views all merchants passes the guard and owns every record; one who switched owns that merchant's alone |
| `TenantLaws.LoginCarried` | user.go:106-118 | the login read back from the headers after a JWT step is the one written, but for the settled merchant and the mark no header carries |
| `TenantLaws.SwitchHeader` | user.go:178-186 | a JWT step drops the switch header of a verified login that may not switch, and leaves every other one |
| `TenantLaws.MerchantHeaderWritten` | user.go:204-206 | the MerchantID header is left alone or holds the tenant that was settled on |
| `TenantLaws.CorsMeaning` | cors.go:33-42 | CORS ends an OPTIONS request, otherwise widens the namespace on the console's host, and touches nothing else |
| `TenantLaws.BearerMeaning` | JWTAuthMiddleware.go:49-113 | a bearer token passes if and only if its claims are there and it and the header do not name two merchants; the tenant is the token's, else a header that may be believed, else none |
| `TenantPrivilege.GrantSnoc` | user.go:158-159 | one more step keeps an earlier grant exactly when it does not decide again or is not reached |
| `TenantPrivilege.BearerIsolation` | JWTAuthMiddleware.go:83-113 | a bearer token that names a merchant fixes the tenant: any chain of CORS and binding steps around it aborts or ends with that merchant in header and context, no super-admin, and ownership exactly of that merchant |
| `TenantPrivilege.BearerPins` | JWTAuthMiddleware.go:83-113 | a bearer step that passes leaves header and context with the token's merchant, whatever they held |
| `TenantBilling.JwtBilled` | usage_quota.go:74-80 | over any chain with a verified login that may not switch the gate asks for the login's merchant, and every creation on an agreeable route is charged to it when it is billed, whatever headers came |
| `TenantBilling.BearerBilledIff` | JWTAuthMiddleware.go:83-113 | after a bearer step with a merchant the request is billed to that merchant if and only if the MerchantID header was blank or named it already; otherwise to what the header names |
| `TenantBilling.BearerBillsHeader` | oplog.go:293-305 | so a request whose MerchantID header names another merchant is tenant of the one and charged to the other |
| `TenantBilling.BindRestoresBilling` | user.go:204-206 | a binding step after it makes the tenant the billed merchant again |
| `TenantRequest.GinContext.WriteIntoHeader` | user.go:143-231 | the header, key and context updates in their order have the effect of one decision about the tenant followed by recording it |
| `TenantRequest.GinContext.ChooseTenant` | user.go:146-202 | the chain of corrections to the client's headers ends in the decision table `Decide`, with the resolved tenant and nothing but two headers changed |
| `TenantRequest.GinContext.RecordLogin` | user.go:159-230 | writes the login and the settled tenant to headers and context; `*` is no merchant, and a super-admin without a tenant gets the namespace `*` |
| `TenantRequest.GinContext.ReconcileTenant` | JWTAuthMiddleware.go:83-113 | token and header must name the same merchant when both name one; the header alone counts only when it may be believed; the switch header always goes |
| `TenantRequest.GinContext.Serve` | user.go:143-231 | any chain of the four middlewares, each handler updating the one request in place until one aborts, ends in the state the chain theorems are about; started without it, the request is super-admin at the end if and only if a reached JWT step granted that and no later one decided anew |
| `TenantRequest.GinContext.ServeRecord` | tenantguard/tenant.go:73-99 | a whole tenant route on the one request: any CORS and binding steps, a verified login that may not switch, more binding, the guard and the owner check; it lets through if and only if the record is of the login's merchant, aborts otherwise, and leaves the token's merchant and namespace in header and context, whatever headers came |
| `TenantRequest.NamespaceIrrelevant` | user.go:144 | writing the Namespace header first bears on no later decision |
| `CallbackSign.CanonicalSortedKV` | callback_auth.go:103-124 | for every iteration order of the map the result is the one payload of the kept parameters, names increasing |
| `CallbackSign.KeptKeys` | callback_auth.go:104-118 | keeps exactly the keys that equal no skip key but for case and whose value is not blank |
| `CallbackSign.PayloadReadBackIff` | callback_auth.go:103-124 | splitting at `&` and at the first `=` recovers the kept map if and only if no key holds either separator and no value an `&` |
| `CallbackSign.PayloadInjective` | callback_auth.go:103-124 | so there no two parameter sets share a payload |
| `CallbackSign.PayloadCollision` | callback_auth.go:119-123 | without that condition they can: two different sets with one payload |
| `CallbackSign.VerifyUUMD5` | callback_auth.go:144-168 | with its trimming, de-duplication and early exit it accepts if and only if some candidate key that is not blank signs the payload |
| `CallbackSign.KeyListIrrelevant` | callback_auth.go:153-165 | order, repetition and surrounding white space of the candidate keys do not matter |
| `CallbackSign.SigningKeepsPayload` | callback_auth.go:149 | storing the signature under `sign` leaves the payload unchanged |
| `CallbackSign.SignedIsGenuineIff` | callback_auth.go:127-168 | a request signed with a key is accepted if and only if some candidate, trimmed, gives the same signature; a listed key that is not blank and has no white space around it does |
| `CallbackSign.SignedByKeyIff` | callback_auth.go:127-168 | for a digest without collisions among the texts signed, a request signed with a key is accepted if and only if some candidate that is not blank, trimmed, is the key up to letter case |
| `CallbackSign.SignatureIgnoresCase` | callback_auth.go:127-131 | payloads and keys that differ in letter case alone have the same signature |
| `CallbackSign.OtherPayloadIff` | callback_auth.go:127-168 | a signature made for one payload is accepted for another, by the same key, if and only if the two are equal up to letter case, for a digest without collisions on them |
| `CallbackSign.SignatureMeaning` | callback_auth.go:127-141 | what is digested, and that a signature is accepted in any letter case and with white space around it |
| `CallbackSign.SignedParameters` | callback_auth.go:104-118 | signed is every parameter but the signature, in any spelling of its name, whose value is not blank, with its value as it came |
| `CallbackSign.PaddedKeyRefusedWhen` | callback_auth.go:154-165 | a listed key that signs otherwise once it is trimmed does not verify its own signature |
| `CallbackSign.PaddedKeyRefused` | callback_auth.go:154-165 | with the listed key `k` after a blank and a digest that tells even lengths from odd ones every signed request is refused |
| `CallbackSign.PaddedKeyExample` | callback_auth.go:154-165 | one such request, with the single parameter `a` |
| `Classify.ComputePathSegments` | oplog_classify.go:305-320 | the loop collects exactly the trimmed lower-case parts that are neither empty nor parameters, without a leading version |
| `Classify.ComputePickModule` | oplog_classify.go:322-337 | the loop finds the first segment that is no platform, or falls back to the first platform |
| `Classify.SegmentsAreClean` | oplog_classify.go:305-320 | segments are lower case, trimmed, non-empty, no parameters and free of separators, for every path |
| `Classify.PrintedSegments` | oplog_classify.go:305-320 | clean segments survive being printed as a path and read again |
| `Classify.ModuleStable` | oplog_classify.go:322-353 | the module of a class is picked again, unchanged, when it stands alone |
| `Classify.CanonicalForm` | oplog_classify.go:203-231 | for any path with a known service, printing `/v1/{namespace}/{service}/{module}` without the empty parts and classifying the print gives the same class |
| `ClassifyLaws.NamespaceOnly` | oplog_classify.go:208-212 | a namespace in front is kept in the class and changes nothing else |
| `ClassifyLaws.ServiceIff` | oplog_classify.go:216-225 | a path has a service if and only if its first segment behind the namespace is one of seventeen services or an orphan module, and then that one |
| `ClassifyLaws.OrphanTable` | oplog_classify.go:53-73 | the orphan modules and their services |
| `ClassifyLaws.OrphanClass` | oplog_classify.go:218-225 | an orphan module brings its service and stays the module, whatever follows |
| `ClassifyLaws.ModuleBehindPlatforms` | oplog_classify.go:322-353 | the module is the first segment behind any platforms, but for three other names |
| `ClassifyLaws.OnlyPlatforms` | oplog_classify.go:333-336 | with nothing but platforms the first of them is the module |
| `ClassifyLaws.PlatformsInPaths` | oplog_classify.go:322-337 | a platform segment anywhere behind the service never changes the class of a path when some module is there |
| `ClassifyLaws.FileClass` | oplog_classify.go:226-230 | the file service stands for images, wherever they are named, by default, and for the client |
| `ClassifyLaws.ResourceTable` | oplog_classify.go:250-285 | the resource of every other service and module |
| `Classify.SilentPartsIgnored` | oplog_classify.go:305-320 | putting an empty or `:param` part anywhere never changes the class |
| `Classify.QueryIgnored` | oplog_classify.go:306 | appending a query never changes the class |
| `Classify.ClassByParts` | oplog_classify.go:305-320 | the segments of a path are read off its slash-separated parts one by one, up to the first part with a query |
| `Route.StrippedParts` | oplog.go:281-282 | on a route whose parameters starting like `:id` or `:_id` are exactly these, the two textual replacements leave out exactly those parts |
| `Route.RemoveFromRoute` | oplog.go:281-282 | one textual replacement over a joined path glues what is left of each part that starts with the name to the part before, for any name without a slash |
| `Route.StrippedIsGlued` | oplog.go:281-282 | the parts of any stripped route, also where gluing makes a new id parameter |
| `GluedRoute.StrippedSegmentsIff` | oplog.go:281-282 | on any path without white space and query, stripping keeps the segments if and only if nothing is glued to a part that is not a parameter, or all that gluing adds is a version in front of segments that had none |
| `GluedRoute.StrippedPartsIff` | oplog.go:281-282 | before the version is dropped: what the parts contribute is the same in the first case and longer in every other |
| `GateWitnesses.GluedVersion` | oplog.go:281-282 | the second case arises: `/:idv1/a` is glued to `v1/a` and keeps its segments |
| `GluedRoute.GlueWeighs` | oplog.go:281-282 | gluing never makes the segments shorter and keeps their length only when it is harmless |
| `GluedRoute.KeptClass` | oplog.go:279-291 | when nothing is glued to such a part the class is kept, for any path |
| `GluedRoute.KeptAction` | oplog.go:596-610 | and so is the action, for any method, any query and any path without an assignment |
| `GluedRoute.PlainKeepsSegments` | oplog.go:281-282 | routes whose id parameters are whole are among those |
| `GluedRoute.EmptiedRoute` | oplog.go:281-285 | a route of which stripping leaves nothing has no segments and no service |
| `Route.StrippedClass` | oplog.go:279-291 | on such a route stripping changes neither segments nor class |
| `Route.StrippedAction` | oplog.go:596-610 | nor the action, for any method and query |
| `Route.ActionByParts` | oplog.go:596-610 | what the action looks for in the joined text is found in one part or in the query, never across them |
| `GateMeter.MeteredExactly` | usage.go:269-296 | across the classifier's tables and the meter's: a path is metered if and only if its service is one of ten, or it is a member path other than addresses and level, or it is an auth path whose module is named like a metered resource |
| `GateWitnesses.AuthModuleIsMetered` | oplog_classify.go:254-285 | one such auth path, counted as an order |
| `GateMeter.OperateLog` | oplog.go:71-97 | gate, handler and meter of one request, on agreeable routes: nothing is metered of a request the gate refused; every creation that is metered was approved for the very merchant and kind it is charged to, or was not asked about because no header names a billable merchant; what was approved and succeeds is metered so |
| `MeterLaws.CreationIff` | oplog.go:193-206 | a request is metered as a creation if and only if it is a successful POST to something metered that neither path nor query rewords, in any letter case, and the request or the before document names a billed merchant; that one is charged |
| `MeterLaws.DeletionIff` | oplog.go:279-307 | a request is metered as a deletion if and only if it is a successful DELETE of something metered that neither path nor query rewords and the before document, or else the request, names a billed merchant; the before document's is charged when it names one |
| `MeterLaws.NoOtherEvent` | oplog.go:581-593 | no other method is ever metered, PUT and PATCH included |
| `MeterLaws.OperationEvent` | usage.go:150-174 | the event of a saved operation: one for each successful creation or deletion of something metered for a billed merchant |
| `MeterLaws.ActionTable` | oplog.go:581-610 | the action is said by the words in path and query, in order, and else by the method, in any letter case |
| `MeterLaws.QuestionIff` | usage_quota.go:54-83 | the gate asks if and only if a POST to something metered, by its registered route, is not reworded and its headers name a billed merchant, MerchantID before X-Tenant-ID before X-Merchant-ID |
| `MeterLaws.SkippedIff` | oplog.go:99-107 | the addresses that are left out, in any letter case |
| `MeterLaws.FirstNonEmptyMeaning` | oplog.go:470-477 | the first value that is not blank, trimmed, or nothing |
| `GateMeter.UnaskedIff` | usage_quota.go:74-85 | on an agreeable route a creation is metered that the gate did not ask about if and only if the path is metered, the request succeeds, the headers name no billable merchant, and the body, the namespace or the before document does |
| `GateWitnesses.BodyMerchantUnasked` | oplog.go:293-305 | such requests: POST /fs whose merchant only the body names |
| `GateMeter.EmptiedRouteIff` | oplog.go:281-285 | on a route that is stripped away the gate never asks, and a creation is metered if and only if the address says so and a billable merchant is named anywhere |
| `GateWitnesses.EmptiedRouteDisagrees` | oplog.go:281-285 | such requests: POST to the route /:id at the address /fs |
| `GateWitnesses.GluedRouteDisagrees` | oplog.go:281-282 | requests to the route /fs/:idx: the gate asks about an image for its merchant, the meter reads /fsx and sees nothing to count |
| `GateMeter.PlainIsAgreeable` | oplog.go:281-285 | routes whose id parameters are whole and that keep something are agreeable |
| `GateMeter.SkipsAgree` | oplog.go:99-107 | gate and audit middleware leave out the same paths, also when no route matched |
| `GateMeter.PathsAgree` | oplog.go:279-291 | on an agreeable route the gate's form and the meter's form of the path have the same class and action |
| `GateMeter.MerchantsAgree` | oplog.go:293-305 | when the gate's merchant is billable and the action is no delete, the meter charges the same merchant |
| `GateMeter.MeterFollowsGate` | oplog.go:193-206 | on agreeable routes every plus-one event has the kind the gate worked out and, when the gate's merchant is billable, is what the gate asked about |
| `GateMeter.GateIsMetered` | usage_quota.go:54-83 | conversely whatever the gate asked about is metered with that merchant and kind once the request succeeds |
| `GateMeter.FirstNonEmptyPrefix` | oplog.go:470-477 | the first non-blank of a longer list is that of its prefix whenever the prefix has one |

## Left out

- Kafka, Mongo, Redis and the HTTP call to the quota service: their outcomes are inputs (`ok`, `answer`, the steps of a run).
- Viper loading, logging, tracing, timestamps, latency, generated ids and the JSON texts of responses.
- JWT and TOTP verification, base64, the bodies of cookies and tokens: a login or a set of claims is an input, absent when any of them is bad.
- MD5, `fmt.Sprint` on decoded values, the JSON encoder and decoder, `net.SplitHostPort`: function parameters; what is assumed of one is a named predicate in the contract that uses it.
- Trusted-proxy and CIDR matching, and client IPs: one boolean of the settings.
- Unicode: strings are byte strings, letter case and white space are ASCII.
- JSON numbers are reals; NaN and rounding do not arise there. Floats and numeric texts of `asInt64` come with the integer Go makes of them.
- The drop counter is unbounded; it wraps at 2^64 in the code.
- Nil rows, and a publisher that is unset while the loop runs.
- Data races in the memory-model sense: each read or write of a package variable is one atomic step, in program order.
- Panics in handlers and cancellation: a request may stop between any two steps, but is not told so.
- Arrays of decoded bodies are values in the heap model of redaction; the code never writes to one. Cyclic maps, which no decoder builds, are excluded.
- AuditPaths.StoredDiffIsPatchIff: trees with a change under the empty key at the top are not covered; AuditPaths.NamelessPatchClears gives a necessary condition there, for trees without dotted places, and AuditWide.NamelessMayPatch shows that it can be met; when it suffices is not characterised.
- Redact.RedactTree: does not model the surrounding decoding, the printing of the result or the cut to the size limit in RedactJSON.
- GateMeter.MeterFollowsGate: takes the headers as unchanged by the handler between gate and meter, as do UnaskedIff and OperateLog.
- The usage Path and timestamp fields, and setting the size from a handler, which is the context value given to `UsageBytes`.
- The access-control headers of CORS, the trace id and client IP it stores, and Chinese labels, summaries, device, client and location tables of the audit row.
- Target lookup in request bodies, except the merchant found there, which is an input.
- SuperOnly, SecondValidateMiddleware, VerifyTokenMiddleware, the RPC checks, the callback middleware, StaticUUMD5Verifier and the snapshot helper: single branches or thin wrappers.
