# tinh-tinh/mongoose in Dafny

This project models the core of `tinh-tinh/mongoose`, a Go object-document mapper for MongoDB. The core is the logic that runs between a caller and the MongoDB driver, namely:

- the filter sanitizer that refuses dangerous `$` operators;
- the per-type metadata cache;
- the pre-hook and post-hook dispatcher;
- the builder-style `Set`/`Save` buffer and the id-query construction;
- the document serializer and the fixed step order of the mutations;
- the aggregation pipelines built for reads, and the population of references;
- the translation of query options, and the normalisation of "not found".

The driver, BSON marshalling, the validator, the clock, the ObjectID generator and the hex parser are not modelled as code. The model takes them as functions bundled in an `Env` value:

- `store` gives the reply to each collection call;
- `marshal` performs BSON marshalling;
- `validate` stands for the struct validator;
- `newId` generates ObjectIDs;
- `fromHex` parses hex ObjectIDs;
- `now` is the clock.

Reflection is replaced by explicit data:

- a Go value is the datatype `Values.Value`; a non-nil interface-typed field holding `x` is `Iface(x)`, kept apart from a pointer `Ptr(x)`, and `Values.DynamicValue` is what `reflect.Value.Interface()` hands back for a field;
- an entity type is a `TypeCache.EntityType` made of field declarations (name, `bson`, `mongoose` and `ref` tags, type name, anonymous flag, nested fields);
- a `*M` is an `array<Value>` holding its top-level field values.

Each core Go file becomes one module:

| module | Go file | form |
|---|---|---|
| `Sanitize` | sanitize.go | recursive functions over `Value` |
| `TypeCache` | type_cache.go | flattening functions, a `ComputeTypeInfo` method with loops, and a `TypeCache` class holding the memo table |
| `Hooks` | hook.go | dispatch as a function, plus the dispatch loop as a method |
| `Model` | model.go | a `Model` class with `docs`, `preHooks` and `postHooks` fields; pure `ToDoc`, `GetQueryId` and `NewModelOptions` |
| `Mutation` | mutation.go | imperative `serializeData` over an array; the CRUD methods |
| `Aggregate` | aggregate.go | `getRefPath`; pipeline building by successive appends; the cursor drain |
| `Query` | query.go | option builders; the find, find-one, find-by-id and count flows |

There are also three helper modules:

- `Values` holds the Go values, `Option`/`Result` and the errors;
- `Strings` holds `strings.Split` and the first-index search;
- `Driver` holds the pipeline stages, the driver option records, the calls, the replies and the cursor drain.

## How effects are stated

Every operation of the `Model` class records what it does in a ghost `trace`, one `Model.Step` per step:

- a pre-hook or post-hook dispatch;
- the strict filter check;
- the filter conversion;
- the validator;
- a collection call;
- draining a cursor.

Each operation comes with a plan: the list of steps it would take if nothing failed. `Model.Run` performs a plan fail-fast. Each operation's contract says two things:

- the trace grows by exactly `Run(plan).done`;
- the returned error is `Run(plan).error`.

The order of steps, where execution stops, and which later steps never happen are therefore all stated in one place. Lemmas such as `RunSpec`, `RunStopsAt` and `RunAppend` make this explicit.

The model's own filter check is `Model.StrictCheck`. The Go method `sanitizeFilter` and the `StrictFilters` option it reads are not defined in the revision of model.go modelled here. The model follows what sanitize_test.go:206-229 expects of them:

- with strict filters off, it reports nothing;
- with strict filters on, it reports what `SanitizeFilter` reports.

`ModelOptions` therefore carries a `strictFilters` switch next to `ID`, `Timestamp` and `Validation`.

## Where the code and the library's documented intent differ (the model follows the code)

- **Reference resolution.** The library documents `Find`/`FindOne` population as resolving each reference through the cached `RefPath` table. The code (aggregate.go:199-220) rescans the entity's top-level `ref` tags instead, with `strings.Split(tag, "->")`. The two disagree in three ways, and `Aggregate.SecondSegmentOnly` states the first:
  - `getRefPath` takes only the second `->` segment as the collection, while `parseRefPath` takes everything after the first arrow;
  - `getRefPath` ignores embedded fields;
  - `getRefPath` panics on any tagged field without an arrow that comes before the match.
- **Serialized fields.** The library documents the update and replace lists as excluding identity and timestamp fields. The code (mutation.go:299) excludes only fields whose type is named `BaseSchema`, so a non-zero `BaseTimestamp` field is serialized.
- **Partial results.** Every read is documented as fail-fast with a single result. `Find` in query.go (query.go:70-81) returns the documents decoded so far together with a decode or cursor error. `Query.Find` states exactly that.
- **Insert stamping.** The ID and Timestamp options are documented as switching on the generated `_id` and the timestamps. On insert, the code (mutation.go:254-271) stamps every BaseSchema and BaseTimestamp field whatever the options say; `Mutation.StampedFields` states that the options play no part.
- **Ordered documents.** The sanitizer is documented as refusing dangerous operators in a filter. A `bson.D` is a slice of structs whose `Key` field is a string value, and the code (sanitize.go:65-89) only checks map keys, so `bson.D{{"$where", "1"}}` passes; `Sanitize.WhereInOrderedDocumentPasses` states it.
- **Hook dispatch.** A synchronous hook is documented as stopping the dispatch when it fails. The code (hook.go:38-44 and 53-59) returns after the first synchronous hook whatever it returns, so a second synchronous hook never runs even when the first returns nil. `Hooks.RunFirstSpec` and `Hooks.LaterHooksIrrelevant` state what the code does.
- **Untagged fields in `Set`.** The comment on `Set` (model.go:116) says an untagged field is keyed by its Go field name. The code (model.go:133) takes `field.Tag.Get("bson")`, which is empty for an untagged field. `Model.UntaggedFieldKeyedEmpty` states what the code does.

## Model

| member | source | states |
|---|---|---|
| `Sanitize.ErrorMessage` | sanitize.go:33-35 | the message is the fixed "dangerous MongoDB operator detected in filter: " prefix followed by the operator, and nothing else |
| `Sanitize.ErrorMessageExample` | sanitize.go:33-35 | the message for `$ne` is the documented text |
| `Sanitize.IsDangerousOperator` | sanitize.go:38-43 | the denylist test itself (a leading `$` and membership); `Sanitize.DangerousIffListed` states what it decides |
| `Sanitize.IsDangerousOperatorError` | sanitize.go:117-121 | `errors.As` against `ErrDangerousOperator`: true exactly for the sanitizer's own error kind |
| `Sanitize.DangerousIffListed` | sanitize.go:38-43 | a key is dangerous exactly when it is one of the 24 listed operators (the leading `$` check never decides) |
| `Sanitize.ListedExamples` | sanitize.go:13-43 | `$ne`, `$gt` and `$where` are dangerous |
| `Sanitize.UnlistedExamples` | sanitize.go:38-43 | `name`, the empty key, a lone `$` and an unlisted `$custom` are not dangerous |
| `Sanitize.ListedAreLong` | sanitize.go:13-27 | every listed operator has at least three characters |
| `Sanitize.SanitizeFilter` | sanitize.go:48-54 | soundness: a reported operator is dangerous and occurs as a key in the filter; completeness: a filter is rejected exactly when some reachable map key is dangerous |
| `Sanitize.SanitizeValue` | sanitize.go:56-76 | nil values, primitives and nil pointers pass; pointers and interfaces are followed; an error names a dangerous key reachable from the value; no error means no reachable key is dangerous |
| `Sanitize.SanitizeMap` | sanitize.go:91-106 | an error names a dangerous key of a remaining entry or a dangerous key below one; no error means no remaining key, and nothing below one, is dangerous; values are never checked as keys |
| `Sanitize.SanitizeSlice` | sanitize.go:108-116 | an error comes from some remaining element; no error means no element holds a dangerous key |
| `Sanitize.SanitizeStruct` | sanitize.go:78-89 | only exported fields are inspected; an error comes from one of them; no error means none holds a dangerous key |
| `Sanitize.TrivialFiltersAreSafe` | sanitize.go:48-74 | nil, a nil pointer or interface, an empty map or slice and every primitive pass |
| `Sanitize.OrderedDocumentKeysPass` | sanitize.go:65-89 | a one-element `bson.D` passes whatever its key: its element is a struct whose exported `Key` and `Value` fields hold strings, and strings are never checked as keys |
| `Sanitize.WhereInOrderedDocumentPasses` | sanitize.go:65-89 | in particular `bson.D{{"$where", "1"}}` passes the sanitizer |
| `Sanitize.LoneKey` | sanitize.go:91-101 | a one-entry map with a string value is rejected exactly when its key is dangerous, and then with that key; values such as `"$100"` are never inspected as operators |
| `Sanitize.EachOperatorRejected` | sanitize.go:91-98 | each of the 24 operators used as a lone top-level key is rejected, naming that key |
| `Sanitize.AuthBypassRejected` | sanitize.go:91-106 | the `{"password": {"$ne": ""}}` login-bypass filter is rejected with `$ne` |
| `Sanitize.SecondEntryRejected` | sanitize.go:91-106 | entries are checked in iteration order: clean first entry, dirty second entry gives the second's error |
| `Sanitize.UnexportedFieldsNeverInspected` | sanitize.go:78-83 | replacing the value of an unexported struct field never changes the verdict |
| `Sanitize.MapOrderIrrelevant` | sanitize.go:91-106 | whether a map is rejected does not depend on the order its entries are visited in |
| `TypeCache.CollectFromPaths` | type_cache.go:122-143 | every flattened entry's index path starts with its parent's path and ends with its own index; the direct children are exactly the declared fields, described faithfully; the first entry is the first field |
| `TypeCache.PromotedPaths` | type_cache.go:138-141 | promoted entries lie under the embedding field's path; a field that is not an anonymous struct promotes nothing |
| `TypeCache.FlatStruct` | type_cache.go:122-143 | with no embedded structs, the flattening is the declared fields in order, each with a one-step path |
| `TypeCache.CollectFieldsRecursive` | type_cache.go:122-143 | the recursive collector appends exactly the pre-order flattening of the fields to what was collected before |
| `TypeCache.ParseRefPath` | type_cache.go:146-176 | a result needs both tags; its foreign key is non-empty and arrow-free, the ref tag is the key, an arrow and the collection, and its alias is the bson tag |
| `TypeCache.ParseRefPathRoundTrip` | type_cache.go:156-174 | any tag `fk->from` with an arrow-free non-empty key parses back to exactly that key, that collection (which may contain further arrows or be empty) and the bson alias |
| `TypeCache.ParseRefPathRejects` | type_cache.go:156-168 | a tag without an arrow, or starting with one, yields nothing |
| `TypeCache.ParseRefPathExample` | type_cache.go:146-176 | `authorId->authors` parses to collection `authors`, key and alias `authorId` |
| `TypeCache.RefsOf` | type_cache.go:109-115 | each flattened entry's parsed reference, position by position |
| `TypeCache.ComputeTypeInfo` | type_cache.go:70-119 | the result describes the type: the collection name, the flattened fields, name and bson tables mapping each key to its first occurrence (empty bson tags absent), and a ref table keyed by foreign key where a later field overwrites an earlier one |
| `TypeCache.SameFirstIndex` | type_cache.go:94-100 | the first-occurrence name table is unique |
| `TypeCache.SameFirstBson` | type_cache.go:102-107 | the first-occurrence bson table is unique |
| `TypeCache.SameLastRef` | type_cache.go:109-115 | the last-wins ref table is unique |
| `TypeCache.DescribesUnique` | type_cache.go:70-119 | a type has exactly one metadata value, so a cached and a recomputed entry agree |
| `TypeCache.NoRefTagsNoRefPaths` | type_cache.go:109-115 | a type without ref tags has an empty ref table |
| `TypeCache.TypeCache.constructor` | type_cache.go:36-39 | the cache starts empty |
| `TypeCache.TypeCache.GetTypeInfo` | type_cache.go:42-67 | a hit returns the stored entry and changes nothing; a miss computes the type's metadata, stores it under that type and leaves every other entry alone; the result always describes the type |
| `TypeCache.TypeCache.GetCachedCollectionName` | type_cache.go:178-180 | the type's collection name, through the cache with the same hit/miss effect |
| `Strings.Index` | type_cache.go:158-164 | the first occurrence of the separator, or none |
| `Strings.Split` | aggregate.go:206 | `strings.Split` as used by `getRefPath` and `Pre`/`Post`: at least one piece |
| `Strings.SplitPiecesFree` | aggregate.go:206 | no piece contains the separator |
| `Strings.JoinSplit` | model.go:202 | joining the pieces with the separator gives the original text back |
| `Strings.SplitFree` | model.go:202 | a text without the separator is one piece |
| `Hooks.Matching` | hook.go:35-37 | only hooks of the requested name, in registration order |
| `Hooks.Execute` | hook.go:34-62 | dispatch by name: the first synchronous hook among those of that name decides; `Hooks.ExecuteSpec` states its result and launches |
| `Hooks.MatchingAppend` | hook.go:35-37 | filtering distributes over appending hook lists |
| `Hooks.FirstSync` | hook.go:38-44 | the first synchronous hook of a list, every earlier one being asynchronous |
| `Hooks.RunFirstSpec` | hook.go:38-46 | with no synchronous hook the result is nil and all are launched; otherwise the result is exactly that hook's return (nil included), and only the asynchronous hooks before it are launched |
| `Hooks.ExecuteSpec` | hook.go:34-62 | the same for a dispatch by name, on either hook list |
| `Hooks.Fire` | hook.go:34-47 | the dispatch loop returns what the specification of dispatch returns |
| `Hooks.FirstSyncAppend` | hook.go:38-44 | hooks registered after the first synchronous match do not move it |
| `Hooks.LaterHooksIrrelevant` | hook.go:38-44 | once a synchronous hook matches, hooks registered later never run or launch |
| `Hooks.OtherNamesIrrelevant` | hook.go:35-37 | a hook of another name, registered before or after, changes nothing |
| `Model.NewModelOptions` | model.go:55-64 | no options means ID, Timestamp and Validation on (and strict filters off); given options are merged |
| `Model.ToDoc` | model.go:232-243 | nil becomes the empty document; anything else is what marshalling returns |
| `Model.StrictCheck` | sanitize_test.go:206-229 | strict off never rejects; strict on rejects exactly the filters holding a dangerous key, with a dangerous-operator error |
| `Model.GetQueryId` | model.go:245-267 | always a one-entry `_id` document; with ID on a string must parse as hex (its error passes through), an ObjectID passes, any other type is "not supported"; with ID off any id is used as is |
| `Model.GetQueryIdIsSafe` | model.go:245-267 | an id query built with ID on always passes the sanitizer |
| `Model.RunSpec` | mutation.go:74-104 | fail-fast: the steps done are a prefix of the plan; all but the last succeeded; no error means the whole plan ran without a failure; an error is the last step's |
| `Model.RunDone` | mutation.go:74-104 | a run without error performed its whole plan |
| `Model.RunCompletes` | mutation.go:74-104 | when every step succeeds, the whole plan is done and nothing is returned |
| `Model.RunStopsAt` | mutation.go:74-104 | the first failing step ends the run with its error and nothing after it is done |
| `Model.RunAppend` | mutation.go:74-104 | running two plans in sequence: the second starts only when the first succeeded |
| `Model.RunThree` | mutation.go:74-104 | the same for three plans in sequence |
| `Model.ScanName` | model.go:130-131 | the name search finds the shallowest match, remembers whether another match shares its depth, and finds nothing only when no field has the name |
| `Model.FieldByName` | model.go:130-131 | Go's `FieldByName`: the field of that name at strictly the smallest depth, and one is found whenever such a unique shallowest field exists |
| `Model.AssignedAppend` | model.go:123-138 | input fields contribute in input order |
| `Model.AssignedOne` | model.go:124-135 | one input field adds at most one entry, exactly when its value is not a nil interface and the entity has a field of that name, and then the entry is the entity field's bson tag with the value `Interface()` gives (an interface field's dynamic value) |
| `Model.UntaggedFieldKeyedEmpty` | model.go:130-134 | an entity field without a `bson` tag gets the empty key, not its Go field name |
| `Model.IndexOfId` | model.go:157-159 | the first `_id` entry of the buffer, or none |
| `Model.SaveInsertEntries` | model.go:160-176 | without `_id`: Timestamp on inserts the buffer plus `createdAt` and `updatedAt` and no `_id`; only ID on inserts the buffer plus a fresh `_id`; otherwise the buffer as is |
| `Model.SaveUpdateEntries` | model.go:180-191 | with `_id`: update by that id, setting the buffer without its first `_id` entry plus `updatedAt` when Timestamp is on |
| `Model.SaveInserts` | model.go:160-176 | the list Save inserts when the buffer has no `_id`; `Model.SaveInsertEntries` states it |
| `Model.BufferAfterSave` | model.go:180-191 | the buffer once Save has built its update list: removing `_id` shifts the buffer's own backing array; `Model.FailedUpdateLosesId` states the consequence |
| `Model.FailedUpdateLosesId` | model.go:182-189 | when the update path fails, the kept buffer has its old length but has lost its `_id` entry, because the removal shifted the buffer in place |
| `Model.Registered` | model.go:206-211 | one hook per name, all with the given function and async flag |
| `Model.NamesOf` | model.go:206-211 | the names of a hook list, position by position |
| `Model.RegisteredNames` | model.go:201-227 | `Pre`/`Post` register at least one hook, and the registered names, joined again with the pipe separator, give back the name string |
| `Model.Model.constructor` | model.go:55-69 | a new model has the given entity, the `NewModel` options, an empty buffer and no hooks |
| `Model.Model.ExecutePreHook` | hook.go:34-47 | returns the pre-hook dispatch result and records one pre-hook step |
| `Model.Model.ExecutePostHook` | hook.go:49-62 | returns the post-hook dispatch result and records one post-hook step |
| `Model.Model.SanitizeFilter` | mutation.go:80-82 | returns the strict check's verdict and records one check step |
| `Model.Model.ConvertFilter` | model.go:232-243 | returns `ToDoc` of the filter and records one conversion step |
| `Model.Model.RunValidator` | mutation.go:241-244 | returns the validator's verdict and records one validator step |
| `Model.Model.Call` | mutation.go:93-96 | returns the driver's reply and records one store step |
| `Model.Model.Guard` | mutation.go:75-87 | pre-hook, strict check, conversion, fail-fast; the query is returned exactly when all three succeed |
| `Model.Model.Finish` | mutation.go:93-101 | store call then post-hook, fail-fast |
| `Model.Model.ReadCursor` | query.go:70-81 | the documents decoded before the first failure, and the first decode error or else the cursor's error |
| `Model.Model.Fetch` | aggregate.go:78-95 | the call then draining its cursor, fail-fast; no documents when the call fails |
| `Model.Model.Set` | model.go:119-139 | the buffer grows by one entry per input field that has a non-nil value and a namesake in the entity, keyed by the entity field's bson tag and holding the value `Interface()` gives, in input order |
| `Model.Model.PrepareSave` | model.go:157-191 | chooses insert or update-by-id and leaves the buffer as the in-place removal of `_id` leaves it |
| `Model.Model.Save` | model.go:147-199 | the Save pre-hook first (its failure keeps the buffer); an empty buffer then stops with no store call or post-hook; otherwise the store call and the post-hook on the buffer; the buffer is emptied only when everything succeeds |
| `Model.Model.Pre` | model.go:201-213 | appends one hook per pipe-separated name with the given function and the first async flag (false by default); nothing else changes |
| `Model.Model.Post` | model.go:215-227 | the same on the post-hooks |
| `Mutation.Stamped` | mutation.go:254-271 | stamping keeps the number of fields |
| `Mutation.StampedFields` | mutation.go:254-271 | every BaseSchema field gets a fresh id and two "now" timestamps; every BaseTimestamp field gets two "now" timestamps; every other field is unchanged; the ID and Timestamp options play no part |
| `Mutation.StampedIdsDistinct` | mutation.go:259-264 | with an injective id generator, two inputs of one CreateMany get different ids |
| `Mutation.TimestampEntries` | mutation.go:273-284 | with Timestamp off there are no timestamp entries; a replace gets `createdAt` then `updatedAt`; any other mutation gets `updatedAt` only |
| `Mutation.FieldEntriesSpec` | mutation.go:285-305 | an entry `(bson tag, value)` is present exactly for the fields with a non-empty tag, not readonly, not of type BaseSchema and with a non-zero value, where the value is what `Interface()` gives (an interface field's dynamic value) |
| `Mutation.ReadonlyIrrelevant` | mutation.go:293-297 | changing a readonly field's value never changes the list |
| `Mutation.NoEntriesForZeros` | mutation.go:291-299 | fields whose values (for an interface field, its dynamic value) are all zero contribute nothing |
| `Mutation.FieldEntries` | mutation.go:285-305 | the serialized `(bson tag, value)` entries of the first fields, each value as `Interface()` gives it, in declaration order; `Mutation.FieldEntriesSpec` states which fields contribute |
| `Mutation.ZeroArrayOmitted` | mutation.go:299 | a fixed-length array whose elements are all zero (an empty `[2]string`, say) is zero, so no entry carries it |
| `Mutation.AllZeroOnlyTimestamps` | mutation.go:273-305 | an input whose fields all hold zero (dynamic) values produces exactly the timestamp entries |
| `Mutation.ZeroInterfaceOmitted` | mutation.go:291-299 | an interface field holding a zero value (0, "", false, a nil pointer) is judged by that value, so no entry carries it |
| `Mutation.ZeroInterfaceExample` | mutation.go:291-299 | a lone `Extra any` field holding 0 gives an empty list |
| `Mutation.PointerFieldKept` | mutation.go:299-304 | a non-nil pointer is never zero, so a written field holding one has its entry even when it points at a zero value |
| `Mutation.Validate` | mutation.go:235-250 | with Validation on: the Validate pre-hook, the validator and the Validate post-hook, fail-fast; with it off nothing runs |
| `Mutation.Stamp` | mutation.go:254-271 | the struct is stamped in place |
| `Mutation.Entries` | mutation.go:272-306 | the appending loop builds exactly the timestamp entries followed by the serialized fields |
| `Mutation.SerializeData` | mutation.go:234-309 | a validation failure returns nothing and leaves the struct untouched; an insert stamps the struct and returns an empty list; other mutations return the update list and leave the struct untouched |
| `Mutation.InsertWith` | mutation.go:22-35 | pre-hook, insert, post-hook with the insert result, fail-fast; the result only on success |
| `Mutation.Create` | mutation.go:16-36 | validation and stamping before the pre-hook: a validation failure means no hook and no store call and an unstamped input; a later failure leaves the input stamped |
| `Mutation.StampedAll` | mutation.go:44-50 | every input stamped as its own position of the call |
| `Mutation.Validated` | mutation.go:44-48 | how many inputs passed validation before the first failure |
| `Mutation.StampedPrefix` | mutation.go:44-50 | the inputs before a position are stamped and the rest untouched |
| `Mutation.SerializeInput` | mutation.go:45-49 | one input is validated and, on success only, stamped in its own slot |
| `Mutation.SerializeNext` | mutation.go:44-50 | one loop step keeps the loop invariant or ends with the whole loop's outcome |
| `Mutation.SerializeAll` | mutation.go:44-50 | inputs are validated in order and the loop stops at the first failure; exactly the inputs before it are stamped; with no failure all are |
| `Mutation.PlansNext` | mutation.go:44-50 | one input's validation either extends the passing prefix or decides the whole loop's outcome |
| `Mutation.PlansCons` | mutation.go:44-50 | the plans and the passing check extend input by input |
| `Mutation.PlansPass` | mutation.go:44-50 | when every input passes, every validation step runs and nothing fails |
| `Mutation.PlansFail` | mutation.go:44-48 | the first failing input ends the loop with its error, after all earlier inputs' steps |
| `Mutation.ValidatedStopsAt` | mutation.go:44-48 | inputs after the first failure are never looked at |
| `Mutation.PlansPrefix` | mutation.go:44-48 | once a prefix fails, later inputs do not change the outcome |
| `Mutation.CreateMany` | mutation.go:41-67 | per-input validation and stamping in order, then pre-hook, insert of all inputs and post-hook; a failing input leaves the earlier ones stamped and runs no hook or store call |
| `Mutation.Write` | mutation.go:89-101 | serialization, the `$set` update call and the post-hook, fail-fast; the input is not changed |
| `Mutation.UpdateWith` | mutation.go:74-104 | pre-hook, strict check, conversion, serialization, update, post-hook, fail-fast |
| `Mutation.Update` | mutation.go:74-104 | the update flow with UpdateOne and the Update hooks |
| `Mutation.UpdateMany` | mutation.go:120-151 | the update flow with UpdateMany and the UpdateMany hooks |
| `Mutation.DeleteWith` | mutation.go:157-183 | pre-hook, strict check, conversion, delete call, post-hook, fail-fast |
| `Mutation.Delete` | mutation.go:157-183 | the delete flow with DeleteOne and the Delete hooks |
| `Mutation.DeleteMany` | mutation.go:197-223 | the delete flow with DeleteMany and the DeleteMany hooks |
| `Mutation.UpdateByID` | mutation.go:106-113 | an id query error is returned before any step; otherwise exactly `Update` on the id query |
| `Mutation.DeleteByID` | mutation.go:185-191 | an id query error is returned before any step; otherwise exactly `Delete` on the id query |
| `Aggregate.RefScan` | aggregate.go:202-219 | the first top-level field whose ref tag stops the scan decides; a tag whose first segment is the name gives collection, key and alias; a tag without a second segment is malformed; nothing found when no field stops the scan |
| `Aggregate.GetRefPath` | aggregate.go:199-220 | the reference lookup: a scan of the entity's top-level fields from the first; `Aggregate.RefScan` states what it finds |
| `Aggregate.SameAsParseRefPath` | aggregate.go:206-215 | on a well-formed `fk->collection` tag, `getRefPath` and `parseRefPath` agree |
| `Aggregate.SecondSegmentOnly` | aggregate.go:206-212 | on `a->b->c`, `getRefPath` uses collection `b` where `parseRefPath` gives `b->c` |
| `Aggregate.SegmentsOf` | aggregate.go:206 | an arrow-free key and collection split into exactly those two segments |
| `Aggregate.Paths` | aggregate.go:53-54 | one resolved path per requested reference |
| `Aggregate.LookupStages` | aggregate.go:52-66 | two stages per reference |
| `Aggregate.LookupStagesAt` | aggregate.go:55-64 | reference `i` gives `$lookup{from, localField: key, foreignField: "_id", as}` at `2i` and `$unwind "$as"` right after |
| `Aggregate.LookupStagesKinds` | aggregate.go:52-66 | population adds only lookup and unwind stages |
| `Aggregate.AppendLookups` | aggregate.go:52-66 | the appending loop adds exactly the population stages of the references, in order |
| `Aggregate.HeadShape` | aggregate.go:37-74 | one `$match` first holding the query; then the population stages; `$project` exactly when a projection is given, after them; `$sort` exactly when a sort is given, last; no paging stage |
| `Aggregate.FindOnePipelineShape` | aggregate.go:37-76 | FindOne's pipeline opens with the one `$match` and always ends with the one `$limit: 1` |
| `Aggregate.FindPipelineShape` | aggregate.go:119-164 | Find's pipeline extends the shared part with `$skip` exactly when skip is not 0 and then `$limit` exactly when limit is not 0, with those values |
| `Aggregate.EmployeeDepartmentRef` | aggregate.go:199-220 | a department reference tagged `departmentID->departments` on bson field `department` resolves to that collection, key and alias |
| `Aggregate.EmployeeDepartmentPipeline` | aggregate.go:119-164 | populating it with no other option gives exactly `$match`, `$lookup`, `$unwind "$department"` |
| `Aggregate.BuildHead` | aggregate.go:37-74 | the appending steps build exactly the shared part of the pipeline |
| `Aggregate.BuildFindOnePipeline` | aggregate.go:37-76 | the appending steps build exactly FindOne's pipeline |
| `Aggregate.BuildFindPipeline` | aggregate.go:119-164 | the appending steps build exactly Find's pipeline |
| `Aggregate.FindOneGuardFails` | aggregate.go:28-43 | a pre-hook, strict check or conversion failure is returned before the aggregation is called |
| `Aggregate.FindOneNothingFound` | aggregate.go:98-100 | an empty result returns nothing with no error and no post-hook |
| `Aggregate.FindAlwaysPostHook` | aggregate.go:186-190 | Find runs its post-hook with all documents, even when there are none |
| `Aggregate.FetchOne` | aggregate.go:78-106 | aggregation, drain, then the post-hook on the first document only if there is one; the document only on success |
| `Aggregate.FetchAll` | aggregate.go:166-190 | aggregation, drain, then the post-hook on all documents; the documents only on success |
| `Aggregate.FindOne` | aggregate.go:27-107 | the whole FindOne flow: guard, pipeline, aggregation, drain, optional post-hook; the first document or nothing |
| `Aggregate.Find` | aggregate.go:109-191 | the whole Find flow: guard, pipeline, aggregation, drain, post-hook; the documents or nothing |
| `Query.FindOneOptionsOf` | query.go:22-32 | projection set exactly when given and sort set exactly when given, with those values |
| `Query.FindOptionsOf` | query.go:34-50 | sort and projection set exactly when given; skip and limit set exactly when not 0; with those values |
| `Query.ParseFindOneOptions` | query.go:22-32 | the builder sets exactly the find-one options the caller's options stand for |
| `Query.ParseFindOptions` | query.go:34-50 | the builder sets exactly the find options the caller's options stand for |
| `Query.AllFindOptions` | query.go:60-63 | one driver options object per argument, in order |
| `Query.AllFindOneOptions` | query.go:96-99 | one driver options object per argument, in order |
| `Query.ParseAllFindOptions` | query.go:60-63 | the loop builds exactly one translated options object per argument, in order |
| `Query.ParseAllFindOneOptions` | query.go:96-99 | the loop builds exactly one translated options object per argument, in order |
| `Query.Find` | query.go:52-86 | conversion, find call, drain, fail-fast; a conversion failure returns no documents; otherwise the documents decoded before any failure are returned, with the error |
| `Query.PartialOnDecodeError` | query.go:70-77 | a decode failure at position `k` returns the `k` documents before it and that error |
| `Query.FirstBadAt` | query.go:70-77 | the first failing document is the one the drain stops at |
| `Query.FindOne` | query.go:88-110 | conversion then find-one call; the document on success, none on an error |
| `Query.NoDocumentsIsNotAnError` | query.go:101-107 | "no documents" returns neither a document nor an error |
| `Query.FindByID` | query.go:112-121 | a hex parse error is returned with no step taken; otherwise exactly `FindOne` on `{_id: id}` |
| `Query.Count` | query.go:123-130 | conversion then count call; the count on success |
| `Query.ConversionFailsFirst` | query.go:55-58 | in Find, FindOne and Count a conversion failure is returned before the store is called |
| `Driver.FirstBad` | query.go:70-77 | the first document that fails to decode, all earlier ones decoding |
| `Driver.Drained` | query.go:70-77 | the decoded documents before the first failure, in cursor order |
| `Driver.Drain` | aggregate.go:83-95 | the cursor loop collects exactly those documents and returns the first decode error, else the cursor's error |

## Left out

- mongo.go is not part of this model. It covers connection establishment, the retry-with-sleep and its panic, which are network I/O.
- transaction.go, module.go, the tenancy package and the examples are not part of this model. They cover sessions, dependency injection and request wiring.
- schema.go and utils.go are not part of this model. `fromHex` in `Env` stands for `ObjectIDFromHex`.
- The `Aggregate` passthrough (aggregate.go:12-25) is only a driver call.
- `SetConnect`, `SetContext`, `GetName` and `Index` (model.go:74-117) are index creation and connection wiring on the driver.
- Go's RWMutex and the double-checked locking in `GetTypeInfo` are not modelled; the cache is sequential.
- The concurrent launch of asynchronous hooks is not modelled. Dispatch records the launched hooks, and their results never reach the caller.
- Every "now" of one operation is the same instant `Env.now`. The source reads the clock at each stamp.
- Generated ObjectIDs are `Env.newId(input, field)`, an abstract function.
- `common.MergeStruct` is the abstract `merge` argument of `NewModelOptions`.
- `common.GetStructName` and the `CollectionName()` method probe are given data of `EntityType`.
- Pointer-typed embedded structs are not flattened. Only an anonymous field of struct kind is.
- `reflect.Value.IsZero` on a nil interface field panics in Go. The model treats that value as zero.
- Only a field whose name is its type's name (an embedded `BaseSchema`, or a field declared `BaseSchema BaseSchema`) can be stamped on insert. Go's `FieldByName(typeName)` panics otherwise, so `Mutation.Create`, `Mutation.CreateMany` and `Mutation.SerializeData` require `Stampable`.
- `Mutation.SerializeData`: Go reads each top-level field with `reflect.Value.Interface()` (mutation.go:291), which panics on an unexported field. Field declarations carry no exported flag, so the model returns a list where Go would panic.
- `Mutation.Update`: the same, through `SerializeData`.
- `Mutation.UpdateMany`: the same, through `SerializeData`.
- `Model.Model.Set`: Go reads each input field with `Interface()` (model.go:125), which panics on an unexported field. The input carries no exported flag, so the model grows the buffer where Go would panic.
- `Mutation.CreateMany`: each input is a slot of one array. The same pointer passed twice, which Go would stamp twice, is not modelled.
- `Aggregate.FindOne`: requires every requested reference to resolve. Otherwise the source dereferences a nil `RefPath` or indexes past the end of the split (aggregate.go:54-55, 209), which are panics, not error results.
- `Aggregate.Find`: the same requirement, for the same reason.
- `Model.Model.Save`: one `Env.now` serves both the insert's and the update's timestamps, and `newId(0, 0)` the Save insert's `_id`.
- `Query.Count`: on an error it returns 0 where Go returns the driver's count. The driver returns 0 with an error.
- A collection reply of an unexpected kind reads as follows:
  - as an empty cursor in `CursorOf`;
  - as no document in `SingleOf`;
  - as 0 in `CountOf`;
  - as token 0 in `TokenOf`.
- Cursor closing and decoding into `M` are abstract. A decoded document is a row of `Value`s, and decoding is part of the cursor a reply carries.
- A hook is a function of the values it receives and cannot change them. In Go, a hook receives the caller's filter map, the `*M` being written, the `[]*M` of CreateMany, the Save buffer and the documents about to be returned, all by reference, and may modify them before the operation goes on using them. Each member below states its effects as if no hook modified what it received:
- `Model.Model.Guard`: the strict check and the conversion see the filter as the caller passed it, not as the pre-hook (mutation.go:75, 121, 158, 198; aggregate.go:27, 110) may have left a map filter.
- `Model.Model.Save`: the insert or update is built from the buffer as it was before the Save pre-hook (model.go:148), which in Go may overwrite its entries.
- `Mutation.Validate`: the validator sees the row as it was before the Validate pre-hook (mutation.go:236), which in Go receives `data *M` and may change it.
- `Mutation.SerializeData`: stamps and serializes the row as it was before the Validate pre-hook.
- `Mutation.SerializeInput`: stamps the slot as it was before the Validate pre-hook.
- `Mutation.SerializeNext`: the same, for one step of the CreateMany loop.
- `Mutation.SerializeAll`: the same, over the whole CreateMany loop.
- `Mutation.Create`: inserts the stamped row as it was before the Validate pre-hook.
- `Mutation.CreateMany`: inserts the stamped rows as they were before the CreateMany pre-hook (mutation.go:52), which in Go receives `input []*M` and may modify its elements.
- `Mutation.Write`: the `$set` list comes from the row as it was before the Validate pre-hook.
- `Mutation.UpdateWith`: neither the filter nor `data *M`, both passed to the pre-hook (mutation.go:75, 121), can change before they are used.
- `Mutation.Update`: the same as `UpdateWith`.
- `Mutation.UpdateMany`: the same as `UpdateWith`.
- `Mutation.UpdateByID`: the id query, a map the Update pre-hook receives, cannot change before it is used.
- `Mutation.DeleteWith`: the filter passed to the pre-hook (mutation.go:158, 198) cannot change before the check and the conversion.
- `Mutation.Delete`: the same as `DeleteWith`.
- `Mutation.DeleteMany`: the same as `DeleteWith`.
- `Mutation.DeleteByID`: the id query, a map the Delete pre-hook receives, cannot change before it is used.
- `Aggregate.FetchOne`: returns the fetched row as it was before the FindOne post-hook (aggregate.go:102-106), which in Go receives that very `*M`.
- `Aggregate.FetchAll`: returns the fetched rows as they were before the Find post-hook (aggregate.go:186-190), which in Go receives the returned `[]*M`.
- `Aggregate.FindOne`: the filter and the returned document are those before the pre-hook and post-hook, which in Go may modify both.
- `Aggregate.Find`: the same as `Aggregate.FindOne`, for the returned slice.
- `Sanitize.SanitizeFilter`: a `Value` is a finite tree, so a filter that reaches itself (a map stored in itself, a struct whose pointer field points back to it) is not modelled. On such a filter the source (sanitize.go:56-115) keeps no visited set and recurses until the stack overflows.
- `Sanitize.SanitizeValue`: the same; the verdict it promises is for acyclic values only.
- Go map iteration order is the order of the `Map` entries. The sanitizer verdict is proved order-independent, but which dangerous key is named is not.
