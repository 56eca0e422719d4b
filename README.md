# ModelWrapper in Dafny

This project models the core of ModelWrapper, a C# library that wraps a plain model object
for data binding.

`ModelWrapperBase<T>` wraps a model and routes every property read and write through
`GetValue` and `SetValue`. It records the original value of each property that differs from
its baseline. It aggregates the change and validity flags of registered children: nested
wrappers and change-tracking collections. It re-runs the wrapper's rule set after every write
and files the violations, by property name, in the `Errors` dictionary of
`NotifyDataErrorInfoBase`. `AcceptChanges` and `RejectChanges` commit or roll back the tracked
changes, cascading to the children.

Two concrete wrappers instantiate the engine:

- `TestModel5Wrapper` has two nested wrappers and two collections. One of its rules depends on
  the size of a child collection.
- `TestModel1Wrapper` is the item type of one of those collections. It has range, blank, null
  and date rules, and one accessor of each kind per property.

Modules and files:

| file | module | models |
|---|---|---|
| `outcomes.dfy` | `Outcomes` | `Option`, `Result`, the `ArgumentNullException` / `ArgumentException` a call throws |
| `values.dfy` | `Values` | property values, a model as a map from property name to value, `string.IsNullOrWhiteSpace` |
| `sequences.dfy` | `Sequences` | `Enumerable.Distinct` |
| `validation.dfy` | `Validation` | `ValidationResult`, the context a rule set sees, and the grouping `Validate()` applies to the results |
| `notify_data_error_info_base.dfy` | `NotifyDataErrorInfoBase` | the `Errors` dictionary, `HasErrors`, `GetErrors`, `ClearErrors` |
| `model_wrapper_base.dfy` | `ModelWrapperBase` | the wrapper class, its children, and the lemmas about tracking and validity |
| `test_model5_wrapper.dfy` | `TestModel5Wrapper` | the TestModel5 rule set and the construction of its four children |
| `test_model1_wrapper.dfy` | `TestModel1Wrapper` | the TestModel1 rule set, accessors and setters |

The central invariant is `ModelWrapper.Tracking()`. The ghost field `baseline` holds the
property values at construction or at the last successful `AcceptChanges`. `_originalValues`
is always `Diverged(baseline, model)`: a property is tracked exactly when its value differs
from its baseline, and its entry holds that baseline value. Every state-changing method keeps
this invariant.

## Model

| member | source | states |
|---|---|---|
| `ModelWrapperBase.ModelWrapper.constructor` | ModelWrapper/ModelWrapperBase.cs:21-32 | starts with nothing tracked and no actions; registers the nested wrappers, then the collections, in order; ends with the Errors dictionary that the rule set gives for the initial state |
| `ModelWrapperBase.ModelWrapper.InitializeChildren` | ModelWrapper/ModelWrapperBase.cs:28-29 | children end up registered exactly in the order InitializeComplexProperties and then InitializeCollectionProperties hand them over |
| `ModelWrapperBase.ModelWrapper.IsChanged` | ModelWrapper/ModelWrapperBase.cs:35 | true when some original is recorded or some child reports a change; `IsChangedIffDiverged` states what that means against the baseline |
| `ModelWrapperBase.ModelWrapper.IsValid` | ModelWrapper/ModelWrapperBase.cs:38 | true when the store has no errors and every child is valid; `IsValidAfterValidate` ties it to the rule results |
| `ModelWrapperBase.IsChangedIffDiverged` | ModelWrapper/ModelWrapperBase.cs:35 | IsChanged holds iff some property differs from its baseline or some child reports a change |
| `ModelWrapperBase.IsValidAfterValidate` | ModelWrapper/ModelWrapperBase.cs:38 | after Validate, HasErrors holds iff some rule result names a property; IsValid additionally requires every child valid, so an invalid child alone leaves HasErrors false |
| `ModelWrapperBase.ModelWrapper.AcceptChanges` | ModelWrapper/ModelWrapperBase.cs:47-60 | only when changed and valid: clears the originals, makes the current values the baseline, and every child commits; otherwise nothing changes, children included |
| `ModelWrapperBase.ModelWrapper.RejectChanges` | ModelWrapper/ModelWrapperBase.cs:63-83 | only when changed, whatever the validity: every property gets its baseline value back, the originals are cleared, every child returns to its baseline, and Errors is recomputed; otherwise nothing changes |
| `ModelWrapperBase.ModelWrapper.RestoreOriginals` | ModelWrapper/ModelWrapperBase.cs:67-71 | writes every recorded original over the current value and touches no other property |
| `ModelWrapperBase.RestoringOriginalsYieldsBaseline` | ModelWrapper/ModelWrapperBase.cs:67-73 | writing the recorded originals back over the current values gives exactly the baseline |
| `ModelWrapperBase.RejectChildren` | ModelWrapper/ModelWrapperBase.cs:75-78 | each child ends unchanged, with its baseline validity and item count |
| `ModelWrapperBase.TrackingObject.AcceptChanges` | ModelWrapper/ModelWrapperBase.cs:53-56 | a valid child makes its current state its baseline and reports no change; an invalid child stays as it is |
| `ModelWrapperBase.TrackingObject.RejectChanges` | ModelWrapper/ModelWrapperBase.cs:75-78 | a child returns to its baseline validity and count; an unchanged child is untouched |
| `ModelWrapperBase.ModelWrapper.GetIsChanged` | ModelWrapper/ModelWrapperBase.cs:92 | a null name throws ArgumentNullException for `key`; any other name answers whether it is tracked |
| `ModelWrapperBase.GetIsChangedIffDiffers` | ModelWrapper/ModelWrapperBase.cs:92 | GetIsChanged(name) is true iff the property exists and differs from its baseline; an empty or unknown name answers false instead of throwing |
| `ModelWrapperBase.ModelWrapper.GetOriginalValue` | ModelWrapper/ModelWrapperBase.cs:95-103 | null throws for `key`; a tracked name gives its recorded original; an untracked name gives its current value, or the "is not a member" ArgumentException for an unknown name |
| `ModelWrapperBase.GetOriginalValueIsBaseline` | ModelWrapper/ModelWrapperBase.cs:95-103 | GetOriginalValue of a property is its baseline value, tracked or not; an unknown name throws the "is not a member" ArgumentException |
| `ModelWrapperBase.ModelWrapper.GetValue` | ModelWrapper/ModelWrapperBase.cs:106-111 | fails exactly as GetPropertyInfo fails, otherwise yields the property's current value |
| `ModelWrapperBase.ModelWrapper.RegisterCollection` | ModelWrapper/ModelWrapperBase.cs:129-153 | null model list, then null collection, then a count mismatch throw, in that order, and change nothing; otherwise the collection is registered once |
| `ModelWrapperBase.ModelWrapper.RegisterComplex` | ModelWrapper/ModelWrapperBase.cs:156-162 | a null wrapper throws for `wrapper` and changes nothing; otherwise the wrapper is registered once |
| `ModelWrapperBase.ModelWrapper.RegisterPropertyAction` | ModelWrapper/ModelWrapperBase.cs:165-176 | the name must resolve and then the action be non-null; a later registration for the same name replaces the earlier one |
| `ModelWrapperBase.ModelWrapper.SetValue` | ModelWrapper/ModelWrapperBase.cs:179-198 | succeeds iff the name resolves; a failing call or an equal value changes nothing; a different value is written, the registered action of that property runs, the originals stay Diverged(baseline, model), and Errors is recomputed |
| `ModelWrapperBase.ModelWrapper.ActionFor` | ModelWrapper/ModelWrapperBase.cs:189-192 | the action SetValue invokes is the one registered for that name, and there is none when nothing is registered |
| `ModelWrapperBase.ModelWrapper.Validate` | ModelWrapper/ModelWrapperBase.cs:201-225 | Errors becomes the grouping of the rule set's results over the current state; ErrorsChanged fires once per old key and then once per distinct named property, in order |
| `ModelWrapperBase.FileResults` | ModelWrapper/ModelWrapperBase.cs:209-222 | from a cleared store, yields the grouped dictionary, with no empty list, both with and without results |
| `ModelWrapperBase.FileMessages` | ModelWrapper/ModelWrapperBase.cs:213-221 | the foreach files each name's messages and raises ErrorsChanged once per name, in list order |
| `ModelWrapperBase.ModelWrapper.GetPropertyInfo` | ModelWrapper/ModelWrapperBase.cs:227-241 | resolves iff the name is non-null and a property of the model; null throws for `propertyName`, an unknown or empty name throws the "is not a member" message |
| `ModelWrapperBase.ModelWrapper.RegisterTrackingObject` | ModelWrapper/ModelWrapperBase.cs:243-250 | a child already registered is not added again; a new one is appended |
| `ModelWrapperBase.ModelWrapper.UpdateOriginalValue` | ModelWrapper/ModelWrapperBase.cs:264-276 | after the write, the originals are exactly those of the new state: the first write records the old value, later writes keep it, writing it back removes the entry |
| `ModelWrapperBase.DivergedAfterWrite` | ModelWrapper/ModelWrapperBase.cs:264-276 | writing one property drops its entry when the value equals its baseline and otherwise records the baseline value; no other entry moves |
| `NotifyDataErrorInfoBase.ErrorStore.constructor` | ModelWrapper/NotifyDataErrorInfoBase.cs:16 | the store starts empty |
| `NotifyDataErrorInfoBase.ErrorStore.HasErrors` | ModelWrapper/NotifyDataErrorInfoBase.cs:22 | true when the dictionary holds at least one key; `HasErrorsIffSomeMessage` relates it to GetErrors |
| `NotifyDataErrorInfoBase.ErrorStore.HasErrorsIffSomeMessage` | ModelWrapper/NotifyDataErrorInfoBase.cs:22 | HasErrors holds iff some property has a non-empty error list |
| `NotifyDataErrorInfoBase.ErrorStore.GetErrors` | ModelWrapper/NotifyDataErrorInfoBase.cs:25-26 | null gives an empty list; a filed name gives its stored list; any other name gives an empty list |
| `NotifyDataErrorInfoBase.ErrorStore.ClearErrors` | ModelWrapper/NotifyDataErrorInfoBase.cs:29-36 | the store ends empty and ErrorsChanged fires exactly once for each key it held |
| `Sequences.Distinct` | ModelWrapper/ModelWrapperBase.cs:211 | the result repeats no element and is no longer than the input |
| `Sequences.DistinctHasSameElements` | ModelWrapper/ModelWrapperBase.cs:211 | Distinct keeps exactly the elements of its input |
| `Validation.MemberNamesMentions` | ModelWrapper/ModelWrapperBase.cs:211 | the flattened member names are exactly the names some result mentions |
| `Validation.Where` | ModelWrapper/ModelWrapperBase.cs:216 | keeps exactly the results naming the property |
| `Validation.WhereConcat` | ModelWrapper/ModelWrapperBase.cs:216 | the filter distributes over concatenated rule outputs |
| `Validation.WhereSingle` | ModelWrapper/ModelWrapperBase.cs:216 | the filter on a single result keeps it iff it names the property |
| `Validation.Messages` | ModelWrapper/ModelWrapperBase.cs:217 | holds exactly the messages of the given results |
| `Validation.MessagesFor` | ModelWrapper/ModelWrapperBase.cs:215-219 | the list Validate files under one name: the distinct messages of the results naming it, in order; `ErrorMapMessages` and `ErrorMapLists` state its contents |
| `Validation.FiledUnder` | ModelWrapper/ModelWrapperBase.cs:213-221 | the dictionary after the foreach has filed the first k names; `FiledUnderEntries` states its keys and lists |
| `Validation.ErrorMap` | ModelWrapper/ModelWrapperBase.cs:209-221 | the whole Errors dictionary for a list of results: every distinct named property filed in order; `ErrorMapKeys`, `ErrorMapMessages` and `NoErrorsIffNothingNamed` state its meaning |
| `Validation.FiledUnderEntries` | ModelWrapper/ModelWrapperBase.cs:213-221 | after filing the first k names, the keys are exactly those names, each holding its distinct messages |
| `Validation.ErrorMapKeys` | ModelWrapper/ModelWrapperBase.cs:211-215 | a property has an entry iff some result names it |
| `Validation.ErrorMapEntry` | ModelWrapper/ModelWrapperBase.cs:213-219 | an entry exists iff the filter is non-empty, and it holds the distinct messages of those results |
| `Validation.NoEntryWithoutNamer` | ModelWrapper/ModelWrapperBase.cs:211-215 | a property named by no result gets no entry |
| `Validation.EntryOfSingleNamer` | ModelWrapper/ModelWrapperBase.cs:215-219 | a property named by exactly one result holds that one message |
| `Validation.ErrorMapMessages` | ModelWrapper/ModelWrapperBase.cs:215-219 | a message is in a property's list iff some result names that property with that message |
| `Validation.ErrorMapLists` | ModelWrapper/ModelWrapperBase.cs:215-219 | every stored list is non-empty and repeats no message |
| `Validation.ErrorMapListsNonEmpty` | ModelWrapper/ModelWrapperBase.cs:215-219 | no property is filed with an empty list |
| `Validation.FiledUnderEveryName` | ModelWrapper/ModelWrapperBase.cs:211-219 | a result naming several properties is filed, with its message, under each of them |
| `Validation.NoErrorsIffNothingNamed` | ModelWrapper/ModelWrapperBase.cs:209-222 | the dictionary stays empty iff no result names a property; a result naming none is dropped |
| `TestModel5Wrapper.RangeRule` | TestWrappers/TestModel5Wrapper.cs:83-88 | the first check of the rule set; `WhereRangeRule` and `Property1Errors` state its effect |
| `TestModel5Wrapper.BlankOrXRule` | TestWrappers/TestModel5Wrapper.cs:90-105 | the blank check and, in its else-branch, the "X" check; `WhereBlankOrXRule`, `Property2Errors` and `Property3Errors` state its effect |
| `TestModel5Wrapper.Validate` | TestWrappers/TestModel5Wrapper.cs:81-106 | the rule set: the two checks in source order; `NoErrorsIffRulesHold` and `OnlyRuledPropertiesHaveErrors` state its effect |
| `TestModel5Wrapper.WhereRangeRule` | TestWrappers/TestModel5Wrapper.cs:83-88 | the range check yields a result only for TM5Property1, and only outside [100, 200] |
| `TestModel5Wrapper.WhereBlankOrXRule` | TestWrappers/TestModel5Wrapper.cs:90-105 | the blank check names TM5Property3 alone; the "X" check, reached only when TM5Property3 is not blank, names TM5Property2 and TM5Property3 |
| `TestModel5Wrapper.WhereValidate` | TestWrappers/TestModel5Wrapper.cs:81-106 | which results of the whole rule set name a given property |
| `TestModel5Wrapper.Property1Errors` | TestWrappers/TestModel5Wrapper.cs:83-88 | TM5Property1 has an error iff it lies outside [100, 200], and then exactly the one range message |
| `TestModel5Wrapper.Property3Errors` | TestWrappers/TestModel5Wrapper.cs:90-105 | TM5Property3 has an error iff it is blank or is "X" with TM5Property2 empty, with the message of the branch taken |
| `TestModel5Wrapper.Property2Errors` | TestWrappers/TestModel5Wrapper.cs:96-105 | TM5Property2 has an error iff TM5Property3 is a non-blank "X" and TM5Property2 is empty; never when TM5Property3 is blank; the message is filed under both names |
| `TestModel5Wrapper.OnlyRuledPropertiesHaveErrors` | TestWrappers/TestModel5Wrapper.cs:81-106 | no other property ever gets an error from this rule set |
| `TestModel5Wrapper.NoErrorsIffRulesHold` | TestWrappers/TestModel5Wrapper.cs:81-106 | the store is empty iff all three rules hold |
| `TestModel5Wrapper.GetErrorsAfterValidate` | TestWrappers/TestModel5Wrapper.cs:81-106 | what GetErrors answers for TM5Property1, TM5Property2 and TM5Property3 once the rules have run |
| `TestModel5Wrapper.NewChildren` | TestWrappers/TestModel5Wrapper.cs:52-76 | four distinct fresh children: the nested wrappers with no items, the collections with one item per model list element, none changed |
| `TestModel5Wrapper.Initialize` | TestWrappers/TestModel5Wrapper.cs:52-76 | the children are registered in the order TM5Property4, TM5Property6, TM5Property2, TM5Property5; the rule set sees TM5Property2's item count; nothing is changed; Errors holds the rules' verdict |
| `TestModel5Wrapper.FourChildren` | ModelWrapper/ModelWrapperBase.cs:35 | with the four children registered in order, the rule set sees their item counts in that order, and the wrapper is changed iff an original is recorded or one of the four is changed |
| `TestModel5Wrapper.New` | TestWrappers/TestModel5Wrapper.cs:52-76 | a null model, then a null TM5Property4, TM5Property6 or TM5Property2, a null item of TM5Property2, a null TM5Property5 and a null item of TM5Property5 throw, in that order, for that argument (`model` for an item, as the item wrapper's constructor names it); otherwise a fresh wrapper, with a fresh error store, over the model: its rule set is TestModel5's, the children are registered in the order TM5Property4, TM5Property6, TM5Property2, TM5Property5 with the given validity, the rule set sees TM5Property2's item count, nothing is changed, and Errors holds the rules' verdict |
| `TestModel5Wrapper.IsValidAtConstruction` | TestWrappers/TestModel5Wrapper.cs:81-106 | a built wrapper has errors iff some rule is broken, and is valid iff every rule holds and all four children are valid |
| `TestModel1Wrapper.RangeRule` | TestWrappers/TestModel1Wrapper.cs:54-59 | the range check of TM1Property1; `WhereRangeRule` and `Property1Errors` state its effect |
| `TestModel1Wrapper.BlankRule` | TestWrappers/TestModel1Wrapper.cs:61-66 | the blank check of TM1Property2; `WhereBlankRule` and `Property2Errors` state its effect |
| `TestModel1Wrapper.DateRule` | TestWrappers/TestModel1Wrapper.cs:68-88 | the null and range checks of TM1Property3; `WhereDateRule`, `Property3Errors` and `Property4Errors` state its effect |
| `TestModel1Wrapper.Validate` | TestWrappers/TestModel1Wrapper.cs:52-89 | the rule set: the three checks in source order; `NoErrorsIffRulesHold` states its effect |
| `TestModel1Wrapper.WhereRangeRule` | TestWrappers/TestModel1Wrapper.cs:54-59 | the range check yields a result only for TM1Property1, and only outside [1, 10] |
| `TestModel1Wrapper.WhereBlankRule` | TestWrappers/TestModel1Wrapper.cs:61-66 | the blank check yields a result only for a blank TM1Property2 |
| `TestModel1Wrapper.WhereDateRule` | TestWrappers/TestModel1Wrapper.cs:68-88 | a null date names TM1Property3 and TM1Property4 when TM1Property4 is true; a date outside the bounds names TM1Property3 |
| `TestModel1Wrapper.WhereValidate` | TestWrappers/TestModel1Wrapper.cs:52-89 | which results of the whole rule set name a given property |
| `TestModel1Wrapper.Property1Errors` | TestWrappers/TestModel1Wrapper.cs:54-59 | TM1Property1 has an error iff it lies outside [1, 10], and then exactly one |
| `TestModel1Wrapper.Property2Errors` | TestWrappers/TestModel1Wrapper.cs:61-66 | TM1Property2 has an error iff it is null, empty or whitespace, and then exactly one |
| `TestModel1Wrapper.Property3Errors` | TestWrappers/TestModel1Wrapper.cs:68-88 | TM1Property3 has an error iff it is null with TM1Property4 true or a date outside [1900-01-01, 2000-12-31], with the matching message; a null date with TM1Property4 false gives none |
| `TestModel1Wrapper.Property4Errors` | TestWrappers/TestModel1Wrapper.cs:68-77 | TM1Property4 has an error only from the null rule, with the message also filed under TM1Property3 |
| `TestModel1Wrapper.NoErrorsIffRulesHold` | TestWrappers/TestModel1Wrapper.cs:52-89 | the store is empty iff every rule holds |
| `TestModel1Wrapper.GetErrorsAfterValidate` | TestWrappers/TestModel1Wrapper.cs:52-89 | what GetErrors answers for each of the four properties once the rules have run |
| `TestModel1Wrapper.New` | TestWrappers/TestModel1Wrapper.cs:8 | a null model throws for `model`; otherwise a fresh, valid, unchanged wrapper with a fresh error store with no children whose Errors holds the rules' verdict |
| `TestModel1Wrapper.GetProperty1` | TestWrappers/TestModel1Wrapper.cs:12 | the TM1Property1 getter: GetValue of its own name, cast; `GettersReadCurrentValues` states what it reads |
| `TestModel1Wrapper.Property1IsChanged` | TestWrappers/TestModel1Wrapper.cs:16 | GetIsChanged of TM1Property1; `IsChangedAccessorsTrackOwnProperty` states its meaning |
| `TestModel1Wrapper.Property1OriginalValue` | TestWrappers/TestModel1Wrapper.cs:18 | GetOriginalValue of TM1Property1, cast; `OriginalValueAccessorsReadBaseline` states its meaning |
| `TestModel1Wrapper.GetProperty2` | TestWrappers/TestModel1Wrapper.cs:22 | the TM1Property2 getter: GetValue of its own name, cast; `GettersReadCurrentValues` states what it reads |
| `TestModel1Wrapper.Property2IsChanged` | TestWrappers/TestModel1Wrapper.cs:26 | GetIsChanged of TM1Property2; `IsChangedAccessorsTrackOwnProperty` states its meaning |
| `TestModel1Wrapper.Property2OriginalValue` | TestWrappers/TestModel1Wrapper.cs:28 | GetOriginalValue of TM1Property2, cast; `OriginalValueAccessorsReadBaseline` states its meaning |
| `TestModel1Wrapper.GetProperty3` | TestWrappers/TestModel1Wrapper.cs:32 | the TM1Property3 getter: GetValue of its own name, cast; `GettersReadCurrentValues` states what it reads |
| `TestModel1Wrapper.Property3IsChanged` | TestWrappers/TestModel1Wrapper.cs:36 | GetIsChanged of TM1Property3; `IsChangedAccessorsTrackOwnProperty` states its meaning |
| `TestModel1Wrapper.Property3OriginalValue` | TestWrappers/TestModel1Wrapper.cs:38 | GetOriginalValue of TM1Property3, cast; `OriginalValueAccessorsReadBaseline` states its meaning |
| `TestModel1Wrapper.GetProperty4` | TestWrappers/TestModel1Wrapper.cs:42 | the TM1Property4 getter: GetValue of its own name, cast; `GettersReadCurrentValues` states what it reads |
| `TestModel1Wrapper.Property4IsChanged` | TestWrappers/TestModel1Wrapper.cs:46 | GetIsChanged of TM1Property4; `IsChangedAccessorsTrackOwnProperty` states its meaning |
| `TestModel1Wrapper.Property4OriginalValue` | TestWrappers/TestModel1Wrapper.cs:48 | GetOriginalValue of TM1Property4, cast; `OriginalValueAccessorsReadBaseline` states its meaning |
| `TestModel1Wrapper.GettersReadCurrentValues` | TestWrappers/TestModel1Wrapper.cs:10-44 | each getter reads its own property's current value |
| `TestModel1Wrapper.IsChangedAccessorsTrackOwnProperty` | TestWrappers/TestModel1Wrapper.cs:16-46 | each …IsChanged accessor is true iff its own property differs from its baseline |
| `TestModel1Wrapper.OriginalValueAccessorsReadBaseline` | TestWrappers/TestModel1Wrapper.cs:18-48 | each …OriginalValue accessor reads its own property's baseline value |
| `TestModel1Wrapper.SetOwnValue` | TestWrappers/TestModel1Wrapper.cs:13 | a setter writes its own property only, and that property reports a change iff the value differs from its original; a different value runs the property's action and leaves Errors as the rule set gives it for the new state; an equal value leaves Errors and the actions untouched |
| `TestModel1Wrapper.SetProperty1` | TestWrappers/TestModel1Wrapper.cs:10-14 | the value written is read back through the getter, and only TM1Property1 moves; a changed value revalidates, after which GetErrors for TM1Property1 is the range message iff the value lies outside [1, 10]; an equal value leaves Errors and the actions untouched |
| `TestModel1Wrapper.SetProperty2` | TestWrappers/TestModel1Wrapper.cs:20-24 | the value written, null included, is read back, and only TM1Property2 moves; a changed value revalidates, after which GetErrors for TM1Property2 is the blank message iff the value is null, empty or whitespace; an equal value leaves Errors and the actions untouched |
| `TestModel1Wrapper.SetProperty3` | TestWrappers/TestModel1Wrapper.cs:30-34 | the date written, null included, is read back, and only TM1Property3 moves; a changed value revalidates, after which GetErrors for TM1Property3 is the null message for a null date with TM1Property4 true, the range message for a date outside the bounds, and empty otherwise; an equal value leaves Errors and the actions untouched |
| `TestModel1Wrapper.SetProperty4` | TestWrappers/TestModel1Wrapper.cs:40-44 | the value written is read back, and only TM1Property4 moves; a changed value revalidates, after which GetErrors for TM1Property4 is the null message iff the value is true and TM1Property3 is null; an equal value leaves Errors and the actions untouched |

## Left out

- PropertyChanged is not modelled. This covers the notifications raised by SetValue, UpdateOriginalValue, Validate, AcceptChanges and RejectChanges, and the forwarding of a child's IsChanged and IsValid notifications. ErrorsChanged is kept, as a ghost log of property names on the store.
- ChangeTrackingCollection is not part of this model. A collection, like a nested wrapper, is a child that reports only its IsChanged and IsValid flags and its item count, and can accept or reject. The added, modified and removed bookkeeping of its items is not modelled.
- `ModelWrapperBase.ModelWrapper.constructor`: it requires each collection to hold as many items as its model list. The derived Initialize methods guarantee this by building each collection from that list. The count-mismatch throw is modelled on `RegisterCollection` itself.
- `ModelWrapperBase.ModelWrapper.SetValue`: every write is well typed here. In .NET, a value the property's type cannot hold makes `PropertyInfo.SetValue` throw after `UpdateOriginalValue` has run, which leaves an original recorded for a property whose value did not change. The model writes any value and does not capture that stale entry.
- `ModelWrapperBase.ModelWrapper.RejectChanges`: every property name resolves the same way for reading and for restoring. In .NET, RejectChanges looks a name up on the declared type `T` while SetValue looks it up on the runtime type, so a property declared only on a subclass of `T` is tracked but never restored. The model restores every tracked property.
- `ModelWrapperBase.ModelWrapper.constructor`: InitializePropertyActions is not called and the wrapper starts with no actions, because no wrapper in this model overrides it. Actions enter only through `RegisterPropertyAction`.
- `ModelWrapperBase.ModelWrapper.SetValue`, `ModelWrapperBase.ModelWrapper.RejectChanges` and `ModelWrapperBase.ModelWrapper.constructor` do not state the ErrorsChanged log their revalidation appends to; only `ModelWrapperBase.ModelWrapper.Validate` and `NotifyDataErrorInfoBase.ErrorStore.ClearErrors` do.
- The CollectionChanged handler that RegisterCollection attaches is not modelled. It copies the wrapper collection back into the model list and revalidates.
- Reflection is replaced by a map from property name to value, whose key set never changes. `Model.GetType().Name` is a constant string, and `GetValue<TValue>` casts are the conversions in `Values`.
- DataAnnotations attributes are not modelled. Validation runs only the wrapper's own `Validate(ValidationContext)` rule set.
- A registered property action is an opaque token. SetValue records that it ran, but not what it does.
- Object.Equals is value equality on every property value. For a list-valued property, .NET compares references, so two distinct lists with the same items count as different there. Here they count as equal.
- `TestModel5Wrapper.New`: the validity of each of the four children is a parameter. The TestModel2, TestModel3 and TestModel4 wrappers, and the per-item validity of the collections, are not part of this model. Of what the item wrappers' constructors can throw, only the null-model check is modelled.
- `TestModel5Wrapper.Property2Count`: the rule set finds TM5Property2's count as the third child's count. For a context with fewer children it reads 0, which never happens once the wrapper is built.
- TestModel5Wrapper's property accessors are not modelled. `TM5Property1`, `TM5Property3` and their IsChanged and OriginalValue accessors delegate exactly as TestModel1Wrapper's do, and those are modelled.
- `TestModel1Wrapper.Property3OutOfRange`: the date text comes from `ToString("d")`, which depends on the current culture. The model fixes the en-US form.
- Integer properties are unbounded here. The rules only compare them, so 32-bit width does not change any result.
- Dictionary enumeration order is not modelled. ClearErrors and RejectChanges visit keys in an unspecified order; `cleared` names the order ClearErrors used.
