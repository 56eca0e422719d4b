/** ModelWrapperBase<T>: change tracking, child aggregation and validation over one model object. */
module ModelWrapperBase {
  import opened Outcomes
  import opened Values
  import opened Sequences
  import opened Validation
  import opened NotifyDataErrorInfoBase

  /** The identity of a delegate handed to RegisterPropertyAction. */
  type ActionId = nat

  /** The message of the ArgumentException RegisterCollection throws on a count mismatch. */
  const CountMismatch := "RegisterCollection: The model collection and wrapper collection must contain the same number of elements."

  /** The message of the ArgumentException thrown for a name the model has no property for. */
  function NotAMember(propertyName: string, typeName: string): string {
    "The property \"" + propertyName + "\" is not a member of \"" + typeName + "\"."
  }

  /** The original values a baseline calls for: one entry per property whose current value
      differs from its baseline value, holding that baseline value. */
  function Diverged(baseline: Model, current: Model): map<string, Value> {
    map n | n in current && n in baseline && current[n] != baseline[n] :: baseline[n]
  }

  /** Writing every recorded original back over the current values restores the baseline. */
  lemma RestoringOriginalsYieldsBaseline(baseline: Model, current: Model)
    requires baseline.Keys == current.Keys
    ensures current + Diverged(baseline, current) == baseline
  {
    var restored := current + Diverged(baseline, current);
    forall n | n in baseline
      ensures n in restored && restored[n] == baseline[n]
    {
      if current[n] != baseline[n] {
        assert n in Diverged(baseline, current);
      }
    }
  }

  /** Writing one property moves _originalValues as UpdateOriginalValue does: a write back to
      the baseline value drops the entry, any other write records the baseline value, which an
      entry already present holds. */
  lemma DivergedAfterWrite(baseline: Model, current: Model, name: string, v: Value)
    requires baseline.Keys == current.Keys && name in current
    ensures Diverged(baseline, current[name := v]) ==
              if v == baseline[name] then Diverged(baseline, current) - {name}
              else Diverged(baseline, current)[name := baseline[name]]
  {
    var before := Diverged(baseline, current);
    var after := Diverged(baseline, current[name := v]);
    var expected := if v == baseline[name] then before - {name} else before[name := baseline[name]];
    forall n
      ensures n in after <==> n in expected
      ensures n in after ==> after[n] == expected[n]
    {
    }
    assert after.Keys == expected.Keys;
  }

  /** The item count of every child, in registration order. */
  function Counts(children: seq<TrackingObject>): (counts: seq<nat>)
    reads children
    ensures |counts| == |children|
    ensures forall i :: 0 <= i < |children| ==> counts[i] == children[i].count
  {
    if children == [] then []
    else Counts(children[..|children| - 1]) + [children[|children| - 1].count]
  }

  /** The grouping half of Validate: when there are results, file each distinct name they
      mention, in order, into the cleared store. */
  method FileResults(store: ErrorStore, results: seq<ValidationResult>)
    requires store.errors == map[]
    modifies store
    ensures store.Valid() && store.errors == ErrorMap(results)
    ensures store.errorsChanged == old(store.errorsChanged) + Distinct(MemberNames(results))
  {
    if |results| > 0 {
      FileMessages(store, results, Distinct(MemberNames(results)));
    } else {
      assert MemberNames(results) == [] && Distinct(MemberNames(results)) == [];
    }
    assert store.errors == ErrorMap(results);
    ErrorMapListsNonEmpty(results);
  }

  /** The foreach of Validate: into the cleared store, file under each name the distinct
      messages of the results naming it, raising ErrorsChanged once per name, in order. */
  method FileMessages(store: ErrorStore, results: seq<ValidationResult>, names: seq<string>)
    requires store.errors == map[]
    modifies store
    ensures store.errors == FiledUnder(results, names, |names|)
    ensures store.errorsChanged == old(store.errorsChanged) + names
  {
    for i := 0 to |names|
      invariant store.errors == FiledUnder(results, names, i)
      invariant store.errorsChanged == old(store.errorsChanged) + names[..i]
    {
      assert names[..i + 1] == names[..i] + [names[i]];
      assert FiledUnder(results, names, i + 1) == FiledUnder(results, names, i)[names[i] := MessagesFor(results, names[i])];
      store.errors := store.errors[names[i] := MessagesFor(results, names[i])];
      store.errorsChanged := store.errorsChanged + [names[i]];
    }
    assert names[..|names|] == names;
  }

  /** The second foreach of RejectChanges: every child returns to its baseline. */
  method RejectChildren(children: seq<TrackingObject>)
    requires NoDuplicates(children) && forall t :: t in children ==> t.Valid()
    modifies children
    ensures forall t :: t in children ==>
              && t.Valid() && !t.isChanged && t.isValid == old(t.baselineValid) && t.count == old(t.baselineCount)
              && t.baselineValid == old(t.baselineValid) && t.baselineCount == old(t.baselineCount)
  {
    for i := 0 to |children|
      invariant forall j :: 0 <= j < i ==>
                  var t := children[j];
                  && t.Valid() && !t.isChanged && t.isValid == old(t.baselineValid) && t.count == old(t.baselineCount)
                  && t.baselineValid == old(t.baselineValid) && t.baselineCount == old(t.baselineCount)
      invariant forall j :: i <= j < |children| ==> unchanged(children[j])
    {
      children[i].RejectChanges();
    }
  }

  /** A registered child (a nested wrapper or a ChangeTrackingCollection), seen through
      IValidatingTrackingObject only: its IsChanged and IsValid flags, its item count when it
      is a collection (0 for a nested wrapper), and the state it returns to when rejected. */
  class TrackingObject {
    var isChanged: bool
    var isValid: bool
    var count: nat
    /** Validity and item count at the child's own baseline (construction or last accept). */
    var baselineValid: bool
    var baselineCount: nat

    /** A child that reports no change is in its baseline state. */
    ghost predicate Valid()
      reads this
    {
      !isChanged ==> isValid == baselineValid && count == baselineCount
    }

    constructor (isValid: bool, count: nat)
      ensures Valid() && !isChanged && this.isValid == isValid && this.count == count
    {
      this.isChanged := false;
      this.isValid := isValid;
      this.count := count;
      baselineValid := isValid;
      baselineCount := count;
    }

    /** Not a member of the source: the environment's edit of a child through the child's
        own entry points (a SetValue on a nested wrapper, a property change of a collection
        item, an Add or Remove on a collection), which the wrapper only observes. */
    method Edit(changed: bool, valid: bool, newCount: nat)
      requires Valid()
      requires !changed ==> valid == baselineValid && newCount == baselineCount
      modifies this`isChanged, this`isValid, this`count
      ensures Valid() && isChanged == changed && isValid == valid && count == newCount
    {
      isChanged, isValid, count := changed, valid, newCount;
    }

    /** AcceptChanges: a valid child makes its current state its baseline; an invalid child
        refuses and stays as it is. */
    method AcceptChanges()
      requires Valid()
      modifies this
      ensures Valid()
      ensures old(isValid) ==> !isChanged && isValid && count == old(count) && baselineValid && baselineCount == count
      ensures !old(isValid) ==> unchanged(this)
    {
      if isValid {
        isChanged := false;
        baselineValid := true;
        baselineCount := count;
      }
    }

    /** RejectChanges: a changed child returns to its baseline; an unchanged one is left alone. */
    method RejectChanges()
      requires Valid()
      modifies this`isChanged, this`isValid, this`count
      ensures Valid() && !isChanged && isValid == baselineValid && count == baselineCount
      ensures !old(isChanged) ==> unchanged(this)
    {
      if isChanged {
        isChanged := false;
        isValid := baselineValid;
        count := baselineCount;
      }
    }
  }

  class ModelWrapper {
    /** Model.GetType().Name */
    const typeName: string
    /** The wrapped model object's properties. Model is never replaced; its properties are
        written in place, and the set of its property names never changes. */
    var model: Model
    /** _originalValues */
    var originalValues: map<string, Value>
    /** _trackingObjects, in registration order */
    var trackingObjects: seq<TrackingObject>
    /** _propertyActions */
    var propertyActions: map<string, ActionId>
    /** The Errors dictionary with HasErrors, GetErrors and ClearErrors. */
    const errorStore: ErrorStore
    /** The override of Validate(ValidationContext): this wrapper's rule set. */
    const rules: ValidationContext -> seq<ValidationResult>
    /** The property values at construction or at the last AcceptChanges that went through. */
    ghost var baseline: Model
    /** The registered actions invoked so far, oldest first. */
    ghost var invokedActions: seq<ActionId>

    /** A property is in _originalValues exactly when its value differs from its baseline,
        and then its entry holds the baseline value; the children are distinct and each in a
        consistent state. */
    ghost predicate Tracking()
      reads this`model, this`baseline, this`originalValues, this`propertyActions, this`trackingObjects, trackingObjects
    {
      && "" !in model
      && baseline.Keys == model.Keys
      && originalValues == Diverged(baseline, model)
      && propertyActions.Keys <= model.Keys
      && NoDuplicates(trackingObjects)
      && (forall t :: t in trackingObjects ==> t.Valid())
    }

    ghost predicate Valid()
      reads this`model, this`baseline, this`originalValues, this`propertyActions, this`trackingObjects, trackingObjects
      reads errorStore
    {
      Tracking() && errorStore.Valid()
    }

    /** The constructor, with InitializeComplexProperties and InitializeCollectionProperties of
        a derived wrapper given as the children they build: the nested wrappers, then the
        collections each built from the model list paired with it. */
    constructor (model: Model, typeName: string, rules: ValidationContext -> seq<ValidationResult>,
                 complexProperties: seq<TrackingObject>, collectionProperties: seq<TrackingObject>,
                 modelCollections: seq<seq<Value>>)
      requires "" !in model
      requires NoDuplicates(complexProperties + collectionProperties)
      requires forall t :: t in complexProperties + collectionProperties ==> t.Valid()
      requires |collectionProperties| == |modelCollections|
      requires forall i :: 0 <= i < |collectionProperties| ==> collectionProperties[i].count == |modelCollections[i]|
      ensures Valid() && fresh(errorStore)
      ensures this.model == model && this.typeName == typeName && this.rules == rules
      ensures baseline == model && originalValues == map[] && propertyActions == map[]
      ensures trackingObjects == complexProperties + collectionProperties
      ensures errorStore.errors == ErrorMap(rules(Context()))
      ensures invokedActions == []
    {
      this.typeName := typeName;
      this.model := model;
      this.rules := rules;
      originalValues := map[];
      propertyActions := map[];
      trackingObjects := [];
      baseline := model;
      invokedActions := [];
      errorStore := new ErrorStore();
      new;
      InitializeChildren(complexProperties, collectionProperties, modelCollections);
      ghost var _ := Validate();
    }

    /** InitializeComplexProperties then InitializeCollectionProperties: register the nested
        wrappers, then each collection with the model list it wraps, in the given order. */
    method InitializeChildren(complexProperties: seq<TrackingObject>, collectionProperties: seq<TrackingObject>,
                              modelCollections: seq<seq<Value>>)
      requires Valid() && trackingObjects == []
      requires NoDuplicates(complexProperties + collectionProperties)
      requires forall t :: t in complexProperties + collectionProperties ==> t.Valid()
      requires |collectionProperties| == |modelCollections|
      requires forall i :: 0 <= i < |collectionProperties| ==> collectionProperties[i].count == |modelCollections[i]|
      modifies this`trackingObjects
      ensures Valid() && trackingObjects == complexProperties + collectionProperties
    {
      ghost var all := complexProperties + collectionProperties;
      for i := 0 to |complexProperties|
        invariant Valid() && trackingObjects == all[..i]
      {
        assert all[i] == complexProperties[i] && all[i] !in all[..i];
        assert all[..i + 1] == all[..i] + [all[i]];
        var _ := RegisterComplex(complexProperties[i]);
      }
      for i := 0 to |collectionProperties|
        invariant Valid() && trackingObjects == all[..|complexProperties| + i]
      {
        ghost var k := |complexProperties| + i;
        assert all[k] == collectionProperties[i] && all[k] !in all[..k];
        assert all[..k + 1] == all[..k] + [all[k]];
        var _ := RegisterCollection(collectionProperties[i], Some(modelCollections[i]));
      }
      assert all[..|all|] == all;
    }

    /** IsChanged */
    predicate IsChanged()
      reads this`originalValues, this`trackingObjects, trackingObjects
    {
      |originalValues| > 0 || exists t :: t in trackingObjects && t.isChanged
    }

    /** IsValid: no own errors and every child valid. */
    predicate IsValid()
      reads errorStore, this`trackingObjects, trackingObjects
    {
      !errorStore.HasErrors() && forall t :: t in trackingObjects ==> t.isValid
    }

    /** The ValidationContext the rule set is run on: this wrapper's current state. */
    function Context(): ValidationContext
      reads this`model, this`trackingObjects, trackingObjects
    {
      ValidationContext(model, Counts(trackingObjects))
    }

    /** GetPropertyInfo: resolves a property name against the model, or throws. */
    function GetPropertyInfo(propertyName: Option<string>): (r: Result<string>)
      reads this
      ensures r.Ok? <==> propertyName.Some? && propertyName.value in model
      ensures r.Ok? ==> r.value == propertyName.value
      ensures propertyName.None? ==> r == Err(ArgumentNull("propertyName"))
      ensures propertyName.Some? && propertyName.value !in model ==>
                r == Err(Argument(NotAMember(propertyName.value, typeName)))
    {
      match propertyName
      case None => Err(ArgumentNull("propertyName"))
      case Some(name) => if name in model then Ok(name) else Err(Argument(NotAMember(name, typeName)))
    }

    /** GetValue: the current value of a resolvable property. */
    function GetValue(propertyName: Option<string>): (r: Result<Value>)
      reads this
      ensures r.Ok? <==> GetPropertyInfo(propertyName).Ok?
      ensures r.Ok? ==> r.value == model[propertyName.value]
      ensures r.Err? ==> r.error == GetPropertyInfo(propertyName).error
    {
      var info := GetPropertyInfo(propertyName);
      if info.Err? then Err(info.error) else Ok(model[info.value])
    }

    /** GetIsChanged: a dictionary lookup, which throws on null (parameter 'key') and answers
        false for any name not tracked, resolvable or not. */
    function GetIsChanged(propertyName: Option<string>): (r: Result<bool>)
      reads this
      ensures propertyName.None? ==> r == Err(ArgumentNull("key"))
      ensures propertyName.Some? ==> r == Ok(propertyName.value in originalValues)
    {
      match propertyName
      case None => Err(ArgumentNull("key"))
      case Some(name) => Ok(name in originalValues)
    }

    /** GetOriginalValue: the recorded original when tracked, else GetValue, which reads the
        current value of a resolvable name and throws for an unknown one. */
    function GetOriginalValue(propertyName: Option<string>): (r: Result<Value>)
      reads this
      ensures propertyName.None? ==> r == Err(ArgumentNull("key"))
      ensures propertyName.Some? && propertyName.value in originalValues ==> r == Ok(originalValues[propertyName.value])
      ensures propertyName.Some? && propertyName.value !in originalValues && propertyName.value in model ==>
                r == Ok(model[propertyName.value])
      ensures propertyName.Some? && propertyName.value !in originalValues && propertyName.value !in model ==>
                r == Err(Argument(NotAMember(propertyName.value, typeName)))
    {
      match propertyName
      case None => Err(ArgumentNull("key"))
      case Some(name) => if name in originalValues then Ok(originalValues[name]) else GetValue(propertyName)
    }

    /** UpdateOriginalValue: the bookkeeping for a write of newValue over a different currentValue. */
    method UpdateOriginalValue(currentValue: Value, newValue: Value, propertyName: string)
      requires baseline.Keys == model.Keys && originalValues == Diverged(baseline, model)
      requires propertyName in model && currentValue == model[propertyName] && newValue != currentValue
      modifies this`originalValues
      ensures originalValues == Diverged(baseline, model[propertyName := newValue])
    {
      DivergedAfterWrite(baseline, model, propertyName, newValue);
      if propertyName !in originalValues {
        originalValues := originalValues[propertyName := currentValue];
      } else if newValue == originalValues[propertyName] {
        originalValues := originalValues - {propertyName};
      }
    }

    /** SetValue: write a property through the tracker, invoke its action, revalidate. */
    method SetValue(newValue: Value, propertyName: Option<string>) returns (status: Outcome)
      requires Valid()
      modifies this`model, this`originalValues, this`invokedActions, errorStore
      ensures Valid()
      ensures status.Pass? <==> old(GetPropertyInfo(propertyName)).Ok?
      ensures status.Fail? ==> status.error == old(GetPropertyInfo(propertyName)).error && unchanged(this, errorStore)
      ensures status.Pass? && old(model[propertyName.value]) == newValue ==> unchanged(this, errorStore)
      ensures status.Pass? && old(model[propertyName.value]) != newValue ==>
                && model == old(model)[propertyName.value := newValue]
                && errorStore.errors == ErrorMap(rules(Context()))
                && invokedActions == old(invokedActions) + ActionFor(propertyName.value)
    {
      var info := GetPropertyInfo(propertyName);
      if info.Err? {
        return Fail(info.error);
      }
      var name := info.value;
      var currentValue := model[name];
      if currentValue != newValue {
        UpdateOriginalValue(currentValue, newValue, name);
        model, invokedActions := model[name := newValue], invokedActions + ActionFor(name);
        ghost var _ := Validate();
      }
      status := Pass;
    }

    /** The action registered for a property, as a list of at most one. */
    function ActionFor(name: string): (actions: seq<ActionId>)
      reads this`propertyActions
      ensures |actions| <= 1
      ensures actions != [] <==> name in propertyActions
      ensures actions != [] ==> actions[0] == propertyActions[name]
    {
      if name in propertyActions then [propertyActions[name]] else []
    }

    /** Validate(): clear the errors, run the rule set, file each message under every property
        it names; `cleared` is the order ClearErrors raised ErrorsChanged in. */
    method Validate() returns (ghost cleared: seq<string>)
      modifies errorStore
      ensures errorStore.Valid()
      ensures errorStore.errors == ErrorMap(rules(Context()))
      ensures errorStore.errorsChanged ==
                old(errorStore.errorsChanged) + cleared + Distinct(MemberNames(rules(Context())))
      ensures NoDuplicates(cleared) && forall n :: n in cleared <==> n in old(errorStore.errors)
    {
      cleared := errorStore.ClearErrors();
      FileResults(errorStore, rules(Context()));
    }

    /** AcceptChanges: all or nothing, and only when changed and valid. */
    method AcceptChanges()
      requires Valid()
      modifies this`originalValues, this`baseline, trackingObjects
      ensures Valid() && model == old(model) && trackingObjects == old(trackingObjects)
      ensures old(IsChanged() && IsValid()) ==>
                && originalValues == map[] && baseline == model
                && forall t :: t in trackingObjects ==>
                     !t.isChanged && t.isValid && t.baselineValid && t.count == old(t.count) && t.baselineCount == t.count
      ensures !old(IsChanged() && IsValid()) ==> unchanged(this) && forall t :: t in trackingObjects ==> unchanged(t)
    {
      if IsChanged() && IsValid() {
        originalValues := map[];
        baseline := model;
        for i := 0 to |trackingObjects|
          modifies trackingObjects
          invariant forall j :: 0 <= j < i ==>
                      var t := trackingObjects[j];
                      !t.isChanged && t.isValid && t.baselineValid && t.count == old(t.count) && t.baselineCount == t.count
          invariant forall j :: i <= j < |trackingObjects| ==> unchanged(trackingObjects[j])
          invariant forall t :: t in trackingObjects ==> t.Valid()
        {
          trackingObjects[i].AcceptChanges();
        }
      }
    }

    /** RejectChanges: only when changed, whatever the validity; restores every original,
        rejects every child, then revalidates. */
    method RejectChanges()
      requires Valid()
      modifies this`model, this`originalValues, errorStore, trackingObjects
      ensures Valid() && model.Keys == old(model.Keys) && baseline == old(baseline) && trackingObjects == old(trackingObjects)
      ensures old(IsChanged()) ==>
                && model == baseline && originalValues == map[]
                && errorStore.errors == ErrorMap(rules(Context()))
                && forall t :: t in trackingObjects ==>
                     && !t.isChanged && t.isValid == old(t.baselineValid) && t.count == old(t.baselineCount)
                     && t.baselineValid == old(t.baselineValid) && t.baselineCount == old(t.baselineCount)
      ensures !old(IsChanged()) ==> unchanged(this, errorStore) && forall t :: t in trackingObjects ==> unchanged(t)
    {
      if IsChanged() {
        RestoreOriginals();
        RestoringOriginalsYieldsBaseline(baseline, old(model));
        originalValues := map[];
        RejectChildren(trackingObjects);
        ghost var _ := Validate();
      }
    }

    /** The first foreach of RejectChanges: write each recorded original back into the model. */
    method RestoreOriginals()
      requires originalValues.Keys <= model.Keys
      modifies this`model
      ensures model == old(model) + originalValues
    {
      var pending := originalValues.Keys;
      while pending != {}
        invariant pending <= originalValues.Keys
        invariant model.Keys == old(model.Keys)
        invariant forall n :: n in model ==>
                    model[n] == if n in originalValues && n !in pending then originalValues[n] else old(model)[n]
        decreases pending
      {
        var name :| name in pending;
        model := model[name := originalValues[name]];
        pending := pending - {name};
      }
      assert model == old(model) + originalValues;
    }

    /** RegisterTrackingObject: a child already registered is not added again. */
    method RegisterTrackingObject(trackingObject: TrackingObject)
      requires Valid() && trackingObject.Valid()
      modifies this`trackingObjects
      ensures Valid()
      ensures trackingObjects == if trackingObject in old(trackingObjects) then old(trackingObjects)
                                 else old(trackingObjects) + [trackingObject]
    {
      if trackingObject !in trackingObjects {
        trackingObjects := trackingObjects + [trackingObject];
      }
    }

    /** RegisterComplex: a nested wrapper becomes a child. */
    method RegisterComplex(wrapper: TrackingObject?) returns (status: Outcome)
      requires Valid() && (wrapper != null ==> wrapper.Valid())
      modifies this`trackingObjects
      ensures Valid()
      ensures wrapper == null ==> status == Fail(ArgumentNull("wrapper")) && unchanged(this)
      ensures wrapper != null ==> status == Pass
      ensures wrapper != null ==>
                trackingObjects == if wrapper in old(trackingObjects) then old(trackingObjects)
                                   else old(trackingObjects) + [wrapper]
    {
      if wrapper == null {
        return Fail(ArgumentNull("wrapper"));
      }
      RegisterTrackingObject(wrapper);
      status := Pass;
    }

    /** RegisterCollection: a collection becomes a child, provided it holds as many items as
        the model list it wraps. */
    method RegisterCollection(wrapperCollection: TrackingObject?, modelCollection: Option<seq<Value>>)
      returns (status: Outcome)
      requires Valid() && (wrapperCollection != null ==> wrapperCollection.Valid())
      modifies this`trackingObjects
      ensures Valid()
      ensures modelCollection.None? ==> status == Fail(ArgumentNull("modelCollection"))
      ensures modelCollection.Some? && wrapperCollection == null ==> status == Fail(ArgumentNull("wrapperCollection"))
      ensures modelCollection.Some? && wrapperCollection != null && |modelCollection.value| != wrapperCollection.count ==>
                status == Fail(Argument(CountMismatch))
      ensures status.Fail? ==> unchanged(this)
      ensures status.Pass? <==> modelCollection.Some? && wrapperCollection != null && |modelCollection.value| == wrapperCollection.count
      ensures status.Pass? ==>
                trackingObjects == if wrapperCollection in old(trackingObjects) then old(trackingObjects)
                                   else old(trackingObjects) + [wrapperCollection]
    {
      if modelCollection.None? {
        return Fail(ArgumentNull("modelCollection"));
      }
      if wrapperCollection == null {
        return Fail(ArgumentNull("wrapperCollection"));
      }
      if |modelCollection.value| != wrapperCollection.count {
        return Fail(Argument(CountMismatch));
      }
      RegisterTrackingObject(wrapperCollection);
      status := Pass;
    }

    /** RegisterPropertyAction: the name must resolve and the action be non-null; a second
        registration for a name replaces the first. */
    method RegisterPropertyAction(propertyName: Option<string>, propertyAction: Option<ActionId>)
      returns (status: Outcome)
      requires Valid()
      modifies this`propertyActions
      ensures Valid()
      ensures GetPropertyInfo(propertyName).Err? ==> status == Fail(GetPropertyInfo(propertyName).error)
      ensures GetPropertyInfo(propertyName).Ok? && propertyAction.None? ==> status == Fail(ArgumentNull("propertyAction"))
      ensures status.Fail? ==> unchanged(this)
      ensures status.Pass? <==> GetPropertyInfo(propertyName).Ok? && propertyAction.Some?
      ensures status.Pass? ==> propertyActions == old(propertyActions)[propertyName.value := propertyAction.value]
    {
      var info := GetPropertyInfo(propertyName);
      if info.Err? {
        return Fail(info.error);
      }
      if propertyAction.None? {
        return Fail(ArgumentNull("propertyAction"));
      }
      propertyActions := propertyActions[info.value := propertyAction.value];
      status := Pass;
    }
  }

  /** IsChanged is true exactly when some property differs from its baseline or some child
      reports a change. */
  lemma IsChangedIffDiverged(w: ModelWrapper)
    requires w.Valid()
    ensures w.IsChanged() <==> w.model != w.baseline || exists t :: t in w.trackingObjects && t.isChanged
  {
    if w.model != w.baseline {
      var n :| n in w.model && w.model[n] != w.baseline[n];
      assert n in w.originalValues;
    }
    if |w.originalValues| > 0 {
      var n :| n in w.originalValues;
    }
  }

  /** GetIsChanged of a name is true exactly when the property exists and differs from its
      baseline; an empty or unknown name answers false. */
  lemma GetIsChangedIffDiffers(w: ModelWrapper, name: string)
    requires w.Valid()
    ensures w.GetIsChanged(Some(name)) == Ok(name in w.model && w.model[name] != w.baseline[name])
  {
  }

  /** GetOriginalValue of a property is its baseline value, tracked or not; a name the model
      lacks throws the "is not a member" exception even though nothing is tracked for it. */
  lemma GetOriginalValueIsBaseline(w: ModelWrapper, name: string)
    requires w.Valid()
    ensures name in w.model ==> w.GetOriginalValue(Some(name)) == Ok(w.baseline[name])
    ensures name !in w.model ==> w.GetOriginalValue(Some(name)) == Err(Argument(NotAMember(name, w.typeName)))
  {
  }

  /** Right after Validate, HasErrors reports only this wrapper's own rule results, while
      IsValid also asks every child: an invalid child alone leaves HasErrors false. */
  lemma IsValidAfterValidate(w: ModelWrapper)
    requires w.Valid() && w.errorStore.errors == ErrorMap(w.rules(w.Context()))
    ensures w.errorStore.HasErrors() <==> exists r :: r in w.rules(w.Context()) && r.memberNames != []
    ensures w.IsValid() <==>
              (forall r :: r in w.rules(w.Context()) ==> r.memberNames == []) &&
              (forall t :: t in w.trackingObjects ==> t.isValid)
  {
    NoErrorsIffNothingNamed(w.rules(w.Context()));
  }
}
