/** TestModel5Wrapper: a wrapper with two nested wrappers, two collections and a rule set
    in which one rule depends on the size of a child collection. */
module TestModel5Wrapper {
  import opened Outcomes
  import opened Values
  import opened Sequences
  import opened Validation
  import opened ModelWrapperBase

  const Property1 := "TM5Property1"
  const Property2 := "TM5Property2"
  const Property3 := "TM5Property3"
  const Property4 := "TM5Property4"
  const Property5 := "TM5Property5"
  const Property6 := "TM5Property6"

  /** TestModel5.TM5Property1MinValue and TM5Property1MaxValue */
  const Property1MinValue := 100
  const Property1MaxValue := 200

  const Property1OutOfRange := "TM5Property1 must be between 100 and 200."
  const Property3Blank := "TM5Property3 can't be null or whitespace."
  const Property2EmptyWhenX := "TM5Property2 must not be empty when TM5Property3 is \"X\"."

  /** The shape of a TestModel5 seen through reflection: its six properties and their types
      (an int, two lists, a string and two nested model objects; all but the int nullable). */
  predicate IsTestModel5(model: Model) {
    && model.Keys == {Property1, Property2, Property3, Property4, Property5, Property6}
    && model[Property1].Int?
    && (model[Property2].List? || model[Property2].Null?)
    && (model[Property3].Str? || model[Property3].Null?)
    && (model[Property4].Obj? || model[Property4].Null?)
    && (model[Property5].List? || model[Property5].Null?)
    && (model[Property6].Obj? || model[Property6].Null?)
  }

  /** TM5Property2.Count: the item count of the third registered child, the TM5Property2
      collection (registration order is TM5Property4, TM5Property6, TM5Property2, TM5Property5). */
  function Property2Count(ctx: ValidationContext): nat {
    if |ctx.childCounts| > 2 then ctx.childCounts[2] else 0
  }

  function Property1Of(ctx: ValidationContext): int {
    IntOf(Lookup(ctx.model, Property1))
  }

  function Property3Of(ctx: ValidationContext): Option<string> {
    StringOf(Lookup(ctx.model, Property3))
  }

  /** The range rule's condition. */
  predicate Property1OutOfBounds(ctx: ValidationContext) {
    Property1Of(ctx) < Property1MinValue || Property1Of(ctx) > Property1MaxValue
  }

  /** The "X" rule's condition, as reached in the else-branch of the blank check. */
  predicate XWithEmptyProperty2(ctx: ValidationContext) {
    !IsNullOrWhiteSpace(Property3Of(ctx)) && Property3Of(ctx).value == "X" && Property2Count(ctx) == 0
  }

  const Property1Result := ValidationResult(Property1OutOfRange, [Property1])
  const Property3Result := ValidationResult(Property3Blank, [Property3])
  const Property2And3Result := ValidationResult(Property2EmptyWhenX, [Property2, Property3])

  /** The first check of Validate: TM5Property1 must lie in [100, 200]. */
  function RangeRule(ctx: ValidationContext): seq<ValidationResult> {
    if Property1OutOfBounds(ctx) then [Property1Result] else []
  }

  /** The second check of Validate: TM5Property3 must not be blank, and only when it is not,
      "X" needs a non-empty TM5Property2. */
  function BlankOrXRule(ctx: ValidationContext): seq<ValidationResult> {
    if IsNullOrWhiteSpace(Property3Of(ctx)) then [Property3Result]
    else if Property3Of(ctx).value == "X" && Property2Count(ctx) == 0 then [Property2And3Result]
    else []
  }

  /** Validate(ValidationContext): the results of the two checks, in order. */
  function Validate(ctx: ValidationContext): seq<ValidationResult> {
    RangeRule(ctx) + BlankOrXRule(ctx)
  }

  lemma PropertyNamesDiffer()
    ensures Property1 != Property2 && Property1 != Property3 && Property2 != Property3
  {
    assert Property1[11] == '1' && Property2[11] == '2' && Property3[11] == '3';
  }

  /** The results of Validate that name a given property. */
  lemma WhereValidate(ctx: ValidationContext, name: string)
    ensures Where(Validate(ctx), name) ==
              (if Property1OutOfBounds(ctx) && name == Property1 then [Property1Result] else [])
              + if IsNullOrWhiteSpace(Property3Of(ctx)) then (if name == Property3 then [Property3Result] else [])
                else if XWithEmptyProperty2(ctx) && (name == Property2 || name == Property3) then [Property2And3Result]
                else []
  {
    WhereConcat(RangeRule(ctx), BlankOrXRule(ctx), name);
    WhereRangeRule(ctx, name);
    WhereBlankOrXRule(ctx, name);
  }

  lemma WhereRangeRule(ctx: ValidationContext, name: string)
    ensures Where(RangeRule(ctx), name) ==
              if Property1OutOfBounds(ctx) && name == Property1 then [Property1Result] else []
  {
    WhereSingle(Property1Result, name);
  }

  lemma WhereBlankOrXRule(ctx: ValidationContext, name: string)
    ensures Where(BlankOrXRule(ctx), name) ==
              if IsNullOrWhiteSpace(Property3Of(ctx)) then (if name == Property3 then [Property3Result] else [])
              else if XWithEmptyProperty2(ctx) && (name == Property2 || name == Property3) then [Property2And3Result]
              else []
  {
    WhereSingle(Property3Result, name);
    WhereSingle(Property2And3Result, name);
  }

  /** TM5Property1 has an error exactly when it lies outside [100, 200], and then exactly one. */
  lemma Property1Errors(ctx: ValidationContext)
    ensures Property1 in ErrorMap(Validate(ctx)) <==> Property1OutOfBounds(ctx)
    ensures Property1OutOfBounds(ctx) ==>
              Property1 in ErrorMap(Validate(ctx)) && ErrorMap(Validate(ctx))[Property1] == [Property1OutOfRange]
  {
    PropertyNamesDiffer();
    WhereValidate(ctx, Property1);
    if Property1OutOfBounds(ctx) {
      EntryOfSingleNamer(Validate(ctx), Property1, Property1Result);
    } else {
      NoEntryWithoutNamer(Validate(ctx), Property1);
    }
  }

  /** TM5Property3 has an error exactly when it is blank or is "X" with TM5Property2 empty;
      which of the two messages it carries depends on the branch taken. */
  lemma Property3Errors(ctx: ValidationContext)
    ensures Property3 in ErrorMap(Validate(ctx)) <==>
              IsNullOrWhiteSpace(Property3Of(ctx)) || XWithEmptyProperty2(ctx)
    ensures IsNullOrWhiteSpace(Property3Of(ctx)) ==>
              Property3 in ErrorMap(Validate(ctx)) && ErrorMap(Validate(ctx))[Property3] == [Property3Blank]
    ensures XWithEmptyProperty2(ctx) ==>
              Property3 in ErrorMap(Validate(ctx)) && ErrorMap(Validate(ctx))[Property3] == [Property2EmptyWhenX]
  {
    PropertyNamesDiffer();
    WhereValidate(ctx, Property3);
    if IsNullOrWhiteSpace(Property3Of(ctx)) {
      EntryOfSingleNamer(Validate(ctx), Property3, Property3Result);
    } else if XWithEmptyProperty2(ctx) {
      EntryOfSingleNamer(Validate(ctx), Property3, Property2And3Result);
    } else {
      NoEntryWithoutNamer(Validate(ctx), Property3);
    }
  }

  /** TM5Property2 has an error only from the "X" rule, which a blank TM5Property3 never
      reaches; the same message is filed under TM5Property3 as well. */
  lemma Property2Errors(ctx: ValidationContext)
    ensures Property2 in ErrorMap(Validate(ctx)) <==> XWithEmptyProperty2(ctx)
    ensures IsNullOrWhiteSpace(Property3Of(ctx)) ==> Property2 !in ErrorMap(Validate(ctx))
    ensures XWithEmptyProperty2(ctx) ==>
              && Property2 in ErrorMap(Validate(ctx)) && ErrorMap(Validate(ctx))[Property2] == [Property2EmptyWhenX]
              && Property3 in ErrorMap(Validate(ctx)) && ErrorMap(Validate(ctx))[Property3] == [Property2EmptyWhenX]
  {
    PropertyNamesDiffer();
    WhereValidate(ctx, Property2);
    if XWithEmptyProperty2(ctx) {
      EntryOfSingleNamer(Validate(ctx), Property2, Property2And3Result);
    } else {
      NoEntryWithoutNamer(Validate(ctx), Property2);
    }
    Property3Errors(ctx);
  }

  /** No other property ever has an error: the nested wrappers and the second collection
      report through their own IsValid. */
  lemma OnlyRuledPropertiesHaveErrors(ctx: ValidationContext, name: string)
    requires name != Property1 && name != Property2 && name != Property3
    ensures name !in ErrorMap(Validate(ctx))
  {
    WhereValidate(ctx, name);
    NoEntryWithoutNamer(Validate(ctx), name);
  }

  /** The wrapper's own store is empty exactly when every rule holds. */
  lemma NoErrorsIffRulesHold(ctx: ValidationContext)
    ensures ErrorMap(Validate(ctx)) == map[] <==>
              !Property1OutOfBounds(ctx) && !IsNullOrWhiteSpace(Property3Of(ctx)) && !XWithEmptyProperty2(ctx)
  {
    Property1Errors(ctx);
    Property3Errors(ctx);
    if ErrorMap(Validate(ctx)) != map[] {
      var n :| n in ErrorMap(Validate(ctx));
      if n != Property1 && n != Property2 && n != Property3 {
        OnlyRuledPropertiesHaveErrors(ctx, n);
      }
      Property2Errors(ctx);
    }
  }

  /** TestModel5Wrapper: the base wrapper with its four child properties, each assigned once
      while the base constructor runs. */
  datatype TestModel5Wrapper = TestModel5Wrapper(
    base: ModelWrapper,
    tm5Property4: TrackingObject,
    tm5Property6: TrackingObject,
    tm5Property2: TrackingObject,
    tm5Property5: TrackingObject)

  /** The constructor, past the null checks: InitializeComplexProperties wraps TM5Property4
      and TM5Property6, InitializeCollectionProperties wraps TM5Property2 and TM5Property5
      with as many items as the model lists; the children arrive in that order. Each child's
      validity is the one its own rule set gives it. */
  method Initialize(model: Model, property4Valid: bool, property6Valid: bool, property2Valid: bool, property5Valid: bool)
    returns (w: TestModel5Wrapper)
    requires IsTestModel5(model)
    requires model[Property4].Obj? && model[Property6].Obj? && model[Property2].List? && model[Property5].List?
    ensures fresh(w.base) && fresh(w.base.errorStore) && fresh(w.tm5Property4) && fresh(w.tm5Property6) && fresh(w.tm5Property2) && fresh(w.tm5Property5)
    ensures w.base.Valid() && w.base.model == model && w.base.rules == Validate && !w.base.IsChanged()
    ensures w.base.trackingObjects == [w.tm5Property4, w.tm5Property6, w.tm5Property2, w.tm5Property5]
    ensures w.base.Context() == ValidationContext(model, [0, 0, |model[Property2].items|, |model[Property5].items|])
    ensures w.tm5Property4.isValid == property4Valid && w.tm5Property6.isValid == property6Valid
    ensures w.tm5Property2.isValid == property2Valid && w.tm5Property5.isValid == property5Valid
    ensures w.base.errorStore.errors == ErrorMap(w.base.rules(w.base.Context()))
  {
    var p4, p6, p2, p5 := NewChildren(model, property4Valid, property6Valid, property2Valid, property5Valid);
    var b := new ModelWrapper(model, "TestModel5", Validate, [p4, p6], [p2, p5],
                              [model[Property2].items, model[Property5].items]);
    assert b.trackingObjects == [p4, p6, p2, p5];
    FourChildren(b, p4, p6, p2, p5);
    w := TestModel5Wrapper(b, p4, p6, p2, p5);
  }

  /** A wrapper with exactly these four children, in this order: the rule set sees their item
      counts, and the wrapper reports a change only through its originals or one of them. */
  lemma FourChildren(b: ModelWrapper, p4: TrackingObject, p6: TrackingObject, p2: TrackingObject, p5: TrackingObject)
    requires b.trackingObjects == [p4, p6, p2, p5]
    ensures b.Context() == ValidationContext(b.model, [p4.count, p6.count, p2.count, p5.count])
    ensures b.IsChanged() <==> |b.originalValues| > 0 || p4.isChanged || p6.isChanged || p2.isChanged || p5.isChanged
  {
    assert forall t :: t in b.trackingObjects <==> t == p4 || t == p6 || t == p2 || t == p5;
  }

  /** The four children as the two Initialize methods build them: nested wrappers with no
      items, collections with one item per element of the model list, none of them changed. */
  method NewChildren(model: Model, property4Valid: bool, property6Valid: bool, property2Valid: bool, property5Valid: bool)
    returns (p4: TrackingObject, p6: TrackingObject, p2: TrackingObject, p5: TrackingObject)
    requires IsTestModel5(model) && model[Property2].List? && model[Property5].List?
    ensures fresh(p4) && fresh(p6) && fresh(p2) && fresh(p5)
    ensures NoDuplicates([p4, p6] + [p2, p5])
    ensures p4.Valid() && p6.Valid() && p2.Valid() && p5.Valid()
    ensures !p4.isChanged && !p6.isChanged && !p2.isChanged && !p5.isChanged
    ensures p4.isValid == property4Valid && p6.isValid == property6Valid
    ensures p2.isValid == property2Valid && p5.isValid == property5Valid
    ensures p4.count == 0 && p6.count == 0 && p2.count == |model[Property2].items| && p5.count == |model[Property5].items|
  {
    p4 := new TrackingObject(property4Valid, 0);
    p6 := new TrackingObject(property6Valid, 0);
    p2 := new TrackingObject(property2Valid, |model[Property2].items|);
    p5 := new TrackingObject(property5Valid, |model[Property5].items|);
  }

  /** new TestModel5Wrapper(model): the null checks of the base constructor and of the two
      Initialize methods, in the order they run. Each collection item is wrapped by a
      constructor that rejects a null model, so a null item in TM5Property2 fails before the
      TM5Property5 check, and one in TM5Property5 fails last. */
  method New(model: Option<Model>, property4Valid: bool, property6Valid: bool, property2Valid: bool, property5Valid: bool)
    returns (r: Result<TestModel5Wrapper>)
    requires model.Some? ==> IsTestModel5(model.value)
    ensures model.None? ==> r == Err(ArgumentNull("model"))
    ensures model.Some? && model.value[Property4].Null? ==> r == Err(ArgumentNull("Model.TM5Property4"))
    ensures model.Some? && model.value[Property4].Obj? && model.value[Property6].Null? ==>
              r == Err(ArgumentNull("Model.TM5Property6"))
    ensures model.Some? && model.value[Property4].Obj? && model.value[Property6].Obj? && model.value[Property2].Null? ==>
              r == Err(ArgumentNull("Model.TM5Property2"))
    ensures (model.Some? && model.value[Property4].Obj? && model.value[Property6].Obj? && model.value[Property2].List? &&
             Null in model.value[Property2].items) ==> r == Err(ArgumentNull("model"))
    ensures (model.Some? && model.value[Property4].Obj? && model.value[Property6].Obj? && model.value[Property2].List? &&
             Null !in model.value[Property2].items && model.value[Property5].Null?) ==> r == Err(ArgumentNull("Model.TM5Property5"))
    ensures (model.Some? && model.value[Property4].Obj? && model.value[Property6].Obj? && model.value[Property2].List? &&
             Null !in model.value[Property2].items && model.value[Property5].List? && Null in model.value[Property5].items) ==>
              r == Err(ArgumentNull("model"))
    ensures r.Ok? <==> model.Some? && model.value[Property4].Obj? && model.value[Property6].Obj?
                       && model.value[Property2].List? && Null !in model.value[Property2].items
                       && model.value[Property5].List? && Null !in model.value[Property5].items
    ensures r.Ok? ==>
              var w, m := r.value, model.value;
              && fresh(w.base) && fresh(w.base.errorStore)
              && fresh(w.tm5Property4) && fresh(w.tm5Property6) && fresh(w.tm5Property2) && fresh(w.tm5Property5)
              && w.base.Valid() && w.base.model == m && w.base.rules == Validate && !w.base.IsChanged()
              && w.base.trackingObjects == [w.tm5Property4, w.tm5Property6, w.tm5Property2, w.tm5Property5]
              && w.base.Context() == ValidationContext(m, [0, 0, |m[Property2].items|, |m[Property5].items|])
              && w.tm5Property4.isValid == property4Valid && w.tm5Property6.isValid == property6Valid
              && w.tm5Property2.isValid == property2Valid && w.tm5Property5.isValid == property5Valid
              && w.base.errorStore.errors == ErrorMap(Validate(w.base.Context()))
  {
    if model.None? {
      return Err(ArgumentNull("model"));
    }
    var m := model.value;
    if m[Property4].Null? {
      return Err(ArgumentNull("Model.TM5Property4"));
    }
    if m[Property6].Null? {
      return Err(ArgumentNull("Model.TM5Property6"));
    }
    if m[Property2].Null? {
      return Err(ArgumentNull("Model.TM5Property2"));
    }
    if Null in m[Property2].items {
      return Err(ArgumentNull("model"));
    }
    if m[Property5].Null? {
      return Err(ArgumentNull("Model.TM5Property5"));
    }
    if Null in m[Property5].items {
      return Err(ArgumentNull("model"));
    }
    var w := Initialize(m, property4Valid, property6Valid, property2Valid, property5Valid);
    r := Ok(w);
  }

  /** A freshly built wrapper is valid exactly when every rule holds and every child is valid;
      a broken rule alone makes HasErrors true. */
  lemma IsValidAtConstruction(w: TestModel5Wrapper)
    requires w.base.Valid() && w.base.rules == Validate
    requires w.base.trackingObjects == [w.tm5Property4, w.tm5Property6, w.tm5Property2, w.tm5Property5]
    requires w.base.errorStore.errors == ErrorMap(Validate(w.base.Context()))
    ensures w.base.errorStore.HasErrors() <==>
              Property1OutOfBounds(w.base.Context()) || IsNullOrWhiteSpace(Property3Of(w.base.Context()))
              || XWithEmptyProperty2(w.base.Context())
    ensures w.base.IsValid() <==>
              && !Property1OutOfBounds(w.base.Context()) && !IsNullOrWhiteSpace(Property3Of(w.base.Context()))
              && !XWithEmptyProperty2(w.base.Context())
              && w.tm5Property4.isValid && w.tm5Property6.isValid && w.tm5Property2.isValid && w.tm5Property5.isValid
  {
    NoErrorsIffRulesHold(w.base.Context());
  }

  /** What GetErrors answers for each ruled property once the rule set has run over the
      wrapper's current state. */
  lemma GetErrorsAfterValidate(w: TestModel5Wrapper)
    requires w.base.errorStore.errors == ErrorMap(Validate(w.base.Context()))
    ensures w.base.errorStore.GetErrors(Some(Property1)) ==
              if Property1OutOfBounds(w.base.Context()) then [Property1OutOfRange] else []
    ensures w.base.errorStore.GetErrors(Some(Property2)) ==
              if XWithEmptyProperty2(w.base.Context()) then [Property2EmptyWhenX] else []
    ensures w.base.errorStore.GetErrors(Some(Property3)) ==
              if IsNullOrWhiteSpace(Property3Of(w.base.Context())) then [Property3Blank]
              else if XWithEmptyProperty2(w.base.Context()) then [Property2EmptyWhenX]
              else []
  {
    Property1Errors(w.base.Context());
    Property2Errors(w.base.Context());
    Property3Errors(w.base.Context());
  }
}
