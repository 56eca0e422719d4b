/** NotifyDataErrorInfoBase: the per-property error store behind INotifyDataErrorInfo. */
module NotifyDataErrorInfoBase {
  import opened Outcomes
  import opened Sequences

  class ErrorStore {
    /** Errors: property name to its list of messages. */
    var errors: map<string, seq<string>>
    /** The property names ErrorsChanged has been raised for, oldest first. */
    ghost var errorsChanged: seq<string>

    /** Every stored list is non-empty: the store only ever files a name with a message. */
    ghost predicate Valid()
      reads this
    {
      forall n :: n in errors ==> errors[n] != []
    }

    constructor ()
      ensures Valid() && errors == map[] && errorsChanged == []
    {
      errors := map[];
      errorsChanged := [];
    }

    /** HasErrors */
    predicate HasErrors()
      reads this
    {
      |errors| > 0
    }

    /** GetErrors: the stored list, or an empty sequence for null or for a name not filed. */
    function GetErrors(propertyName: Option<string>): (messages: seq<string>)
      reads this
      ensures propertyName.None? ==> messages == []
      ensures propertyName.Some? && propertyName.value !in errors ==> messages == []
      ensures propertyName.Some? && propertyName.value in errors ==> messages == errors[propertyName.value]
    {
      match propertyName
      case None => []
      case Some(name) => if name in errors then errors[name] else []
    }

    /** HasErrors holds exactly when some property has a message to report. */
    lemma HasErrorsIffSomeMessage()
      requires Valid()
      ensures HasErrors() <==> exists n :: GetErrors(Some(n)) != []
    {
      if HasErrors() {
        var n :| n in errors;
        assert GetErrors(Some(n)) != [];
      }
    }

    /** ClearErrors: removes every entry of a snapshot of the keys, raising ErrorsChanged once
        for each; `cleared` is the order in which they were raised. */
    method ClearErrors() returns (ghost cleared: seq<string>)
      modifies this
      ensures Valid() && errors == map[] && !HasErrors()
      ensures errorsChanged == old(errorsChanged) + cleared
      ensures NoDuplicates(cleared) && |cleared| == |old(errors)|
      ensures forall n :: n in cleared <==> n in old(errors)
    {
      var names := errors.Keys;
      cleared := [];
      while names != {}
        invariant names == errors.Keys
        invariant forall n :: n in errors ==> n in old(errors) && errors[n] == old(errors)[n]
        invariant NoDuplicates(cleared)
        invariant forall n :: n in cleared <==> n in old(errors) && n !in names
        invariant |cleared| + |names| == |old(errors)|
        invariant errorsChanged == old(errorsChanged) + cleared
        decreases names
      {
        var name :| name in names;
        errors := map n | n in errors && n != name :: errors[n];
        errorsChanged := errorsChanged + [name];
        cleared := cleared + [name];
        names := names - {name};
      }
    }
  }
}
