/** What a rule set returns, and how ModelWrapperBase.Validate files it by property name. */
module Validation {
  import opened Values
  import opened Sequences

  /** System.ComponentModel.DataAnnotations.ValidationResult: a message and the properties it concerns. */
  datatype ValidationResult = ValidationResult(errorMessage: string, memberNames: seq<string>)

  /** What a rule set may look at: the model's current values, and the item count of each
      registered child, in registration order (0 for a nested wrapper). */
  datatype ValidationContext = ValidationContext(model: Model, childCounts: seq<nat>)

  /** Some result names the property. */
  ghost predicate Mentions(results: seq<ValidationResult>, name: string) {
    exists r :: r in results && name in r.memberNames
  }

  /** Some result names the property with this message. */
  ghost predicate Reports(results: seq<ValidationResult>, name: string, message: string) {
    exists r :: r in results && name in r.memberNames && r.errorMessage == message
  }

  /** results.SelectMany(r => r.MemberNames) */
  function MemberNames(results: seq<ValidationResult>): seq<string> {
    if |results| == 0 then []
    else MemberNames(results[..|results| - 1]) + results[|results| - 1].memberNames
  }

  /** The flattened list holds exactly the names some result mentions. */
  lemma {:induction false} MemberNamesMentions(results: seq<ValidationResult>, name: string)
    ensures name in MemberNames(results) <==> Mentions(results, name)
  {
    if |results| > 0 {
      var init := results[..|results| - 1];
      var last := results[|results| - 1];
      MemberNamesMentions(init, name);
      assert results == init + [last];
      if name in last.memberNames {
        assert last in results;
      }
      if Mentions(results, name) && name !in last.memberNames {
        var r :| r in results && name in r.memberNames;
        assert r in init;
      }
    }
  }

  /** results.Where(r => r.MemberNames.Contains(name)) */
  function Where(results: seq<ValidationResult>, name: string): (naming: seq<ValidationResult>)
    ensures forall r :: r in naming <==> r in results && name in r.memberNames
  {
    if |results| == 0 then []
    else
      var last := results[|results| - 1];
      assert results == results[..|results| - 1] + [last];
      Where(results[..|results| - 1], name) + (if name in last.memberNames then [last] else [])
  }

  /** .Select(r => r.ErrorMessage) */
  function Messages(results: seq<ValidationResult>): (messages: seq<string>)
    ensures forall m :: m in messages <==> exists r :: r in results && r.errorMessage == m
  {
    if |results| == 0 then []
    else
      var last := results[|results| - 1];
      assert results == results[..|results| - 1] + [last];
      Messages(results[..|results| - 1]) + [last.errorMessage]
  }

  /** The list Validate stores for one property: the distinct messages of the results naming it. */
  function MessagesFor(results: seq<ValidationResult>, name: string): seq<string> {
    Distinct(Messages(Where(results, name)))
  }

  /** A dictionary built by storing, for each of the first `k` keys in order, the value `f`
      gives that key. */
  function FileEach<K(==), V>(keys: seq<K>, k: nat, f: K -> V): map<K, V>
    requires k <= |keys|
  {
    if k == 0 then map[] else FileEach(keys, k - 1, f)[keys[k - 1] := f(keys[k - 1])]
  }

  /** The keys stored are the first `k` keys, each holding what `f` gives it. */
  lemma {:induction false} FileEachEntries<K, V>(keys: seq<K>, k: nat, f: K -> V, n: K)
    requires k <= |keys|
    ensures n in FileEach(keys, k, f) <==> n in keys[..k]
    ensures n in keys[..k] ==> FileEach(keys, k, f)[n] == f(n)
  {
    if k > 0 {
      FileEachEntries(keys, k - 1, f, n);
      assert keys[..k] == keys[..k - 1] + [keys[k - 1]];
    }
  }

  /** The dictionary the foreach of Validate has built after filing the first `k` names of `keys`. */
  function FiledUnder(results: seq<ValidationResult>, keys: seq<string>, k: nat): map<string, seq<string>>
    requires k <= |keys|
  {
    FileEach(keys, k, name => MessagesFor(results, name))
  }

  /** The Errors dictionary Validate leaves behind for a list of rule results: every distinct
      name the results mention, filed in order. */
  function ErrorMap(results: seq<ValidationResult>): map<string, seq<string>> {
    var names := Distinct(MemberNames(results));
    FiledUnder(results, names, |names|)
  }

  /** Filing the first `k` names gives one key per filed name, holding that name's messages. */
  lemma FiledUnderEntries(results: seq<ValidationResult>, keys: seq<string>, k: nat, n: string)
    requires k <= |keys|
    ensures n in FiledUnder(results, keys, k) <==> n in keys[..k]
    ensures n in keys[..k] ==> FiledUnder(results, keys, k)[n] == MessagesFor(results, n)
  {
    FileEachEntries(keys, k, name => MessagesFor(results, name), n);
  }

  /** A property has an entry exactly when some result names it. */
  lemma ErrorMapKeys(results: seq<ValidationResult>, name: string)
    ensures name in ErrorMap(results) <==> Mentions(results, name)
  {
    FiledUnderEntries(results, Distinct(MemberNames(results)), |Distinct(MemberNames(results))|, name);
    DistinctHasSameElements(MemberNames(results), name);
    MemberNamesMentions(results, name);
  }

  /** A property has an entry exactly when some result names it, and the entry is the
      distinct messages of those results, in order. */
  lemma ErrorMapEntry(results: seq<ValidationResult>, name: string)
    ensures name in ErrorMap(results) <==> Where(results, name) != []
    ensures name in ErrorMap(results) ==> ErrorMap(results)[name] == MessagesFor(results, name)
  {
    ErrorMapKeys(results, name);
    FiledUnderEntries(results, Distinct(MemberNames(results)), |Distinct(MemberNames(results))|, name);
    DistinctHasSameElements(MemberNames(results), name);
    MemberNamesMentions(results, name);
    if Where(results, name) != [] {
      assert Where(results, name)[0] in Where(results, name);
    }
  }

  /** Selecting the results that name a property commutes with concatenation. */
  lemma {:induction false} WhereConcat(a: seq<ValidationResult>, b: seq<ValidationResult>, name: string)
    ensures Where(a + b, name) == Where(a, name) + Where(b, name)
  {
    if |b| > 0 {
      var init, last := b[..|b| - 1], b[|b| - 1];
      var tail := if name in last.memberNames then [last] else [];
      WhereConcat(a, init, name);
      assert (a + b)[..|a + b| - 1] == a + init && (a + b)[|a + b| - 1] == last;
      assert Where(a + b, name) == Where(a + init, name) + tail;
      assert Where(b, name) == Where(init, name) + tail;
    } else {
      assert a + b == a;
    }
  }

  /** A property named by no result has no entry. */
  lemma NoEntryWithoutNamer(results: seq<ValidationResult>, name: string)
    requires Where(results, name) == []
    ensures name !in ErrorMap(results)
  {
    ErrorMapEntry(results, name);
  }

  /** A property named by exactly one result holds that result's message alone. */
  lemma EntryOfSingleNamer(results: seq<ValidationResult>, name: string, r: ValidationResult)
    requires Where(results, name) == [r]
    ensures name in ErrorMap(results) && ErrorMap(results)[name] == [r.errorMessage]
  {
    ErrorMapEntry(results, name);
    assert Messages([r]) == Messages([]) + [r.errorMessage];
    assert Distinct([r.errorMessage]) == Distinct([]) + [r.errorMessage];
  }

  /** The results of a one-element list that name a property. */
  lemma WhereSingle(r: ValidationResult, name: string)
    ensures Where([r], name) == if name in r.memberNames then [r] else []
  {
    assert [r][..0] == [];
  }

  /** Each key's list holds exactly the messages of the results naming that key. */
  lemma ErrorMapMessages(results: seq<ValidationResult>, name: string, message: string)
    requires name in ErrorMap(results)
    ensures message in ErrorMap(results)[name] <==> Reports(results, name, message)
  {
    ErrorMapKeys(results, name);
    FiledUnderEntries(results, Distinct(MemberNames(results)), |Distinct(MemberNames(results))|, name);
    DistinctHasSameElements(Messages(Where(results, name)), message);
  }

  /** Each key's list is non-empty and repeats no message. */
  lemma ErrorMapLists(results: seq<ValidationResult>, name: string)
    requires name in ErrorMap(results)
    ensures ErrorMap(results)[name] != [] && NoDuplicates(ErrorMap(results)[name])
  {
    ErrorMapKeys(results, name);
    FiledUnderEntries(results, Distinct(MemberNames(results)), |Distinct(MemberNames(results))|, name);
    var r :| r in results && name in r.memberNames;
    ErrorMapMessages(results, name, r.errorMessage);
  }

  /** Every list in the dictionary is non-empty. */
  lemma ErrorMapListsNonEmpty(results: seq<ValidationResult>)
    ensures forall n :: n in ErrorMap(results) ==> ErrorMap(results)[n] != []
  {
    forall n | n in ErrorMap(results)
      ensures ErrorMap(results)[n] != []
    {
      ErrorMapLists(results, n);
    }
  }

  /** A result naming several properties is filed, with its message, under each of them. */
  lemma FiledUnderEveryName(results: seq<ValidationResult>, r: ValidationResult, name: string)
    requires r in results && name in r.memberNames
    ensures name in ErrorMap(results) && r.errorMessage in ErrorMap(results)[name]
  {
    ErrorMapKeys(results, name);
    ErrorMapMessages(results, name, r.errorMessage);
  }

  /** The store is empty exactly when no result names a property; a result naming no property
      at all is dropped by the grouping. */
  lemma NoErrorsIffNothingNamed(results: seq<ValidationResult>)
    ensures ErrorMap(results) == map[] <==> forall r :: r in results ==> r.memberNames == []
  {
    if ErrorMap(results) == map[] {
      forall r | r in results
        ensures r.memberNames == []
      {
        if r.memberNames != [] {
          ErrorMapKeys(results, r.memberNames[0]);
        }
      }
    } else {
      var n :| n in ErrorMap(results);
      ErrorMapKeys(results, n);
      var r :| r in results && n in r.memberNames;
      assert r.memberNames != [];
    }
  }
}
