/**
 * What validateTaxonomyTerms computes: numeric ids are checked against the
 * term storage, non-numeric ids are skipped, and the first numeric id that
 * does not resolve to a term of the requested vocabulary throws.
 */
module TermValidation {
  import opened Wrappers
  import opened PhpValues

  /** A reference-field item `['target_id' => id]`. */
  datatype TermRef = TermRef(targetId: Value)

  /**
   * The term storage, seen only through what the tool asks of it: the
   * vocabulary (bundle) of the term that loads for an id, if any.
   */
  type TermBundles = map<Value, string>

  /** `$term && $term->bundle() === $vocabulary` after `$term_storage->load($id)`. */
  predicate Resolves(id: Value, vocabulary: string, bundles: TermBundles) {
    id in bundles && bundles[id] == vocabulary
  }

  /** The message of the InvalidArgumentException thrown for an unresolved id. */
  function InvalidTermMessage(id: Value, vocabulary: string): string {
    "Invalid term ID " + ToPhpString(id) + " for vocabulary " + vocabulary + "."
  }

  /** The numeric ids among ids, in input order. */
  function NumericIds(ids: seq<Value>): seq<Value> {
    if ids == [] then []
    else
      var last := ids[|ids| - 1];
      NumericIds(ids[..|ids| - 1]) + (if IsNumeric(last) then [last] else [])
  }

  /** Each id wrapped as a `target_id` item. */
  function TargetRefs(ids: seq<Value>): (refs: seq<TermRef>)
    ensures |refs| == |ids|
    ensures forall k :: 0 <= k < |ids| ==> refs[k] == TermRef(ids[k])
  {
    seq(|ids|, k requires 0 <= k < |ids| => TermRef(ids[k]))
  }

  /** The result of validateTaxonomyTerms(ids, vocabulary): the list it returns or the message it throws. */
  function ValidatedTerms(ids: seq<Value>, vocabulary: string, bundles: TermBundles): Result<seq<TermRef>, string> {
    if ids == [] then Ok([])
    else
      var before := ValidatedTerms(ids[..|ids| - 1], vocabulary, bundles);
      var id := ids[|ids| - 1];
      if before.Err? || !IsNumeric(id) then before
      else if Resolves(id, vocabulary, bundles) then Ok(before.value + [TermRef(id)])
      else Err(InvalidTermMessage(id, vocabulary))
  }

  /** Every numeric id among ids resolves to a term of the vocabulary. */
  ghost predicate AllNumericResolve(ids: seq<Value>, vocabulary: string, bundles: TermBundles) {
    forall i :: 0 <= i < |ids| && IsNumeric(ids[i]) ==> Resolves(ids[i], vocabulary, bundles)
  }

  /** ids[i] is the first numeric id that does not resolve. */
  ghost predicate FirstUnresolved(ids: seq<Value>, i: int, vocabulary: string, bundles: TermBundles) {
    && 0 <= i < |ids|
    && IsNumeric(ids[i])
    && !Resolves(ids[i], vocabulary, bundles)
    && AllNumericResolve(ids[..i], vocabulary, bundles)
  }

  // ---------------------------------------------------------------------------
  // The filter NumericIds

  /** The filter never grows its input. */
  lemma {:induction false} NumericIdsBound(ids: seq<Value>)
    ensures |NumericIds(ids)| <= |ids|
  {
    if ids != [] {
      NumericIdsBound(ids[..|ids| - 1]);
    }
  }

  /** The filter keeps exactly the numeric ids. */
  lemma {:induction false} NumericIdsMembers(ids: seq<Value>)
    ensures forall x :: x in NumericIds(ids) <==> x in ids && IsNumeric(x)
  {
    if ids != [] {
      var init := ids[..|ids| - 1];
      NumericIdsMembers(init);
      assert ids == init + [ids[|ids| - 1]];
    }
  }

  /** The filter distributes over concatenation, so it keeps the input order. */
  lemma {:induction false} NumericIdsAppend(a: seq<Value>, b: seq<Value>)
    ensures NumericIds(a + b) == NumericIds(a) + NumericIds(b)
    decreases |b|
  {
    if b == [] {
      assert a + b == a;
    } else {
      var init := b[..|b| - 1];
      NumericIdsAppend(a, init);
      assert (a + b)[..|a + b| - 1] == a + init;
    }
  }

  /** A list of numeric ids passes the filter unchanged. */
  lemma {:induction false} NumericIdsOfNumeric(ids: seq<Value>)
    requires forall k :: 0 <= k < |ids| ==> IsNumeric(ids[k])
    ensures NumericIds(ids) == ids
  {
    if ids != [] {
      NumericIdsOfNumeric(ids[..|ids| - 1]);
    }
  }

  // ---------------------------------------------------------------------------
  // The three outcomes of ValidatedTerms

  /** validateTaxonomyTerms returns (rather than throws) exactly when every numeric id resolves. */
  lemma {:induction false} ValidatedTermsOkIff(ids: seq<Value>, vocabulary: string, bundles: TermBundles)
    ensures ValidatedTerms(ids, vocabulary, bundles).Ok? <==> AllNumericResolve(ids, vocabulary, bundles)
  {
    if ids != [] {
      var n := |ids| - 1;
      var init := ids[..n];
      ValidatedTermsOkIff(init, vocabulary, bundles);
      assert forall i :: 0 <= i < n ==> init[i] == ids[i];
      if !AllNumericResolve(init, vocabulary, bundles) {
        var i :| 0 <= i < n && IsNumeric(init[i]) && !Resolves(init[i], vocabulary, bundles);
        assert IsNumeric(ids[i]) && !Resolves(ids[i], vocabulary, bundles);
      }
    }
  }

  /** When validateTaxonomyTerms returns, it returns the numeric ids in input order as `target_id` items. */
  lemma {:induction false} ValidatedTermsValue(ids: seq<Value>, vocabulary: string, bundles: TermBundles)
    ensures ValidatedTerms(ids, vocabulary, bundles).Ok? ==>
              ValidatedTerms(ids, vocabulary, bundles).value == TargetRefs(NumericIds(ids))
  {
    if ids != [] {
      ValidatedTermsValue(ids[..|ids| - 1], vocabulary, bundles);
    }
  }

  /** When validateTaxonomyTerms throws, it throws for the first numeric id that does not resolve. */
  lemma {:induction false} ValidatedTermsErr(ids: seq<Value>, vocabulary: string, bundles: TermBundles)
    requires ValidatedTerms(ids, vocabulary, bundles).Err?
    ensures exists i :: FirstUnresolved(ids, i, vocabulary, bundles)
                     && ValidatedTerms(ids, vocabulary, bundles).error == InvalidTermMessage(ids[i], vocabulary)
  {
    var n := |ids| - 1;
    var init := ids[..n];
    var before := ValidatedTerms(init, vocabulary, bundles);
    if before.Err? {
      ValidatedTermsErr(init, vocabulary, bundles);
      var i :| FirstUnresolved(init, i, vocabulary, bundles) && before.error == InvalidTermMessage(init[i], vocabulary);
      assert ids[..i] == init[..i];
      assert FirstUnresolved(ids, i, vocabulary, bundles);
    } else {
      ValidatedTermsOkIff(init, vocabulary, bundles);
      assert FirstUnresolved(ids, n, vocabulary, bundles);
    }
  }

  /** Whatever validateTaxonomyTerms returns is never longer than its input. */
  lemma ValidatedTermsBound(ids: seq<Value>, vocabulary: string, bundles: TermBundles)
    ensures ValidatedTerms(ids, vocabulary, bundles).Ok? ==> |ValidatedTerms(ids, vocabulary, bundles).value| <= |ids|
  {
    ValidatedTermsValue(ids, vocabulary, bundles);
    NumericIdsBound(ids);
  }

  /** Once a prefix has thrown, the whole list throws the same exception. */
  lemma {:induction false} ValidatedTermsErrPersists(ids: seq<Value>, i: nat, vocabulary: string, bundles: TermBundles)
    requires i <= |ids|
    requires ValidatedTerms(ids[..i], vocabulary, bundles).Err?
    ensures ValidatedTerms(ids, vocabulary, bundles) == ValidatedTerms(ids[..i], vocabulary, bundles)
    decreases |ids| - i
  {
    if i < |ids| {
      assert ids[..i + 1][..i] == ids[..i];
      ValidatedTermsErrPersists(ids, i + 1, vocabulary, bundles);
    } else {
      assert ids[..i] == ids;
    }
  }
}
