/**
 * What execute promises about the recipe node it saves, or about why it
 * saves none: the order of the validations, which fields each argument
 * sets and with what, and when an unresolved taxonomy term aborts the call.
 */
module RecipeProperties {
  import opened Wrappers
  import opened PhpValues
  import opened TermValidation
  import opened IngredientProcessing
  import opened NodeEntity
  import opened CreateRecipe

  /** The category ids execute validates, when it validates any. */
  function CategoryIds(a: RecipeArgs): seq<Value> {
    if ListArg(a.recipeCategory) then ArrayValues(a.recipeCategory.entries) else []
  }

  /** The tag ids execute validates, when it validates any. */
  function TagIds(a: RecipeArgs): seq<Value> {
    if ListArg(a.tags) then ArrayValues(a.tags.entries) else []
  }

  lemma TermsForIsValidatedTerms(v: Value, vocabulary: string, bundles: TermBundles)
    ensures TermsFor(v, vocabulary, bundles)
            == ValidatedTerms(if ListArg(v) then ArrayValues(v.entries) else [], vocabulary, bundles)
  {
  }

  // ---------------------------------------------------------------------------
  // Validation

  /**
   * The title is checked first and the difficulty second; either failure
   * ends the call with its own message and no node.
   */
  lemma RejectedOutcome(a: RecipeArgs, uid: int, bundles: TermBundles)
    ensures IsEmpty(a.title) ==> RecipeOutcome(a, uid, bundles) == Rejected(TitleRequired)
    ensures !IsEmpty(a.title) ==>
              (RecipeOutcome(a, uid, bundles) == Rejected(DifficultyInvalid)
               <==> !IsEmpty(a.difficulty) && !AllowedDifficulty(a.difficulty))
    ensures RecipeOutcome(a, uid, bundles).Rejected? ==>
              RecipeOutcome(a, uid, bundles).message in {TitleRequired, DifficultyInvalid}
  {
  }

  /**
   * The loose in_array check lets through exactly the three difficulty
   * names and the boolean true.
   */
  lemma AllowedDifficultyValues(d: Value)
    ensures AllowedDifficulty(d) <==> d in {Str("easy"), Str("medium"), Str("hard"), Bool(true)}
  {
    if d.Int? {
      IntToStringStart(d.i);
      assert "easy"[0] == 'e' && "medium"[0] == 'm' && "hard"[0] == 'h';
    }
  }

  // ---------------------------------------------------------------------------
  // The exception path

  /**
   * execute fails after validation exactly when some numeric category id or
   * some numeric tag id does not resolve to a term of its vocabulary.
   */
  lemma FailedOutcome(a: RecipeArgs, uid: int, bundles: TermBundles)
    requires !RecipeOutcome(a, uid, bundles).Rejected?
    ensures RecipeOutcome(a, uid, bundles).Failed? <==>
              || !AllNumericResolve(CategoryIds(a), CategoryVocabulary, bundles)
              || !AllNumericResolve(TagIds(a), TagVocabulary, bundles)
  {
    TermsForIsValidatedTerms(a.recipeCategory, CategoryVocabulary, bundles);
    TermsForIsValidatedTerms(a.tags, TagVocabulary, bundles);
    ValidatedTermsOkIff(CategoryIds(a), CategoryVocabulary, bundles);
    ValidatedTermsOkIff(TagIds(a), TagVocabulary, bundles);
  }

  /**
   * The failure reason names the first unresolved category id if there is
   * one, and otherwise the first unresolved tag id.
   */
  lemma FailedReason(a: RecipeArgs, uid: int, bundles: TermBundles, reason: string)
    requires RecipeOutcome(a, uid, bundles) == Failed(reason)
    ensures if !AllNumericResolve(CategoryIds(a), CategoryVocabulary, bundles) then
              exists i :: FirstUnresolved(CategoryIds(a), i, CategoryVocabulary, bundles)
                       && reason == InvalidTermMessage(CategoryIds(a)[i], CategoryVocabulary)
            else
              exists i :: FirstUnresolved(TagIds(a), i, TagVocabulary, bundles)
                       && reason == InvalidTermMessage(TagIds(a)[i], TagVocabulary)
  {
    TermsForIsValidatedTerms(a.recipeCategory, CategoryVocabulary, bundles);
    TermsForIsValidatedTerms(a.tags, TagVocabulary, bundles);
    ValidatedTermsOkIff(CategoryIds(a), CategoryVocabulary, bundles);
    if ValidatedTerms(CategoryIds(a), CategoryVocabulary, bundles).Err? {
      ValidatedTermsErr(CategoryIds(a), CategoryVocabulary, bundles);
    } else {
      ValidatedTermsErr(TagIds(a), TagVocabulary, bundles);
    }
  }

  // ---------------------------------------------------------------------------
  // The saved node

  /** Node::create's values are kept: type recipe, the title, langcode en and the current user. */
  lemma BuiltBaseFields(a: RecipeArgs, uid: int, bundles: TermBundles, f: Fields)
    requires RecipeOutcome(a, uid, bundles) == Built(f)
    ensures !IsEmpty(a.title)
    ensures Type in f && f[Type] == Plain(Str("recipe"))
    ensures Title in f && f[Title] == Plain(a.title)
    ensures Langcode in f && f[Langcode] == Plain(Str("en"))
    ensures Uid in f && f[Uid] == Plain(Int(uid))
  {
    var categories := TermsFor(a.recipeCategory, CategoryVocabulary, bundles);
    var tags := TermsFor(a.tags, TagVocabulary, bundles);
    assert f == RecipeFields(a, uid, categories.value, tags.value);
    var f0 := InitialFields(a.title, uid);
    StagesKeep(f0, a, categories.value, tags.value, Type);
    StagesKeep(f0, a, categories.value, tags.value, Title);
    StagesKeep(f0, a, categories.value, tags.value, Langcode);
    StagesKeep(f0, a, categories.value, tags.value, Uid);
  }

  /** None of the guarded sets touches a field that Node::create already holds. */
  lemma StagesKeep(f: Fields, a: RecipeArgs, categories: seq<TermRef>, tags: seq<TermRef>, k: FieldName)
    requires k in f && (k.Type? || k.Title? || k.Langcode? || k.Uid?)
    ensures var g := TextFields(ReferenceFields(ScalarFields(f, a), categories, tags), a);
            k in g && g[k] == f[k]
  {
  }

  /**
   * Each numeric field is set exactly when its argument is non-empty and
   * numeric, to that argument; so 0 and "0" are never stored.
   */
  lemma BuiltNumericFields(a: RecipeArgs, uid: int, bundles: TermBundles, f: Fields)
    requires RecipeOutcome(a, uid, bundles) == Built(f)
    ensures PreparationTime in f <==> !IsEmpty(a.preparationTime) && IsNumeric(a.preparationTime)
    ensures CookingTime in f <==> !IsEmpty(a.cookingTime) && IsNumeric(a.cookingTime)
    ensures NumberOfServings in f <==> !IsEmpty(a.servings) && IsNumeric(a.servings)
    ensures PreparationTime in f ==> f[PreparationTime] == Plain(a.preparationTime)
    ensures CookingTime in f ==> f[CookingTime] == Plain(a.cookingTime)
    ensures NumberOfServings in f ==> f[NumberOfServings] == Plain(a.servings)
    ensures forall k :: k in {PreparationTime, CookingTime, NumberOfServings} && k in f ==>
              f[k].Plain? && f[k].v != Int(0) && f[k].v != Str("0")
  {
  }

  /**
   * The difficulty is stored verbatim exactly when it is non-empty, and it
   * is then one of the three names or the boolean true.
   */
  lemma BuiltDifficulty(a: RecipeArgs, uid: int, bundles: TermBundles, f: Fields)
    requires RecipeOutcome(a, uid, bundles) == Built(f)
    ensures Difficulty in f <==> !IsEmpty(a.difficulty)
    ensures Difficulty in f ==>
              && f[Difficulty] == Plain(a.difficulty)
              && a.difficulty in {Str("easy"), Str("medium"), Str("hard"), Bool(true)}
  {
    AllowedDifficultyValues(a.difficulty);
  }

  /**
   * The category and tag fields hold the numeric ids of their arguments, in
   * order, as `target_id` items, and are set only when that list is non-empty.
   */
  lemma BuiltReferenceFields(a: RecipeArgs, uid: int, bundles: TermBundles, f: Fields)
    requires RecipeOutcome(a, uid, bundles) == Built(f)
    ensures RecipeCategory in f <==> NumericIds(CategoryIds(a)) != []
    ensures RecipeCategory in f ==> f[RecipeCategory] == TermRefs(TargetRefs(NumericIds(CategoryIds(a))))
    ensures Tags in f <==> NumericIds(TagIds(a)) != []
    ensures Tags in f ==> f[Tags] == TermRefs(TargetRefs(NumericIds(TagIds(a))))
  {
    TermsForIsValidatedTerms(a.recipeCategory, CategoryVocabulary, bundles);
    TermsForIsValidatedTerms(a.tags, TagVocabulary, bundles);
    ValidatedTermsValue(CategoryIds(a), CategoryVocabulary, bundles);
    ValidatedTermsValue(TagIds(a), TagVocabulary, bundles);
  }

  /**
   * The summary is stored with format basic_html and the directions with
   * full_html, each exactly when non-empty; the ingredient field holds the
   * processed list, only when that is non-empty, and every text in it is
   * non-empty.
   */
  lemma BuiltTextFields(a: RecipeArgs, uid: int, bundles: TermBundles, f: Fields)
    requires RecipeOutcome(a, uid, bundles) == Built(f)
    ensures Summary in f <==> !IsEmpty(a.summary)
    ensures Summary in f ==> f[Summary] == Formatted(a.summary, "basic_html")
    ensures RecipeInstruction in f <==> !IsEmpty(a.directions)
    ensures RecipeInstruction in f ==> f[RecipeInstruction] == Formatted(a.directions, "full_html")
    ensures IngredientList in f <==> ListArg(a.ingredients) && Processed(ArrayValues(a.ingredients.entries)) != []
    ensures IngredientList in f ==>
              && f[IngredientList] == Ingredients(Processed(ArrayValues(a.ingredients.entries)))
              && |f[IngredientList].items| <= |a.ingredients.entries|
              && forall k :: 0 <= k < |f[IngredientList].items| ==> !IsEmpty(Str(f[IngredientList].items[k].value))
  {
    if ListArg(a.ingredients) {
      ProcessedBound(ArrayValues(a.ingredients.entries));
      ProcessedNonEmpty(ArrayValues(a.ingredients.entries));
    }
  }

  /** A call with only a title saves a node holding nothing but Node::create's values. */
  lemma TitleOnlyRecipe(title: Value, uid: int, bundles: TermBundles)
    requires !IsEmpty(title)
    ensures RecipeOutcome(RecipeArgs(title, Null, Null, Null, Null, Null, Null, Null, Null, Null), uid, bundles)
            == Built(InitialFields(title, uid))
  {
  }
}
