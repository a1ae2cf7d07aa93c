/**
 * The `create_recipe_node` function-call tool: it validates the title and
 * the difficulty, builds a recipe node field by field (each optional field
 * behind its own guard), saves it, and reports the outcome. An exception
 * thrown while building (an unresolved taxonomy term) is caught before
 * anything is saved.
 */
module CreateRecipe {
  import opened Wrappers
  import opened PhpValues
  import opened TermValidation
  import opened IngredientProcessing
  import opened NodeEntity

  /** The tool's context values, as getContextValue() returns them (null when not supplied). */
  datatype RecipeArgs = RecipeArgs(
    title: Value,
    preparationTime: Value,
    cookingTime: Value,
    servings: Value,
    difficulty: Value,
    recipeCategory: Value,
    tags: Value,
    summary: Value,
    ingredients: Value,
    directions: Value)

  const TitleRequired: string := "Error: Recipe title is required."
  const DifficultyInvalid: string := "Error: Difficulty must be one of: easy, medium, hard."
  const CreateFailed: string := "Error: Failed to create recipe node. "

  const CategoryVocabulary: string := "recipe_category"
  const TagVocabulary: string := "tags"

  /** `in_array($difficulty, ['easy', 'medium', 'hard'])`, a loose comparison. */
  predicate AllowedDifficulty(d: Value) {
    NonNumericStart("easy");
    NonNumericStart("medium");
    NonNumericStart("hard");
    LooseEqualsString(d, "easy") || LooseEqualsString(d, "medium") || LooseEqualsString(d, "hard")
  }

  /** `!empty($v) && is_numeric($v)`, the guard of the three numeric fields. */
  predicate NumericArg(v: Value) {
    !IsEmpty(v) && IsNumeric(v)
  }

  /** `!empty($v) && is_array($v)`, the guard of the three list fields. */
  predicate ListArg(v: Value) {
    !IsEmpty(v) && v.Arr?
  }

  /** The values Node::create receives. */
  function InitialFields(title: Value, uid: int): Fields {
    map[Type := Plain(Str("recipe")), Title := Plain(title), Langcode := Plain(Str("en")), Uid := Plain(Int(uid))]
  }

  /** One guarded `$node->set(name, value)`. */
  function SetIf(f: Fields, guard: bool, name: FieldName, value: FieldValue): Fields {
    if guard then f[name := value] else f
  }

  /** The validated term list for one list argument; an argument that is not a non-empty array is not validated. */
  function TermsFor(v: Value, vocabulary: string, bundles: TermBundles): Result<seq<TermRef>, string> {
    if ListArg(v) then ValidatedTerms(ArrayValues(v.entries), vocabulary, bundles) else Ok([])
  }

  /** The processed ingredient list; an argument that is not a non-empty array is not processed. */
  function IngredientsFor(v: Value): seq<IngredientItem> {
    if ListArg(v) then Processed(ArrayValues(v.entries)) else []
  }

  /** The three numeric fields and the difficulty, each set behind its own guard. */
  function ScalarFields(f: Fields, a: RecipeArgs): Fields {
    var f1 := SetIf(f, NumericArg(a.preparationTime), PreparationTime, Plain(a.preparationTime));
    var f2 := SetIf(f1, NumericArg(a.cookingTime), CookingTime, Plain(a.cookingTime));
    var f3 := SetIf(f2, NumericArg(a.servings), NumberOfServings, Plain(a.servings));
    SetIf(f3, !IsEmpty(a.difficulty), Difficulty, Plain(a.difficulty))
  }

  /** The category and tag fields, each set only when its validated list is non-empty. */
  function ReferenceFields(f: Fields, categories: seq<TermRef>, tags: seq<TermRef>): Fields {
    var f1 := SetIf(f, categories != [], RecipeCategory, TermRefs(categories));
    SetIf(f1, tags != [], Tags, TermRefs(tags))
  }

  /** The summary, the ingredient list and the directions. */
  function TextFields(f: Fields, a: RecipeArgs): Fields {
    var f1 := SetIf(f, !IsEmpty(a.summary), Summary, Formatted(a.summary, "basic_html"));
    var ingredients := IngredientsFor(a.ingredients);
    var f2 := SetIf(f1, ingredients != [], IngredientList, Ingredients(ingredients));
    SetIf(f2, !IsEmpty(a.directions), RecipeInstruction, Formatted(a.directions, "full_html"))
  }

  /** The fields of the node that is saved, given the validated category and tag lists. */
  function RecipeFields(a: RecipeArgs, uid: int, categories: seq<TermRef>, tags: seq<TermRef>): Fields {
    TextFields(ReferenceFields(ScalarFields(InitialFields(a.title, uid), a), categories, tags), a)
  }

  /** How one call of execute ends. */
  datatype Outcome =
    | Rejected(message: string)   // a validation error, recorded in resultMessage; no node is created
    | Failed(reason: string)      // an exception before save; the node is not saved
    | Built(fields: Fields)       // the node with these fields is saved

  /** The outcome of execute for the given arguments, current user and term storage. */
  function RecipeOutcome(a: RecipeArgs, uid: int, bundles: TermBundles): Outcome {
    if IsEmpty(a.title) then Rejected(TitleRequired)
    else if !IsEmpty(a.difficulty) && !AllowedDifficulty(a.difficulty) then Rejected(DifficultyInvalid)
    else
      var categories := TermsFor(a.recipeCategory, CategoryVocabulary, bundles);
      var tags := TermsFor(a.tags, TagVocabulary, bundles);
      if categories.Err? then Failed(categories.error)
      else if tags.Err? then Failed(tags.error)
      else Built(RecipeFields(a, uid, categories.value, tags.value))
  }

  /** The output set after a successful save. */
  function SuccessMessage(title: Value, id: nat, url: string): string {
    "Success: Recipe \"" + ToPhpString(title) + "\" created successfully with ID: " + IntToString(id)
      + ". Node URL: " + url
  }

  /** The tool plugin, with the node storage and term storage it is given at creation. */
  class CreateRecipeNode {
    const store: NodeStore
    const termBundles: TermBundles
    var resultMessage: string
    var output: string

    constructor (store: NodeStore, termBundles: TermBundles)
      ensures this.store == store && this.termBundles == termBundles
      ensures resultMessage == "" && output == ""
    {
      this.store := store;
      this.termBundles := termBundles;
      resultMessage := "";
      output := "";
    }

    /**
     * execute(): on a validation error only resultMessage changes; on an
     * exception before save only output changes and nothing is saved; on
     * success exactly the node RecipeOutcome describes is saved.
     */
    method Execute(a: RecipeArgs, uid: int, nodeUrl: nat -> string)
      modifies this, store
      ensures match RecipeOutcome(a, uid, termBundles)
        case Rejected(message) =>
          resultMessage == message && output == old(output) && store.nodes == old(store.nodes)
        case Failed(reason) =>
          output == CreateFailed + reason && resultMessage == old(resultMessage) && store.nodes == old(store.nodes)
        case Built(fields) =>
          && store.nodes == old(store.nodes) + [fields]
          && output == SuccessMessage(a.title, |store.nodes|, nodeUrl(|store.nodes|))
          && resultMessage == old(resultMessage)
    {
      if IsEmpty(a.title) {
        resultMessage := TitleRequired;
        return;
      }
      if !IsEmpty(a.difficulty) && !AllowedDifficulty(a.difficulty) {
        resultMessage := DifficultyInvalid;
        return;
      }

      var node := new Node.Create(InitialFields(a.title, uid));
      SetScalarFields(node, a);
      var failure := SetReferenceFields(node, a);
      if failure.Some? {
        // The exception is caught here; the node is never saved.
        output := CreateFailed + failure.value;
        return;
      }
      SetTextFields(node, a);

      node.Save(store);
      var id := node.id.value;
      output := SuccessMessage(a.title, id, nodeUrl(id));
    }

    /** The guarded sets of the preparation time, cooking time, servings and difficulty. */
    method SetScalarFields(node: Node, a: RecipeArgs)
      modifies node
      ensures node.fields == ScalarFields(old(node.fields), a)
      ensures node.id == old(node.id)
    {
      if NumericArg(a.preparationTime) {
        node.Set(PreparationTime, Plain(a.preparationTime));
      }
      if NumericArg(a.cookingTime) {
        node.Set(CookingTime, Plain(a.cookingTime));
      }
      if NumericArg(a.servings) {
        node.Set(NumberOfServings, Plain(a.servings));
      }
      if !IsEmpty(a.difficulty) {
        node.Set(Difficulty, Plain(a.difficulty));
      }
    }

    /**
     * The category and tag fields. Each list argument is validated in turn;
     * the message of the first exception is returned and the remaining sets
     * are skipped.
     */
    method SetReferenceFields(node: Node, a: RecipeArgs) returns (failure: Option<string>)
      modifies node
      ensures var categories := TermsFor(a.recipeCategory, CategoryVocabulary, termBundles);
              var tags := TermsFor(a.tags, TagVocabulary, termBundles);
              if categories.Err? then failure == Some(categories.error) && node.fields == old(node.fields)
              else if tags.Err? then
                && failure == Some(tags.error)
                && node.fields == SetIf(old(node.fields), categories.value != [], RecipeCategory, TermRefs(categories.value))
              else failure == None && node.fields == ReferenceFields(old(node.fields), categories.value, tags.value)
      ensures node.id == old(node.id)
    {
      var categories: seq<TermRef> := [];
      if ListArg(a.recipeCategory) {
        var validated := ValidateTaxonomyTerms(ArrayValues(a.recipeCategory.entries), CategoryVocabulary);
        if validated.Err? {
          return Some(validated.error);
        }
        categories := validated.value;
        if categories != [] {
          node.Set(RecipeCategory, TermRefs(categories));
        }
      }
      var tags: seq<TermRef> := [];
      if ListArg(a.tags) {
        var validated := ValidateTaxonomyTerms(ArrayValues(a.tags.entries), TagVocabulary);
        if validated.Err? {
          return Some(validated.error);
        }
        tags := validated.value;
        if tags != [] {
          node.Set(Tags, TermRefs(tags));
        }
      }
      failure := None;
    }

    /** The guarded sets of the summary, the processed ingredients and the directions. */
    method SetTextFields(node: Node, a: RecipeArgs)
      modifies node
      ensures node.fields == TextFields(old(node.fields), a)
      ensures node.id == old(node.id)
    {
      if !IsEmpty(a.summary) {
        node.Set(Summary, Formatted(a.summary, "basic_html"));
      }
      if ListArg(a.ingredients) {
        var ingredients := ProcessIngredients(ArrayValues(a.ingredients.entries));
        if ingredients != [] {
          node.Set(IngredientList, Ingredients(ingredients));
        }
      }
      if !IsEmpty(a.directions) {
        node.Set(RecipeInstruction, Formatted(a.directions, "full_html"));
      }
    }

    /** validateTaxonomyTerms(termIds, vocabulary): the validated list, or the message it throws. */
    method ValidateTaxonomyTerms(termIds: seq<Value>, vocabulary: string) returns (r: Result<seq<TermRef>, string>)
      ensures r == ValidatedTerms(termIds, vocabulary, termBundles)
    {
      var validated: seq<TermRef> := [];
      var i := 0;
      while i < |termIds|
        invariant 0 <= i <= |termIds|
        invariant ValidatedTerms(termIds[..i], vocabulary, termBundles) == Ok(validated)
      {
        var termId := termIds[i];
        assert termIds[..i + 1][..i] == termIds[..i];
        if IsNumeric(termId) {
          var bundle := if termId in termBundles then Some(termBundles[termId]) else None;
          if bundle == Some(vocabulary) {
            validated := validated + [TermRef(termId)];
          } else {
            r := Err(InvalidTermMessage(termId, vocabulary));
            ValidatedTermsErrPersists(termIds, i + 1, vocabulary, termBundles);
            return;
          }
        }
        i := i + 1;
      }
      assert termIds[..i] == termIds;
      r := Ok(validated);
    }

    /** processIngredients(ingredients): the items it returns. */
    method ProcessIngredients(ingredients: seq<Value>) returns (r: seq<IngredientItem>)
      ensures r == Processed(ingredients)
    {
      r := [];
      for i := 0 to |ingredients|
        invariant r == Processed(ingredients[..i])
      {
        assert ingredients[..i + 1][..i] == ingredients[..i];
        var ingredient := ingredients[i];
        if ingredient.Arr? && Isset(ingredient, QuantityKey) && Isset(ingredient, ItemKey) {
          var text := Trim(ToPhpString(Element(ingredient, QuantityKey)) + " " + ToPhpString(Element(ingredient, ItemKey)));
          if !IsEmpty(Str(text)) {
            r := r + [IngredientItem(text)];
          }
        } else if ingredient.Str? && !IsEmpty(ingredient) {
          r := r + [IngredientItem(ingredient.s)];
        }
      }
      assert ingredients[..|ingredients|] == ingredients;
    }
  }
}
