# Recipe creation tool: a Dafny model

This project models the `create_recipe_node` function-call tool of the
`dcp_ai_workshop` Drupal module. A chat agent calls it to add a Recipe
node. The tool works in four steps:

- It rejects an empty title.
- It rejects a difficulty other than easy, medium or hard.
- It builds the node field by field, each optional field behind its own guard.
- It saves the node and reports the outcome.

While building, two helpers do the work. `validateTaxonomyTerms` checks
category and tag ids against the term storage. `processIngredients` turns
the ingredient list into field items. If any exception is thrown before
`save`, it is caught, so no node is saved.

Modules:

- `PhpValues`: the PHP values the tool receives, and the built-ins it
  applies to them. These are `empty()`, `is_numeric()` (PHP 8 numeric
  strings), `isset()` on an array element, string conversion, `trim()` and
  loose `==` against a string (as used by `in_array`).
- `TermValidation`: the filter-and-check that `validateTaxonomyTerms`
  performs, as functions, with its three outcomes proved.
- `IngredientProcessing`: the filter/map that `processIngredients`
  performs, as functions, with its properties proved.
- `NodeEntity`: the node as a class. It holds a map from field name to
  value and gets an id when saved. `NodeStore` is the list of saved nodes.
- `CreateRecipe`: the plugin as a class, `CreateRecipeNode`. Its fields are
  `resultMessage` and `output`. `Execute` is an imperative method proved against the
  function `RecipeOutcome`. The loop `ValidateTaxonomyTerms` is proved
  against `ValidatedTerms`, and the loop `ProcessIngredients` against
  `Processed`.
- `RecipeProperties`: what the saved node holds, or why nothing is saved,
  stated about `RecipeOutcome`.

Three behaviours of the code are easy to miss:

- A validation error (empty title, bad difficulty) is written to
  `resultMessage`. The tool's output is not set.
- `in_array` compares loosely, so the boolean `true` passes the difficulty
  check and is stored as the difficulty.
- An ingredient entry is dropped when its trimmed text is `"0"`, as well
  as when it is empty or malformed.

## Model

| member | source | states |
|---|---|---|
| `CreateRecipe.CreateRecipeNode.Execute` | dcp_ai_workshop/src/Plugin/AiFunctionCall/CreateRecipeNode.php:122-230 | A validation error changes only `resultMessage` and saves nothing. An exception before save sets the output to "Error: Failed to create recipe node. " plus the message and saves nothing. Otherwise exactly the node `RecipeOutcome` describes is appended to the store, and the success output names the title, the new id and the URL. |
| `CreateRecipe.CreateRecipeNode.SetScalarFields` | dcp_ai_workshop/src/Plugin/AiFunctionCall/CreateRecipeNode.php:156-174 | The node's new fields are its old fields after the guarded sets of preparation time, cooking time, servings and difficulty. The id is unchanged. |
| `CreateRecipe.CreateRecipeNode.SetReferenceFields` | dcp_ai_workshop/src/Plugin/AiFunctionCall/CreateRecipeNode.php:176-190 | If category validation throws, its message is returned and no field is set. Otherwise, if tag validation throws, that message is returned and only the non-empty category list has been set. Otherwise the non-empty validated lists are set. |
| `CreateRecipe.CreateRecipeNode.SetTextFields` | dcp_ai_workshop/src/Plugin/AiFunctionCall/CreateRecipeNode.php:192-214 | The summary (basic_html), the processed ingredients and the directions (full_html) are set, each behind its guard. |
| `CreateRecipe.CreateRecipeNode.ValidateTaxonomyTerms` | dcp_ai_workshop/src/Plugin/AiFunctionCall/CreateRecipeNode.php:243-262 | The loop returns or throws exactly as `ValidatedTerms` describes. |
| `CreateRecipe.CreateRecipeNode.ProcessIngredients` | dcp_ai_workshop/src/Plugin/AiFunctionCall/CreateRecipeNode.php:273-294 | The loop returns exactly the items `Processed` describes. |
| `CreateRecipe.CreateRecipeNode.constructor` | dcp_ai_workshop/src/Plugin/AiFunctionCall/CreateRecipeNode.php:101-117 | The plugin starts with the storage it was given and an empty result message. |
| `NodeEntity.Node.Create` | dcp_ai_workshop/src/Plugin/AiFunctionCall/CreateRecipeNode.php:149-154 | A created node holds the given values and has no id. |
| `NodeEntity.Node.Set` | dcp_ai_workshop/src/Plugin/AiFunctionCall/CreateRecipeNode.php:158 | `set` replaces one field and changes nothing else. |
| `NodeEntity.Node.Save` | dcp_ai_workshop/src/Plugin/AiFunctionCall/CreateRecipeNode.php:217 | `save` appends the node's fields to the store and gives the node the next id. |
| `TermValidation.ValidatedTermsOkIff` | dcp_ai_workshop/src/Plugin/AiFunctionCall/CreateRecipeNode.php:247-259 | The validation returns, rather than throws, exactly when every numeric id loads as a term of the named vocabulary. |
| `TermValidation.ValidatedTermsValue` | dcp_ai_workshop/src/Plugin/AiFunctionCall/CreateRecipeNode.php:247-261 | When it returns, the result is exactly the numeric input ids, in input order, each as a `target_id` item. Non-numeric ids are skipped. |
| `TermValidation.ValidatedTermsErr` | dcp_ai_workshop/src/Plugin/AiFunctionCall/CreateRecipeNode.php:252-258 | When it throws, it throws for the first numeric id that does not resolve. The message is "Invalid term ID <id> for vocabulary <vocabulary>." |
| `TermValidation.ValidatedTermsBound` | dcp_ai_workshop/src/Plugin/AiFunctionCall/CreateRecipeNode.php:243-262 | The returned list is never longer than the input. |
| `TermValidation.ValidatedTermsErrPersists` | dcp_ai_workshop/src/Plugin/AiFunctionCall/CreateRecipeNode.php:257 | After a throw, the remaining ids do not change the outcome. |
| `TermValidation.NumericIdsBound` | dcp_ai_workshop/src/Plugin/AiFunctionCall/CreateRecipeNode.php:247-250 | Skipping non-numeric ids never grows the list. |
| `TermValidation.NumericIdsMembers` | dcp_ai_workshop/src/Plugin/AiFunctionCall/CreateRecipeNode.php:247-250 | An id survives the skip exactly when it is in the input and is numeric. |
| `TermValidation.NumericIdsAppend` | dcp_ai_workshop/src/Plugin/AiFunctionCall/CreateRecipeNode.php:247-250 | The skip distributes over concatenation, so input order is kept. |
| `TermValidation.NumericIdsOfNumeric` | dcp_ai_workshop/src/Plugin/AiFunctionCall/CreateRecipeNode.php:247-250 | A list of numeric ids passes unchanged. |
| `IngredientProcessing.PairText` | dcp_ai_workshop/src/Plugin/AiFunctionCall/CreateRecipeNode.php:277-285 | An entry with both `quantity` and `item` set yields "quantity item" with only trim characters removed from its ends. It yields nothing exactly when that text is "" or "0". |
| `IngredientProcessing.StringText` | dcp_ai_workshop/src/Plugin/AiFunctionCall/CreateRecipeNode.php:287-290 | A string entry yields itself unchanged unless it is "" or "0". |
| `IngredientProcessing.DroppedText` | dcp_ai_workshop/src/Plugin/AiFunctionCall/CreateRecipeNode.php:277-290 | An array missing either key, or any value that is neither an array nor a string, yields nothing. |
| `IngredientProcessing.IngredientTextShape` | dcp_ai_workshop/src/Plugin/AiFunctionCall/CreateRecipeNode.php:282-284 | Every yielded text is non-empty per `empty()`. A text from a pair starts and ends on a non-trim character. |
| `IngredientProcessing.ZeroTextTrims` | dcp_ai_workshop/src/Plugin/AiFunctionCall/CreateRecipeNode.php:282 | "0", a space and any run of trim characters trims to "0". |
| `IngredientProcessing.ZeroPairDropped` | dcp_ai_workshop/src/Plugin/AiFunctionCall/CreateRecipeNode.php:282-283 | Every pair whose quantity is "0" and whose item is only trim characters trims to "0" and is dropped. |
| `IngredientProcessing.ProcessedBound` | dcp_ai_workshop/src/Plugin/AiFunctionCall/CreateRecipeNode.php:273-294 | The output is never longer than the input. |
| `IngredientProcessing.ProcessedNonEmpty` | dcp_ai_workshop/src/Plugin/AiFunctionCall/CreateRecipeNode.php:283-289 | Every returned `value` is non-empty per `empty()`. |
| `IngredientProcessing.ProcessedAppend` | dcp_ai_workshop/src/Plugin/AiFunctionCall/CreateRecipeNode.php:276-291 | Processing goes entry by entry and keeps the input order. |
| `IngredientProcessing.ProcessedSingle` | dcp_ai_workshop/src/Plugin/AiFunctionCall/CreateRecipeNode.php:276-291 | One entry contributes at most one item: the text it yields. |
| `IngredientProcessing.ProcessedStrings` | dcp_ai_workshop/src/Plugin/AiFunctionCall/CreateRecipeNode.php:287-290 | A list of non-empty strings passes through one item per string, in order. |
| `PhpValues.TrimRightDropsTrail` | dcp_ai_workshop/src/Plugin/AiFunctionCall/CreateRecipeNode.php:282 | Trimming the right end removes exactly a tail of trim characters and stops at the first other character. |
| `PhpValues.TrimSplits` | dcp_ai_workshop/src/Plugin/AiFunctionCall/CreateRecipeNode.php:282 | `trim` removes only trim characters, only from the two ends, and leaves neither end on one. |
| `PhpValues.IntToStringIsNumeric` | dcp_ai_workshop/src/Plugin/AiFunctionCall/CreateRecipeNode.php:248 | Every printed integer is a numeric string. |
| `PhpValues.NonNumericStart` | dcp_ai_workshop/src/Plugin/AiFunctionCall/CreateRecipeNode.php:143 | A string that starts with a letter is not numeric. This is why "easy", "medium" and "hard" are compared as strings. |
| `RecipeProperties.RejectedOutcome` | dcp_ai_workshop/src/Plugin/AiFunctionCall/CreateRecipeNode.php:137-146 | An empty title is rejected first, with "Error: Recipe title is required.". Next, a non-empty difficulty that fails `in_array` is rejected with the difficulty message. No other rejection exists. |
| `RecipeProperties.AllowedDifficultyValues` | dcp_ai_workshop/src/Plugin/AiFunctionCall/CreateRecipeNode.php:143 | The loose `in_array` accepts exactly "easy", "medium", "hard" and `true`. |
| `RecipeProperties.FailedOutcome` | dcp_ai_workshop/src/Plugin/AiFunctionCall/CreateRecipeNode.php:177-190 | After validation, the call fails exactly when some numeric category id or tag id does not resolve to its vocabulary. |
| `RecipeProperties.FailedReason` | dcp_ai_workshop/src/Plugin/AiFunctionCall/CreateRecipeNode.php:226-227 | The failure reason names the first unresolved category id if there is one, and otherwise the first unresolved tag id. |
| `RecipeProperties.BuiltBaseFields` | dcp_ai_workshop/src/Plugin/AiFunctionCall/CreateRecipeNode.php:149-154 | A saved node keeps type recipe, the title, langcode en and the current user. |
| `RecipeProperties.StagesKeep` | dcp_ai_workshop/src/Plugin/AiFunctionCall/CreateRecipeNode.php:149-214 | No guarded `set` after `Node::create` changes type, title, langcode or uid. |
| `RecipeProperties.BuiltNumericFields` | dcp_ai_workshop/src/Plugin/AiFunctionCall/CreateRecipeNode.php:157-169 | Each of the three numeric fields is set exactly when its argument is non-empty and numeric, and it is set to that argument. So 0 and "0" are never stored. |
| `RecipeProperties.BuiltDifficulty` | dcp_ai_workshop/src/Plugin/AiFunctionCall/CreateRecipeNode.php:172-174 | The difficulty is stored verbatim exactly when non-empty. It is then one of the three names or `true`. |
| `RecipeProperties.BuiltReferenceFields` | dcp_ai_workshop/src/Plugin/AiFunctionCall/CreateRecipeNode.php:177-190 | The category and tag fields hold the numeric ids in order as `target_id` items. Each is set only when that list is non-empty. |
| `RecipeProperties.BuiltTextFields` | dcp_ai_workshop/src/Plugin/AiFunctionCall/CreateRecipeNode.php:192-214 | The summary is stored as basic_html and the directions as full_html, each exactly when non-empty. Ingredients are set only when the processed list is non-empty. That list is no longer than the input, and every text in it is non-empty. |
| `RecipeProperties.TitleOnlyRecipe` | dcp_ai_workshop/src/Plugin/AiFunctionCall/CreateRecipeNode.php:149-217 | A call with only a title saves a node that holds nothing but Node::create's values. |

## Left out

- Floats: `Value` has no float case, so a float argument, `is_numeric` of a float and float-to-string conversion are not modelled.
- PHP arrays keep their keys unique. `Value.Arr` does not enforce this, and `Lookup` takes the first matching key.
- The argument schema (`#[FunctionCall]`, required flags, types) is enforced by the AI framework, not by this code. Arguments arrive as `RecipeArgs`, with null for an argument that was not supplied.
- The `create()` dependency-injection factory is not modelled. The plugin receives the node store and the term storage in its constructor.
- The term storage is an abstract map from the id value passed to `load` to the vocabulary of the term it loads. Its lookup rules are not modelled.
- The current user is the `uid` parameter.
- The canonical URL of the new node is the `nodeUrl` parameter. URL generation is not modelled.
- Logging of the failure is not modelled.
- `CreateRecipe.CreateRecipeNode.Execute`: does not model an exception thrown by `Node::create`, `set` or `save` themselves. Only the exception thrown by `validateTaxonomyTerms` is modelled.
- `CreateRecipe.CreateRecipeNode.Execute`: does not model an exception from `toUrl()->toString()` after `save` (CreateRecipeNode.php:223). `nodeUrl` is a total function, so the model has no path where the node is saved but the output still reads "Error: Failed to create recipe node. …".
- `NodeEntity.Node.Save`: ids are assigned in order from 1 by the store. Drupal's real id allocation is not modelled.
- The "Array to string conversion" warning PHP emits when an array is concatenated is not modelled. Only the resulting "Array" text is.
- The entity-presave hook in dcp_ai_workshop/src/Hook/DcpAiWorkshopHooks.php is not part of this model. It exits unconditionally on its first line, and the rest of it drives the external agent framework.
- The email-campaign tool (dcp_ai_workshop/src/Plugin/AiFunctionCall/CreateEmailCampaign.php) is not part of this model. It creates and saves one node with no logic of its own.
- The cooking-instructions tool (dcp_ai_workshop/src/Plugin/AiFunctionCall/UpdateCookingInstructions.php) is not part of this model. It only checks that a node loads and encodes its argument as JSON.
