/**
 * The content entity the recipe tool creates: a node is a map from field
 * name to field value that is built with `set` and persisted with `save`.
 */
module NodeEntity {
  import opened Wrappers
  import opened PhpValues
  import opened TermValidation
  import opened IngredientProcessing

  /** What the tool stores in a node field. */
  datatype FieldValue =
    | Plain(v: Value)                           // a scalar, stored as given
    | TermRefs(refs: seq<TermRef>)              // a list of `['target_id' => id]`
    | Ingredients(items: seq<IngredientItem>)   // a list of `['value' => text]`
    | Formatted(text: Value, format: string)    // `['value' => text, 'format' => format]`

  /** The fields of a recipe node that the tool writes. */
  datatype FieldName =
    | Type | Title | Langcode | Uid
    | PreparationTime | CookingTime | NumberOfServings | Difficulty
    | RecipeCategory | Tags | Summary | IngredientList | RecipeInstruction

  /** The machine name Drupal knows each field by. */
  function MachineName(f: FieldName): string {
    match f
    case Type => "type"
    case Title => "title"
    case Langcode => "langcode"
    case Uid => "uid"
    case PreparationTime => "field_preparation_time"
    case CookingTime => "field_cooking_time"
    case NumberOfServings => "field_number_of_servings"
    case Difficulty => "field_difficulty"
    case RecipeCategory => "field_recipe_category"
    case Tags => "field_tags"
    case Summary => "field_summary"
    case IngredientList => "field_ingredients"
    case RecipeInstruction => "field_recipe_instruction"
  }

  type Fields = map<FieldName, FieldValue>

  /** The node storage: the field maps of saved nodes, the node with id k at index k - 1. */
  class NodeStore {
    var nodes: seq<Fields>

    constructor ()
      ensures nodes == []
    {
      nodes := [];
    }
  }

  /** A node: its fields, and its id once it has been saved. */
  class Node {
    var fields: Fields
    var id: Option<nat>

    /** Node::create(values): a new, unsaved node. */
    constructor Create(values: Fields)
      ensures fields == values && id == None
    {
      fields := values;
      id := None;
    }

    /** $node->set(name, value): replaces one field and nothing else. */
    method Set(name: FieldName, value: FieldValue)
      modifies this
      ensures fields == old(fields)[name := value]
      ensures id == old(id)
    {
      fields := fields[name := value];
    }

    /** $node->save(): appends the node to the store and gives it the next id. */
    method Save(store: NodeStore)
      modifies this, store
      ensures store.nodes == old(store.nodes) + [fields]
      ensures fields == old(fields)
      ensures id == Some(|store.nodes|)
    {
      store.nodes := store.nodes + [fields];
      id := Some(|store.nodes|);
    }
  }
}
