/**
 * The recipe records of the REST data store and the client-side join that
 * `RecipeService.getAllRecipies` performs once the recipe, ingredient and
 * category collections have been fetched: every recipe gets the name of its
 * category and every ingredient line the name of its catalogue entry.
 */
module Recipes {
  import opened Wrappers
  import opened Seqs

  /**
   * One ingredient line of a recipe. The source declares the `Ingredient`
   * interface twice and the declarations merge, so a line has a `name` as well
   * as the catalogue `id`, the `quantity` and the `unit`.
   */
  datatype Ingredient = Ingredient(id: string, quantity: string, unit: string, name: string)

  datatype Step = Step(order: int, description: string)

  /** A recipe as the `/recipes` collection returns it (`GetRecipe`). */
  datatype RawRecipe = RawRecipe(
    id: string, userId: string, categoryId: string, name: string, description: string,
    ingredients: seq<Ingredient>, steps: seq<Step>,
    difficulty: string, cookTime: string, prepTime: string, imageURL: string)

  /** A recipe with its category name resolved (`Recipe`). */
  datatype Recipe = Recipe(
    id: string, userId: string, categoryId: string, category: string, name: string,
    description: string, ingredients: seq<Ingredient>, steps: seq<Step>,
    difficulty: string, cookTime: string, prepTime: string, imageURL: string)

  /** An entry of the `/ingredients` catalogue (`GetIngredient`). */
  datatype CatalogEntry = CatalogEntry(id: string, name: string)

  /** An entry of `/categories`; its display name is the field `category`. */
  datatype Category = Category(id: string, category: string)

  /**
   * Why the join throws: `filter(...)[0]` is `undefined` when nothing matches,
   * and reading `.category` or `.name` from it is a `TypeError`.
   */
  datatype JoinError = CategoryNotFound(categoryId: string) | IngredientNotFound(ingredientId: string)

  /** The display name of the first category whose id is `categoryId`, or `None` when there is none. */
  function ResolveCategory(categories: seq<Category>, categoryId: string): (r: Option<string>)
    ensures r.None? <==> forall k :: 0 <= k < |categories| ==> categories[k].id != categoryId
    ensures r.Some? ==> exists k :: IsFirstMatch(categories, (c: Category) => c.id == categoryId, k) &&
                                   r.value == categories[k].category
  {
    var matches := Filter(categories, (c: Category) => c.id == categoryId);
    FilterHead(categories, (c: Category) => c.id == categoryId);
    if |matches| == 0 then None else Some(matches[0].category)
  }

  /** The name of the first catalogue entry whose id is `id`, or `None` when there is none. */
  function ResolveIngredientName(catalog: seq<CatalogEntry>, id: string): (r: Option<string>)
    ensures r.None? <==> forall k :: 0 <= k < |catalog| ==> catalog[k].id != id
    ensures r.Some? ==> exists k :: IsFirstMatch(catalog, (e: CatalogEntry) => e.id == id, k) &&
                                   r.value == catalog[k].name
  {
    var matches := Filter(catalog, (e: CatalogEntry) => e.id == id);
    FilterHead(catalog, (e: CatalogEntry) => e.id == id);
    if |matches| == 0 then None else Some(matches[0].name)
  }

  /**
   * `recipe.ingredients.map(...)`: every line keeps its id, quantity and unit
   * and takes the catalogue name; the first line without a catalogue entry
   * aborts the map.
   */
  function ResolveLines(lines: seq<Ingredient>, catalog: seq<CatalogEntry>): (r: Result<seq<Ingredient>, JoinError>)
    ensures r.Success? <==> forall i :: 0 <= i < |lines| ==> ResolveIngredientName(catalog, lines[i].id).Some?
    ensures r.Success? ==>
      |r.value| == |lines| &&
      forall i :: 0 <= i < |lines| ==>
        r.value[i] == lines[i].(name := ResolveIngredientName(catalog, lines[i].id).value)
    ensures r.Failure? ==>
      exists i :: 0 <= i < |lines| && r.error == IngredientNotFound(lines[i].id) &&
        ResolveIngredientName(catalog, lines[i].id).None? &&
        forall j :: 0 <= j < i ==> ResolveIngredientName(catalog, lines[j].id).Some?
  {
    if lines == [] then Success([])
    else
      match ResolveIngredientName(catalog, lines[0].id)
      case None => Failure(IngredientNotFound(lines[0].id))
      case Some(n) =>
        match ResolveLines(lines[1..], catalog)
        case Failure(e) =>
          assert forall j :: 1 <= j < |lines| ==> lines[j] == lines[1..][j - 1];
          Failure(e)
        case Success(rest) => Success([lines[0].(name := n)] + rest)
  }

  /**
   * The object built for one recipe: the recipe's fields spread unchanged,
   * `category` resolved, and `ingredients` resolved line by line. The category
   * is looked up first, as the object literal evaluates it first.
   */
  function JoinRecipe(raw: RawRecipe, catalog: seq<CatalogEntry>, categories: seq<Category>): Result<Recipe, JoinError>
  {
    match ResolveCategory(categories, raw.categoryId)
    case None => Failure(CategoryNotFound(raw.categoryId))
    case Some(category) =>
      match ResolveLines(raw.ingredients, catalog)
      case Failure(e) => Failure(e)
      case Success(lines) =>
        Success(Recipe(raw.id, raw.userId, raw.categoryId, category, raw.name, raw.description,
                       lines, raw.steps, raw.difficulty, raw.cookTime, raw.prepTime, raw.imageURL))
  }

  /**
   * What the join promises of one recipe: it succeeds exactly when the
   * category and every ingredient line have a match; the spread copies every
   * other field; the category is that of the first matching category; the
   * lines keep their number, order, id, quantity and unit and take the name
   * of the first matching catalogue entry; a missing category is reported as
   * such.
   */
  lemma JoinRecipeResolves(raw: RawRecipe, catalog: seq<CatalogEntry>, categories: seq<Category>)
    ensures JoinRecipe(raw, catalog, categories).Success? <==>
      (exists k :: 0 <= k < |categories| && categories[k].id == raw.categoryId) &&
      forall i :: 0 <= i < |raw.ingredients| ==>
        exists k :: 0 <= k < |catalog| && catalog[k].id == raw.ingredients[i].id
    ensures JoinRecipe(raw, catalog, categories).Success? ==>
      var v := JoinRecipe(raw, catalog, categories).value;
      v.id == raw.id && v.userId == raw.userId && v.categoryId == raw.categoryId &&
      v.name == raw.name && v.description == raw.description && v.steps == raw.steps &&
      v.difficulty == raw.difficulty && v.cookTime == raw.cookTime &&
      v.prepTime == raw.prepTime && v.imageURL == raw.imageURL
    ensures JoinRecipe(raw, catalog, categories).Success? ==>
      exists k :: IsFirstMatch(categories, (c: Category) => c.id == raw.categoryId, k) &&
                  JoinRecipe(raw, catalog, categories).value.category == categories[k].category
    ensures JoinRecipe(raw, catalog, categories).Success? ==>
      var joined := JoinRecipe(raw, catalog, categories).value.ingredients;
      |joined| == |raw.ingredients| &&
      forall i :: 0 <= i < |raw.ingredients| ==>
        joined[i].id == raw.ingredients[i].id && joined[i].quantity == raw.ingredients[i].quantity &&
        joined[i].unit == raw.ingredients[i].unit &&
        exists k :: IsFirstMatch(catalog, (e: CatalogEntry) => e.id == raw.ingredients[i].id, k) &&
                    joined[i].name == catalog[k].name
    ensures JoinRecipe(raw, catalog, categories) == Failure(CategoryNotFound(raw.categoryId)) <==>
      forall k :: 0 <= k < |categories| ==> categories[k].id != raw.categoryId
  {
    var lines := ResolveLines(raw.ingredients, catalog);
    if lines.Failure? {
      var i :| 0 <= i < |raw.ingredients| && lines.error == IngredientNotFound(raw.ingredients[i].id) &&
        ResolveIngredientName(catalog, raw.ingredients[i].id).None?;
      assert lines.error != CategoryNotFound(raw.categoryId);
    }
  }

  /**
   * The `map` callback of `getAllRecipies`: one joined recipe per fetched
   * recipe, pushed in input order. A recipe whose category or ingredient is
   * missing throws, so the whole list fails with the first such miss and no
   * partial list is produced.
   */
  method GetAllRecipes(recipes: seq<RawRecipe>, catalog: seq<CatalogEntry>, categories: seq<Category>)
    returns (r: Result<seq<Recipe>, JoinError>)
    ensures r.Success? <==> forall i :: 0 <= i < |recipes| ==> JoinRecipe(recipes[i], catalog, categories).Success?
    ensures r.Success? ==>
      |r.value| == |recipes| &&
      forall i :: 0 <= i < |recipes| ==> JoinRecipe(recipes[i], catalog, categories) == Success(r.value[i])
    ensures r.Failure? ==>
      exists i :: 0 <= i < |recipes| && JoinRecipe(recipes[i], catalog, categories) == Failure(r.error) &&
        forall j :: 0 <= j < i ==> JoinRecipe(recipes[j], catalog, categories).Success?
  {
    var recipesContent: seq<Recipe> := [];
    for i := 0 to |recipes|
      invariant |recipesContent| == i
      invariant forall j :: 0 <= j < i ==> JoinRecipe(recipes[j], catalog, categories) == Success(recipesContent[j])
    {
      var formatedRecipe := JoinRecipe(recipes[i], catalog, categories);
      if formatedRecipe.Failure? {
        return Failure(formatedRecipe.error);
      }
      recipesContent := recipesContent + [formatedRecipe.value];
    }
    return Success(recipesContent);
  }
}
