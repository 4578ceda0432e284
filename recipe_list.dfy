/**
 * The recipe list page (`RecipesComponent`): the joined recipes, a free-text
 * name query and a category query, and the filtered list derived from them.
 */
module RecipeList {
  import opened Wrappers
  import opened Seqs
  import opened Text
  import opened Recipes

  /** The name test: the lower-cased name contains the query as typed (the query is not lower-cased). */
  predicate NameMatches(recipe: Recipe, nameQuery: string)
  {
    Contains(Lower(recipe.name), nameQuery)
  }

  /** The category test: an empty query keeps everything, otherwise the lower-cased category must equal it. */
  predicate CategoryMatches(recipe: Recipe, categoryQuery: string)
  {
    if categoryQuery != "" then Lower(recipe.category) == categoryQuery else true
  }

  function NameTest(nameQuery: string): Recipe -> bool
  {
    (r: Recipe) => NameMatches(r, nameQuery)
  }

  function CategoryTest(categoryQuery: string): Recipe -> bool
  {
    (r: Recipe) => CategoryMatches(r, categoryQuery)
  }

  /** A recipe is shown when it passes both tests. */
  predicate Shown(recipe: Recipe, nameQuery: string, categoryQuery: string)
  {
    NameMatches(recipe, nameQuery) && CategoryMatches(recipe, categoryQuery)
  }

  function ShownTest(nameQuery: string, categoryQuery: string): Recipe -> bool
  {
    (r: Recipe) => Shown(r, nameQuery, categoryQuery)
  }

  /** The `filtered_recipes` computation: the name filter, then the category filter. */
  function Filtered(recipes: seq<Recipe>, nameQuery: string, categoryQuery: string): seq<Recipe>
  {
    Filter(Filter(recipes, NameTest(nameQuery)), CategoryTest(categoryQuery))
  }

  /**
   * The filtered list is exactly the recipes that pass both tests, in their
   * original order: a recipe is shown iff it is in the list and passes both,
   * and the shown list is a subsequence of the full list.
   */
  lemma FilteredExactly(recipes: seq<Recipe>, nameQuery: string, categoryQuery: string)
    ensures Filtered(recipes, nameQuery, categoryQuery) == Filter(recipes, ShownTest(nameQuery, categoryQuery))
    ensures IsSubsequence(Filtered(recipes, nameQuery, categoryQuery), recipes)
    ensures forall r :: r in Filtered(recipes, nameQuery, categoryQuery) <==>
                        r in recipes && Shown(r, nameQuery, categoryQuery)
    ensures forall r :: multiset(Filtered(recipes, nameQuery, categoryQuery))[r] ==
                        if Shown(r, nameQuery, categoryQuery) then multiset(recipes)[r] else 0
  {
    var both := ShownTest(nameQuery, categoryQuery);
    FilterFusion(recipes, NameTest(nameQuery), CategoryTest(categoryQuery), both);
    FilterIsSubsequence(recipes, both);
    forall r ensures r in Filtered(recipes, nameQuery, categoryQuery) <==>
                     r in recipes && Shown(r, nameQuery, categoryQuery) {
      FilterMembers(recipes, both, r);
    }
    forall r ensures multiset(Filtered(recipes, nameQuery, categoryQuery))[r] ==
                     if Shown(r, nameQuery, categoryQuery) then multiset(recipes)[r] else 0 {
      FilterCount(recipes, both, r);
    }
  }

  /** With both queries empty every recipe is shown, in order. */
  lemma NoQueryShowsAll(recipes: seq<Recipe>)
    ensures Filtered(recipes, "", "") == recipes
  {
    forall i | 0 <= i < |recipes| ensures NameTest("")(recipes[i]) {
      assert "" <= Lower(recipes[i].name)[0..];
    }
    FilterAll(recipes, NameTest(""));
    FilterAll(recipes, CategoryTest(""));
  }

  /** Setting a category query only hides recipes: the result is a subsequence of the one without it. */
  lemma CategoryQueryNarrows(recipes: seq<Recipe>, nameQuery: string, categoryQuery: string)
    ensures IsSubsequence(Filtered(recipes, nameQuery, categoryQuery), Filtered(recipes, nameQuery, ""))
    ensures |Filtered(recipes, nameQuery, categoryQuery)| <= |Filtered(recipes, nameQuery, "")|
  {
    var named := Filter(recipes, NameTest(nameQuery));
    FilterAll(named, CategoryTest(""));
    FilterIsSubsequence(named, CategoryTest(categoryQuery));
  }

  /**
   * The category query is compared as stored, not lower-cased: a query that
   * holds an ASCII capital letter matches no recipe, so the list is empty.
   */
  lemma CapitalInCategoryQueryShowsNothing(recipes: seq<Recipe>, nameQuery: string, categoryQuery: string)
    requires exists i :: 0 <= i < |categoryQuery| && IsAsciiUpper(categoryQuery[i])
    ensures Filtered(recipes, nameQuery, categoryQuery) == []
  {
    var named := Filter(recipes, NameTest(nameQuery));
    forall i | 0 <= i < |named| ensures !CategoryTest(categoryQuery)(named[i]) {
      LowerHasNoCapitals(named[i].category, categoryQuery);
    }
    FilterNone(named, CategoryTest(categoryQuery));
  }

  /** Likewise a name query with an ASCII capital letter can occur in no lower-cased name. */
  lemma CapitalInNameQueryShowsNothing(recipes: seq<Recipe>, nameQuery: string, categoryQuery: string)
    requires exists i :: 0 <= i < |nameQuery| && IsAsciiUpper(nameQuery[i])
    ensures Filtered(recipes, nameQuery, categoryQuery) == []
  {
    var j :| 0 <= j < |nameQuery| && IsAsciiUpper(nameQuery[j]);
    forall i | 0 <= i < |recipes| ensures !NameTest(nameQuery)(recipes[i]) {
      var lowered := Lower(recipes[i].name);
      if Contains(lowered, nameQuery) {
        ContainsChar(lowered, nameQuery, j);
        assert false;
      }
    }
    FilterNone(recipes, NameTest(nameQuery));
  }

  class RecipesComponent {
    var recipes: seq<Recipe>
    var recipeResearch: string
    var categoryResearch: string

    /** The signals start out as `[]`, `''` and `''`. */
    constructor ()
      ensures recipes == [] && recipeResearch == "" && categoryResearch == ""
    {
      recipes, recipeResearch, categoryResearch := [], "", "";
    }

    /** `filtered_recipes`, recomputed from the current state: the recipes both queries let through. */
    function FilteredRecipes(): (shown: seq<Recipe>)
      reads this
      ensures forall r :: r in shown <==> r in recipes && Shown(r, recipeResearch, categoryResearch)
    {
      FilteredExactly(recipes, recipeResearch, categoryResearch);
      Filtered(recipes, recipeResearch, categoryResearch)
    }

    /** The `getAllRecipies` subscription in `ngOnInit` stores the joined list. */
    method SetRecipes(joined: seq<Recipe>)
      modifies this
      ensures recipes == joined
      ensures recipeResearch == old(recipeResearch) && categoryResearch == old(categoryResearch)
    {
      recipes := joined;
    }

    /**
     * The query-parameter subscription in `ngOnInit`: a present, non-empty
     * `category` parameter is stored as it is; otherwise nothing changes.
     */
    method ApplyQueryParams(category: Option<string>)
      modifies this
      ensures category.Some? && category.value != "" ==> categoryResearch == category.value
      ensures !(category.Some? && category.value != "") ==> categoryResearch == old(categoryResearch)
      ensures recipes == old(recipes) && recipeResearch == old(recipeResearch)
    {
      if category.Some? && category.value != "" {
        categoryResearch := category.value;
      }
    }

    /** `resetFilters` clears both queries, so the whole list is shown again. */
    method ResetFilters()
      modifies this
      ensures recipeResearch == "" && categoryResearch == ""
      ensures recipes == old(recipes)
      ensures FilteredRecipes() == recipes
    {
      recipeResearch := "";
      categoryResearch := "";
      NoQueryShowsAll(recipes);
    }
  }
}
