/**
 * The recipe creation form (`RecipeFormComponent`): seven plain controls and
 * two form arrays, the ingredient lines and the steps, edited in place. The
 * steps are renumbered `"1"`, `"2"`, ... after every addition or removal.
 */
module RecipeForm {
  import opened Wrappers
  import opened Seqs
  import opened Text

  datatype IngredientGroup = IngredientGroup(id: string, quantity: string, unit: string)

  datatype StepGroup = StepGroup(order: string, description: string)

  /** `createIngredient`: three empty, required controls. */
  function NewIngredient(): (g: IngredientGroup)
    ensures g.id == "" && g.quantity == "" && g.unit == ""
    ensures !IngredientValid(g)
  {
    IngredientGroup("", "", "")
  }

  /** `createStep`: order `'1'` (no validator) and an empty, required description. */
  function NewStep(): (s: StepGroup)
    ensures ParseInt(s.order) == Some(1) && s.description == ""
    ensures !StepValid(s)
  {
    ParseIntOfNumeral(1);
    assert IntToString(1) == "1";
    StepGroup("1", "")
  }

  /** `Validators.required` on a string control: the value is not empty. */
  predicate Required(value: string)
  {
    value != ""
  }

  predicate IngredientValid(g: IngredientGroup)
  {
    Required(g.id) && Required(g.quantity) && Required(g.unit)
  }

  predicate StepValid(s: StepGroup)
  {
    Required(s.description)
  }

  /** Step `i` carries the order `(i + 1).toString()`. */
  predicate NumberedFromOne(steps: seq<StepGroup>)
  {
    forall i :: 0 <= i < |steps| ==> steps[i].order == NatToString(i + 1)
  }

  /** Two step lists hold the same descriptions in the same positions. */
  predicate SameDescriptions(a: seq<StepGroup>, b: seq<StepGroup>)
  {
    |a| == |b| && forall i :: 0 <= i < |a| ==> a[i].description == b[i].description
  }

  /** Read as numbers, the orders of a renumbered list are exactly 1, 2, ..., n. */
  lemma NumberedOrdersReadBack(steps: seq<StepGroup>)
    requires NumberedFromOne(steps)
    ensures forall i :: 0 <= i < |steps| ==> ParseInt(steps[i].order) == Some(i + 1)
  {
    forall i | 0 <= i < |steps| ensures ParseInt(steps[i].order) == Some(i + 1) {
      ParseIntOfNumeral(i + 1);
      assert IntToString(i + 1) == NatToString(i + 1);
    }
  }

  /**
   * Renumbering is determined by the descriptions alone: two numbered lists
   * with the same descriptions are equal, so renumbering twice changes nothing.
   */
  lemma NumberingIsDetermined(a: seq<StepGroup>, b: seq<StepGroup>)
    requires NumberedFromOne(a) && NumberedFromOne(b) && SameDescriptions(a, b)
    ensures a == b
  {
  }

  /**
   * Removing the middle one of three steps leaves two steps, numbered `"1"`
   * and `"2"`, with the first and last descriptions, whatever the old orders.
   */
  lemma RemoveMiddleOfThree(old_steps: seq<StepGroup>, steps: seq<StepGroup>)
    requires |old_steps| == 3
    requires NumberedFromOne(steps) && SameDescriptions(steps, RemoveAt(old_steps, 1))
    ensures |steps| == 2
    ensures steps[0] == StepGroup("1", old_steps[0].description)
    ensures steps[1] == StepGroup("2", old_steps[2].description)
  {
    RemoveAtInRange(old_steps, 1);
    assert NatToString(1) == "1" && NatToString(2) == "2";
  }

  class RecipeFormComponent {
    var categoryId: string
    var name: string
    var description: string
    var ingredients: seq<IngredientGroup>
    var steps: seq<StepGroup>
    var difficulty: string
    var cookTime: string
    var prepTime: string
    var imageURL: string

    /** The values of the plain controls, in declaration order. */
    function Scalars(): seq<string>
      reads this
    {
      [categoryId, name, description, difficulty, cookTime, prepTime, imageURL]
    }

    /**
     * `recipeForm.valid`: every required control is filled in, in every
     * ingredient line and every step; `difficulty`, the times, the image and
     * the step orders carry no validator.
     */
    predicate FormValid()
      reads this
    {
      Required(categoryId) && Required(name) && Required(description) &&
      (forall i :: 0 <= i < |ingredients| ==> IngredientValid(ingredients[i])) &&
      (forall i :: 0 <= i < |steps| ==> StepValid(steps[i]))
    }

    /** `createForm`: empty controls, one blank ingredient line and one step numbered `'1'`. */
    constructor ()
      ensures Scalars() == ["", "", "", "", "", "", ""]
      ensures ingredients == [NewIngredient()] && steps == [NewStep()]
      ensures NumberedFromOne(steps)
      ensures !FormValid()
    {
      categoryId, name, description := "", "", "";
      ingredients := [NewIngredient()];
      steps := [NewStep()];
      difficulty, cookTime, prepTime, imageURL := "", "", "", "";
      assert NatToString(1) == "1";
    }

    /** `addIngredient`: a blank line at the end; a form with a blank line is invalid. */
    method AddIngredient()
      modifies this
      ensures ingredients == old(ingredients) + [NewIngredient()]
      ensures steps == old(steps) && Scalars() == old(Scalars())
      ensures !FormValid()
    {
      ingredients := ingredients + [NewIngredient()];
      assert !IngredientValid(ingredients[|ingredients| - 1]);
    }

    /**
     * `removeIngredient(index)`: `FormArray.removeAt`, which deletes exactly
     * one line when the index is in range and keeps the others in order.
     */
    method RemoveIngredient(index: int)
      modifies this
      ensures ingredients == RemoveAt(old(ingredients), index)
      ensures IsSubsequence(ingredients, old(ingredients))
      ensures 0 <= index < |old(ingredients)| ==>
        ingredients == old(ingredients)[..index] + old(ingredients)[index + 1..]
      ensures steps == old(steps) && Scalars() == old(Scalars())
      ensures old(FormValid()) ==> FormValid()
    {
      RemoveAtIsSubsequence(ingredients, index);
      ingredients := RemoveAt(ingredients, index);
    }

    /** `addStep`: a new empty step at the end, then every step renumbered. */
    method AddStep()
      modifies this
      ensures |steps| == |old(steps)| + 1
      ensures NumberedFromOne(steps)
      ensures SameDescriptions(steps, old(steps) + [NewStep()])
      ensures ingredients == old(ingredients) && Scalars() == old(Scalars())
      ensures !FormValid()
    {
      steps := steps + [NewStep()];
      UpdateStepOrders();
      assert !StepValid(steps[|steps| - 1]);
    }

    /** `removeStep(index)`: `FormArray.removeAt`, then every step renumbered. */
    method RemoveStep(index: int)
      modifies this
      ensures NumberedFromOne(steps)
      ensures SameDescriptions(steps, RemoveAt(old(steps), index))
      ensures ingredients == old(ingredients) && Scalars() == old(Scalars())
      ensures old(FormValid()) ==> FormValid()
    {
      RemoveAtIsSubsequence(steps, index);
      steps := RemoveAt(steps, index);
      UpdateStepOrders();
    }

    /** `updateStepOrders`: sets the order of step `i` to `(i + 1).toString()` and touches nothing else. */
    method UpdateStepOrders()
      modifies this
      ensures NumberedFromOne(steps)
      ensures SameDescriptions(steps, old(steps))
      ensures ingredients == old(ingredients) && Scalars() == old(Scalars())
      ensures old(FormValid()) ==> FormValid()
    {
      var index := 0;
      while index < |steps|
        invariant 0 <= index <= |steps| == |old(steps)|
        invariant forall k :: 0 <= k < index ==> steps[k].order == NatToString(k + 1)
        invariant forall k :: 0 <= k < |steps| ==> steps[k].description == old(steps)[k].description
        invariant ingredients == old(ingredients) && Scalars() == old(Scalars())
      {
        steps := steps[index := steps[index].(order := NatToString(index + 1))];
        index := index + 1;
      }
    }

    /**
     * `onSubmit` reports whether the form is valid, the condition under which
     * the source logs its value. It has no `modifies` clause: submitting
     * changes no control and neither array.
     */
    method OnSubmit() returns (saved: bool)
      ensures saved <==> FormValid()
    {
      saved := FormValid();
    }
  }
}
