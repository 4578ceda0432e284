# Cooking app core, modelled in Dafny

This project models the logic of a recipe-sharing Angular front end that runs in the browser. It leaves out the front end's templates and HTTP plumbing. Six pieces are modelled:

- **Recipe join** (`recipes.dfy`). `RecipeService.getAllRecipies` combines three fetched collections into denormalised `Recipe` records: the recipes, the ingredient catalogue and the categories. Each recipe takes the display name of its category. Each ingredient line takes the name of its catalogue entry. Both come from the first entry with the right id. A missing entry makes the source throw. The model returns an explicit `JoinError` for the first miss and produces no partial list.
- **Recipe list** (`recipe_list.dfy`). `RecipesComponent` holds:
  - the joined list;
  - a name query, matched as a substring of the lower-cased name;
  - a category query, compared with the lower-cased category when it is not empty;
  - the derived `filtered_recipes`;
  - `resetFilters` and the seeding of the category query from the `category` query parameter.
- **Cooking-time pipe** (`cooking_time.dfy`). Minutes, given as a number or as a string read with `parseInt`, are rendered as `N min`, `Hh` or `Hh Mmin`. Falsy values become `-`. Unparsable strings pass through unchanged. An independent reader `ReadDuration` recovers the minutes from every rendering.
- **Recipe form** (`recipe_form.dfy`). `RecipeFormComponent` has seven plain controls and two form arrays that change in place: the ingredient lines and the steps. Lines and steps can be added and removed, following `FormArray.removeAt`'s index rules. Steps are renumbered `"1".."n"` after every change. The form is valid when its required fields are filled in.
- **Session** (`session.dfy`). `AuthService` keeps the signed-in user in memory and in a `Storage` object that stands for the browser's local storage. It is built from storage and updated by `login`, `register` and `logout`. A `Valid()` invariant, kept by every operation, says that storage and memory always agree, so a reload restores the same session.
- **Registration form** (`register.dfy`). `RegisterComponent` has:
  - required and minimum-length control validators;
  - the cross-field `passwordMatchValidator`;
  - Angular's revalidation after every edit;
  - the `isLoading` / `errorMessage` transitions of `onSubmit` and of its response handlers;
  - `markFormGroupTouched`.

The shared support modules are:

- `wrappers.dfy`: `Option` and `Result`.
- `seqs.dfy`:
  - `Array.prototype.filter` as `Filter`, with its first match;
  - subsequences;
  - `FormArray.removeAt` as `RemoveAt`.
- `text.dfy`:
  - ASCII `toLowerCase`, `includes` and `length` in UTF-16 code units;
  - the decimal rendering of integers;
  - `parseInt(s, 10)`.

The join has no fallback for a missing entry and invents no placeholder: a miss fails the whole join. There is no single-recipe join in the service, so none is modelled.

## Model

| member | source | states |
|---|---|---|
| Seqs.Filter | src/app/recipe/recipes/recipes.component.ts:23-32 | the filtered list is no longer than its input, and every element it keeps is in the input and passes the test; how many times each is kept is stated by `FilterCount` |
| Seqs.FilterMembers | src/app/recipe/recipes/recipes.component.ts:23-32 | an element is in the filtered list iff it is in the input and passes the test |
| Seqs.FilterCount | src/app/recipe/recipes/recipes.component.ts:23-32 | an element that passes is kept exactly as many times as it occurs in the input, and one that fails not at all |
| Seqs.FilterIsSubsequence | src/app/recipe/recipes/recipes.component.ts:21-33 | filtering keeps the kept elements in their original relative order |
| Seqs.FilterAll | src/app/recipe/recipes/recipes.component.ts:30-31 | a filter that every element passes returns the list unchanged |
| Seqs.FilterNone | src/app/recipe/recipes/recipes.component.ts:26-32 | a filter that no element passes returns the empty list |
| Seqs.FilterFusion | src/app/recipe/recipes/recipes.component.ts:21-33 | two chained filters equal one filter by the conjunction of their tests |
| Seqs.FilterHead | src/app/shared/services/recipe.service.ts:31-38 | `filter(...)[0]` exists iff some element passes, and it is then the element at the first passing position |
| Seqs.RemovalPosition | src/app/recipe-form/recipe-form.component.ts:72 | `removeAt` deletes at a non-negative index as given; a negative index counts from the end and is clamped at 0 |
| Seqs.RemoveAt | src/app/recipe-form/recipe-form.component.ts:72 | `removeAt` shortens the list by one when the adjusted index is in range and leaves its length otherwise; which element goes is stated by the three lemmas below |
| Seqs.RemoveAtInRange | src/app/recipe-form/recipe-form.component.ts:71-73 | removing an in-range index deletes exactly that element: one fewer, earlier ones in place, later ones shifted down, same multiset minus the removed one |
| Seqs.RemoveAtIsSubsequence | src/app/recipe-form/recipe-form.component.ts:71-73 | whatever the index, `removeAt` leaves the remaining elements in their order and adds none |
| Seqs.RemoveAtPastEnd | src/app/recipe-form/recipe-form.component.ts:72 | an index at or past the end removes nothing |
| Text.LowerChar | src/app/recipe/recipes/recipes.component.ts:24 | ASCII capitals are lowered by 32 code points; every other character is kept; no capital is left |
| Text.Lower | src/app/recipe/recipes/recipes.component.ts:24 | `toLowerCase` keeps the length, leaves no ASCII capital, turns each capital into its small letter and keeps every other character in place |
| Text.LowerIdempotent | src/app/recipe/recipes/recipes.component.ts:24 | lower-casing an already lower-cased name changes nothing |
| Text.LowerHasNoCapitals | src/app/recipe/recipes/recipes.component.ts:29 | a string holding an ASCII capital is never a lower-cased string |
| Text.CodeUnits | src/app/register/register.component.ts:31-32 | a character takes two UTF-16 code units iff it lies above U+FFFF, one otherwise |
| Text.JsLength | src/app/register/register.component.ts:31-32 | JavaScript's `length` lies between the character count and twice it, and is 0 only for the empty string |
| Text.JsLengthAppend | src/app/register/register.component.ts:31-32 | the `length` of a concatenation is the sum of the lengths |
| Text.JsLengthOfBmp | src/app/register/register.component.ts:31-32 | a string of Basic Multilingual Plane characters has a `length` equal to its number of characters |
| Text.Contains | src/app/recipe/recipes/recipes.component.ts:24 | `includes`: the query occurs at some position of the string; the empty query occurs in every string (a predicate; `ContainsChar` states its consequence) |
| Text.ContainsChar | src/app/recipe/recipes/recipes.component.ts:24 | if `s.includes(q)` then every character of `q` occurs in `s` |
| Text.NatToString | src/app/recipe-form/recipe-form.component.ts:87 | the decimal rendering is a non-empty run of digits with no leading zero |
| Text.IntToString | src/app/shared/pipes/cooking-time.pipe.ts:22 | the rendering of an integer starts with a `-` or a digit |
| Text.NatToStringValue | src/app/recipe-form/recipe-form.component.ts:87 | the digits of the rendering denote the number rendered |
| Text.DigitPrefixLength | src/app/shared/pipes/cooking-time.pipe.ts:14 | the digit run at the start of a string is all digits and is followed by a non-digit or the end |
| Text.DigitPrefixOfDigits | src/app/shared/pipes/cooking-time.pipe.ts:14 | the digit run of digits followed by a non-digit is exactly those digits |
| Text.LeadingInt | src/app/shared/pipes/cooking-time.pipe.ts:14 | reading an optional sign and the digits after it consumes at least one character; `LeadingIntOfRendering` gives its value |
| Text.LeadingDigits | src/app/shared/pipes/cooking-time.pipe.ts:14 | reading the leading digits gives a non-negative number and consumes at least one character |
| Text.LeadingIntOfDigits | src/app/shared/pipes/cooking-time.pipe.ts:14 | an unsigned digit run followed by a non-digit reads as the number it denotes |
| Text.LeadingIntOfNegatedDigits | src/app/shared/pipes/cooking-time.pipe.ts:14 | a `-` before such a run negates the number read |
| Text.LeadingIntOfRendering | src/app/shared/pipes/cooking-time.pipe.ts:14 | reading the leading integer of a rendering followed by a non-digit gives the integer back, with the text that follows it |
| Text.WhitespacePrefixLength | src/app/shared/pipes/cooking-time.pipe.ts:14 | the leading run of JavaScript white space is all white space and is followed by a non-white-space character or the end |
| Text.TrimStart | src/app/shared/pipes/cooking-time.pipe.ts:14 | `parseInt` skips exactly a prefix of white space: the rest is a suffix of the input, everything removed is white space, and the rest does not start with white space |
| Text.WhitespacePrefixOfConcat | src/app/shared/pipes/cooking-time.pipe.ts:14 | white space put in front of a string lengthens its white-space prefix by exactly that much |
| Text.TrimStartSkipsWhitespace | src/app/shared/pipes/cooking-time.pipe.ts:14 | white space put in front of a string makes no difference once it is skipped |
| Text.ParseInt | src/app/shared/pipes/cooking-time.pipe.ts:14-15 | `parseInt(s, 10)`: the leading integer after the white space, `None` for `NaN`; its value is stated by the lemmas below |
| Text.ParseIntOfRendering | src/app/shared/pipes/cooking-time.pipe.ts:14-16 | `parseInt` of an integer's rendering, whatever non-digit text follows, is that integer |
| Text.ParseIntOfNumeral | src/app/shared/pipes/cooking-time.pipe.ts:14-16 | `parseInt` of an integer's rendering alone is that integer |
| Text.ParseIntAfterWhitespace | src/app/shared/pipes/cooking-time.pipe.ts:14-16 | white space before the rendering makes no difference: `parseInt` still reads the integer |
| Recipes.ResolveCategory | src/app/shared/services/recipe.service.ts:31-33 | no category iff no id matches; otherwise the `category` field of the first category with that id |
| Recipes.ResolveIngredientName | src/app/shared/services/recipe.service.ts:36-38 | no name iff no catalogue id matches; otherwise the name of the first entry with that id |
| Recipes.ResolveLines | src/app/shared/services/recipe.service.ts:34-39 | succeeds iff every line has a catalogue entry; every line then keeps its fields and takes the first-match name; otherwise reports the first line without one |
| Recipes.JoinRecipe | src/app/shared/services/recipe.service.ts:29-40 | the object built for one recipe: the spread fields, the resolved category, then the resolved lines; what it promises is stated by `JoinRecipeResolves` |
| Recipes.JoinRecipeResolves | src/app/shared/services/recipe.service.ts:29-40 | one recipe joins iff its category and every line match; the spread copies every other field; the category and line names are first matches; lines keep their number, order, id, quantity and unit; a missing category is reported iff no category matches |
| Recipes.GetAllRecipes | src/app/shared/services/recipe.service.ts:26-45 | succeeds iff every recipe joins, and then yields one joined recipe per input recipe in input order (empty for an empty input); otherwise fails as a whole with the first recipe's error |
| RecipeList.NameMatches | src/app/recipe/recipes/recipes.component.ts:23-25 | the name test: the lower-cased name contains the query as typed |
| RecipeList.CategoryMatches | src/app/recipe/recipes/recipes.component.ts:26-32 | the category test: an empty query passes every recipe; otherwise the lower-cased category must equal the query |
| RecipeList.Filtered | src/app/recipe/recipes/recipes.component.ts:21-33 | the name filter, then the category filter; what it keeps is stated by `FilteredExactly` |
| RecipeList.FilteredExactly | src/app/recipe/recipes/recipes.component.ts:21-33 | `filtered_recipes` is the subsequence of the recipes that pass both tests: shown iff in the list and matching both the name query (lower-cased name contains the query as typed) and the category query; a shown recipe is kept as often as it occurs |
| RecipeList.NoQueryShowsAll | src/app/recipe/recipes/recipes.component.ts:19-33 | with both queries empty the filtered list equals the full list |
| RecipeList.CategoryQueryNarrows | src/app/recipe/recipes/recipes.component.ts:26-32 | a category query never enlarges the list: the result is a subsequence of the result without it |
| RecipeList.CapitalInCategoryQueryShowsNothing | src/app/recipe/recipes/recipes.component.ts:28-29 | the category query is not lower-cased, so a query with an ASCII capital shows no recipe |
| RecipeList.CapitalInNameQueryShowsNothing | src/app/recipe/recipes/recipes.component.ts:23-25 | the name query is not lower-cased, so a query with an ASCII capital shows no recipe |
| RecipeList.RecipesComponent.constructor | src/app/recipe/recipes/recipes.component.ts:18-20 | the list and both queries start empty |
| RecipeList.RecipesComponent.FilteredRecipes | src/app/recipe/recipes/recipes.component.ts:21-33 | a recipe is shown iff it is in the current list and passes both current queries |
| RecipeList.RecipesComponent.SetRecipes | src/app/recipe/recipes/recipes.component.ts:37-39 | the joined list is stored; the queries are unchanged |
| RecipeList.RecipesComponent.ApplyQueryParams | src/app/recipe/recipes/recipes.component.ts:45-49 | a present, non-empty `category` parameter is stored verbatim as the category query; otherwise the query is unchanged; nothing else changes |
| RecipeList.RecipesComponent.ResetFilters | src/app/recipe/recipes/recipes.component.ts:52-55 | both queries become empty, the list is unchanged, and the filtered list is the whole list |
| CookingTime.FormatMinutes | src/app/shared/pipes/cooking-time.pipe.ts:21-28 | below 60, `"<minutes> min"`; otherwise hours and remaining minutes with `hours*60 + mins == minutes` and `mins < 60`, shown as `"<hours>h"` when `mins` is 0 and `"<hours>h <mins>min"` otherwise |
| CookingTime.Transform | src/app/shared/pipes/cooking-time.pipe.ts:8-29 | falsy input gives `-`; a non-empty string with no leading integer is returned unchanged |
| CookingTime.FormatMinutesReadsBack | src/app/shared/pipes/cooking-time.pipe.ts:21-28 | reading any rendering back with the independent reader gives the minutes rendered |
| CookingTime.TransformNumberReadsBack | src/app/shared/pipes/cooking-time.pipe.ts:17-28 | every non-zero number of minutes can be read back from the pipe's output |
| CookingTime.TransformStringReadsBack | src/app/shared/pipes/cooking-time.pipe.ts:13-28 | a string that `parseInt` reads as `m` is shown as `m` minutes |
| CookingTime.NumericStringAgrees | src/app/shared/pipes/cooking-time.pipe.ts:13-19 | a non-zero integer and its decimal string give the same output |
| CookingTime.ZeroStringIsShown | src/app/shared/pipes/cooking-time.pipe.ts:9-22 | the number 0 is falsy and shows `-`, while the string `"0"` shows `0 min` |
| CookingTime.ReadMinutesShape | src/app/shared/pipes/cooking-time.pipe.ts:22 | the `"N min"` shape reads back as N |
| CookingTime.ReadHoursShape | src/app/shared/pipes/cooking-time.pipe.ts:28 | the `"Hh"` shape reads back as H*60 |
| CookingTime.ReadHoursMinutesShape | src/app/shared/pipes/cooking-time.pipe.ts:28 | the `"Hh Mmin"` shape reads back as H*60+M |
| RecipeForm.NewIngredient | src/app/recipe-form/recipe-form.component.ts:42-48 | a new ingredient line has empty id, quantity and unit, so it is not valid |
| RecipeForm.NewStep | src/app/recipe-form/recipe-form.component.ts:50-55 | a new step's order reads as 1 and its description is empty, so it is not valid |
| RecipeForm.NumberedOrdersReadBack | src/app/recipe-form/recipe-form.component.ts:85-89 | after renumbering, step i's order reads back as the number i+1 |
| RecipeForm.NumberingIsDetermined | src/app/recipe-form/recipe-form.component.ts:85-89 | two renumbered step lists with the same descriptions are equal, so renumbering is idempotent |
| RecipeForm.RemoveMiddleOfThree | src/app/recipe-form/recipe-form.component.ts:80-89 | removing the middle of three steps leaves the first and the last description, numbered `"1"` and `"2"` |
| RecipeForm.RecipeFormComponent.FormValid | src/app/recipe-form/recipe-form.component.ts:27-55 | `recipeForm.valid`: the category, name and description, every ingredient's id, quantity and unit, and every step's description are non-empty |
| RecipeForm.RecipeFormComponent.constructor | src/app/recipe-form/recipe-form.component.ts:24-55 | empty plain controls, one blank ingredient line, one step with order `"1"`; the fresh form is invalid |
| RecipeForm.RecipeFormComponent.AddIngredient | src/app/recipe-form/recipe-form.component.ts:67-69 | one blank line is appended and the existing lines are unchanged; the form is then invalid; nothing else changes |
| RecipeForm.RecipeFormComponent.RemoveIngredient | src/app/recipe-form/recipe-form.component.ts:71-73 | the lines become `removeAt` of the old lines: for an in-range index exactly that line goes; the order of the rest is kept; a valid form stays valid; nothing else changes |
| RecipeForm.RecipeFormComponent.AddStep | src/app/recipe-form/recipe-form.component.ts:75-78 | one more step; the descriptions are the old ones plus an empty one; the orders are `"1".."n"`; the form is then invalid; nothing else changes |
| RecipeForm.RecipeFormComponent.RemoveStep | src/app/recipe-form/recipe-form.component.ts:80-83 | the descriptions are those of `removeAt` of the old steps, in order; the orders are `"1".."n"`; a valid form stays valid; nothing else changes |
| RecipeForm.RecipeFormComponent.UpdateStepOrders | src/app/recipe-form/recipe-form.component.ts:85-89 | step i gets order `(i+1).toString()`; the number of steps, the descriptions and every other control are unchanged; since `order` has no validator, a valid form stays valid |
| RecipeForm.RecipeFormComponent.OnSubmit | src/app/recipe-form/recipe-form.component.ts:95-100 | submitting only reports whether the form is valid: with no `modifies` clause it changes no control and neither array |
| Session.Storage.constructor | src/app/shared/services/auth.service.ts:25 | the stored `currentUser` entry, or none |
| Session.AuthService.IsLoggedIn | src/app/shared/services/auth.service.ts:20 | logged in iff there is a current user, and, under the session invariant, iff a user is stored |
| Session.AuthService.constructor | src/app/shared/services/auth.service.ts:24-29 | the current user is the stored user, or none when nothing is stored; storage and memory agree |
| Session.AuthService.Login | src/app/shared/services/auth.service.ts:31-58 | a non-empty answer makes its first user, password included, the current and stored user and reports success; an empty answer or a transport error reports the fixed message and changes nothing; storage and memory agree |
| Session.AuthService.Register | src/app/shared/services/auth.service.ts:60-108 | a taken name or a failed check reports its message, makes no POST and changes nothing; otherwise the new user is posted; a created user becomes the current and stored user with an empty password; a failed POST reports its message and changes nothing; storage and memory agree |
| Session.AuthService.Logout | src/app/shared/services/auth.service.ts:110-113 | the stored entry is removed and nobody is logged in |
| Session.Reload | src/app/shared/services/auth.service.ts:24-29 | a service built on the same storage as a running one has the same current user |
| Registration.OwnErrors | src/app/register/register.component.ts:31-33 | a control has no errors iff `username`/`password` have a JavaScript `length` (UTF-16 code units) of at least 3 and `confirmPassword` is non-empty |
| Registration.AstralCharacterCountsTwice | src/app/register/register.component.ts:31 | the two-character user name `"😀a"` is 3 code units long and passes `minLength(3)` |
| Registration.FormValid | src/app/register/register.component.ts:56 | `registerForm.valid`: the group and every control are free of errors; `ConsistentValidIffRules` relates it to the rules |
| Registration.PasswordMatchValidator | src/app/register/register.component.ts:39-53 | returns `{passwordMismatch}` iff both password controls exist and differ, and no error otherwise; on a mismatch `confirmPassword`'s errors become exactly `{passwordMismatch}`; otherwise no control changes |
| Registration.PasswordMatchValidatorFixed | src/app/register/register.component.ts:39-53 | the same result; on a match `confirmPassword`'s errors are its own validators' again |
| Registration.Revalidated | src/app/register/register.component.ts:31-33 | the edited control takes the new value and the errors of its own validators |
| Registration.EditAsWritten | src/app/register/register.component.ts:29-52 | Angular's update after an edit with the validator as written: the control's validators, then the group's; stated by `EditAsWrittenKeepsConsistent` and `StaleMismatchRejects` |
| Registration.Edit | src/app/register/register.component.ts:29-52 | the same update with the corrected validator; stated by `EditKeepsConsistent` |
| Registration.InitialForm | src/app/register/register.component.ts:28-37 | the form as built: empty controls validated, then the group validator run once; stated by `InitialFormConsistent` |
| Registration.InitialFormConsistent | src/app/register/register.component.ts:28-37 | the fresh form satisfies both error invariants and is invalid |
| Registration.EditKeepsConsistent | src/app/register/register.component.ts:31-52 | with the corrected validator, every edit leaves each control's errors as its own validators give them, overridden by a mismatch on `confirmPassword` |
| Registration.EditAsWrittenKeepsConsistent | src/app/register/register.component.ts:31-52 | with the validator as written every edit keeps the weaker invariant, in which a stale mismatch may remain on `confirmPassword` |
| Registration.ConsistentValidIffRules | src/app/register/register.component.ts:31-52 | with the corrected validator the form is valid iff the name and password are 3+ code units long, the confirmation is non-empty and equals the password |
| Registration.AsWrittenValidImpliesRules | src/app/register/register.component.ts:31-52 | as written, a valid form always satisfies the rules |
| Registration.StaleMismatchRejects | src/app/register/register.component.ts:43-52 | as written, name `bob`, password `abcd`, confirmation `abc`, then password `abc` satisfies the rules but leaves the form invalid |
| Registration.RegisterComponent.constructor | src/app/register/register.component.ts:23-37 | not loading, no message, the fresh form, which is invalid |
| Registration.RegisterComponent.SetValue | src/app/register/register.component.ts:29-36 | an edit revalidates the control, then the group; afterwards the form is valid iff the rules hold |
| Registration.RegisterComponent.MarkFormGroupTouched | src/app/register/register.component.ts:87-92 | every control becomes touched; values and errors are unchanged |
| Registration.RegisterComponent.OnSubmit | src/app/register/register.component.ts:55-85 | a valid form sets loading, clears the message and sends only the name and password; an invalid one sends nothing and marks every control touched |
| Registration.RegisterComponent.OnNext | src/app/register/register.component.ts:66-75 | loading stops; a failure shows the response's message when it is non-empty, the default message otherwise; a success leaves the message |
| Registration.RegisterComponent.OnError | src/app/register/register.component.ts:76-80 | loading stops and the server error message is shown |

## Left out

- HTTP transport (`HttpClient`, `combineLatest`, `switchMap`, `catchError`): fetched collections and responses are method parameters. For `login` and `register` a transport failure is the `TransportError` alternative.
- Recipes.GetAllRecipes: takes the three collections as already fetched. A failed fetch in `combineLatest`, which errors the whole stream, is not modelled.
- A `null` HTTP body (the `users &&` and `existingUsers &&` guards): bodies are always lists.
- `generateId` draws from `Math.random`: the new id is the `newId` parameter of `Register`.
- The `credentials` of `login` only shape the query: `Login` takes the query's answer.
- Angular signals and `computed` scheduling: derived values are functions of the current state.
- `localStorage` and `JSON.stringify` / `JSON.parse`: the stored entry is an `Option<User>` held by a `Storage` object. An empty-string entry, which is falsy, is the same as no entry.
- Text.Lower: `toLowerCase` is modelled on ASCII letters only, because the Unicode case mapping is not modelled.
- CookingTime.Transform: numbers are whole, unbounded minutes. Float inputs and their fractional renderings are not modelled. Neither is the loss of precision above 2^53, nor the exponent notation `${minutes}` uses from 1e21 up.
- Text.ParseInt: `parseInt` is modelled for an optional sign and decimal digits after white space. Results beyond integer precision are not modelled.
- The `categories` signal and `getAllCategories` call of `RecipesComponent`: the service does not define `getAllCategories`, and the value feeds only the template.
- The template's two-way binding of the queries: the queries are plain fields.
- The category query is stored as given, not lower-cased, so a capitalised query shows nothing (`CapitalInCategoryQueryShowsNothing`); callers that lower-case it are not modelled.
- Routing and navigation (`router.navigate`, `goBack`), `console.log` / `console.error` and `checkFormValidity`, which only logs.
- The login, header, footer, home and details pages, the recipe card and the highlight directive: presentation only. The login page's flow mirrors registration.
- Registration.RegisterComponent.SetValue: the component uses the corrected validator, so it does not reproduce the stale mismatch (see Findings).

## Findings

| source | as written | input that shows it | evidently intended | confidence | as-written member | corrected member |
|---|---|---|---|---|---|---|
| src/app/register/register.component.ts:43-52 | on a mismatch the validator sets `{passwordMismatch: true}` on `confirmPassword`; once the passwords match it returns `null` without clearing that error, and editing `password` does not rerun `confirmPassword`'s own validators | name `bob`, password `abcd`, confirmation `abc`, then password changed to `abc` | the form is valid exactly when the name and password are 3+ code units long and the confirmation is non-empty and equals the password | not executed | Registration.StaleMismatchRejects | Registration.ConsistentValidIffRules |
