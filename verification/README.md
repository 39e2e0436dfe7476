# Recipes, shopping lists and grade books, in Dafny

This project models two pieces of a small Python homework repository and
proves properties of them.

- **Recipe book** (`files/cooking.py`):
  - `parse_recipes` reads the lines of a recipe file into a cook book. The cook
    book maps each recipe name to its ingredients. An ingredient is a name, an
    integer quantity and a measure.
  - `get_shop_list_by_dishes` turns a list of requested dishes and a number of
    people into a shopping list. The list gives each ingredient's total
    quantity and its measure.
- **Grade book** (`objects_and_classes/src.py`):
  - Every person keeps a map from course name to a list of grades.
  - Students rate lecturers (`rate_lecture`) and reviewers rate students'
    homework (`rate_hw`). Each rating is refused unless both sides are
    attached to the course.
  - `calculate_avg_work_grade` averages one course's grades over a group of
    people.

Files:

- `wrappers.dfy`: `Option` and `Result`.
- `text.dfy` (module `Text`): the Python string operations the parser uses:
  - `str.strip()` over the ASCII whitespace set;
  - `str.split(sep)`;
  - base-10 `int()`;
  - `str(n)` as its inverse.
- `cooking.dfy` (module `Cooking`):
  - the loop of `parse_recipes`, as the method `ParseRecipes`;
  - the state machine that specifies it (`Step`, `Run`, `Parse`);
  - lemmas for each rule of the file format;
  - a write-then-read round trip.
- `shopping.dfy` (module `Shopping`):
  - the nested loops of `get_shop_list_by_dishes`, as `GetShopListByDishes`;
  - a declarative shopping list (`Aggregate`): total quantity per name, and
    the measure of the first occurrence;
  - the lemmas that connect the two.
- `grades.dfy` (module `Grades`):
  - the classes `Person`, `Student`, `Lecturer` and `Reviewer`;
  - the two rating methods, which update a grade map in place;
  - the averaging loop, with its specification functions `CourseSum`,
    `CourseCount` and `Average`.

Behaviour of the code that a reader might not expect, all modelled as written:

- Quantities may be negative: `int()` accepts a sign, and nothing checks the
  value.
- Inside a recipe, a line that contains `|` but does not split on `" | "`
  into exactly three fields makes the parse fail (`FieldCount`). Only lines
  without any `|` are skipped.
- A parse error carries the field count or the quantity text, as the
  Python `ValueError` does, and no line number.
- `get_shop_list_by_dishes` accepts any number of people, zero and negative
  numbers included, and raises no error for them.
- `int()` skips less white space than `str.strip()`: the information
  separators (code points 28 to 31) around a quantity make it unreadable.

## Model

| member | source | states |
|---|---|---|
| Text.TrimStartSuffix | files/cooking.py:32 | trimming the front removes exactly the leading run of blanks (of either whitespace set): the result is a suffix, everything removed is blank, and the result is empty or starts with a non-blank |
| Text.TrimEndPrefix | files/cooking.py:32 | trimming the back removes exactly the trailing run of blanks: the result is a prefix, everything removed is blank, and the result is empty or ends with a non-blank |
| Text.Strip | files/cooking.py:32 | no contract of its own: `str.strip()` without argument, over the ASCII whitespace set; `Text.StripSpec`, `Text.TrimStartSuffix` and `Text.TrimEndPrefix` characterise it |
| Text.StripSpec | files/cooking.py:32-33 | a stripped line is empty exactly when every character of the raw line is whitespace; otherwise it starts and ends with a non-space |
| Text.Split | files/cooking.py:41 | `split` always yields at least one field |
| Text.SplitJoin | files/cooking.py:41 | joining the fields of `split(sep)` with `sep` gives back the original line |
| Text.SplitAtFirst | files/cooking.py:41 | the first field ends at the first occurrence of the separator, and splitting continues after it |
| Text.SplitWithoutSeparator | files/cooking.py:41 | a line without the separator is a single field |
| Text.ParseInt | files/cooking.py:44 | no contract of its own: `int()` as C-locale white space, an optional sign and ASCII digits, `None` for any other text; `Text.ParseShowInt` and `Text.ParseIntKeepsSeparator` characterise it |
| Text.ParseIntKeepsSeparator | files/cooking.py:44 | `int()` does not skip the information separators that `strip()` removes: `"\x1c5"` strips to `"5"` but has no integer value, while `" 5\n"` reads as 5 |
| Text.ParseShowInt | files/cooking.py:44 | reading `ShowInt(n)` back with the modelled `int()` gives `n` for every integer, negative ones included |
| Cooking.ParseIngredient | files/cooking.py:41-46 | no contract of its own: the split into three fields and `int()` of the middle one; `Cooking.ParseIngredientSpec` characterises it |
| Cooking.ParseIngredientSpec | files/cooking.py:41-46 | an ingredient line is read exactly when it splits into three fields and the middle one is an integer. The line is then name, quantity text and measure joined by `" | "`. A field-count error is reported exactly when there are not three fields |
| Cooking.BarWithoutSeparatorRejected | files/cooking.py:37-41 | a line with `|` but without `" | "` is not skipped: unpacking it fails with one field |
| Cooking.Step | files/cooking.py:32-49 | one pass of the loop body keeps the invariant that the recipe being read has an entry in the cook book |
| Cooking.Run | files/cooking.py:31-50 | the whole loop keeps the same invariant |
| Cooking.Parse | files/cooking.py:26-51 | no contract of its own: the cook book of the state machine run over all lines, or its first error; the lemmas below state the file-format rules about it |
| Cooking.ParseRecipes | files/cooking.py:26-51 | the while loop, with its `continue` and its early failure, returns exactly the cook book or error of the line-by-line state machine |
| Cooking.RunConcat | files/cooking.py:31-50 | reading two pieces of a file one after the other is reading the whole file, and an error in the first piece ends the parse |
| Cooking.BlankLineEndsRecipe | files/cooking.py:48-49 | a blank line leaves no recipe current and the cook book unchanged, whatever came before |
| Cooking.NameWhenNoRecipe | files/cooking.py:34-36 | when no recipe is current, the next non-blank line names a recipe whatever it contains: its entry is reset to an empty list and it becomes the current recipe |
| Cooking.FirstLineNamesRecipe | files/cooking.py:28-36 | the first line of a file, when not blank, names a recipe with an empty list |
| Cooking.NameAfterBlankLine | files/cooking.py:33-49 | after a blank line, the next non-blank line names a recipe whatever it contains. That recipe's entry is reset to an empty list, and it becomes the current recipe |
| Cooking.LineWithoutBarSkipped | files/cooking.py:37-39 | inside a recipe, a non-blank line without `|` changes nothing: the file parses as if the line were absent |
| Cooking.IngredientAppended | files/cooking.py:40-47 | inside a recipe, a readable ingredient line appends the ingredient to the end of that recipe's list. No other entry changes and the recipe stays current |
| Cooking.MalformedIngredientFails | files/cooking.py:41-44 | inside a recipe, a line with `|` that is not a readable ingredient makes the whole parse fail with that line's error, whatever follows |
| Cooking.IngredientRoundTrip | files/cooking.py:41-46 | reading back the `name | quantity | measure` line of a writable ingredient (name and measure non-empty and free of `|`, the name not starting and the measure not ending with white space) gives that ingredient |
| Cooking.RunIngredients | files/cooking.py:40-47 | the ingredient lines of a block append their ingredients, in file order, to the current recipe |
| Cooking.RunRecipe | files/cooking.py:32-49 | a block for a writable recipe (a name that strip leaves unchanged, writable ingredients), made of the name, the ingredient lines and a blank line, stores the recipe under its name and leaves no recipe current |
| Cooking.ParseRender | files/cooking.py:26-51 | parsing a file written from a list of writable recipes gives back their cook book, with a later recipe of the same name replacing an earlier one |
| Cooking.CollectLastWins | files/cooking.py:34-36 | the entry kept for a name holds the ingredients of the last recipe with that name |
| Cooking.CollectKeys | files/cooking.py:34-36 | the cook book has an entry for every recipe name read, and no other |
| Shopping.FirstMeasureConcat | files/cooking.py:67-70 | later occurrences never change the measure first recorded for a name |
| Shopping.FirstMeasureNew | files/cooking.py:69-70 | the first occurrence of a name sets its measure |
| Shopping.TotalAbsent | files/cooking.py:67-70 | a name that does not occur has a total of 0 |
| Shopping.AddIngredient | files/cooking.py:64-70 | no contract of its own: one pass of the inner loop body on the list; `Shopping.AggregateSnoc` relates it to the declarative list |
| Shopping.AggregateSnoc | files/cooking.py:64-70 | one more ingredient occurrence changes the shopping list exactly as the `if name in shop_list` update does: the quantity is added to an existing entry, or a new entry is made with this measure |
| Shopping.OccurrencesPrefix | files/cooking.py:61-63 | one more requested dish adds its ingredients if the cook book knows it, and adds nothing otherwise |
| Shopping.AddAllAggregate | files/cooking.py:60-71 | applying the in-place updates one ingredient at a time yields the declarative shopping list |
| Shopping.ShopListFor | files/cooking.py:54-71 | no contract of its own: what `get_shop_list_by_dishes` returns, the declarative list of the ingredient occurrences of the requested known dishes; `Shopping.GetShopListByDishes`, `Shopping.ShopListScales`, `Shopping.RequestAddsDish` and `Shopping.UnknownDishIgnored` characterise it |
| Shopping.GetShopListByDishes | files/cooking.py:54-71 | the nested loops return the declarative shopping list. Each ingredient name of the requested known dishes appears once, with quantity times number of people summed over all its occurrences, and with the measure of its first occurrence |
| Shopping.OccurrencesConcat | files/cooking.py:61-63 | requesting two lists of dishes in a row lists the first list's ingredients, then the second's |
| Shopping.TotalConcat | files/cooking.py:67-68 | totals add up over consecutive groups of occurrences |
| Shopping.NoDishesNoList | files/cooking.py:60-61 | no dishes gives an empty shopping list |
| Shopping.UnknownDishIgnored | files/cooking.py:61-62 | a dish missing from the cook book changes nothing and raises no error, wherever it is requested |
| Shopping.RequestAddsDish | files/cooking.py:61-68 | each request of a dish adds its ingredients' quantities again, so a dish requested twice counts twice |
| Shopping.TotalLinear | files/cooking.py:65 | the total for n people is n times the total for one person |
| Shopping.ShopListScales | files/cooking.py:65-70 | the list for n people has the same names and measures as the list for one person, and n times its quantities |
| Shopping.FirstMeasureWins | files/cooking.py:67-70 | requesting more dishes never changes a name's listed measure |
| Grades.WithGrade | objects_and_classes/src.py:101-104 | no contract of its own: the grade map after one accepted rating; `Grades.WithGradeAppends` characterises it |
| Grades.WithGradeAppends | objects_and_classes/src.py:101-104 | one rating adds exactly one grade at the end of its course's list, or creates the list `[grade]`. Every other course is unchanged |
| Grades.Person.constructor | objects_and_classes/src.py:10-14 | a new person's grades are `{"": [0]}` |
| Grades.Student.constructor | objects_and_classes/src.py:70-75 | a new student has no finished or current courses. The given grades replace the placeholder |
| Grades.Lecturer.constructor | objects_and_classes/src.py:121-124 | a new lecturer has no courses attached. The given grades replace the placeholder |
| Grades.Reviewer.constructor | objects_and_classes/src.py:112-115 | a new reviewer has no courses attached and keeps the placeholder grades |
| Grades.Student.RateLecture | objects_and_classes/src.py:89-106 | succeeds (returns no error) exactly when the course is among the student's current courses and the lecturer's courses. It then adds the grade to the lecturer's grades; otherwise it returns `"Ошибка"` and changes nothing |
| Grades.Reviewer.RateHw | objects_and_classes/src.py:138-155 | succeeds exactly when the course is among the reviewer's courses and the student's current courses. It then adds the grade to the student's grades; otherwise it returns `"Ошибка"` and changes nothing |
| Grades.GradeBooks | objects_and_classes/src.py:170-172 | lists each person's grade map, in order |
| Grades.Sum | objects_and_classes/src.py:173 | no contract of its own: Python's `sum` over a list of grades; `Grades.SumBounds` and `Grades.CalculateAvgWorkGrade` characterise it |
| Grades.Average | objects_and_classes/src.py:176-178 | no contract of its own: the quotient of sum by count, or 0 when there are no grades; `Grades.AverageWithin`, `Grades.NoGradesAverageZero` and `Grades.CalculateAvgWorkGrade` characterise it |
| Grades.CalculateAvgWorkGrade | objects_and_classes/src.py:162-178 | after the loop, the running sum is the sum of all grades of the course and the running count is the number of those grades, over persons that have the course. The result is their exact quotient, or 0 when the count is 0 |
| Grades.RatingAddsToCourse | objects_and_classes/src.py:150-153 | a successful rating raises the course's sum by the grade and its count by one |
| Grades.RatingKeepsOtherCourses | objects_and_classes/src.py:150-153 | a rating leaves every other course's sum and count unchanged |
| Grades.SumBounds | objects_and_classes/src.py:173 | grades between lo and hi sum to between lo and hi times their number |
| Grades.CourseSumBounds | objects_and_classes/src.py:167-174 | the same bound holds for the accumulated sum and count |
| Grades.AverageWithin | objects_and_classes/src.py:176-177 | when every grade is between lo and hi and there is at least one, the average is also between lo and hi |
| Grades.NoGradesAverageZero | objects_and_classes/src.py:176-178 | when nobody has the course, the count is 0 and the result is 0 |

## Left out

- Reading the recipe file (`get_raw_recipes`) and the demonstration block with `pprint`: these are file and console I/O. The parser takes the file's lines as a sequence of strings.
- `str.strip()` is modelled over the ASCII whitespace characters only. The non-ASCII whitespace that Python also strips is not modelled.
- `int()` is modelled as surrounding C-locale white space (tab, line feed, vertical tab, form feed, carriage return, space), an optional sign and ASCII digits. `_` digit separators, non-ASCII digits and non-ASCII white space are not modelled.
- Text.ParseInt: the configurable limit on the number of digits that `int()` accepts is not modelled (4300 by default, see `sys.set_int_max_str_digits`). Above it `int()` raises `ValueError`, where the model reads a digit run of any length.
- Text.ParseShowInt: the round trip is about the modelled `int()` and `str()`. In Python both raise `ValueError` once `n` has more than the digit limit, so `int(str(n)) == n` holds there only below it.
- The insertion order of Python's dicts is not modelled: the cook book and the shopping list are Dafny maps, which have no order. In Python a recipe read a second time keeps its first position in the cook book, and a shopping-list entry keeps the position of the name's first occurrence. Nothing in the modelled code iterates over these dicts, but a caller that does sees that order.
- Errors are values (`Result`), not exceptions. The two `ValueError`s of `parse_recipes` become `FieldCount` and `NotAnInteger`.
- Aliasing is not modelled:
  - Python's constructors store the caller's grades dictionary itself, and `+=` changes a grade list in place.
  - The model keeps grade maps and lists as values, so two people never share a dictionary or a list.
- Inheritance is not modelled. `Student`, `Lecturer` and `Reviewer` each own a `Person` instead of deriving from it. `Mentor` is not a class of its own: its `courses_attached` is a field of `Lecturer` and `Reviewer`.
- The `isinstance` checks in the rating guards become static parameter types.
- `Person.avg_grade` and the six comparison operators are not modelled: they use floating-point division and rounding.
- The `__str__` methods are not modelled: they only format text for display.
- Grades.CalculateAvgWorkGrade: returns the exact rational quotient, not `round(total_sum / total_count, 6)`, since floating-point rounding is not modelled. It takes the persons' `Person` parts, because the Python function accepts students and lecturers alike.
