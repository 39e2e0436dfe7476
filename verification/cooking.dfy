/**
 * The recipe reader of `files/cooking.py`: turns the lines of a recipe file
 * into a cook book that maps every recipe name to its ingredients.
 *
 * A recipe file is a sequence of blocks separated by blank lines. The first
 * line of a block names the recipe; each later line of the form
 * `name | quantity | measure` is one of its ingredients, and a line without a
 * `|` is ignored.
 */
module Cooking {
  import opened Wrappers
  import opened Text

  /** One ingredient of a recipe, as `parse_recipes` stores it. */
  datatype Ingredient = Ingredient(ingredientName: string, quantity: int, measure: string)

  /** Recipe name to its ingredients, in the order the file lists them. */
  type CookBook = map<string, seq<Ingredient>>

  /** Why an ingredient line could not be read; Python raises `ValueError` for
      both. */
  datatype ParseError =
    | FieldCount(found: nat)      // the line does not split into exactly three fields
    | NotAnInteger(text: string)  // the quantity field is not an integer

  const FieldSeparator := " | "

  /** Reads one stripped ingredient line: split on `" | "` into exactly three
      fields, the middle one read with `int()`. */
  function ParseIngredient(line: string): Result<Ingredient, ParseError> {
    var fields := Split(line, FieldSeparator);
    if |fields| != 3 then Err(FieldCount(|fields|))
    else match ParseInt(fields[1])
      case None => Err(NotAnInteger(fields[1]))
      case Some(q) => Ok(Ingredient(fields[0], q, fields[2]))
  }

  /** An ingredient line is read exactly when it has three fields and the
      middle one is an integer; the line is then the name, a quantity text
      that reads as the quantity, and the measure, joined by the separator. */
  lemma ParseIngredientSpec(line: string)
    ensures ParseIngredient(line).Ok? <==>
              |Split(line, FieldSeparator)| == 3 && ParseInt(Split(line, FieldSeparator)[1]).Some?
    ensures ParseIngredient(line).Ok? ==>
              var ing := ParseIngredient(line).value;
              exists q :: ParseInt(q) == Some(ing.quantity) &&
                          line == ing.ingredientName + FieldSeparator + q + FieldSeparator + ing.measure
    ensures ParseIngredient(line) == Err(FieldCount(|Split(line, FieldSeparator)|)) <==>
              |Split(line, FieldSeparator)| != 3
  {
    var fields := Split(line, FieldSeparator);
    if |fields| == 3 {
      SplitJoin(line, FieldSeparator);
      assert fields[1..][1..] == [fields[2]];
      assert Join(fields[1..], FieldSeparator) == fields[1] + FieldSeparator + fields[2];
      assert line == fields[0] + FieldSeparator + fields[1] + FieldSeparator + fields[2];
    }
  }

  /** A line that holds a `|` but never the separator `" | "` is one field,
      so it is rejected, not skipped. */
  lemma BarWithoutSeparatorRejected(line: string)
    requires forall i | 0 <= i < |line| :: !OccursAt(line, FieldSeparator, i)
    ensures ParseIngredient(line) == Err(FieldCount(1))
  {
    SplitWithoutSeparator(line, FieldSeparator);
  }

  /** `current_recipe`: either no recipe is being read, or the name of the one
      that is. */
  datatype Cursor = NoRecipe | InRecipe(name: string)

  /** The variables of the loop in `parse_recipes` other than the index. */
  datatype State = State(book: CookBook, current: Cursor)

  /** The recipe being read always has an entry in the cook book. */
  predicate Consistent(st: State) {
    st.current.InRecipe? ==> st.current.name in st.book
  }

  const Start := State(map[], NoRecipe)

  /** One pass of the loop body of `parse_recipes` over the raw line `raw`. */
  function Step(st: State, raw: string): (r: Result<State, ParseError>)
    requires Consistent(st)
    ensures r.Ok? ==> Consistent(r.value)
  {
    var line := Strip(raw);
    if line == [] then Ok(State(st.book, NoRecipe))
    else match st.current
      case NoRecipe => Ok(State(st.book[line := []], InRecipe(line)))
      case InRecipe(name) =>
        if '|' !in line then Ok(st)
        else match ParseIngredient(line)
          case Err(e) => Err(e)
          case Ok(ing) => Ok(State(st.book[name := st.book[name] + [ing]], st.current))
  }

  /** The loop of `parse_recipes` run from `st` over `lines`: it stops at the
      first line that cannot be read. */
  function Run(st: State, lines: seq<string>): (r: Result<State, ParseError>)
    requires Consistent(st)
    ensures r.Ok? ==> Consistent(r.value)
    decreases |lines|
  {
    if lines == [] then Ok(st)
    else match Step(st, lines[0])
      case Err(e) => Err(e)
      case Ok(next) => Run(next, lines[1..])
  }

  /** The cook book that `parse_recipes` returns for `lines`, or the error it
      raises. */
  function Parse(lines: seq<string>): Result<CookBook, ParseError> {
    match Run(Start, lines)
    case Ok(st) => Ok(st.book)
    case Err(e) => Err(e)
  }

  /** `parse_recipes`: a single pass over the lines with an index and the name
      of the recipe being read. */
  method ParseRecipes(rawText: seq<string>) returns (r: Result<CookBook, ParseError>)
    ensures r == Parse(rawText)
  {
    var result: CookBook := map[];
    var current := NoRecipe;
    var i := 0;
    while i < |rawText|
      invariant 0 <= i <= |rawText|
      invariant Consistent(State(result, current))
      invariant Run(Start, rawText) == Run(State(result, current), rawText[i..])
      decreases |rawText| - i
    {
      assert rawText[i..][1..] == rawText[i + 1..];
      var line := Strip(rawText[i]);
      if line != [] {
        if current.NoRecipe? {
          current := InRecipe(line);
          result := result[current.name := []];
        } else if '|' !in line {
          i := i + 1;
          continue;
        } else {
          var parsed := ParseIngredient(line);
          if parsed.Err? {
            return Err(parsed.error);
          }
          result := result[current.name := result[current.name] + [parsed.value]];
        }
      } else {
        current := NoRecipe;
      }
      i := i + 1;
    }
    return Ok(result);
  }

  /** Passes the lines that follow to the run when it has not failed. */
  function Continue(r: Result<State, ParseError>, lines: seq<string>): Result<State, ParseError>
    requires r.Ok? ==> Consistent(r.value)
  {
    match r
    case Err(e) => Err(e)
    case Ok(st) => Run(st, lines)
  }

  /** Running over two pieces of a file one after the other is running over
      the whole file. */
  lemma {:induction false} RunConcat(st: State, a: seq<string>, b: seq<string>)
    requires Consistent(st)
    ensures Run(st, a + b) == Continue(Run(st, a), b)
    decreases |a|
  {
    if a == [] {
      assert a + b == b;
    } else {
      assert (a + b)[0] == a[0] && (a + b)[1..] == a[1..] + b;
      match Step(st, a[0])
      case Err(e) =>
      case Ok(next) => RunConcat(next, a[1..], b);
    }
  }

  /** Running over a non-empty piece of a file is one step followed by the
      rest. */
  lemma RunCons(st: State, line: string, rest: seq<string>)
    requires Consistent(st)
    ensures Run(st, [line] + rest) == Continue(Step(st, line), rest)
  {
    assert ([line] + rest)[0] == line && ([line] + rest)[1..] == rest;
  }

  /** A blank line ends the recipe being read, whatever came before: no
      recipe is current afterwards and the cook book is unchanged. */
  lemma BlankLineEndsRecipe(pre: seq<string>, blank: string, book: CookBook, cursor: Cursor)
    requires Run(Start, pre) == Ok(State(book, cursor))
    requires Strip(blank) == []
    ensures Run(Start, pre + [blank]) == Ok(State(book, NoRecipe))
  {
    RunConcat(Start, pre, [blank]);
    assert [blank] + [] == [blank];
    RunCons(State(book, cursor), blank, []);
  }

  /** When no recipe is current (at the start of the file, or after a blank
      line) the next non-blank line, whatever it holds, names a recipe: its
      entry is reset to an empty list, replacing any earlier recipe of that
      name, and it becomes the current recipe. */
  lemma NameWhenNoRecipe(pre: seq<string>, line: string, book: CookBook)
    requires Run(Start, pre) == Ok(State(book, NoRecipe))
    requires Strip(line) != []
    ensures Run(Start, pre + [line]) == Ok(State(book[Strip(line) := []], InRecipe(Strip(line))))
  {
    RunConcat(Start, pre, [line]);
    assert [line] + [] == [line];
    RunCons(State(book, NoRecipe), line, []);
  }

  /** The first non-blank line of a file names a recipe. */
  lemma FirstLineNamesRecipe(line: string)
    requires Strip(line) != []
    ensures Run(Start, [line]) == Ok(State(map[Strip(line) := []], InRecipe(Strip(line))))
  {
    NameWhenNoRecipe([], line, map[]);
    assert [] + [line] == [line];
  }

  /** A blank line followed by a non-blank one starts a new recipe, whatever
      came before. */
  lemma NameAfterBlankLine(pre: seq<string>, blank: string, line: string, book: CookBook, cursor: Cursor)
    requires Run(Start, pre) == Ok(State(book, cursor))
    requires Strip(blank) == [] && Strip(line) != []
    ensures Run(Start, pre + [blank, line]) == Ok(State(book[Strip(line) := []], InRecipe(Strip(line))))
  {
    BlankLineEndsRecipe(pre, blank, book, cursor);
    NameWhenNoRecipe(pre + [blank], line, book);
    assert pre + [blank] + [line] == pre + [blank, line];
  }

  /** Inside a recipe, a non-blank line without `|` is skipped: the file parses
      exactly as if the line were not there. */
  lemma LineWithoutBarSkipped(pre: seq<string>, line: string, post: seq<string>, book: CookBook, name: string)
    requires Run(Start, pre) == Ok(State(book, InRecipe(name)))
    requires Strip(line) != [] && '|' !in Strip(line)
    ensures Parse(pre + [line] + post) == Parse(pre + post)
  {
    assert pre + [line] + post == pre + ([line] + post);
    RunConcat(Start, pre, [line] + post);
    RunConcat(Start, pre, post);
    RunCons(State(book, InRecipe(name)), line, post);
  }

  /** Inside a recipe, a readable ingredient line appends its ingredient to the
      end of that recipe's list; no other entry of the cook book changes and
      the recipe stays open. */
  lemma IngredientAppended(pre: seq<string>, line: string, book: CookBook, name: string, ing: Ingredient)
    requires Run(Start, pre) == Ok(State(book, InRecipe(name)))
    requires Strip(line) != [] && '|' in Strip(line) && ParseIngredient(Strip(line)) == Ok(ing)
    ensures name in book
    ensures Run(Start, pre + [line]) == Ok(State(book[name := book[name] + [ing]], InRecipe(name)))
  {
    RunConcat(Start, pre, [line]);
    assert [line] + [] == [line];
    RunCons(State(book, InRecipe(name)), line, []);
  }

  /** Inside a recipe, a line with `|` that is not a readable ingredient makes
      the whole parse fail with that line's error, whatever follows it. */
  lemma MalformedIngredientFails(pre: seq<string>, line: string, post: seq<string>, book: CookBook, name: string)
    requires Run(Start, pre) == Ok(State(book, InRecipe(name)))
    requires Strip(line) != [] && '|' in Strip(line) && ParseIngredient(Strip(line)).Err?
    ensures Parse(pre + [line] + post) == Err(ParseIngredient(Strip(line)).error)
  {
    assert pre + [line] + post == pre + ([line] + post);
    RunConcat(Start, pre, [line] + post);
    RunCons(State(book, InRecipe(name)), line, post);
  }

  // ---------------------------------------------------------------------
  // Writing a cook book back as a recipe file, and reading it again.

  datatype Recipe = Recipe(name: string, ingredients: seq<Ingredient>)

  /** The recipe-file line of an ingredient. */
  function FormatIngredient(ing: Ingredient): string {
    ing.ingredientName + FieldSeparator + ShowInt(ing.quantity) + FieldSeparator + ing.measure
  }

  /** An ingredient whose line survives stripping and splitting: name and
      measure are non-empty, hold no `|`, and the line does not start or end
      with whitespace. */
  predicate Writable(ing: Ingredient) {
    && ing.ingredientName != [] && !IsSpace(ing.ingredientName[0]) && '|' !in ing.ingredientName
    && ing.measure != [] && !IsSpace(ing.measure[|ing.measure| - 1]) && '|' !in ing.measure
  }

  /** A recipe whose name is a stripped non-blank line and whose ingredients
      are all writable. */
  predicate WritableRecipe(r: Recipe) {
    r.name != [] && Strip(r.name) == r.name &&
    forall i | 0 <= i < |r.ingredients| :: Writable(r.ingredients[i])
  }

  function FormatIngredients(ings: seq<Ingredient>): seq<string> {
    if ings == [] then [] else [FormatIngredient(ings[0])] + FormatIngredients(ings[1..])
  }

  /** A recipe block: the name, one line per ingredient, then a blank line. */
  function FormatRecipe(r: Recipe): seq<string> {
    [r.name] + FormatIngredients(r.ingredients) + [""]
  }

  /** The recipe file that lists the recipes `rs` in order. */
  function Render(rs: seq<Recipe>): seq<string> {
    if rs == [] then [] else Render(rs[..|rs| - 1]) + FormatRecipe(rs[|rs| - 1])
  }

  /** The cook book the recipes `rs` stand for when listed in this order: a
      later recipe replaces an earlier one of the same name. */
  function Collect(rs: seq<Recipe>): CookBook {
    if rs == [] then map[] else Collect(rs[..|rs| - 1])[rs[|rs| - 1].name := rs[|rs| - 1].ingredients]
  }

  /** The separator cannot start inside a `|`-free text that it follows. */
  lemma NoEarlySeparator(a: string, rest: string)
    requires '|' !in a
    ensures forall i | 0 <= i < |a| :: !OccursAt(a + FieldSeparator + rest, FieldSeparator, i)
  {
    var s := a + FieldSeparator + rest;
    forall i | 0 <= i < |a|
      ensures !OccursAt(s, FieldSeparator, i)
    {
      assert s[i + 1] != '|' by {
        if i + 1 < |a| {
          assert s[i + 1] == a[i + 1];
        } else {
          assert s[i + 1] == FieldSeparator[0];
        }
      }
      if i + |FieldSeparator| <= |s| {
        assert s[i..i + |FieldSeparator|][1] == s[i + 1];
      }
    }
  }

  /** The separator does not occur in a `|`-free text. */
  lemma NoSeparator(a: string)
    requires '|' !in a
    ensures forall i | 0 <= i < |a| :: !OccursAt(a, FieldSeparator, i)
  {
    forall i | 0 <= i < |a|
      ensures !OccursAt(a, FieldSeparator, i)
    {
      if i + |FieldSeparator| <= |a| {
        assert a[i..i + |FieldSeparator|][1] == a[i + 1];
      }
    }
  }

  /** Reading back the line of a writable ingredient gives that ingredient. */
  lemma IngredientRoundTrip(ing: Ingredient)
    requires Writable(ing)
    ensures ParseIngredient(FormatIngredient(ing)) == Ok(ing)
  {
    var n, q, m := ing.ingredientName, ShowInt(ing.quantity), ing.measure;
    assert '|' !in q by {
      forall i | 0 <= i < |q| ensures q[i] != '|' { }
    }
    NoEarlySeparator(n, q + FieldSeparator + m);
    SplitAtFirst(n, FieldSeparator, q + FieldSeparator + m);
    NoEarlySeparator(q, m);
    SplitAtFirst(q, FieldSeparator, m);
    NoSeparator(m);
    SplitWithoutSeparator(m, FieldSeparator);
    ParseShowInt(ing.quantity);
    assert FormatIngredient(ing) == n + FieldSeparator + (q + FieldSeparator + m);
  }

  lemma UpdateTwice(book: CookBook, name: string, first: seq<Ingredient>, second: seq<Ingredient>)
    ensures book[name := first][name := second] == book[name := second]
  {
  }

  /** Inside a recipe, the line of a writable ingredient appends it to that
      recipe's list. */
  lemma StepIngredientLine(book: CookBook, name: string, ing: Ingredient)
    requires name in book && Writable(ing)
    ensures Step(State(book, InRecipe(name)), FormatIngredient(ing)) ==
            Ok(State(book[name := book[name] + [ing]], InRecipe(name)))
  {
    var line := FormatIngredient(ing);
    TrimUnchanged(line, StripBlanks);
    assert line[|ing.ingredientName| + 1] == '|';
    IngredientRoundTrip(ing);
  }

  /** Inside a recipe, the line of a writable ingredient followed by more
      lines: the ingredient is appended and the run goes on. */
  lemma RunIngredientLine(book: CookBook, name: string, ing: Ingredient, rest: seq<string>)
    requires name in book && Writable(ing)
    ensures Run(State(book, InRecipe(name)), [FormatIngredient(ing)] + rest) ==
            Run(State(book[name := book[name] + [ing]], InRecipe(name)), rest)
  {
    RunCons(State(book, InRecipe(name)), FormatIngredient(ing), rest);
    StepIngredientLine(book, name, ing);
  }

  /** The first ingredient line of a block is read and appended; the rest of
      the block follows. */
  lemma RunIngredientsHead(book: CookBook, name: string, ings: seq<Ingredient>, tail: seq<string>)
    requires name in book && ings != [] && Writable(ings[0])
    ensures Run(State(book, InRecipe(name)), FormatIngredients(ings) + tail) ==
            Run(State(book[name := book[name] + [ings[0]]], InRecipe(name)), FormatIngredients(ings[1..]) + tail)
  {
    var rest := FormatIngredients(ings[1..]) + tail;
    assert FormatIngredients(ings) + tail == [FormatIngredient(ings[0])] + rest;
    RunIngredientLine(book, name, ings[0], rest);
  }

  /** Appending the first ingredient, then the others, appends them all. */
  lemma AppendInTwoSteps(book: CookBook, name: string, ings: seq<Ingredient>)
    requires name in book && ings != []
    ensures var next := book[name := book[name] + [ings[0]]];
            next[name := next[name] + ings[1..]] == book[name := book[name] + ings]
  {
    assert book[name] + [ings[0]] + ings[1..] == book[name] + ings;
    UpdateTwice(book, name, book[name] + [ings[0]], book[name] + ings);
  }

  /** Inside a recipe, the lines of writable ingredients append them, in
      order, to that recipe's list. */
  lemma {:induction false} RunIngredients(book: CookBook, name: string, ings: seq<Ingredient>, tail: seq<string>)
    requires name in book
    requires forall i | 0 <= i < |ings| :: Writable(ings[i])
    ensures Run(State(book, InRecipe(name)), FormatIngredients(ings) + tail) ==
            Run(State(book[name := book[name] + ings], InRecipe(name)), tail)
    decreases |ings|
  {
    if ings == [] {
      assert book[name] + ings == book[name];
      assert book[name := book[name] + ings] == book;
      assert FormatIngredients(ings) + tail == tail;
    } else {
      var next := book[name := book[name] + [ings[0]]];
      forall i | 0 <= i < |ings[1..]| ensures Writable(ings[1..][i]) {
        assert ings[1..][i] == ings[i + 1];
      }
      RunIngredientsHead(book, name, ings, tail);
      RunIngredients(next, name, ings[1..], tail);
      AppendInTwoSteps(book, name, ings);
    }
  }

  /** A writable recipe block stores that recipe under its name and leaves no
      recipe open. */
  lemma RunRecipe(book: CookBook, r: Recipe)
    requires WritableRecipe(r)
    ensures Run(State(book, NoRecipe), FormatRecipe(r)) == Ok(State(book[r.name := r.ingredients], NoRecipe))
  {
    var started := book[r.name := []];
    var filled := book[r.name := r.ingredients];
    var body := FormatIngredients(r.ingredients) + [""];
    assert Run(State(book, NoRecipe), FormatRecipe(r)) == Run(State(started, InRecipe(r.name)), body) by {
      assert FormatRecipe(r) == [r.name] + body;
      RunCons(State(book, NoRecipe), r.name, body);
      assert Step(State(book, NoRecipe), r.name) == Ok(State(started, InRecipe(r.name)));
    }
    assert Run(State(started, InRecipe(r.name)), body) == Run(State(filled, InRecipe(r.name)), [""]) by {
      RunIngredients(started, r.name, r.ingredients, [""]);
      assert started[r.name] + r.ingredients == r.ingredients;
      UpdateTwice(book, r.name, [], r.ingredients);
    }
    assert Run(State(filled, InRecipe(r.name)), [""]) == Ok(State(filled, NoRecipe)) by {
      assert [""] == [""] + [];
      RunCons(State(filled, InRecipe(r.name)), "", []);
    }
  }

  /** Reading a written recipe file gives back the cook book of its recipes. */
  lemma {:induction false} ParseRender(rs: seq<Recipe>)
    requires forall i | 0 <= i < |rs| :: WritableRecipe(rs[i])
    ensures Run(Start, Render(rs)) == Ok(State(Collect(rs), NoRecipe))
    ensures Parse(Render(rs)) == Ok(Collect(rs))
  {
    if rs != [] {
      var init, last := rs[..|rs| - 1], rs[|rs| - 1];
      ParseRender(init);
      RunConcat(Start, Render(init), FormatRecipe(last));
      RunRecipe(Collect(init), last);
    }
  }

  /** Last wins: a recipe that no later recipe of the same name follows is
      the one the cook book keeps under that name. */
  lemma {:induction false} CollectLastWins(rs: seq<Recipe>, i: nat)
    requires i < |rs|
    requires forall j | i < j < |rs| :: rs[j].name != rs[i].name
    ensures rs[i].name in Collect(rs) && Collect(rs)[rs[i].name] == rs[i].ingredients
  {
    if i < |rs| - 1 {
      CollectLastWins(rs[..|rs| - 1], i);
    }
  }

  /** The cook book has an entry for each recipe name and for nothing else. */
  lemma {:induction false} CollectKeys(rs: seq<Recipe>)
    ensures Collect(rs).Keys == set i | 0 <= i < |rs| :: rs[i].name
  {
    if rs != [] {
      var init := rs[..|rs| - 1];
      CollectKeys(init);
      assert forall i | 0 <= i < |init| :: init[i] == rs[i];
    }
  }
}
