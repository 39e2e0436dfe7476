/**
 * The shopping list of `files/cooking.py`: how much of each ingredient the
 * requested dishes need for a given number of people.
 */
module Shopping {
  import opened Cooking

  /** One line of the shopping list: the total quantity and its measure. */
  datatype Entry = Entry(quantity: int, measure: string)

  /** Ingredient name to what to buy of it. */
  type ShopList = map<string, Entry>

  /** The ingredients of `dish`, or none when the cook book does not know it. */
  function DishIngredients(dish: string, book: CookBook): seq<Ingredient> {
    if dish in book then book[dish] else []
  }

  /** Every ingredient of every requested dish that the cook book knows, in
      the order of the requests; a dish requested twice is listed twice. */
  function Occurrences(dishes: seq<string>, book: CookBook): seq<Ingredient> {
    if dishes == [] then []
    else Occurrences(dishes[..|dishes| - 1], book) + DishIngredients(dishes[|dishes| - 1], book)
  }

  /** The ingredient names that occur in `occ`. */
  function Names(occ: seq<Ingredient>): set<string> {
    set i | 0 <= i < |occ| :: occ[i].ingredientName
  }

  /** The sum of `quantity * personCount` over the occurrences of `name`. */
  function Total(occ: seq<Ingredient>, name: string, personCount: int): int {
    if occ == [] then 0
    else
      var last := occ[|occ| - 1];
      Total(occ[..|occ| - 1], name, personCount) +
      (if last.ingredientName == name then last.quantity * personCount else 0)
  }

  /** The measure of the first occurrence of `name`. */
  function FirstMeasure(occ: seq<Ingredient>, name: string): string
    requires name in Names(occ)
  {
    if occ[0].ingredientName == name then occ[0].measure
    else
      var i :| 0 <= i < |occ| && occ[i].ingredientName == name;
      assert occ[1..][i - 1] == occ[i];
      FirstMeasure(occ[1..], name)
  }

  /** The shopping list for the ingredient occurrences `occ`: one entry per
      name, with the summed quantity and the measure seen first. */
  function Aggregate(occ: seq<Ingredient>, personCount: int): ShopList {
    map name | name in Names(occ) :: Entry(Total(occ, name, personCount), FirstMeasure(occ, name))
  }

  /** What `get_shop_list_by_dishes` returns. */
  function ShopListFor(dishes: seq<string>, personCount: int, book: CookBook): ShopList {
    Aggregate(Occurrences(dishes, book), personCount)
  }

  lemma {:induction false} FirstMeasureConcat(a: seq<Ingredient>, b: seq<Ingredient>, name: string)
    requires name in Names(a)
    ensures name in Names(a + b) && FirstMeasure(a + b, name) == FirstMeasure(a, name)
  {
    assert (a + b)[0] == a[0];
    var i :| 0 <= i < |a| && a[i].ingredientName == name;
    assert (a + b)[i] == a[i];
    if a[0].ingredientName != name {
      assert a[1..][i - 1] == a[i];
      assert (a + b)[1..] == a[1..] + b;
      FirstMeasureConcat(a[1..], b, name);
    }
  }

  lemma {:induction false} FirstMeasureNew(a: seq<Ingredient>, x: Ingredient)
    requires x.ingredientName !in Names(a)
    ensures x.ingredientName in Names(a + [x]) && FirstMeasure(a + [x], x.ingredientName) == x.measure
    decreases |a|
  {
    assert (a + [x])[|a|] == x;
    if a != [] {
      assert a[0].ingredientName != x.ingredientName;
      assert (a + [x])[1..] == a[1..] + [x];
      assert Names(a[1..]) <= Names(a) by {
        forall i | 0 <= i < |a[1..]| ensures a[1..][i].ingredientName in Names(a) {
          assert a[1..][i] == a[i + 1];
        }
      }
      FirstMeasureNew(a[1..], x);
    }
  }

  /** A name that does not occur adds up to nothing. */
  lemma {:induction false} TotalAbsent(occ: seq<Ingredient>, name: string, personCount: int)
    requires name !in Names(occ)
    ensures Total(occ, name, personCount) == 0
  {
    if occ != [] {
      var init := occ[..|occ| - 1];
      assert Names(init) <= Names(occ) by {
        forall i | 0 <= i < |init| ensures init[i].ingredientName in Names(occ) {
          assert init[i] == occ[i];
        }
      }
      assert occ[|occ| - 1].ingredientName in Names(occ);
      TotalAbsent(init, name, personCount);
    }
  }

  /** The update of one ingredient on a list: the quantity grows by
      `quantity * personCount` when the name is already listed, otherwise a
      new entry takes this ingredient's measure. */
  function AddIngredient(list: ShopList, x: Ingredient, personCount: int): ShopList {
    var name := x.ingredientName;
    if name in list then
      list[name := Entry(list[name].quantity + x.quantity * personCount, list[name].measure)]
    else
      list[name := Entry(x.quantity * personCount, x.measure)]
  }

  /** Adding one occurrence to the end updates exactly its name's entry in
      the aggregate. */
  lemma AggregateSnoc(occ: seq<Ingredient>, x: Ingredient, personCount: int)
    ensures Aggregate(occ + [x], personCount) == AddIngredient(Aggregate(occ, personCount), x, personCount)
  {
    var before, after := Aggregate(occ, personCount), Aggregate(occ + [x], personCount);
    var name := x.ingredientName;
    var occ' := occ + [x];
    assert occ'[..|occ'| - 1] == occ && occ'[|occ'| - 1] == x;
    assert Names(occ') == Names(occ) + {name} by {
      forall i | 0 <= i < |occ| ensures occ'[i] == occ[i] { }
      assert occ'[|occ|] == x;
    }
    if name in before {
      FirstMeasureConcat(occ, [x], name);
    } else {
      FirstMeasureNew(occ, x);
      TotalAbsent(occ, name, personCount);
    }
    var expected := AddIngredient(before, x, personCount);
    forall n | n in Names(occ')
      ensures after[n] == expected[n]
    {
      assert Total(occ', n, personCount) ==
             Total(occ, n, personCount) + (if n == name then x.quantity * personCount else 0);
      if n != name {
        FirstMeasureConcat(occ, [x], n);
      }
    }
    assert after.Keys == expected.Keys;
  }

  /** One more requested dish appends its ingredients, if the cook book
      knows it. */
  lemma OccurrencesPrefix(dishes: seq<string>, d: nat, book: CookBook)
    requires d < |dishes|
    ensures Occurrences(dishes[..d + 1], book) == Occurrences(dishes[..d], book) + DishIngredients(dishes[d], book)
    ensures dishes[d] !in book ==> Occurrences(dishes[..d + 1], book) == Occurrences(dishes[..d], book)
  {
    assert dishes[..d + 1][..d] == dishes[..d];
    assert dishes[..d + 1][d] == dishes[d];
    assert Occurrences(dishes[..d], book) + [] == Occurrences(dishes[..d], book);
  }

  /** The list after updating `list` with each of `ings` in turn. */
  function AddAll(list: ShopList, ings: seq<Ingredient>, personCount: int): ShopList {
    if ings == [] then list
    else AddIngredient(AddAll(list, ings[..|ings| - 1], personCount), ings[|ings| - 1], personCount)
  }

  /** Updating an empty list ingredient by ingredient yields the aggregate:
      the step-by-step update and the declarative shopping list agree. */
  lemma {:induction false} AddAllAggregate(occ: seq<Ingredient>, personCount: int)
    ensures AddAll(map[], occ, personCount) == Aggregate(occ, personCount)
  {
    if occ != [] {
      var init := occ[..|occ| - 1];
      AddAllAggregate(init, personCount);
      AggregateSnoc(init, occ[|occ| - 1], personCount);
      assert init + [occ[|occ| - 1]] == occ;
    }
  }

  lemma AddAllNext(before: seq<Ingredient>, ings: seq<Ingredient>, j: nat, personCount: int)
    requires j < |ings|
    ensures AddAll(map[], before + ings[..j + 1], personCount) ==
            AddIngredient(AddAll(map[], before + ings[..j], personCount), ings[j], personCount)
  {
    assert (before + ings[..j + 1])[..|before| + j] == before + ings[..j];
  }

  /** Unfolding hint, not a property: `AddIngredient` written as the two
      branches of the loop body, so that the loop invariant is checked
      against these map updates without unfolding the accumulated list. */
  lemma UpdateEntry(list: ShopList, x: Ingredient, personCount: int)
    ensures var name := x.ingredientName;
            AddIngredient(list, x, personCount) ==
              if name in list then list[name := Entry(list[name].quantity + x.quantity * personCount, list[name].measure)]
              else list[name := Entry(x.quantity * personCount, x.measure)]
  {
  }

  /** `get_shop_list_by_dishes`: for each requested dish the cook book knows,
      for each of its ingredients, add `quantity * personCount` to the entry
      of its name, or create the entry with this ingredient's measure. */
  method GetShopListByDishes(dishes: seq<string>, personCount: int, cookBook: CookBook)
    returns (shopList: ShopList)
    ensures shopList == ShopListFor(dishes, personCount, cookBook)
  {
    shopList := map[];
    for d := 0 to |dishes|
      invariant shopList == AddAll(map[], Occurrences(dishes[..d], cookBook), personCount)
    {
      var dish := dishes[d];
      OccurrencesPrefix(dishes, d, cookBook);
      if dish in cookBook {
        ghost var before := Occurrences(dishes[..d], cookBook);
        var ingredients := cookBook[dish];
        assert before + ingredients[..0] == before;
        for j := 0 to |ingredients|
          invariant shopList == AddAll(map[], before + ingredients[..j], personCount)
        {
          var ingredient := ingredients[j];
          var name := ingredient.ingredientName;
          var quantity := ingredient.quantity * personCount;
          AddAllNext(before, ingredients, j, personCount);
          UpdateEntry(shopList, ingredient, personCount);
          if name in shopList {
            shopList := shopList[name := Entry(shopList[name].quantity + quantity, shopList[name].measure)];
          } else {
            shopList := shopList[name := Entry(quantity, ingredient.measure)];
          }
        }
        assert ingredients[..|ingredients|] == ingredients;
      }
    }
    assert dishes[..|dishes|] == dishes;
    AddAllAggregate(Occurrences(dishes, cookBook), personCount);
  }

  /** Requesting two lists of dishes one after the other lists the
      ingredients of the first, then those of the second. */
  lemma {:induction false} OccurrencesConcat(a: seq<string>, b: seq<string>, book: CookBook)
    ensures Occurrences(a + b, book) == Occurrences(a, book) + Occurrences(b, book)
    decreases |b|
  {
    if b == [] {
      assert a + b == a;
    } else {
      var init := b[..|b| - 1];
      assert (a + b)[..|a + b| - 1] == a + init && (a + b)[|a + b| - 1] == b[|b| - 1];
      OccurrencesConcat(a, init, book);
    }
  }

  lemma {:induction false} TotalConcat(a: seq<Ingredient>, b: seq<Ingredient>, name: string, personCount: int)
    ensures Total(a + b, name, personCount) == Total(a, name, personCount) + Total(b, name, personCount)
    decreases |b|
  {
    if b == [] {
      assert a + b == a;
    } else {
      var init := b[..|b| - 1];
      assert (a + b)[..|a + b| - 1] == a + init && (a + b)[|a + b| - 1] == b[|b| - 1];
      TotalConcat(a, init, name, personCount);
    }
  }

  /** An empty request gives an empty shopping list. */
  lemma NoDishesNoList(personCount: int, book: CookBook)
    ensures ShopListFor([], personCount, book) == map[]
  {
  }

  /** A dish the cook book does not know changes nothing, wherever it is
      requested, and causes no error. */
  lemma UnknownDishIgnored(pre: seq<string>, dish: string, post: seq<string>, personCount: int, book: CookBook)
    requires dish !in book
    ensures ShopListFor(pre + [dish] + post, personCount, book) == ShopListFor(pre + post, personCount, book)
  {
    OccurrencesConcat(pre + [dish], post, book);
    OccurrencesConcat(pre, [dish], book);
    OccurrencesConcat(pre, post, book);
    assert [dish][..0] == [];
    assert Occurrences([dish], book) == [];
    assert Occurrences(pre, book) + [] == Occurrences(pre, book);
  }

  /** Each request of a known dish adds its ingredients' quantities, times
      the number of people, to the totals; a dish requested twice counts
      twice. */
  lemma RequestAddsDish(dishes: seq<string>, dish: string, name: string, personCount: int, book: CookBook)
    ensures Total(Occurrences(dishes + [dish], book), name, personCount) ==
            Total(Occurrences(dishes, book), name, personCount) + Total(DishIngredients(dish, book), name, personCount)
  {
    assert (dishes + [dish])[..|dishes|] == dishes;
    TotalConcat(Occurrences(dishes, book), DishIngredients(dish, book), name, personCount);
  }

  /** The total for `personCount` people is `personCount` times the total for
      one person. */
  lemma {:induction false} TotalLinear(occ: seq<Ingredient>, name: string, personCount: int)
    ensures Total(occ, name, personCount) == personCount * Total(occ, name, 1)
  {
    if occ != [] {
      var last := occ[|occ| - 1];
      TotalLinear(occ[..|occ| - 1], name, personCount);
      if last.ingredientName == name {
        assert last.quantity * personCount == personCount * (last.quantity * 1);
        assert personCount * Total(occ[..|occ| - 1], name, 1) + personCount * last.quantity ==
               personCount * (Total(occ[..|occ| - 1], name, 1) + last.quantity);
      }
    }
  }

  /** Scaling: the list for `personCount` people has the same names and
      measures as the list for one person, and `personCount` times its
      quantities. */
  lemma ShopListScales(dishes: seq<string>, personCount: int, book: CookBook)
    ensures ShopListFor(dishes, personCount, book).Keys == ShopListFor(dishes, 1, book).Keys
    ensures forall name | name in ShopListFor(dishes, personCount, book) ::
              ShopListFor(dishes, personCount, book)[name] ==
                Entry(personCount * ShopListFor(dishes, 1, book)[name].quantity, ShopListFor(dishes, 1, book)[name].measure)
  {
    var occ := Occurrences(dishes, book);
    forall name | name in Names(occ)
      ensures Total(occ, name, personCount) == personCount * Total(occ, name, 1)
    {
      TotalLinear(occ, name, personCount);
    }
  }

  /** The measure listed for a name is the one of its first occurrence:
      requesting more dishes afterwards never changes it. */
  lemma FirstMeasureWins(dishes: seq<string>, more: seq<string>, name: string, personCount: int, book: CookBook)
    requires name in ShopListFor(dishes, personCount, book)
    ensures name in ShopListFor(dishes + more, personCount, book)
    ensures ShopListFor(dishes + more, personCount, book)[name].measure == ShopListFor(dishes, personCount, book)[name].measure
  {
    OccurrencesConcat(dishes, more, book);
    FirstMeasureConcat(Occurrences(dishes, book), Occurrences(more, book), name);
  }
}
