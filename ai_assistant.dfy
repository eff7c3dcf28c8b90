/** The dish-suggestion panel (src/components/ai-food-assistant.tsx): match
    the three dish names a suggestion service returns against the menu,
    fall back to the first product of each menu category, and hand the
    chosen product ids on to the order page. The suggestion service is a
    parameter: a `SuggestOutcome` says what the request produced. */
module AiAssistant {
  import opened Wrappers
  import opened Text
  import opened Api

  /** `'main_dish' | 'side_dish' | 'drink'` */
  datatype DishType = MainDish | SideDish | Drink

  /** The order the panel lists the dish types in. */
  function Rank(t: DishType): nat {
    match t
    case MainDish => 0
    case SideDish => 1
    case Drink => 2
  }

  datatype SuggestedDish = SuggestedDish(product: Product, dishType: DishType)

  /** The body of a successful suggestion request. */
  datatype AiSuggestion = AiSuggestion(mainDish: string, sideDish: string, drink: string, reason: string)

  // ---- Name matching ----------------------------------------------------

  /** Equal names, ignoring case. */
  predicate ExactMatch(p: Product, dishName: string) {
    Lower(p.name) == Lower(dishName)
  }

  /** One name includes the other, ignoring case. */
  predicate PartialMatch(p: Product, dishName: string) {
    Contains(Lower(p.name), Lower(dishName)) || Contains(Lower(dishName), Lower(p.name))
  }

  /** An exact match is also a partial one. */
  lemma ExactIsPartial(p: Product, dishName: string)
    requires ExactMatch(p, dishName)
    ensures PartialMatch(p, dishName)
  {
    ContainsSelf(Lower(p.name));
  }

  /** The first product whose name equals `dishName`, ignoring case. */
  function FirstExact(products: seq<Product>, dishName: string): (r: Option<nat>)
    ensures r.Some? ==> r.value < |products| && ExactMatch(products[r.value], dishName)
    ensures r.Some? ==> forall j :: 0 <= j < r.value ==> !ExactMatch(products[j], dishName)
    ensures r.None? <==> forall j :: 0 <= j < |products| ==> !ExactMatch(products[j], dishName)
  {
    if products == [] then None
    else if ExactMatch(products[0], dishName) then Some(0)
    else match FirstExact(products[1..], dishName)
      case None => None
      case Some(k) => Some(k + 1)
  }

  /** The first product whose name includes `dishName` or is included in it,
      ignoring case. */
  function FirstPartial(products: seq<Product>, dishName: string): (r: Option<nat>)
    ensures r.Some? ==> r.value < |products| && PartialMatch(products[r.value], dishName)
    ensures r.Some? ==> forall j :: 0 <= j < r.value ==> !PartialMatch(products[j], dishName)
    ensures r.None? <==> forall j :: 0 <= j < |products| ==> !PartialMatch(products[j], dishName)
  {
    if products == [] then None
    else if PartialMatch(products[0], dishName) then Some(0)
    else match FirstPartial(products[1..], dishName)
      case None => None
      case Some(k) => Some(k + 1)
  }

  /** `findProductByName`, as an index into the menu: an exact match wins
      over every partial one and the first match in menu order wins; nothing
      is found only when no name matches even partially. */
  function MatchIndex(products: seq<Product>, dishName: string): (r: Option<nat>)
    ensures r.Some? ==> r.value < |products| && PartialMatch(products[r.value], dishName)
    ensures (exists i :: 0 <= i < |products| && ExactMatch(products[i], dishName)) ==>
              && r.Some? && ExactMatch(products[r.value], dishName)
              && forall j :: 0 <= j < r.value ==> !ExactMatch(products[j], dishName)
    ensures (forall i :: 0 <= i < |products| ==> !ExactMatch(products[i], dishName)) && r.Some? ==>
              forall j :: 0 <= j < r.value ==> !PartialMatch(products[j], dishName)
    ensures r.None? <==> forall j :: 0 <= j < |products| ==> !PartialMatch(products[j], dishName)
  {
    match FirstExact(products, dishName)
    case Some(i) =>
      ExactIsPartial(products[i], dishName);
      Some(i)
    case None =>
      FirstPartial(products, dishName)
  }

  /** `findProductByName`: the matching product, or null. */
  function FindProductByName(products: seq<Product>, dishName: string): (r: Option<Product>)
    ensures r.Some? <==> MatchIndex(products, dishName).Some?
    ensures r.Some? ==> r.value == products[MatchIndex(products, dishName).value]
  {
    match MatchIndex(products, dishName)
    case None => None
    case Some(i) => Some(products[i])
  }

  /** Matching ignores the case of the dish name. */
  lemma MatchIgnoresCase(products: seq<Product>, dishName: string)
    ensures MatchIndex(products, Lower(dishName)) == MatchIndex(products, dishName)
  {
    LowerIdempotent(dishName);
    SameMatches(products, Lower(dishName), dishName);
  }

  /** Two dish names that lower-case alike match alike. */
  lemma SameMatches(products: seq<Product>, a: string, b: string)
    requires Lower(a) == Lower(b)
    ensures FirstExact(products, a) == FirstExact(products, b)
    ensures FirstPartial(products, a) == FirstPartial(products, b)
    ensures MatchIndex(products, a) == MatchIndex(products, b)
  {
    SameExact(products, a, b);
    SamePartial(products, a, b);
  }

  lemma {:induction false} SameExact(products: seq<Product>, a: string, b: string)
    requires Lower(a) == Lower(b)
    ensures FirstExact(products, a) == FirstExact(products, b)
  {
    if products != [] {
      SameExact(products[1..], a, b);
    }
  }

  lemma {:induction false} SamePartial(products: seq<Product>, a: string, b: string)
    requires Lower(a) == Lower(b)
    ensures FirstPartial(products, a) == FirstPartial(products, b)
  {
    if products != [] {
      SamePartial(products[1..], a, b);
    }
  }

  /** An empty dish name matches the first product of a menu without empty
      names: every name includes the empty string. */
  lemma EmptyNameMatchesFirst(products: seq<Product>)
    requires products != []
    requires forall i :: 0 <= i < |products| ==> products[i].name != ""
    ensures FindProductByName(products, "") == Some(products[0])
  {
    assert Lower("") == "";
    forall i | 0 <= i < |products|
      ensures !ExactMatch(products[i], "")
    {
      assert |Lower(products[i].name)| == |products[i].name|;
    }
    ContainsEmpty(Lower(products[0].name));
  }

  // ---- Assembling the list ----------------------------------------------

  /** The candidate for dish type `t` among the three. */
  function Pick(main: Option<Product>, side: Option<Product>, drink: Option<Product>, t: DishType): Option<Product> {
    match t
    case MainDish => main
    case SideDish => side
    case Drink => drink
  }

  function Entry(found: Option<Product>, t: DishType): seq<SuggestedDish> {
    if found.Some? then [SuggestedDish(found.value, t)] else []
  }

  /** The push sequence of both `getFallbackDishes` and `handleSubmit`: the
      found candidates, main dish first, then side dish, then drink, with
      missing ones skipped. */
  function Assemble(main: Option<Product>, side: Option<Product>, drink: Option<Product>): seq<SuggestedDish> {
    Entry(main, MainDish) + Entry(side, SideDish) + Entry(drink, Drink)
  }

  /** At most three dishes, in main, side, drink order; each is the candidate
      for its type, and a type appears exactly when it has a candidate. */
  lemma AssembleProperties(main: Option<Product>, side: Option<Product>, drink: Option<Product>)
    ensures var r := Assemble(main, side, drink);
            && |r| <= 3
            && (forall k, l :: 0 <= k < l < |r| ==> Rank(r[k].dishType) < Rank(r[l].dishType))
            && (forall k :: 0 <= k < |r| ==> Pick(main, side, drink, r[k].dishType) == Some(r[k].product))
            && (forall t :: (exists k :: 0 <= k < |r| && r[k].dishType == t) <==> Pick(main, side, drink, t).Some?)
  {
    AssembleCovers(main, side, drink, Assemble(main, side, drink));
  }

  lemma AssembleCovers(main: Option<Product>, side: Option<Product>, drink: Option<Product>, r: seq<SuggestedDish>)
    requires r == Entry(main, MainDish) + Entry(side, SideDish) + Entry(drink, Drink)
    ensures forall t :: Pick(main, side, drink, t).Some? ==> exists k :: 0 <= k < |r| && r[k].dishType == t
  {
    forall t | Pick(main, side, drink, t).Some?
      ensures exists k :: 0 <= k < |r| && r[k].dishType == t
    {
      match t
      case MainDish => assert r[0].dishType == t;
      case SideDish => assert r[|Entry(main, MainDish)|].dishType == t;
      case Drink => assert r[|r| - 1].dishType == t;
    }
  }

  // ---- The fallback -----------------------------------------------------

  /** The category searched for each dish type. */
  function CategoryFor(t: DishType): string {
    match t
    case MainDish => FoodCategory
    case SideDish => AdditionalCategory
    case Drink => DrinkCategory
  }

  /** The two parallel arrays `getFallbackDishes` walks. */
  const FallbackCategories: seq<string> := [FoodCategory, AdditionalCategory, DrinkCategory]
  const FallbackTypes: seq<DishType> := [MainDish, SideDish, Drink]

  /** `allProducts.find(p => p.category.name === categoryName)` */
  function FirstInCategory(products: seq<Product>, categoryName: string): (r: Option<Product>)
    ensures r.Some? ==> r.value in products && r.value.category.name == categoryName
    ensures r.None? <==> forall p :: p in products ==> p.category.name != categoryName
    ensures r.Some? ==> exists i :: (0 <= i < |products| && products[i] == r.value
              && forall j :: 0 <= j < i ==> products[j].category.name != categoryName)
  {
    if products == [] then None
    else if products[0].category.name == categoryName then Some(products[0])
    else
      var r := FirstInCategory(products[1..], categoryName);
      assert forall p :: p in products ==> p == products[0] || p in products[1..];
      if r.Some? then
        var i :| 0 <= i < |products[1..]| && products[1..][i] == r.value
                 && forall j :: 0 <= j < i ==> products[1..][j].category.name != categoryName;
        assert products[i + 1] == r.value;
        r
      else r
  }

  /** The fallback list: the first product of the food, extras and drinks
      categories, as main dish, side dish and drink. */
  function FallbackDishes(products: seq<Product>): seq<SuggestedDish> {
    Assemble(FirstInCategory(products, FoodCategory), FirstInCategory(products, AdditionalCategory),
             FirstInCategory(products, DrinkCategory))
  }

  /** At most three fallback dishes, in main, side, drink order; each is the
      first product of its type's category, and a type appears exactly when
      that category has a product. */
  lemma FallbackDishesProperties(products: seq<Product>)
    ensures var r := FallbackDishes(products);
            && |r| <= 3
            && (forall k, l :: 0 <= k < l < |r| ==> Rank(r[k].dishType) < Rank(r[l].dishType))
            && (forall k :: 0 <= k < |r| ==> Some(r[k].product) == FirstInCategory(products, CategoryFor(r[k].dishType)))
            && (forall t :: (exists k :: 0 <= k < |r| && r[k].dishType == t) <==>
                             exists p :: p in products && p.category.name == CategoryFor(t))
  {
    AssembleProperties(FirstInCategory(products, FoodCategory), FirstInCategory(products, AdditionalCategory),
                       FirstInCategory(products, DrinkCategory));
    PickIsFirstInCategory(products);
  }

  lemma PickIsFirstInCategory(products: seq<Product>)
    ensures forall t :: Pick(FirstInCategory(products, FoodCategory), FirstInCategory(products, AdditionalCategory),
                             FirstInCategory(products, DrinkCategory), t)
                        == FirstInCategory(products, CategoryFor(t))
  {
    forall t
      ensures Pick(FirstInCategory(products, FoodCategory), FirstInCategory(products, AdditionalCategory),
                   FirstInCategory(products, DrinkCategory), t)
              == FirstInCategory(products, CategoryFor(t))
    {
      match t
      case MainDish =>
      case SideDish =>
      case Drink =>
    }
  }

  /** What the first `n` rounds of `getFallbackDishes` have pushed. */
  function FallbackPrefix(products: seq<Product>, n: nat): seq<SuggestedDish>
    requires n <= 3
  {
    if n == 0 then []
    else FallbackPrefix(products, n - 1) + Entry(FirstInCategory(products, FallbackCategories[n - 1]), FallbackTypes[n - 1])
  }

  /** `getFallbackDishes`: one round per category, pushing its first product. */
  method GetFallbackDishes(products: seq<Product>) returns (dishes: seq<SuggestedDish>)
    ensures dishes == FallbackDishes(products)
  {
    dishes := [];
    var index := 0;
    while index < |FallbackCategories|
      invariant 0 <= index <= 3
      invariant dishes == FallbackPrefix(products, index)
    {
      var product := FirstInCategory(products, FallbackCategories[index]);
      if product.Some? {
        dishes := dishes + [SuggestedDish(product.value, FallbackTypes[index])];
      }
      index := index + 1;
    }
    FallbackIsPrefix(products);
  }

  /** The three rounds of `getFallbackDishes` build the fallback list. */
  lemma FallbackIsPrefix(products: seq<Product>)
    ensures FallbackPrefix(products, 3) == FallbackDishes(products)
  {
    var main := Entry(FirstInCategory(products, FoodCategory), MainDish);
    var side := Entry(FirstInCategory(products, AdditionalCategory), SideDish);
    var drink := Entry(FirstInCategory(products, DrinkCategory), Drink);
    assert FallbackPrefix(products, 1) == main;
    assert FallbackPrefix(products, 2) == main + side;
    assert FallbackDishes(products) == main + side + drink;
  }

  // ---- The submit decision ----------------------------------------------

  const FallbackReason := "\U{0110}\U{00E2}y l\U{00E0} nh\U{1EEF}ng m\U{00F3}n ph\U{1ED5} bi\U{1EBF}n nh\U{1EA5}t c\U{1EE7}a ch\U{00FA}ng t\U{00F4}i!"

  /** How the suggestion request ended: a response, or a thrown error. */
  datatype SuggestOutcome = Answered(response: ApiResponse<AiSuggestion>) | RequestThrew

  /** The dish name the suggestion gives for dish type `t`. */
  function DishNameFor(s: AiSuggestion, t: DishType): string {
    match t
    case MainDish => s.mainDish
    case SideDish => s.sideDish
    case Drink => s.drink
  }

  /** The matched dishes of a suggestion: each dish type's name looked up in
      the menu, in main, side, drink order, unmatched names skipped. */
  function Matched(products: seq<Product>, s: AiSuggestion): seq<SuggestedDish> {
    Assemble(FindProductByName(products, s.mainDish), FindProductByName(products, s.sideDish),
             FindProductByName(products, s.drink))
  }

  /** At most three matched dishes, in main, side, drink order; each is the
      product found for the name given for its type, and a type appears
      exactly when its name matches. */
  lemma MatchedProperties(products: seq<Product>, s: AiSuggestion)
    ensures var r := Matched(products, s);
            && |r| <= 3
            && (forall k, l :: 0 <= k < l < |r| ==> Rank(r[k].dishType) < Rank(r[l].dishType))
            && (forall k :: 0 <= k < |r| ==> Some(r[k].product) == FindProductByName(products, DishNameFor(s, r[k].dishType)))
            && (forall t :: (exists k :: 0 <= k < |r| && r[k].dishType == t) <==>
                             MatchIndex(products, DishNameFor(s, t)).Some?)
  {
    AssembleProperties(FindProductByName(products, s.mainDish), FindProductByName(products, s.sideDish),
                       FindProductByName(products, s.drink));
    PickIsFound(products, s);
  }

  lemma PickIsFound(products: seq<Product>, s: AiSuggestion)
    ensures forall t :: Pick(FindProductByName(products, s.mainDish), FindProductByName(products, s.sideDish),
                             FindProductByName(products, s.drink), t)
                        == FindProductByName(products, DishNameFor(s, t))
  {
    forall t
      ensures Pick(FindProductByName(products, s.mainDish), FindProductByName(products, s.sideDish),
                   FindProductByName(products, s.drink), t)
              == FindProductByName(products, DishNameFor(s, t))
    {
      match t
      case MainDish =>
      case SideDish =>
      case Drink =>
    }
  }

  /** The success branch of `handleSubmit`: one lookup and push per dish type. */
  method MatchDishes(products: seq<Product>, s: AiSuggestion) returns (dishes: seq<SuggestedDish>)
    ensures dishes == Matched(products, s)
  {
    dishes := [];
    var mainDish := FindProductByName(products, s.mainDish);
    if mainDish.Some? {
      dishes := dishes + [SuggestedDish(mainDish.value, MainDish)];
    }
    assert dishes == Entry(mainDish, MainDish);
    var sideDish := FindProductByName(products, s.sideDish);
    if sideDish.Some? {
      dishes := dishes + [SuggestedDish(sideDish.value, SideDish)];
    }
    assert dishes == Entry(mainDish, MainDish) + Entry(sideDish, SideDish);
    var drink := FindProductByName(products, s.drink);
    if drink.Some? {
      dishes := dishes + [SuggestedDish(drink.value, Drink)];
    }
    assert dishes == Entry(mainDish, MainDish) + Entry(sideDish, SideDish) + Entry(drink, Drink);
  }

  /** The list and the reason `handleSubmit` shows. */
  datatype Suggestion = Suggestion(dishes: seq<SuggestedDish>, reason: string)

  /** The response's body when `handleSubmit` takes its success branch: the
      `error` field is absent or the empty string (which is falsy) and the
      body is a suggestion. An `[]` body fails on the first dish name, and
      ends in the catch branch like a thrown request. */
  function Answer(outcome: SuggestOutcome): Option<AiSuggestion> {
    if outcome.Answered? && !HasError(outcome.response.error)
       && outcome.response.data.Data?
    then Some(outcome.response.data.value)
    else None
  }

  /** The decision of `handleSubmit`: a failed request, or a suggestion none
      of whose names is on the menu, shows the fallback with the fixed
      reason; otherwise the matched dishes show with the service's reason. */
  function Suggest(products: seq<Product>, outcome: SuggestOutcome): (r: Suggestion)
    ensures Answer(outcome).None? ==> r == Suggestion(FallbackDishes(products), FallbackReason)
    ensures Answer(outcome).Some? && Matched(products, Answer(outcome).value) == [] ==>
              r == Suggestion(FallbackDishes(products), FallbackReason)
    ensures Answer(outcome).Some? && Matched(products, Answer(outcome).value) != [] ==>
              r == Suggestion(Matched(products, Answer(outcome).value), Answer(outcome).value.reason)
  {
    match Answer(outcome)
    case None => Suggestion(FallbackDishes(products), FallbackReason)
    case Some(s) =>
      var dishes := Matched(products, s);
      if dishes == [] then Suggestion(FallbackDishes(products), FallbackReason) else Suggestion(dishes, s.reason)
  }

  /** Whatever the outcome, the panel lists at most three dishes, each from
      the menu, in main, side, drink order; it lists none only when the menu
      has none of the three fallback categories and nothing matched. */
  lemma SuggestionShape(products: seq<Product>, outcome: SuggestOutcome)
    ensures var r := Suggest(products, outcome);
            && |r.dishes| <= 3
            && (forall k :: 0 <= k < |r.dishes| ==> r.dishes[k].product in products)
            && (forall k, l :: 0 <= k < l < |r.dishes| ==> Rank(r.dishes[k].dishType) < Rank(r.dishes[l].dishType))
            && (r.dishes == [] ==> forall p :: p in products ==> p.category.name !in FallbackCategories)
  {
    FallbackDishesProperties(products);
    FallbackFromMenu(products);
    match Answer(outcome)
    case None =>
    case Some(s) =>
      if Matched(products, s) != [] {
        MatchedProperties(products, s);
        MatchedFromMenu(products, s);
      }
  }

  /** Every fallback dish is on the menu, and there is none only when the
      menu lacks the three categories. */
  lemma FallbackFromMenu(products: seq<Product>)
    ensures var fb := FallbackDishes(products);
            && (forall k :: 0 <= k < |fb| ==> fb[k].product in products)
            && (fb == [] ==> forall p :: p in products ==> p.category.name !in FallbackCategories)
  {
    var fb := FallbackDishes(products);
    FallbackDishesProperties(products);
    if fb == [] {
      forall p | p in products
        ensures p.category.name !in FallbackCategories
      {
        assert p.category.name != CategoryFor(MainDish);
        assert p.category.name != CategoryFor(SideDish);
        assert p.category.name != CategoryFor(Drink);
      }
    }
  }

  /** Every matched dish is on the menu. */
  lemma MatchedFromMenu(products: seq<Product>, s: AiSuggestion)
    ensures var m := Matched(products, s);
            forall k :: 0 <= k < |m| ==> m[k].product in products
  {
    var m := Matched(products, s);
    MatchedProperties(products, s);
    forall k | 0 <= k < |m|
      ensures m[k].product in products
    {
      var i := MatchIndex(products, DishNameFor(s, m[k].dishType));
      assert Some(m[k].product) == FindProductByName(products, DishNameFor(s, m[k].dishType));
    }
  }

  /** A failed request always shows the fallback. */
  lemma FailureShowsFallback(products: seq<Product>, message: string)
    requires message != ""
    ensures Suggest(products, RequestThrew) == Suggestion(FallbackDishes(products), FallbackReason)
    ensures Suggest(products, Answered(ApiResponse(EmptyArray, Some(message))))
            == Suggestion(FallbackDishes(products), FallbackReason)
  {
  }

  // ---- Handing the dishes on --------------------------------------------

  /** The pieces of the `ai` parameter: each product id in decimal. */
  function IdTexts(dishes: seq<SuggestedDish>): (parts: seq<string>)
    ensures |parts| == |dishes|
    ensures forall i :: 0 <= i < |dishes| ==> parts[i] == IntToString(dishes[i].product.productId)
  {
    seq(|dishes|, i requires 0 <= i < |dishes| => IntToString(dishes[i].product.productId))
  }

  /** `suggestedDishes.map(d => d.product.productId).join(',')` */
  function ProductIdsParam(dishes: seq<SuggestedDish>): string {
    Join(IdTexts(dishes), ',')
  }

  /** The parameter is unambiguous: splitting it at the commas gives one
      piece per dish, in suggestion order, and each piece names only that
      dish's product id. */
  lemma ProductIdsRoundTrip(dishes: seq<SuggestedDish>)
    requires dishes != []
    ensures var parts := Split(ProductIdsParam(dishes), ',');
            && |parts| == |dishes|
            && forall i, id :: 0 <= i < |dishes| && parts[i] == IntToString(id) ==> id == dishes[i].product.productId
  {
    var parts := IdTexts(dishes);
    SplitJoin(parts, ',');
    forall i, id | 0 <= i < |dishes| && parts[i] == IntToString(id)
      ensures id == dishes[i].product.productId
    {
      IntToStringInjective(id, dishes[i].product.productId);
    }
  }

  /** `getDishTypeLabel` */
  function GetDishTypeLabel(t: DishType): (text: string)
    ensures text != ""
    ensures t == Drink <==> text == DrinkCategory
  {
    match t
    case MainDish => "M\U{00F3}n ch\U{00ED}nh"
    case SideDish => "M\U{00F3}n ph\U{1EE5}"
    case Drink => DrinkCategory
  }

  /** The three labels are distinct. */
  lemma DishTypeLabelInjective(a: DishType, b: DishType)
    requires GetDishTypeLabel(a) == GetDishTypeLabel(b)
    ensures a == b
  {
  }

  /** The body of `handleSubmit` after the blank-input check: the fallback
      on a failed request, the matched dishes with the service's reason, and
      the fallback again when none of the names matched. */
  method DecideSuggestion(products: seq<Product>, outcome: SuggestOutcome)
    returns (dishes: seq<SuggestedDish>, why: string)
    ensures Suggestion(dishes, why) == Suggest(products, outcome)
  {
    var answer := Answer(outcome);
    if answer.None? {
      dishes := GetFallbackDishes(products);
      why := FallbackReason;
    } else {
      var s := answer.value;
      dishes := MatchDishes(products, s);
      if |dishes| == 0 {
        dishes := GetFallbackDishes(products);
        why := FallbackReason;
      } else {
        why := s.reason;
      }
    }
  }

  // ---- The panel --------------------------------------------------------

  /** The panel's state; `allProducts` is the menu it was given. */
  class AssistantPanel {
    var allProducts: seq<Product>
    var isOpen: bool
    var userInput: string
    var isLoading: bool
    var suggestedDishes: seq<SuggestedDish>
    var reason: string

    constructor (products: seq<Product>)
      ensures allProducts == products && !isOpen && userInput == "" && !isLoading
      ensures suggestedDishes == [] && reason == ""
    {
      allProducts := products;
      isOpen := false;
      userInput := "";
      isLoading := false;
      suggestedDishes := [];
      reason := "";
    }

    /** The floating button. */
    method Open()
      modifies this
      ensures isOpen
      ensures allProducts == old(allProducts) && userInput == old(userInput) && isLoading == old(isLoading)
      ensures suggestedDishes == old(suggestedDishes) && reason == old(reason)
    {
      isOpen := true;
    }

    /** `handleQuickSuggestion`, and typing into the text area. */
    method HandleQuickSuggestion(text: string)
      modifies this
      ensures userInput == text
      ensures allProducts == old(allProducts) && isOpen == old(isOpen) && isLoading == old(isLoading)
      ensures suggestedDishes == old(suggestedDishes) && reason == old(reason)
    {
      userInput := text;
    }

    /** `handleSubmit`, given how the suggestion request ended: blank input
        does nothing; otherwise the panel shows `Suggest`'s decision and
        stops loading. The guard `!userInput.trim()` is written as `Blank`,
        which `TrimBlank` shows to be the same test. */
    method HandleSubmit(outcome: SuggestOutcome)
      modifies this
      ensures if Blank(old(userInput)) then
                isLoading == old(isLoading) && suggestedDishes == old(suggestedDishes) && reason == old(reason)
              else
                !isLoading && Suggestion(suggestedDishes, reason) == Suggest(allProducts, outcome)
      ensures allProducts == old(allProducts) && isOpen == old(isOpen) && userInput == old(userInput)
    {
      if Blank(userInput) {
        return;
      }
      isLoading := true;
      suggestedDishes := [];
      reason := "";
      var dishes, why := DecideSuggestion(allProducts, outcome);
      suggestedDishes, reason, isLoading := dishes, why, false;
    }

    /** `handleConfirmOrder`: returns the `ai` parameter of the order page's
        address and closes the panel. */
    method HandleConfirmOrder() returns (aiParam: string)
      modifies this
      ensures aiParam == ProductIdsParam(old(suggestedDishes))
      ensures !isOpen
      ensures allProducts == old(allProducts) && userInput == old(userInput) && isLoading == old(isLoading)
      ensures suggestedDishes == old(suggestedDishes) && reason == old(reason)
    {
      aiParam := ProductIdsParam(suggestedDishes);
      isOpen := false;
    }

    /** `handleClose`: closes the panel and forgets input and suggestions. */
    method HandleClose()
      modifies this
      ensures !isOpen && userInput == "" && suggestedDishes == [] && reason == ""
      ensures allProducts == old(allProducts) && isLoading == old(isLoading)
    {
      isOpen := false;
      userInput := "";
      suggestedDishes := [];
      reason := "";
    }
  }
}
