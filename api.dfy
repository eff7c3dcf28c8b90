/** The backend client's data shapes and pure helpers (src/lib/api.ts): the
    result shape every request returns, the placeholder glyph per category
    and the category ids. The HTTP exchange itself is a parameter: a
    `FetchOutcome` says what the network and the response did. */
module Api {
  import opened Wrappers
  import opened Text

  datatype Category = Category(categoryId: int, name: string)

  /** `Product`; prices are whole VND amounts. */
  datatype Product = Product(productId: int, name: string, price: int, image: Option<string>, category: Category)

  datatype OrderItem = OrderItem(productId: int, name: string, quantity: int, note: string)

  datatype CreateOrderRequest = CreateOrderRequest(name: string, tableNumber: int, total: int, items: seq<OrderItem>)

  datatype Order = Order(orderId: int, name: string, tableNumber: int, total: int, items: seq<OrderItem>)

  /** The `data` field: the decoded body, or the `[]` put there on failure. */
  datatype ApiData<T> = Data(value: T) | EmptyArray

  /** `ApiResponse<T>`: `data`, plus `error` when the request failed. */
  datatype ApiResponse<T> = ApiResponse(data: ApiData<T>, error: Option<string>)

  /** `if (response.error)`: an error counts only when its message is
      non-empty, since the empty string is falsy. */
  predicate HasError(error: Option<string>) {
    error.Some? && error.value != ""
  }

  /** The body of a response as `response.json()` reads it. */
  datatype Body<T> = Parsed(value: T) | Unparsable(message: string)

  /** What happened to one request: `fetch` rejected with an `Error`, something
      that is not an `Error` was thrown, or a response arrived. */
  datatype FetchOutcome<T> =
    | Threw(message: string)
    | ThrewNonError
    | Received(ok: bool, status: int, statusText: string, body: Body<T>)

  /** The message thrown for a response whose status is not ok. */
  function StatusError(status: int, statusText: string): string {
    "API Error: " + IntToString(status) + " " + statusText
  }

  /** `fetchWithErrorHandling`: success exactly when an ok response carried a
      readable body, and then `data` is that body and there is no `error`;
      on every failure `data` is `[]` and `error` holds the message. */
  function FetchWithErrorHandling<T>(outcome: FetchOutcome<T>): (r: ApiResponse<T>)
    ensures r.error.None? <==> outcome.Received? && outcome.ok && outcome.body.Parsed?
    ensures r.error.None? ==> r.data == Data(outcome.body.value)
    ensures r.error.Some? ==> r.data == EmptyArray
    ensures outcome.Received? && !outcome.ok ==> r.error == Some(StatusError(outcome.status, outcome.statusText))
    ensures outcome.ThrewNonError? ==> r.error == Some("Unknown error occurred")
    ensures outcome.Threw? ==> r.error == Some(outcome.message)
    ensures outcome.Received? && outcome.ok && outcome.body.Unparsable? ==> r.error == Some(outcome.body.message)
  {
    match outcome
    case Threw(message) => ApiResponse(EmptyArray, Some(message))
    case ThrewNonError => ApiResponse(EmptyArray, Some("Unknown error occurred"))
    case Received(ok, status, statusText, body) =>
      if !ok then ApiResponse(EmptyArray, Some(StatusError(status, statusText)))
      else match body
        case Unparsable(message) => ApiResponse(EmptyArray, Some(message))
        case Parsed(value) => ApiResponse(Data(value), None)
  }

  /** The status code can be read back from a status error message. */
  lemma StatusErrorNamesStatus(status: nat, statusText: string)
    ensures var m := StatusError(status, statusText);
            var digits := NatToString(status);
            StartsWith(m, "API Error: ") && m[11..11 + |digits|] == digits
            && AllDigits(digits) && DecimalValue(digits) == status
  {
    NatToStringProperties(status);
    var digits := NatToString(status);
    var m := StatusError(status, statusText);
    assert m == "API Error: " + digits + " " + statusText;
    assert m[11..11 + |digits|] == digits;
  }

  /** The menu category names as the backend spells them. */
  const FoodCategory := "\U{0110}\U{1ED3} \U{0103}n"                     // "Đồ ăn"
  const DrinkCategory := "\U{0110}\U{1ED3} u\U{1ED1}ng"                  // "Đồ uống"
  const AdditionalCategory := "\U{0110}\U{1ED3} \U{0103}n th\U{00EA}m"   // "Đồ ăn thêm"

  const PlateGlyph := "\U{1F37D}\U{FE0F}"
  const CupGlyph := "\U{1F964}"
  const HoneyGlyph := "\U{1F36F}"

  /** The `placeholders` record of `getPlaceholderImage`. */
  function PlaceholderEntry(key: string): Option<string> {
    if key == FoodCategory then Some(PlateGlyph)
    else if key == DrinkCategory then Some(CupGlyph)
    else if key == AdditionalCategory then Some(HoneyGlyph)
    else if key == "food" then Some(PlateGlyph)
    else if key == "drinks" then Some(CupGlyph)
    else if key == "additional" then Some(HoneyGlyph)
    else None
  }

  /** `getPlaceholderImage` as written: look up the lower-cased name, default
      to the plate. */
  function GetPlaceholderImage(categoryName: string): (glyph: string)
    ensures glyph in {PlateGlyph, CupGlyph, HoneyGlyph}
    ensures PlaceholderEntry(Lower(categoryName)).None? ==> glyph == PlateGlyph
  {
    match PlaceholderEntry(Lower(categoryName))
    case Some(g) => g
    case None => PlateGlyph
  }

  /** Only the English keys are reachable: a lower-cased name never starts
      with the capital D with stroke, so the three Vietnamese keys never match
      and the result depends on the English keys alone. */
  lemma OnlyEnglishKeysReachable(categoryName: string)
    ensures GetPlaceholderImage(categoryName)
            == if Lower(categoryName) == "drinks" then CupGlyph
               else if Lower(categoryName) == "additional" then HoneyGlyph
               else PlateGlyph
  {
    var l := Lower(categoryName);
    if l != [] {
      LowerNeverCapitalDStroke(categoryName);
      assert l[0] != FoodCategory[0];
    }
    assert l != FoodCategory && l != DrinkCategory && l != AdditionalCategory;
  }

  /** English names match whatever their case. */
  lemma EnglishNamesAnyCase()
    ensures GetPlaceholderImage("FOOD") == PlateGlyph
    ensures GetPlaceholderImage("Drinks") == CupGlyph
    ensures GetPlaceholderImage("ADDITIONAL") == HoneyGlyph
  {
    assert Lower("Drinks") == "drinks";
    assert Lower("ADDITIONAL") == "additional";
  }

  /** The drinks category of the menu, spelled as the backend spells it,
      gets the default plate instead of the cup. */
  lemma DrinkCategoryGetsPlate()
    ensures GetPlaceholderImage(DrinkCategory) == PlateGlyph
  {
    OnlyEnglishKeysReachable(DrinkCategory);
    assert Lower(DrinkCategory) != "drinks" && Lower(DrinkCategory) != "additional";
  }

  /** The category names lower-cased. */
  const FoodCategoryLower := "\U{0111}\U{1ED3} \U{0103}n"
  const DrinkCategoryLower := "\U{0111}\U{1ED3} u\U{1ED1}ng"
  const AdditionalCategoryLower := "\U{0111}\U{1ED3} \U{0103}n th\U{00EA}m"

  lemma LowerCategoryNames()
    ensures Lower(FoodCategory) == FoodCategoryLower
    ensures Lower(DrinkCategory) == DrinkCategoryLower
    ensures Lower(AdditionalCategory) == AdditionalCategoryLower
  {
  }

  /** The intended lookup: a name matches a key when both lower-case to the
      same text, so the Vietnamese names reach their glyphs too. */
  function CategoryPlaceholder(categoryName: string): (glyph: string)
    ensures glyph in {PlateGlyph, CupGlyph, HoneyGlyph}
  {
    var l := Lower(categoryName);
    if l == DrinkCategoryLower || l == "drinks" then CupGlyph
    else if l == AdditionalCategoryLower || l == "additional" then HoneyGlyph
    else PlateGlyph
  }

  /** The intended lookup ignores case. */
  lemma CategoryPlaceholderIgnoresCase(categoryName: string)
    ensures CategoryPlaceholder(Lower(categoryName)) == CategoryPlaceholder(categoryName)
  {
    LowerIdempotent(categoryName);
  }

  /** Every key of the record yields its own glyph under the intended lookup,
      and on English names the intended and the written lookups agree. */
  lemma CategoryPlaceholderMatchesRecord(categoryName: string)
    ensures PlaceholderEntry(categoryName).Some? ==> CategoryPlaceholder(categoryName) == PlaceholderEntry(categoryName).value
    ensures Lower(categoryName) in {"food", "drinks", "additional"} ==>
              CategoryPlaceholder(categoryName) == GetPlaceholderImage(categoryName)
  {
    if PlaceholderEntry(categoryName).Some? {
      RecordKeyGlyph(categoryName);
    }
    var l := Lower(categoryName);
    if l == "food" || l == "drinks" || l == "additional" {
      OnlyEnglishKeysReachable(categoryName);
    }
  }

  /** One key of the record at a time: its lower-case form selects the same
      glyph in the intended lookup. */
  lemma RecordKeyGlyph(key: string)
    requires PlaceholderEntry(key).Some?
    ensures CategoryPlaceholder(key) == PlaceholderEntry(key).value
  {
    LowerCategoryNames();
    LowerEnglishKeys();
    if key == FoodCategory {
      assert Lower(key) == FoodCategoryLower;
    } else if key == DrinkCategory {
      assert Lower(key) == DrinkCategoryLower;
    } else if key == AdditionalCategory {
      assert Lower(key) == AdditionalCategoryLower;
    } else if key == "food" {
      assert Lower(key) == "food";
    } else if key == "drinks" {
      assert Lower(key) == "drinks";
    } else {
      assert Lower(key) == "additional";
    }
  }

  /** The English keys are already lower-case. */
  lemma LowerEnglishKeys()
    ensures Lower("food") == "food"
    ensures Lower("drinks") == "drinks"
    ensures Lower("additional") == "additional"
  {
  }

  /** Under the intended lookup the drinks category gets the cup. */
  lemma DrinkCategoryGetsCup()
    ensures CategoryPlaceholder(DrinkCategory) == CupGlyph
  {
    LowerCategoryNames();
  }

  /** `CATEGORY_IDS` */
  datatype CategoryKey = Food | Drinks | Additional

  function CategoryId(key: CategoryKey): (id: int)
    ensures 1 <= id <= 3
  {
    match key
    case Food => 1
    case Drinks => 2
    case Additional => 3
  }

  /** The three ids are pairwise distinct. */
  lemma CategoryIdsDistinct(a: CategoryKey, b: CategoryKey)
    requires CategoryId(a) == CategoryId(b)
    ensures a == b
  {
  }
}
