/** The manual entry screen (app/add-expense.tsx): its form fields, the smart default
    category, filling the form from a scanned receipt, and the checks `handleSave` makes
    before it hands a record to the store's `addExpense`. */
module AddExpense {
  import opened Js
  import opened Records
  import opened Ai

  // ---------------------------------------------------------------------------------------
  // Category lookups

  /** `c.name.toLowerCase().includes('food')` */
  predicate LooksLikeFood(c: Category) {
    Includes(Lower(c.name), "food")
  }

  /** The category the smart default selects: the first food-like one, else the first. */
  function DefaultIndex(categories: seq<Category>): (i: nat)
    requires categories != []
    ensures i < |categories|
    ensures LooksLikeFood(categories[i]) ==> forall j :: 0 <= j < i ==> !LooksLikeFood(categories[j])
    ensures !LooksLikeFood(categories[i]) ==>
      i == 0 && forall j :: 0 <= j < |categories| ==> !LooksLikeFood(categories[j])
  {
    match FindIndex(categories, LooksLikeFood)
    case Some(k) => k
    case None => 0
  }

  /** The selection once the smart-default effect has run: only an empty selection over a
      non-empty category list is replaced. */
  function SmartDefault(selected: Option<string>, categories: seq<Category>): (r: Option<string>)
    ensures Truthy(selected) || categories == [] ==> r == selected
    ensures !Truthy(selected) && categories != [] ==> r == Some(categories[DefaultIndex(categories)].id)
  {
    if !Truthy(selected) && |categories| > 0 then Some(categories[DefaultIndex(categories)].id)
    else selected
  }

  /** The effect running again on the same categories changes nothing. */
  lemma SmartDefaultSettles(selected: Option<string>, categories: seq<Category>)
    ensures SmartDefault(SmartDefault(selected, categories), categories) == SmartDefault(selected, categories)
  {
  }

  /** `c.name.toLowerCase() === name.toLowerCase()` */
  predicate NameEquals(c: Category, name: string) {
    Lower(c.name) == Lower(name)
  }

  /** `c.name.toLowerCase().includes(name.toLowerCase())` */
  predicate NameContains(c: Category, name: string) {
    Includes(Lower(c.name), Lower(name))
  }

  lemma EqualNameIsContained(c: Category, name: string)
    requires NameEquals(c, name)
    ensures NameContains(c, name)
  {
    assert StartsWith(Lower(c.name), Lower(name));
  }

  /** The receipt's category: the first case-insensitive exact match, else the first
      case-insensitive substring match, else none. */
  function MatchIndex(categories: seq<Category>, name: string): (r: Option<nat>)
    ensures r.Some? ==> r.value < |categories| && NameContains(categories[r.value], name)
    ensures forall j :: 0 <= j < |categories| && NameEquals(categories[j], name) ==>
      r.Some? && r.value <= j && NameEquals(categories[r.value], name)
    ensures r.Some? && !NameEquals(categories[r.value], name) ==>
      forall j :: 0 <= j < r.value ==> !NameContains(categories[j], name)
    ensures r.None? <==> forall j :: 0 <= j < |categories| ==> !NameContains(categories[j], name)
  {
    match FindIndex(categories, (c: Category) => NameEquals(c, name))
    case Some(k) =>
      EqualNameIsContained(categories[k], name);
      Some(k)
    case None =>
      FindIndex(categories, (c: Category) => NameContains(c, name))
  }

  // ---------------------------------------------------------------------------------------
  // The screen

  class AddExpenseScreen {
    var amount: string
    var description: string
    var selectedCategory: Option<string>
    var isRecurring: bool
    var submitting: bool
    var analyzing: bool

    constructor ()
      ensures amount == "" && description == "" && selectedCategory == None
      ensures !isRecurring && !submitting && !analyzing
    {
      amount, description, selectedCategory := "", "", None;
      isRecurring, submitting, analyzing := false, false, false;
    }

    /** The smart-default effect, run when the category list changes. */
    method ApplySmartDefault(categories: seq<Category>)
      modifies this`selectedCategory
      ensures selectedCategory == SmartDefault(old(selectedCategory), categories)
    {
      if !Truthy(selectedCategory) && |categories| > 0 {
        var food := Find(categories, LooksLikeFood);
        selectedCategory := Some(if food.Some? then food.value.id else categories[0].id);
      }
    }

    /** The recurring switch. */
    method SetRecurring(value: bool)
      modifies this`isRecurring
      ensures isRecurring == value
    {
      isRecurring := value;
    }

    /** `analyzeReceipt` after the parse has answered `response`; `amountText` is
        `Number.prototype.toString`. Reports whether the scan failed. */
    method AnalyzeReceipt(categories: seq<Category>, response: ParseResponse, amountText: real -> string)
      returns (scanFailed: bool)
      modifies this`amount, this`description, this`selectedCategory, this`analyzing
      ensures !analyzing
      ensures scanFailed <==> Truthy(response.error) || response.data.None?
      ensures scanFailed ==>
        amount == old(amount) && description == old(description) && selectedCategory == old(selectedCategory)
      ensures !scanFailed ==> amount == (if response.data.value.amount != 0.0
                                        then amountText(response.data.value.amount) else old(amount))
      ensures !scanFailed ==> description == (if response.data.value.description != ""
                                             then response.data.value.description else old(description))
      ensures !scanFailed ==>
        var name := response.data.value.category;
        selectedCategory == (if name != "" && MatchIndex(categories, name).Some?
                             then Some(categories[MatchIndex(categories, name).value].id)
                             else old(selectedCategory))
    {
      analyzing := true;
      analyzing := false;
      if Truthy(response.error) || response.data.None? {
        return true;
      }
      scanFailed := false;
      var data := response.data.value;
      if data.amount != 0.0 {
        amount := amountText(data.amount);
      }
      if data.description != "" {
        description := data.description;
      }
      if data.category != "" && |categories| > 0 {
        var found := MatchIndex(categories, data.category);
        if found.Some? {
          selectedCategory := Some(categories[found.value].id);
        }
      }
    }

    /** `handleSave`: the record handed to `addExpense`, or `None` when the form is rejected
        before any store call. `parseFloat` and the current time are parameters. */
    method HandleSave(parseFloat: string -> real, nowIso: string) returns (saved: Option<ExpenseDraft>)
      ensures saved.None? <==> amount == "" || !Truthy(selectedCategory)
      ensures saved.Some? ==> saved.value.inputMethod == Manual
      ensures saved.Some? ==> saved.value.categoryId == selectedCategory
      ensures saved.Some? ==> saved.value.amount == parseFloat(amount) && saved.value.date == nowIso
      ensures saved.Some? ==> saved.value.description == Some(if description == "" then DefaultDescription else description)
      ensures saved.Some? ==> saved.value.photoUrl.None?
    {
      if amount == "" || !Truthy(selectedCategory) {
        return None;
      }
      saved := Some(ExpenseDraft(
        parseFloat(amount),
        selectedCategory,
        Some(if description == "" then DefaultDescription else description),
        nowIso,
        Manual,
        None));
    }
  }
}
