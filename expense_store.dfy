/** The in-memory expense store (contexts/ExpenseContext.tsx): the signed-in user's
    expenses, categories and budgets, and the mutation calls that forward to the remote
    store and then patch the local lists from the `{ data, error }` result.

    The signed-in user is a parameter of each call; each remote result is a parameter too
    (the reply the store gave to the request the method reports having sent). */
module ExpenseStore {
  import opened Js
  import opened Records
  import opened Categories

  // ---------------------------------------------------------------------------------------
  // The list rewrites the setters apply

  /** `s.map(x => hit(x) ? f(x) : x)` */
  function MapWhere<T>(s: seq<T>, hit: T -> bool, f: T -> T): (r: seq<T>)
    ensures |r| == |s|
  {
    if s == [] then [] else [if hit(s[0]) then f(s[0]) else s[0]] + MapWhere(s[1..], hit, f)
  }

  lemma {:induction false} MapWhereAt<T>(s: seq<T>, hit: T -> bool, f: T -> T, k: nat)
    requires k < |s|
    ensures MapWhere(s, hit, f)[k] == if hit(s[k]) then f(s[k]) else s[k]
  {
    if k > 0 {
      MapWhereAt(s[1..], hit, f, k - 1);
    }
  }

  /** `s.filter(keep)` */
  function Filter<T>(s: seq<T>, keep: T -> bool): (r: seq<T>)
    ensures |r| <= |s|
    ensures forall x :: x in r ==> x in s && keep(x)
    ensures forall x :: x in s && keep(x) ==> x in r
  {
    if s == [] then []
    else if keep(s[0]) then [s[0]] + Filter(s[1..], keep)
    else Filter(s[1..], keep)
  }

  /** Filtering commutes with concatenation, so the survivors keep their relative order. */
  lemma {:induction false} FilterAppend<T>(a: seq<T>, b: seq<T>, keep: T -> bool)
    ensures Filter(a + b, keep) == Filter(a, keep) + Filter(b, keep)
  {
    if a == [] {
      assert a + b == b;
    } else {
      assert (a + b)[1..] == a[1..] + b;
      FilterAppend(a[1..], b, keep);
    }
  }

  // ---------------------------------------------------------------------------------------
  // `{ ...row, ...updates }`

  function MergeExpense(e: Expense, u: ExpenseUpdate): Expense {
    Expense(
      GetOr(u.id, e.id), GetOr(u.userId, e.userId), GetOr(u.amount, e.amount),
      GetOr(u.categoryId, e.categoryId), GetOr(u.description, e.description),
      GetOr(u.date, e.date), GetOr(u.inputMethod, e.inputMethod),
      GetOr(u.photoUrl, e.photoUrl), GetOr(u.createdAt, e.createdAt))
  }

  function MergeBudget(b: Budget, u: BudgetUpdate): Budget {
    Budget(
      GetOr(u.id, b.id), GetOr(u.userId, b.userId), GetOr(u.categoryId, b.categoryId),
      GetOr(u.amount, b.amount), GetOr(u.period, b.period), GetOr(u.createdAt, b.createdAt))
  }

  /** The list `updateExpense` installs (contexts/ExpenseContext.tsx:92). */
  function UpdatedExpenses(s: seq<Expense>, id: string, u: ExpenseUpdate): seq<Expense> {
    MapWhere(s, (e: Expense) => e.id == id, (e: Expense) => MergeExpense(e, u))
  }

  /** The list `updateBudget` installs (contexts/ExpenseContext.tsx:119). */
  function UpdatedBudgets(s: seq<Budget>, id: string, u: BudgetUpdate): seq<Budget> {
    MapWhere(s, (b: Budget) => b.id == id, (b: Budget) => MergeBudget(b, u))
  }

  /** The list `deleteExpense` installs (contexts/ExpenseContext.tsx:99). */
  function WithoutExpense(s: seq<Expense>, id: string): seq<Expense> {
    Filter(s, (e: Expense) => e.id != id)
  }

  /** An update keeps length and order: a matching entry becomes the entry merged with the
      update, every other entry is untouched. */
  lemma UpdatedExpensesAt(s: seq<Expense>, id: string, u: ExpenseUpdate, k: nat)
    requires k < |s|
    ensures |UpdatedExpenses(s, id, u)| == |s|
    ensures s[k].id == id ==> UpdatedExpenses(s, id, u)[k] == MergeExpense(s[k], u)
    ensures s[k].id != id ==> UpdatedExpenses(s, id, u)[k] == s[k]
  {
    MapWhereAt(s, (e: Expense) => e.id == id, (e: Expense) => MergeExpense(e, u), k);
  }

  lemma UpdatedBudgetsAt(s: seq<Budget>, id: string, u: BudgetUpdate, k: nat)
    requires k < |s|
    ensures |UpdatedBudgets(s, id, u)| == |s|
    ensures s[k].id == id ==> UpdatedBudgets(s, id, u)[k] == MergeBudget(s[k], u)
    ensures s[k].id != id ==> UpdatedBudgets(s, id, u)[k] == s[k]
  {
    MapWhereAt(s, (b: Budget) => b.id == id, (b: Budget) => MergeBudget(b, u), k);
  }

  /** Applying the same update a second time changes nothing, even when the update
      rewrites the id itself. */
  lemma {:induction false} UpdatedExpensesTwice(s: seq<Expense>, id: string, u: ExpenseUpdate)
    ensures UpdatedExpenses(UpdatedExpenses(s, id, u), id, u) == UpdatedExpenses(s, id, u)
  {
    var once := UpdatedExpenses(s, id, u);
    var twice := UpdatedExpenses(once, id, u);
    forall k | 0 <= k < |s| ensures twice[k] == once[k] {
      UpdatedExpensesAt(s, id, u, k);
      UpdatedExpensesAt(once, id, u, k);
    }
  }

  /** Deleting removes exactly the entries with that id, and the rest keep their order. */
  lemma DeleteRemovesExactly(a: seq<Expense>, b: seq<Expense>, id: string)
    ensures forall e :: e in WithoutExpense(a, id) <==> e in a && e.id != id
    ensures WithoutExpense(a + b, id) == WithoutExpense(a, id) + WithoutExpense(b, id)
  {
    FilterAppend(a, b, (e: Expense) => e.id != id);
  }

  // ---------------------------------------------------------------------------------------
  // First-run seeding (contexts/ExpenseContext.tsx:49-58)

  /** One create request per default, in default order. */
  function SeedRequests(userId: string): seq<NewCategory> {
    seq(|DefaultCategories|, i requires 0 <= i < |DefaultCategories| =>
      NewCategory(userId, DefaultCategories[i].name, DefaultCategories[i].color,
                  DefaultCategories[i].icon))
  }

  /** The rows the seeding loop keeps: the `data` of each create that returned one, in
      request order; a create without data is skipped. */
  function SeededRows(reqs: seq<NewCategory>, create: NewCategory -> Response<Category>)
    : (r: seq<Category>)
    ensures |r| <= |reqs|
  {
    if reqs == [] then []
    else
      var last := create(reqs[|reqs| - 1]);
      SeededRows(reqs[..|reqs| - 1], create) + (if last.data.Some? then [last.data.value] else [])
  }

  /** Seeding never aborts: the rows of a later batch of creates follow those of an earlier one. */
  lemma {:induction false} SeededRowsAppend(a: seq<NewCategory>, b: seq<NewCategory>,
                                            create: NewCategory -> Response<Category>)
    ensures SeededRows(a + b, create) == SeededRows(a, create) + SeededRows(b, create)
  {
    if b != [] {
      assert (a + b)[..|a + b| - 1] == a + b[..|b| - 1];
      assert (a + b)[|a + b| - 1] == b[|b| - 1];
      SeededRowsAppend(a, b[..|b| - 1], create);
    } else {
      assert a + b == a;
    }
  }

  /** When every create returns a row, the local categories are those rows, in order. */
  lemma {:induction false} SeededRowsAllCreated(reqs: seq<NewCategory>,
                                                create: NewCategory -> Response<Category>)
    requires forall i :: 0 <= i < |reqs| ==> create(reqs[i]).data.Some?
    ensures |SeededRows(reqs, create)| == |reqs|
    ensures forall i :: 0 <= i < |reqs| ==> SeededRows(reqs, create)[i] == create(reqs[i]).data.value
  {
    if reqs != [] {
      SeededRowsAllCreated(reqs[..|reqs| - 1], create);
    }
  }

  /** First run with a store that echoes each requested name: exactly the seven default
      names, in default order. */
  lemma SeedingYieldsDefaultNames(userId: string, create: NewCategory -> Response<Category>)
    requires forall r :: create(r).data.Some? && create(r).data.value.name == r.name
    ensures |SeededRows(SeedRequests(userId), create)| == 7
    ensures forall i :: 0 <= i < 7 ==>
      SeededRows(SeedRequests(userId), create)[i].name == Names(DefaultCategories)[i]
  {
    SeededRowsAllCreated(SeedRequests(userId), create);
    DefaultCategoriesShape();
  }

  /** The seeding `for` loop: one create per default, in order, keeping the rows returned. */
  method SeedDefaultCategories(userId: string, create: NewCategory -> Response<Category>)
    returns (requests: seq<NewCategory>, created: seq<Category>)
    ensures requests == SeedRequests(userId)
    ensures created == SeededRows(requests, create)
  {
    requests, created := [], [];
    var i := 0;
    while i < |DefaultCategories|
      invariant 0 <= i <= |DefaultCategories|
      invariant requests == SeedRequests(userId)[..i]
      invariant created == SeededRows(requests, create)
    {
      var cat := DefaultCategories[i];
      var req := NewCategory(userId, cat.name, cat.color, cat.icon);
      var res := create(req);
      assert (requests + [req])[..|requests|] == requests;
      requests := requests + [req];
      if res.data.Some? {
        created := created + [res.data.value];
      }
      i := i + 1;
    }
  }

  // ---------------------------------------------------------------------------------------
  // The store

  class Store {
    var expenses: seq<Expense>
    var categories: seq<Category>
    var budgets: seq<Budget>
    var loading: bool

    /** Empty lists, loading until the first load completes. */
    constructor ()
      ensures expenses == [] && categories == [] && budgets == [] && loading
    {
      expenses, categories, budgets, loading := [], [], [], true;
    }

    /** `loadData`: with no user, clear everything; otherwise install each fetched list that
        came back with data, seeding the defaults when the category list is empty. Returns the
        create requests the seeding issued. */
    method LoadData(user: Option<string>, expensesRes: Response<seq<Expense>>,
                    categoriesRes: Response<seq<Category>>, budgetsRes: Response<seq<Budget>>,
                    createCategory: NewCategory -> Response<Category>)
      returns (seedRequests: seq<NewCategory>)
      modifies this
      ensures !loading
      ensures user.None? ==> expenses == [] && categories == [] && budgets == [] && seedRequests == []
      ensures user.Some? ==> expenses == GetOr(expensesRes.data, old(expenses))
      ensures user.Some? ==> budgets == GetOr(budgetsRes.data, old(budgets))
      ensures user.Some? && categoriesRes.data == Some([]) ==>
        seedRequests == SeedRequests(user.value) && categories == SeededRows(seedRequests, createCategory)
      ensures user.Some? && categoriesRes.data != Some([]) ==>
        seedRequests == [] && categories == GetOr(categoriesRes.data, old(categories))
    {
      seedRequests := [];
      if user.None? {
        expenses, categories, budgets, loading := [], [], [], false;
        return;
      }
      loading := true;
      if expensesRes.data.Some? {
        expenses := expensesRes.data.value;
      }
      if categoriesRes.data.Some? {
        if |categoriesRes.data.value| == 0 {
          var created;
          seedRequests, created := SeedDefaultCategories(user.value, createCategory);
          categories := created;
        } else {
          categories := categoriesRes.data.value;
        }
      }
      if budgetsRes.data.Some? {
        budgets := budgetsRes.data.value;
      }
      loading := false;
    }

    /** `addExpense`: no user, no request; a returned row without an error goes first. */
    method AddExpense(user: Option<string>, expense: ExpenseDraft, res: Response<Expense>)
      returns (request: Option<NewExpense>)
      modifies this`expenses
      ensures user.None? ==> request.None? && expenses == old(expenses)
      ensures user.Some? ==> request == Some(NewExpense(user.value, expense))
      ensures user.Some? && res.data.Some? && !Truthy(res.error) ==>
        expenses == [res.data.value] + old(expenses)
      ensures user.Some? && (res.data.None? || Truthy(res.error)) ==> expenses == old(expenses)
    {
      if user.None? {
        return None;
      }
      request := Some(NewExpense(user.value, expense));
      if res.data.Some? && !Truthy(res.error) {
        expenses := [res.data.value] + expenses;
      }
    }

    /** `updateExpense`: the `(id, updates)` request always goes out, with or without a
        user; the list is patched unless it failed. */
    method UpdateExpense(id: string, updates: ExpenseUpdate, error: Option<string>)
      returns (request: (string, ExpenseUpdate))
      modifies this`expenses
      ensures request == (id, updates)
      ensures !Truthy(error) ==> expenses == UpdatedExpenses(old(expenses), id, updates)
      ensures Truthy(error) ==> expenses == old(expenses)
    {
      request := (id, updates);
      if !Truthy(error) {
        expenses := UpdatedExpenses(expenses, id, updates);
      }
    }

    /** `deleteExpense`: the delete request for `id` always goes out; the rows with that id
        are dropped unless it failed. */
    method DeleteExpense(id: string, error: Option<string>)
      returns (request: string)
      modifies this`expenses
      ensures request == id
      ensures !Truthy(error) ==> expenses == WithoutExpense(old(expenses), id)
      ensures Truthy(error) ==> expenses == old(expenses)
    {
      request := id;
      if !Truthy(error) {
        expenses := WithoutExpense(expenses, id);
      }
    }

    /** `addBudget`: no user, no request; a returned row without an error goes last. */
    method AddBudget(user: Option<string>, budget: BudgetDraft, res: Response<Budget>)
      returns (request: Option<NewBudget>)
      modifies this`budgets
      ensures user.None? ==> request.None? && budgets == old(budgets)
      ensures user.Some? ==> request == Some(NewBudget(user.value, budget))
      ensures user.Some? && res.data.Some? && !Truthy(res.error) ==>
        budgets == old(budgets) + [res.data.value]
      ensures user.Some? && (res.data.None? || Truthy(res.error)) ==> budgets == old(budgets)
    {
      if user.None? {
        return None;
      }
      request := Some(NewBudget(user.value, budget));
      if res.data.Some? && !Truthy(res.error) {
        budgets := budgets + [res.data.value];
      }
    }

    /** `updateBudget`: the `(id, updates)` request always goes out; the budgets are patched
        unless it failed. */
    method UpdateBudget(id: string, updates: BudgetUpdate, error: Option<string>)
      returns (request: (string, BudgetUpdate))
      modifies this`budgets
      ensures request == (id, updates)
      ensures !Truthy(error) ==> budgets == UpdatedBudgets(old(budgets), id, updates)
      ensures Truthy(error) ==> budgets == old(budgets)
    {
      request := (id, updates);
      if !Truthy(error) {
        budgets := UpdatedBudgets(budgets, id, updates);
      }
    }
  }
}
