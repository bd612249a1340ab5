/** The three row kinds of the remote store (services/database.ts), the payloads the
    application sends to it, and the `{ data, error }` pair every store call returns. */
module Records {
  import opened Js

  datatype InputMethod = Manual | Chat | Voice | Photo

  datatype Period = Weekly | Monthly | Yearly

  datatype Expense = Expense(
    id: string,
    userId: string,
    amount: real,
    categoryId: Option<string>,
    description: Option<string>,
    date: string,
    inputMethod: InputMethod,
    photoUrl: Option<string>,
    createdAt: string)

  datatype Category = Category(
    id: string,
    userId: string,
    name: string,
    color: string,
    icon: string,
    createdAt: string)

  datatype Budget = Budget(
    id: string,
    userId: string,
    categoryId: Option<string>,
    amount: real,
    period: Period,
    createdAt: string)

  /** `Omit<Expense, 'id' | 'created_at' | 'user_id'>`: what a screen hands to `addExpense`.
      A missing `photo_url` key is `None`, like `null`. */
  datatype ExpenseDraft = ExpenseDraft(
    amount: real,
    categoryId: Option<string>,
    description: Option<string>,
    date: string,
    inputMethod: InputMethod,
    photoUrl: Option<string>)

  /** `{ ...expense, user_id }`: the row sent to `createExpense` */
  datatype NewExpense = NewExpense(userId: string, draft: ExpenseDraft)

  /** `{ user_id, name, color, icon }`: the row sent to `createCategory` */
  datatype NewCategory = NewCategory(userId: string, name: string, color: string, icon: string)

  /** `Omit<Budget, 'id' | 'created_at' | 'user_id'>` */
  datatype BudgetDraft = BudgetDraft(categoryId: Option<string>, amount: real, period: Period)

  datatype NewBudget = NewBudget(userId: string, draft: BudgetDraft)

  /** The `{ data, error }` pair a store call resolves to; it never throws. */
  datatype Response<T> = Response(data: Option<T>, error: Option<string>)

  /** `Partial<Expense>`: `Some` for every key the update object carries. */
  datatype ExpenseUpdate = ExpenseUpdate(
    id: Option<string>,
    userId: Option<string>,
    amount: Option<real>,
    categoryId: Option<Option<string>>,
    description: Option<Option<string>>,
    date: Option<string>,
    inputMethod: Option<InputMethod>,
    photoUrl: Option<Option<string>>,
    createdAt: Option<string>)

  /** `Partial<Budget>` */
  datatype BudgetUpdate = BudgetUpdate(
    id: Option<string>,
    userId: Option<string>,
    categoryId: Option<Option<string>>,
    amount: Option<real>,
    period: Option<Period>,
    createdAt: Option<string>)
}
