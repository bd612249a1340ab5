/** The demo seeding service (services/demoData.ts): six demo categories, then twelve demo
    expenses dated relative to today, created one after another; the first store error
    aborts the run, and nothing already created is undone.

    The store's `createCategory` / `createExpense` answers are parameters, as is the
    `YYYY-MM-DD` string of the day `daysAgo` days before today. */
module DemoData {
  import opened Js
  import opened Records
  import opened Categories

  datatype DemoExpense = DemoExpense(description: string, amount: real, category: string, daysAgo: nat)

  const DemoCategories: seq<CategoryTemplate> := [
    CategoryTemplate("Food", "#f97316", "restaurant"),
    CategoryTemplate("Transport", "#06b6d4", "car"),
    CategoryTemplate("Shopping", "#ec4899", "bag"),
    CategoryTemplate("Entertainment", "#a855f7", "film"),
    CategoryTemplate("Bills", "#eab308", "document"),
    CategoryTemplate("Health", "#10b981", "medical")
  ]

  const DemoExpenses: seq<DemoExpense> := [
    DemoExpense("Coffee at Starbucks", 5.50, "Food", 0),
    DemoExpense("Lunch with friends", 25.00, "Food", 1),
    DemoExpense("Uber to office", 12.50, "Transport", 1),
    DemoExpense("Netflix subscription", 15.99, "Entertainment", 2),
    DemoExpense("Grocery shopping", 85.30, "Shopping", 2),
    DemoExpense("Gas station", 45.00, "Transport", 3),
    DemoExpense("Movie tickets", 28.00, "Entertainment", 3),
    DemoExpense("Pharmacy", 32.50, "Health", 4),
    DemoExpense("Dinner at restaurant", 65.00, "Food", 4),
    DemoExpense("Electricity bill", 120.00, "Bills", 5),
    DemoExpense("Gym membership", 50.00, "Health", 5),
    DemoExpense("Online shopping", 95.00, "Shopping", 6)
  ]

  /** `{ success, error }` */
  datatype SeedResult = SeedResult(success: bool, error: Option<string>)

  /** The category loop's calls, the `categoryMap` it built and the error that stopped it. */
  datatype CategoryRun = CategoryRun(calls: seq<NewCategory>, ids: map<string, string>, failure: Option<string>)

  /** The expense loop's calls and the error that stopped it. */
  datatype ExpenseRun = ExpenseRun(calls: seq<NewExpense>, failure: Option<string>)

  /** A seeding run: its result and every store call it made, in order. */
  datatype SeedRun = SeedRun(result: SeedResult, categoryCalls: seq<NewCategory>, expenseCalls: seq<NewExpense>)

  function CategoryRequest(userId: string, t: CategoryTemplate): NewCategory {
    NewCategory(userId, t.name, t.color, t.icon)
  }

  /** `categoryMap[name] || null`: an absent or empty id is no category. */
  function Lookup(ids: map<string, string>, name: string): (r: Option<string>)
    ensures r.Some? <==> name in ids && ids[name] != ""
    ensures r.Some? ==> r.value == ids[name]
  {
    if name in ids && ids[name] != "" then Some(ids[name]) else None
  }

  function ExpenseRequest(userId: string, ids: map<string, string>, e: DemoExpense,
                          dayString: nat -> string): NewExpense {
    NewExpense(userId, ExpenseDraft(e.amount, Lookup(ids, e.category), Some(e.description),
                                    dayString(e.daysAgo), Manual, None))
  }

  /** The category loop over templates `ts`, starting from the map `ids`: one create per
      template in order, recording each returned id under the template's name, until a
      create answers with an error. */
  function CategoryPhase(userId: string, ts: seq<CategoryTemplate>,
                         create: NewCategory -> Response<Category>, ids: map<string, string>)
    : CategoryRun
    decreases |ts|
  {
    if ts == [] then CategoryRun([], ids, None)
    else
      var req := CategoryRequest(userId, ts[0]);
      var res := create(req);
      if Truthy(res.error) then CategoryRun([req], ids, res.error)
      else
        var next := if res.data.Some? then ids[ts[0].name := res.data.value.id] else ids;
        var rest := CategoryPhase(userId, ts[1..], create, next);
        rest.(calls := [req] + rest.calls)
  }

  /** The expense loop over `es` with the finished `categoryMap`. */
  function ExpensePhase(userId: string, es: seq<DemoExpense>, ids: map<string, string>,
                        create: NewExpense -> Response<Expense>, dayString: nat -> string)
    : ExpenseRun
    decreases |es|
  {
    if es == [] then ExpenseRun([], None)
    else
      var req := ExpenseRequest(userId, ids, es[0], dayString);
      var res := create(req);
      if Truthy(res.error) then ExpenseRun([req], res.error)
      else
        var rest := ExpensePhase(userId, es[1..], ids, create, dayString);
        rest.(calls := [req] + rest.calls)
  }

  /** The category loop asks for the templates in order, and for all of them unless it
      stopped at an error. */
  lemma {:induction false} CategoryPhaseCalls(userId: string, ts: seq<CategoryTemplate>,
                                              create: NewCategory -> Response<Category>,
                                              ids: map<string, string>)
    ensures var r := CategoryPhase(userId, ts, create, ids);
      |r.calls| <= |ts| && (r.failure.None? ==> |r.calls| == |ts|)
      && forall i :: 0 <= i < |r.calls| ==> r.calls[i] == CategoryRequest(userId, ts[i])
    decreases |ts|
  {
    if ts != [] {
      var req := CategoryRequest(userId, ts[0]);
      var res := create(req);
      if !Truthy(res.error) {
        var next := if res.data.Some? then ids[ts[0].name := res.data.value.id] else ids;
        CategoryPhaseCalls(userId, ts[1..], create, next);
        var rest := CategoryPhase(userId, ts[1..], create, next);
        var r := CategoryPhase(userId, ts, create, ids);
        assert r.calls == [req] + rest.calls && r.failure == rest.failure;
        forall i | 1 <= i < |r.calls|
          ensures r.calls[i] == CategoryRequest(userId, ts[i])
        {
          assert r.calls[i] == rest.calls[i - 1] && ts[i] == ts[1..][i - 1];
        }
      }
    }
  }

  /** Each category create is made only after every earlier one succeeded, and the loop
      stops exactly at the first error, which it reports. */
  lemma {:induction false} CategoryPhaseStopsAtFirstError(userId: string, ts: seq<CategoryTemplate>,
                                                          create: NewCategory -> Response<Category>,
                                                          ids: map<string, string>)
    ensures var r := CategoryPhase(userId, ts, create, ids);
      (forall i :: 0 <= i < |r.calls| - 1 ==> !Truthy(create(r.calls[i]).error))
      && (r.failure.None? ==> forall i :: 0 <= i < |r.calls| ==> !Truthy(create(r.calls[i]).error))
      && (r.failure.Some? ==> (r.calls != [] && Truthy(r.failure)
                               && r.failure == create(r.calls[|r.calls| - 1]).error))
    decreases |ts|
  {
    if ts != [] {
      var req := CategoryRequest(userId, ts[0]);
      var res := create(req);
      if !Truthy(res.error) {
        var next := if res.data.Some? then ids[ts[0].name := res.data.value.id] else ids;
        CategoryPhaseStopsAtFirstError(userId, ts[1..], create, next);
        var rest := CategoryPhase(userId, ts[1..], create, next);
        var r := CategoryPhase(userId, ts, create, ids);
        assert r.calls == [req] + rest.calls && r.failure == rest.failure;
        assert forall i :: 1 <= i < |r.calls| ==> r.calls[i] == rest.calls[i - 1];
      }
    }
  }

  /** The expense loop asks for the expenses in order, and for all of them unless it
      stopped at an error. */
  lemma {:induction false} ExpensePhaseCalls(userId: string, es: seq<DemoExpense>,
                                             ids: map<string, string>,
                                             create: NewExpense -> Response<Expense>,
                                             dayString: nat -> string)
    ensures var r := ExpensePhase(userId, es, ids, create, dayString);
      |r.calls| <= |es| && (r.failure.None? ==> |r.calls| == |es|)
      && forall i :: 0 <= i < |r.calls| ==> r.calls[i] == ExpenseRequest(userId, ids, es[i], dayString)
    decreases |es|
  {
    if es != [] {
      var req := ExpenseRequest(userId, ids, es[0], dayString);
      if !Truthy(create(req).error) {
        ExpensePhaseCalls(userId, es[1..], ids, create, dayString);
        var rest := ExpensePhase(userId, es[1..], ids, create, dayString);
        var r := ExpensePhase(userId, es, ids, create, dayString);
        assert r.calls == [req] + rest.calls && r.failure == rest.failure;
        forall i | 1 <= i < |r.calls|
          ensures r.calls[i] == ExpenseRequest(userId, ids, es[i], dayString)
        {
          assert r.calls[i] == rest.calls[i - 1] && es[i] == es[1..][i - 1];
        }
      }
    }
  }

  /** The same stopping rule for the expense loop. */
  lemma {:induction false} ExpensePhaseStopsAtFirstError(userId: string, es: seq<DemoExpense>,
                                                         ids: map<string, string>,
                                                         create: NewExpense -> Response<Expense>,
                                                         dayString: nat -> string)
    ensures var r := ExpensePhase(userId, es, ids, create, dayString);
      (forall i :: 0 <= i < |r.calls| - 1 ==> !Truthy(create(r.calls[i]).error))
      && (r.failure.None? ==> forall i :: 0 <= i < |r.calls| ==> !Truthy(create(r.calls[i]).error))
      && (r.failure.Some? ==> (r.calls != [] && Truthy(r.failure)
                               && r.failure == create(r.calls[|r.calls| - 1]).error))
    decreases |es|
  {
    if es != [] {
      var req := ExpenseRequest(userId, ids, es[0], dayString);
      if !Truthy(create(req).error) {
        ExpensePhaseStopsAtFirstError(userId, es[1..], ids, create, dayString);
        var rest := ExpensePhase(userId, es[1..], ids, create, dayString);
        var r := ExpensePhase(userId, es, ids, create, dayString);
        assert r.calls == [req] + rest.calls && r.failure == rest.failure;
        assert forall i :: 1 <= i < |r.calls| ==> r.calls[i] == rest.calls[i - 1];
      }
    }
  }

  /** A run over templates `ts` and expenses `es`: the category loop from an empty map, then,
      unless it failed, the expense loop; a thrown error becomes `{ success: false, error }`. */
  function SeedWith(userId: string, ts: seq<CategoryTemplate>, es: seq<DemoExpense>,
                    createCategory: NewCategory -> Response<Category>,
                    createExpense: NewExpense -> Response<Expense>, dayString: nat -> string): SeedRun
  {
    var c := CategoryPhase(userId, ts, createCategory, map[]);
    if c.failure.Some? then SeedRun(SeedResult(false, c.failure), c.calls, [])
    else
      var e := ExpensePhase(userId, es, c.ids, createExpense, dayString);
      if e.failure.Some? then SeedRun(SeedResult(false, e.failure), c.calls, e.calls)
      else SeedRun(SeedResult(true, None), c.calls, e.calls)
  }

  /** `seedDemoData` over the demo lists. */
  function Seed(userId: string, createCategory: NewCategory -> Response<Category>,
                createExpense: NewExpense -> Response<Expense>, dayString: nat -> string): SeedRun
  {
    SeedWith(userId, DemoCategories, DemoExpenses, createCategory, createExpense, dayString)
  }


  /** The category `for` loop over `ts`. */
  method CreateCategories(userId: string, ts: seq<CategoryTemplate>,
                          create: NewCategory -> Response<Category>) returns (run: CategoryRun)
    ensures run == CategoryPhase(userId, ts, create, map[])
  {
    var categoryMap: map<string, string> := map[];
    var calls: seq<NewCategory> := [];
    var todo := ts;
    while todo != []
      invariant var rest := CategoryPhase(userId, todo, create, categoryMap);
        CategoryPhase(userId, ts, create, map[]) == rest.(calls := calls + rest.calls)
      decreases |todo|
    {
      var cat := todo[0];
      var req := CategoryRequest(userId, cat);
      var res := create(req);
      if Truthy(res.error) {
        return CategoryRun(calls + [req], categoryMap, res.error);
      }
      ghost var before := categoryMap;
      if res.data.Some? {
        categoryMap := categoryMap[cat.name := res.data.value.id];
      }
      ghost var next := CategoryPhase(userId, todo[1..], create, categoryMap);
      assert CategoryPhase(userId, todo, create, before) == next.(calls := [req] + next.calls);
      assert calls + [req] + next.calls == calls + ([req] + next.calls);
      calls := calls + [req];
      todo := todo[1..];
    }
    run := CategoryRun(calls, categoryMap, None);
  }

  /** The expense `for` loop over `es`. */
  method CreateExpenses(userId: string, es: seq<DemoExpense>, ids: map<string, string>,
                        create: NewExpense -> Response<Expense>, dayString: nat -> string)
    returns (run: ExpenseRun)
    ensures run == ExpensePhase(userId, es, ids, create, dayString)
  {
    var calls: seq<NewExpense> := [];
    var todo := es;
    while todo != []
      invariant var rest := ExpensePhase(userId, todo, ids, create, dayString);
        ExpensePhase(userId, es, ids, create, dayString) == rest.(calls := calls + rest.calls)
      decreases |todo|
    {
      var req := ExpenseRequest(userId, ids, todo[0], dayString);
      var res := create(req);
      if Truthy(res.error) {
        return ExpenseRun(calls + [req], res.error);
      }
      ghost var next := ExpensePhase(userId, todo[1..], ids, create, dayString);
      assert calls + [req] + next.calls == calls + ([req] + next.calls);
      calls := calls + [req];
      todo := todo[1..];
    }
    run := ExpenseRun(calls, None);
  }

  /** `seedDemoData`: the two loops, stopping at the first error. */
  method SeedDemoData(userId: string, createCategory: NewCategory -> Response<Category>,
                      createExpense: NewExpense -> Response<Expense>, dayString: nat -> string)
    returns (run: SeedRun)
    ensures run == Seed(userId, createCategory, createExpense, dayString)
  {
    var c := CreateCategories(userId, DemoCategories, createCategory);
    if c.failure.Some? {
      return SeedRun(SeedResult(false, c.failure), c.calls, []);
    }
    var e := CreateExpenses(userId, DemoExpenses, c.ids, createExpense, dayString);
    if e.failure.Some? {
      return SeedRun(SeedResult(false, e.failure), c.calls, e.calls);
    }
    run := SeedRun(SeedResult(true, None), c.calls, e.calls);
  }

  // ---------------------------------------------------------------------------------------
  // Properties of a run

  /** The result reports the first store error, if any; after a category error no expense
      is created; the calls are the list requests in order. */
  lemma SeedWithReportsFirstError(userId: string, ts: seq<CategoryTemplate>, es: seq<DemoExpense>,
                                  createCategory: NewCategory -> Response<Category>,
                                  createExpense: NewExpense -> Response<Expense>, dayString: nat -> string)
    ensures var r := SeedWith(userId, ts, es, createCategory, createExpense, dayString);
      (r.result.success <==> r.result.error.None?) && (!r.result.success ==> Truthy(r.result.error))
    ensures var r := SeedWith(userId, ts, es, createCategory, createExpense, dayString);
      !r.result.success ==>
        (r.expenseCalls == [] && r.categoryCalls != []
         && r.result.error == createCategory(r.categoryCalls[|r.categoryCalls| - 1]).error)
        || (r.expenseCalls != [] && r.result.error == createExpense(r.expenseCalls[|r.expenseCalls| - 1]).error)
    ensures var r := SeedWith(userId, ts, es, createCategory, createExpense, dayString);
      |r.categoryCalls| <= |ts| && forall i :: 0 <= i < |r.categoryCalls| ==>
        r.categoryCalls[i] == CategoryRequest(userId, ts[i])
    ensures var r := SeedWith(userId, ts, es, createCategory, createExpense, dayString);
      |r.categoryCalls| < |ts| ==> r.expenseCalls == [] && !r.result.success
    ensures var r := SeedWith(userId, ts, es, createCategory, createExpense, dayString);
      r.result.success ==> |r.categoryCalls| == |ts| && |r.expenseCalls| == |es|
  {
    var c := CategoryPhase(userId, ts, createCategory, map[]);
    CategoryPhaseStopsAtFirstError(userId, ts, createCategory, map[]);
    CategoryPhaseCalls(userId, ts, createCategory, map[]);
    ExpensePhaseStopsAtFirstError(userId, es, c.ids, createExpense, dayString);
    ExpensePhaseCalls(userId, es, c.ids, createExpense, dayString);
  }

  /** A store that accepts everything gets every category and every expense, in list
      order, and the run succeeds. */
  lemma SeedWithAccepting(userId: string, ts: seq<CategoryTemplate>, es: seq<DemoExpense>,
                          createCategory: NewCategory -> Response<Category>,
                          createExpense: NewExpense -> Response<Expense>, dayString: nat -> string)
    requires forall q :: !Truthy(createCategory(q).error)
    requires forall q :: !Truthy(createExpense(q).error)
    ensures var r := SeedWith(userId, ts, es, createCategory, createExpense, dayString);
      r.result == SeedResult(true, None) && |r.categoryCalls| == |ts| && |r.expenseCalls| == |es|
    ensures var r := SeedWith(userId, ts, es, createCategory, createExpense, dayString);
      var c := CategoryPhase(userId, ts, createCategory, map[]);
      forall i :: 0 <= i < |es| ==> r.expenseCalls[i] == ExpenseRequest(userId, c.ids, es[i], dayString)
  {
    var c := CategoryPhase(userId, ts, createCategory, map[]);
    CategoryPhaseStopsAtFirstError(userId, ts, createCategory, map[]);
    CategoryPhaseCalls(userId, ts, createCategory, map[]);
    ExpensePhaseStopsAtFirstError(userId, es, c.ids, createExpense, dayString);
    ExpensePhaseCalls(userId, es, c.ids, createExpense, dayString);
  }

  /** Every expense a run creates is a manual entry without a photo, for the given user, and
      carries its list entry's amount and description. */
  lemma SeedWithExpensesAreManual(userId: string, ts: seq<CategoryTemplate>, es: seq<DemoExpense>,
                                  createCategory: NewCategory -> Response<Category>,
                                  createExpense: NewExpense -> Response<Expense>, dayString: nat -> string)
    ensures var r := SeedWith(userId, ts, es, createCategory, createExpense, dayString);
      |r.expenseCalls| <= |es| && forall i :: 0 <= i < |r.expenseCalls| ==>
        var q := r.expenseCalls[i];
        q.userId == userId && q.draft.inputMethod == Manual && q.draft.photoUrl.None?
        && q.draft.amount == es[i].amount && q.draft.description == Some(es[i].description)
        && q.draft.date == dayString(es[i].daysAgo)
  {
    var c := CategoryPhase(userId, ts, createCategory, map[]);
    ExpensePhaseStopsAtFirstError(userId, es, c.ids, createExpense, dayString);
    ExpensePhaseCalls(userId, es, c.ids, createExpense, dayString);
  }

  /** When every category create returns a row with a non-empty id, every template's name
      ends up in the map with a non-empty id (which id is `CategoryPhaseRecordsReturned`). */
  lemma {:induction false} CategoryPhaseRecordsAll(userId: string, ts: seq<CategoryTemplate>,
                                                   create: NewCategory -> Response<Category>,
                                                   ids: map<string, string>)
    requires forall q :: !Truthy(create(q).error) && create(q).data.Some? && create(q).data.value.id != ""
    requires forall k :: k in ids ==> ids[k] != ""
    ensures var r := CategoryPhase(userId, ts, create, ids);
      forall k :: k in r.ids ==> r.ids[k] != ""
    ensures var r := CategoryPhase(userId, ts, create, ids);
      forall i :: 0 <= i < |ts| ==> ts[i].name in r.ids
    decreases |ts|
  {
    if ts != [] {
      var res := create(CategoryRequest(userId, ts[0]));
      var next := ids[ts[0].name := res.data.value.id];
      CategoryPhaseRecordsAll(userId, ts[1..], create, next);
      CategoryPhaseKeepsKeys(userId, ts[1..], create, next);
      var r := CategoryPhase(userId, ts, create, ids);
      var rest := CategoryPhase(userId, ts[1..], create, next);
      assert r.ids == rest.ids;
      forall i | 0 <= i < |ts|
        ensures ts[i].name in r.ids
      {
        if i > 0 {
          assert ts[i] == ts[1..][i - 1];
        }
      }
    }
  }

  /** When every category create succeeds with a row, the map holds, under each template's
      name, the id the store returned for the last template of that name. */
  lemma {:induction false} CategoryPhaseRecordsReturned(userId: string, ts: seq<CategoryTemplate>,
                                                        create: NewCategory -> Response<Category>,
                                                        ids: map<string, string>)
    requires forall q :: !Truthy(create(q).error) && create(q).data.Some?
    ensures var r := CategoryPhase(userId, ts, create, ids);
      forall i :: 0 <= i < |ts| && (forall j :: i < j < |ts| ==> ts[j].name != ts[i].name) ==>
        ts[i].name in r.ids && r.ids[ts[i].name] == create(CategoryRequest(userId, ts[i])).data.value.id
    decreases |ts|
  {
    if ts != [] {
      var res := create(CategoryRequest(userId, ts[0]));
      var next := ids[ts[0].name := res.data.value.id];
      CategoryPhaseRecordsReturned(userId, ts[1..], create, next);
      CategoryPhaseKeepsKeys(userId, ts[1..], create, next);
      var r := CategoryPhase(userId, ts, create, ids);
      var rest := CategoryPhase(userId, ts[1..], create, next);
      assert r.ids == rest.ids;
      forall i | 0 <= i < |ts| && (forall j :: i < j < |ts| ==> ts[j].name != ts[i].name)
        ensures ts[i].name in r.ids
        ensures r.ids[ts[i].name] == create(CategoryRequest(userId, ts[i])).data.value.id
      {
        if i == 0 {
          forall j | 0 <= j < |ts[1..]|
            ensures ts[1..][j].name != ts[0].name
          {
            assert ts[1..][j] == ts[j + 1];
          }
        } else {
          assert ts[i] == ts[1..][i - 1];
          forall j | i - 1 < j < |ts[1..]|
            ensures ts[1..][j].name != ts[1..][i - 1].name
          {
            assert ts[1..][j] == ts[j + 1];
          }
        }
      }
    }
  }

  /** The category loop only adds to its map, and a key no template names keeps its id. */
  lemma {:induction false} CategoryPhaseKeepsKeys(userId: string, ts: seq<CategoryTemplate>,
                                                  create: NewCategory -> Response<Category>,
                                                  ids: map<string, string>)
    ensures ids.Keys <= CategoryPhase(userId, ts, create, ids).ids.Keys
    ensures forall k :: k in ids && (forall j :: 0 <= j < |ts| ==> ts[j].name != k) ==>
      CategoryPhase(userId, ts, create, ids).ids[k] == ids[k]
    decreases |ts|
  {
    if ts != [] {
      var res := create(CategoryRequest(userId, ts[0]));
      if !Truthy(res.error) {
        var next := if res.data.Some? then ids[ts[0].name := res.data.value.id] else ids;
        CategoryPhaseKeepsKeys(userId, ts[1..], create, next);
        forall k | k in ids && (forall j :: 0 <= j < |ts| ==> ts[j].name != k)
          ensures forall j :: 0 <= j < |ts[1..]| ==> ts[1..][j].name != k
        {
          assert forall j :: 0 <= j < |ts[1..]| ==> ts[1..][j] == ts[j + 1];
        }
      }
    }
  }

  /** When the store accepts everything and gives every category a non-empty id, every
      expense whose category is one of the templates is linked to the id the store
      returned for the last template of that name. */
  lemma SeedWithLinksCategories(userId: string, ts: seq<CategoryTemplate>, es: seq<DemoExpense>,
                                createCategory: NewCategory -> Response<Category>,
                                createExpense: NewExpense -> Response<Expense>, dayString: nat -> string)
    requires forall q :: !Truthy(createCategory(q).error) && createCategory(q).data.Some?
                         && createCategory(q).data.value.id != ""
    requires forall q :: !Truthy(createExpense(q).error)
    requires forall i :: 0 <= i < |es| ==> es[i].category in Names(ts)
    ensures var r := SeedWith(userId, ts, es, createCategory, createExpense, dayString);
      |r.expenseCalls| == |es| && forall i :: 0 <= i < |es| ==> r.expenseCalls[i].draft.categoryId.Some?
    ensures var r := SeedWith(userId, ts, es, createCategory, createExpense, dayString);
      forall i, k :: 0 <= i < |es| && 0 <= k < |ts| && ts[k].name == es[i].category
                     && (forall j :: k < j < |ts| ==> ts[j].name != ts[k].name) ==>
        r.expenseCalls[i].draft.categoryId
          == Some(createCategory(CategoryRequest(userId, ts[k])).data.value.id)
  {
    SeedWithAccepting(userId, ts, es, createCategory, createExpense, dayString);
    CategoryPhaseRecordsAll(userId, ts, createCategory, map[]);
    CategoryPhaseRecordsReturned(userId, ts, createCategory, map[]);
    var c := CategoryPhase(userId, ts, createCategory, map[]);
    forall i | 0 <= i < |es|
      ensures es[i].category in c.ids
    {
      var names := Names(ts);
      var k :| 0 <= k < |names| && names[k] == es[i].category;
      assert ts[k].name == es[i].category;
    }
  }

  /** Every demo expense names one of the demo categories. */
  lemma DemoExpenseCategoriesKnown()
    ensures |DemoCategories| == 6 && |DemoExpenses| == 12
    ensures forall i :: 0 <= i < |DemoExpenses| ==> DemoExpenses[i].category in Names(DemoCategories)
  {
    var names := Names(DemoCategories);
    assert names == ["Food", "Transport", "Shopping", "Entertainment", "Bills", "Health"];
  }

  /** Against a store that accepts everything and gives every category a non-empty id, the
      demo run succeeds with six category creates and twelve expense creates, each expense
      linked to the id the store returned for its demo category. */
  lemma DemoSeedSucceeds(userId: string, createCategory: NewCategory -> Response<Category>,
                         createExpense: NewExpense -> Response<Expense>, dayString: nat -> string)
    requires forall q :: !Truthy(createCategory(q).error) && createCategory(q).data.Some?
                         && createCategory(q).data.value.id != ""
    requires forall q :: !Truthy(createExpense(q).error)
    ensures var r := Seed(userId, createCategory, createExpense, dayString);
      r.result == SeedResult(true, None) && |r.categoryCalls| == 6 && |r.expenseCalls| == 12
      && forall i :: 0 <= i < 12 ==> r.expenseCalls[i].draft.categoryId.Some?
    ensures var r := Seed(userId, createCategory, createExpense, dayString);
      forall i, k :: 0 <= i < 12 && 0 <= k < 6 && DemoCategories[k].name == DemoExpenses[i].category ==>
        r.expenseCalls[i].draft.categoryId
          == Some(createCategory(CategoryRequest(userId, DemoCategories[k])).data.value.id)
  {
    DemoExpenseCategoriesKnown();
    assert forall k, j :: 0 <= k < j < 6 ==> DemoCategories[j].name != DemoCategories[k].name;
    SeedWithAccepting(userId, DemoCategories, DemoExpenses, createCategory, createExpense, dayString);
    SeedWithLinksCategories(userId, DemoCategories, DemoExpenses, createCategory, createExpense, dayString);
  }
}
