/**
 * Properties of the whole request cycle: the form's check, the JSON body the client sends,
 * the service's handler and the client's update of its list, each request completing before
 * the next one starts.
 */
module Flow {
  import opened Types
  import opened ExpenseForm
  import opened App
  import opened Server

  /**
   * The body the service reads from `JSON.stringify(expense)`: a NaN amount is written as
   * `null`. The draft's `id` is dropped: POST reads only the four fields, and the model of PUT
   * overwrites only those four.
   */
  function BodyOf(d: Draft): Body
  {
    Body(Some(d.name), if d.amount.Finite? then Some(d.amount.value) else None, Some(d.category), Some(d.date))
  }

  /**
   * In add mode, a submit the form accepts either carries an amount the service refuses with
   * 400 (NaN or 0), or the service stores it, and appending the stored record to the list
   * leaves the remaining budget non-negative.
   */
  lemma AddStaysWithinBudget(budget: real, expenses: seq<Expense>,
                             name: string, amount: AmountInput, category: string, date: string,
                             parseFloat: string -> Num, id: int)
    requires Check(name, amount, category, date, None, Remaining(budget, expenses), parseFloat).Accepted?
    ensures
      var d := Check(name, amount, category, date, None, Remaining(budget, expenses), parseFloat).draft;
      && (d.amount == NaN || d.amount == Finite(0.0) <==> MissingField(BodyOf(d)))
      && (!MissingField(BodyOf(d)) ==>
            Remaining(budget, expenses + [Record(id, NewRow(BodyOf(d)))]) >= 0.0)
  {
    var d := Check(name, amount, category, date, None, Remaining(budget, expenses), parseFloat).draft;
    if !MissingField(BodyOf(d)) {
      RemainingAfterAdd(budget, expenses, Record(id, NewRow(BodyOf(d))));
    }
  }

  /** The form lets the amount text "0" through, and the service answers that body with 400. */
  lemma ZeroAmountPassesFormOnly(name: string, category: string, date: string,
                                 editing: Option<Expense>, remaining: real, parseFloat: string -> Num)
    requires Filled(name) && Filled(category) && Filled(date)
    requires remaining >= 0.0 && parseFloat("0") == Finite(0.0)
    ensures Check(name, Typed("0"), category, date, editing, remaining, parseFloat).Accepted?
    ensures MissingField(BodyOf(Check(name, Typed("0"), category, date, editing, remaining, parseFloat).draft))
  {
  }

  lemma {:induction false} CountAscending(l: seq<Expense>, id: int)
    requires Ascending(l)
    ensures Count(l, id) == (if exists k :: 0 <= k < |l| && l[k].id == id then 1 else 0)
  {
    if l != [] {
      CountAscending(l[1..], id);
      if l[0].id == id {
        assert forall k :: 0 <= k < |l[1..]| ==> l[1..][k].id != id by {
          forall k | 0 <= k < |l[1..]| ensures l[1..][k].id != id {
            assert l[1..][k] == l[k + 1];
          }
        }
      } else {
        if exists k :: 0 <= k < |l| && l[k].id == id {
          var k :| 0 <= k < |l| && l[k].id == id;
          assert l[1..][k - 1].id == id;
        }
        if exists k :: 0 <= k < |l[1..]| && l[1..][k].id == id {
          var k :| 0 <= k < |l[1..]| && l[1..][k].id == id;
          assert l[k + 1].id == id;
        }
      }
    }
  }

  /** A list the service returned holds each id of the table exactly once, and no other id. */
  lemma ListingCountsOnce(l: seq<Expense>, rows: map<int, Row>, id: int)
    requires ListsTable(l, rows)
    ensures Count(l, id) == (if id in rows then 1 else 0)
  {
    CountAscending(l, id);
  }

  /**
   * In edit mode, on a list loaded from the service, an accepted submit for an existing row,
   * once the service has applied it, leaves the remaining budget at least the old amount of the
   * edited row: the form compares the new amount with a remaining budget that still counts
   * the old one.
   */
  lemma EditStaysAboveOldAmount(budget: real, expenses: seq<Expense>, rows: map<int, Row>,
                                editing: Expense,
                                name: string, amount: AmountInput, category: string, date: string,
                                parseFloat: string -> Num)
    requires ListsTable(expenses, rows) && editing.id in rows
    requires Check(name, amount, category, date, Some(editing), Remaining(budget, expenses), parseFloat).Accepted?
    requires Check(name, amount, category, date, Some(editing), Remaining(budget, expenses), parseFloat).draft.amount.Finite?
    ensures
      var d := Check(name, amount, category, date, Some(editing), Remaining(budget, expenses), parseFloat).draft;
      var updated := Record(editing.id, Patched(rows[editing.id], BodyOf(d)));
      Remaining(budget, ReplaceById(expenses, updated)) >= rows[editing.id].amount
  {
    var remaining := Remaining(budget, expenses);
    var d := Check(name, amount, category, date, Some(editing), remaining, parseFloat).draft;
    var x := d.amount.value;
    assert x <= remaining;
    var old_ := rows[editing.id];
    var updated := Record(editing.id, Patched(old_, BodyOf(d)));
    assert updated.id == editing.id && updated.amount == x;
    ListingCountsOnce(expenses, rows, editing.id);
    IdTotalOfListing(expenses, rows, editing.id);
    RemainingAfterUpdate(budget, expenses, updated);
    assert Remaining(budget, ReplaceById(expenses, updated)) == remaining + old_.amount - x;
  }

  lemma {:induction false} IdTotalAscending(l: seq<Expense>, k: int)
    requires Ascending(l) && 0 <= k < |l|
    ensures IdTotal(l, l[k].id) == l[k].amount
  {
    if k == 0 {
      IdTotalAbsent(l[1..], l[0].id);
    } else {
      assert l[1..][k - 1] == l[k];
      IdTotalAscending(l[1..], k - 1);
    }
  }

  lemma {:induction false} IdTotalAbsent(l: seq<Expense>, id: int)
    requires forall k :: 0 <= k < |l| ==> l[k].id > id
    ensures IdTotal(l, id) == 0.0
  {
    if l != [] {
      assert forall k :: 0 <= k < |l[1..]| ==> l[1..][k] == l[k + 1];
      IdTotalAbsent(l[1..], id);
    }
  }

  /** In a list the service returned, the amounts under a stored id add up to that row's amount. */
  lemma IdTotalOfListing(l: seq<Expense>, rows: map<int, Row>, id: int)
    requires ListsTable(l, rows) && id in rows
    ensures IdTotal(l, id) == rows[id].amount
  {
    var k :| 0 <= k < |l| && l[k].id == id;
    IdTotalAscending(l, k);
  }

  /**
   * The other side of the same comparison: opening an expense for editing and submitting it
   * unchanged is refused as over budget exactly when its amount exceeds the remaining budget,
   * which still counts that very amount.
   */
  lemma EditUnchangedRefusedIff(budget: real, expenses: seq<Expense>, e: Expense, parseFloat: string -> Num)
    requires Filled(e.name) && Filled(e.category) && Filled(e.date) && e.amount != 0.0
    ensures Check(e.name, PrefillAmount(e.amount), e.category, e.date, Some(e),
                  Remaining(budget, expenses), parseFloat).OverBudget?
        <==> e.amount > Remaining(budget, expenses)
  {
    assert AmountValue(PrefillAmount(e.amount), parseFloat) == Finite(e.amount);
  }

  /**
   * On a list loaded from the service, re-submitting a stored expense unchanged is refused
   * exactly when twice its amount exceeds the budget less the other expenses.
   */
  lemma EditUnchangedRefusedOnListing(budget: real, expenses: seq<Expense>, rows: map<int, Row>,
                                      id: int, parseFloat: string -> Num)
    requires ListsTable(expenses, rows) && id in rows
    requires Filled(rows[id].name) && Filled(rows[id].category) && Filled(rows[id].date)
    requires rows[id].amount != 0.0
    ensures
      var e := Record(id, rows[id]);
      (Check(e.name, PrefillAmount(e.amount), e.category, e.date, Some(e),
             Remaining(budget, expenses), parseFloat).OverBudget?
       <==> 2.0 * e.amount > Remaining(budget, RemoveById(expenses, id)))
  {
    var e := Record(id, rows[id]);
    EditUnchangedRefusedIff(budget, expenses, e, parseFloat);
    RemainingAfterDelete(budget, expenses, id);
    IdTotalOfListing(expenses, rows, id);
  }

  /** An instance: with a budget of 100 and one expense of 80, the unchanged edit is refused. */
  lemma EditUnchangedRefused(parseFloat: string -> Num)
    ensures
      var e := Expense(1, "Rent", 80.0, "Utilities", "2024-01-01");
      Check(e.name, PrefillAmount(e.amount), e.category, e.date, Some(e),
            Remaining(100.0, [e]), parseFloat) == OverBudget
  {
    var e := Expense(1, "Rent", 80.0, "Utilities", "2024-01-01");
    assert Remaining(100.0, [e]) == 20.0 by {
      RemainingAfterAdd(100.0, [], e);
      assert [] + [e] == [e];
    }
    EditUnchangedRefusedIff(100.0, [e], e, parseFloat);
  }

  // ---------------------------------------------------------------------------------------
  // The client's list stays an exact copy of the table
  // ---------------------------------------------------------------------------------------

  /** After a 201, appending the created record to a copy of the table gives a copy of the new table. */
  lemma MirrorAfterCreate(l: seq<Expense>, rows: map<int, Row>, nextId: int, row: Row)
    requires ListsTable(l, rows) && IdsBelow(rows, nextId)
    ensures ListsTable(l + [Record(nextId, row)], rows[nextId := row])
  {
    var l' := l + [Record(nextId, row)];
    var rows' := rows[nextId := row];
    forall id | id in rows'
      ensures exists k :: 0 <= k < |l'| && l'[k].id == id
    {
      if id == nextId {
        assert l'[|l|].id == id;
      } else {
        var k :| 0 <= k < |l| && l[k].id == id;
        assert l'[k].id == id;
      }
    }
  }

  /** After a 200 from PUT, replacing by id in a copy of the table gives a copy of the new table. */
  lemma MirrorAfterUpdate(l: seq<Expense>, rows: map<int, Row>, id: int, row: Row)
    requires ListsTable(l, rows) && id in rows
    ensures ListsTable(ReplaceById(l, Record(id, row)), rows[id := row])
  {
    var l' := ReplaceById(l, Record(id, row));
    var rows' := rows[id := row];
    assert |l'| == |l|;
    assert forall k :: 0 <= k < |l'| ==> l'[k].id == l[k].id;
    assert Ascending(l') by {
      forall j, k | 0 <= j < k < |l'| ensures l'[j].id < l'[k].id {
        assert l'[j].id == l[j].id && l'[k].id == l[k].id;
      }
    }
    assert FromTable(l', rows') by {
      forall k | 0 <= k < |l'|
        ensures l'[k].id in rows' && l'[k] == Record(l'[k].id, rows'[l'[k].id])
      {
        assert l[k].id in rows && l[k] == Record(l[k].id, rows[l[k].id]);
      }
    }
    assert CoversTable(l', rows') by {
      forall i | i in rows'
        ensures exists k :: 0 <= k < |l'| && l'[k].id == i
      {
        var k :| 0 <= k < |l| && l[k].id == i;
        assert l'[k].id == i;
      }
    }
  }

  lemma {:induction false} RemoveAscending(l: seq<Expense>, id: int)
    requires Ascending(l)
    ensures Ascending(RemoveById(l, id))
  {
    if l != [] {
      var tail := l[1..];
      assert Ascending(tail) by {
        forall j, k | 0 <= j < k < |tail| ensures tail[j].id < tail[k].id {
          assert tail[j] == l[j + 1] && tail[k] == l[k + 1];
        }
      }
      RemoveAscending(tail, id);
      var rest := RemoveById(tail, id);
      var r := RemoveById(l, id);
      if l[0].id != id {
        AboveHead(l, id);
        assert r == [l[0]] + rest;
        assert Ascending(r) by {
          forall j, k | 0 <= j < k < |r| ensures r[j].id < r[k].id {
            assert r[k] == rest[k - 1];
            if j > 0 {
              assert r[j] == rest[j - 1];
            }
          }
        }
      } else {
        assert r == rest;
      }
    }
  }

  /** What filtering keeps of the tail of an ascending list lies above its head. */
  lemma AboveHead(l: seq<Expense>, id: int)
    requires Ascending(l) && l != []
    ensures forall k :: 0 <= k < |RemoveById(l[1..], id)| ==> RemoveById(l[1..], id)[k].id > l[0].id
  {
    var rest := RemoveById(l[1..], id);
    forall k | 0 <= k < |rest| ensures rest[k].id > l[0].id {
      assert rest[k] in rest;
      var i :| 0 <= i < |l[1..]| && l[1..][i] == rest[k];
      assert l[i + 1] == rest[k];
    }
  }

  /** After a 204, filtering a copy of the table by the id gives a copy of the new table. */
  lemma MirrorAfterDelete(l: seq<Expense>, rows: map<int, Row>, id: int)
    requires ListsTable(l, rows)
    ensures ListsTable(RemoveById(l, id), rows - {id})
  {
    var l' := RemoveById(l, id);
    RemoveAscending(l, id);
    forall k | 0 <= k < |l'|
      ensures l'[k].id in rows - {id} && l'[k] == Record(l'[k].id, (rows - {id})[l'[k].id])
    {
      assert l'[k] in l';
    }
    forall i | i in rows - {id}
      ensures exists k :: 0 <= k < |l'| && l'[k].id == i
    {
      var k :| 0 <= k < |l| && l[k].id == i;
      assert l[k] in l;
      assert l[k] in l';
    }
  }

  // ---------------------------------------------------------------------------------------
  // A session from the contracts alone
  // ---------------------------------------------------------------------------------------

  /** The numbers typed in the session below, as `parseFloat` reads them. */
  function SampleParse(t: string): Num
  {
    if t == "100" then Finite(100.0) else if t == "12.5" then Finite(12.5)
    else if t == "20" then Finite(20.0) else NaN
  }

  /**
   * Set a budget of 100, add a lunch of 12.50, edit its amount to 20, delete it: the remaining
   * budget goes 100, 87.50, 80, 100. Assignments to the form's fields stand for the user typing.
   */
  method BudgetWalkthrough()
  {
    var app, form, table := AddLunch();
    EditThenDeleteLunch(app, form, table);
  }

  method AddLunch() returns (app: AppState, form: Form, table: ExpenseTable)
    ensures fresh(app) && fresh(form) && fresh(table)
    ensures app.budget == 100.0 && app.editingExpense == None
    ensures app.expenses == [Expense(1, "Lunch", 12.5, "Food", "2024-01-05")]
    ensures table.Valid() && table.rows == map[1 := Row("Lunch", 12.5, "Food", "2024-01-05")]
  {
    app := new AppState();
    form := new Form();
    table := new ExpenseTable();

    app.EnterBudget("100");
    var alerted := app.SetBudget(SampleParse);
    assert !alerted && app.RemainingBudget() == 100.0 && app.tempBudget == "";

    form.Sync(app.editingExpense);
    form.name, form.amount, form.category, form.date := "Lunch", Typed("12.5"), "Food", "2024-01-05";
    var draft := form.Submit(app.editingExpense, app.RemainingBudget(), SampleParse);
    assert draft == Some(Draft(None, "Lunch", Finite(12.5), "Food", "2024-01-05"));
    var status, created := table.Create(BodyOf(draft.value), false);
    assert status == Created && created == Some(Expense(1, "Lunch", 12.5, "Food", "2024-01-05"));
    var request := app.AddOrUpdate(draft.value, created);
    assert request == Post && app.expenses == [] + [created.value];
    RemainingAfterAdd(100.0, [], created.value);
    assert app.RemainingBudget() == 87.5;
  }

  method EditThenDeleteLunch(app: AppState, form: Form, table: ExpenseTable)
    requires app.budget == 100.0 && app.editingExpense == None
    requires app.expenses == [Expense(1, "Lunch", 12.5, "Food", "2024-01-05")]
    requires table.Valid() && table.rows == map[1 := Row("Lunch", 12.5, "Food", "2024-01-05")]
    modifies app, form, table
  {
    var lunch := app.expenses[0];
    assert app.expenses == [] + [lunch];
    RemainingAfterAdd(100.0, [], lunch);
    app.StartEditing(lunch);
    form.Sync(app.editingExpense);
    assert form.name == "Lunch" && form.amount == Prefilled(12.5);
    form.amount := Typed("20");
    var draft := form.Submit(app.editingExpense, app.RemainingBudget(), SampleParse);
    assert draft == Some(Draft(Some(1), "Lunch", Finite(20.0), "Food", "2024-01-05"));
    var status, updated := table.Update(1, BodyOf(draft.value), false);
    assert status == OK && updated == Some(Expense(1, "Lunch", 20.0, "Food", "2024-01-05"));
    var request := app.AddOrUpdate(draft.value, updated);
    assert request == Put(Some(1)) && app.editingExpense == None;
    assert ReplaceById([Expense(1, "Lunch", 12.5, "Food", "2024-01-05")], updated.value)
        == [updated.value];
    assert app.expenses == [] + [updated.value];
    RemainingAfterAdd(100.0, [], updated.value);
    assert app.RemainingBudget() == 80.0;

    status := table.Delete(1, false);
    assert status == NoContent && table.rows == map[];
    var sent := app.DeleteExpense(Some(1), Some(status));
    assert sent && app.expenses == [];
    assert app.RemainingBudget() == 100.0;
  }
}
