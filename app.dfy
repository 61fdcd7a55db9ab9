/**
 * The client state controller: the expense list, the budget, the budget input's text and the
 * expense being edited, with the handlers that change them. Each request to the service is
 * taken to complete at once; its reply is a parameter of the handler that issued it.
 */
module App {
  import opened Types
  import opened ExpenseForm

  // ---------------------------------------------------------------------------------------
  // The list computations
  // ---------------------------------------------------------------------------------------

  /** The total of all amounts: `expenses.reduce((sum, exp) => sum + exp.amount, 0)`. */
  function Sum(s: seq<Expense>): real
  {
    if s == [] then 0.0 else s[0].amount + Sum(s[1..])
  }

  /** `remainingBudget`: the budget less every loaded amount. */
  function Remaining(budget: real, s: seq<Expense>): (r: real)
    ensures s == [] ==> r == budget
  {
    budget - Sum(s)
  }

  /** How many entries carry `id`. */
  function Count(s: seq<Expense>, id: int): nat
  {
    if s == [] then 0 else (if s[0].id == id then 1 else 0) + Count(s[1..], id)
  }

  /** The total of the amounts of the entries that carry `id`. */
  function IdTotal(s: seq<Expense>, id: int): real
  {
    if s == [] then 0.0 else (if s[0].id == id then s[0].amount else 0.0) + IdTotal(s[1..], id)
  }

  /** `prev.map((exp) => (exp.id === updated.id ? updated : exp))` */
  function ReplaceById(s: seq<Expense>, updated: Expense): (r: seq<Expense>)
    ensures |r| == |s|
    ensures forall i :: 0 <= i < |s| ==> r[i] == (if s[i].id == updated.id then updated else s[i])
  {
    if s == [] then []
    else [if s[0].id == updated.id then updated else s[0]] + ReplaceById(s[1..], updated)
  }

  /** `expenses.filter((expense) => expense.id !== id)` */
  function RemoveById(s: seq<Expense>, id: int): (r: seq<Expense>)
    ensures forall e :: e in r ==> e in s && e.id != id
    ensures forall e :: e in s && e.id != id ==> e in r
    ensures |r| == |s| - Count(s, id)
  {
    if s == [] then []
    else (if s[0].id == id then [] else [s[0]]) + RemoveById(s[1..], id)
  }

  lemma {:induction false} SumAppend(s: seq<Expense>, e: Expense)
    ensures Sum(s + [e]) == Sum(s) + e.amount
  {
    if s == [] {
      assert [] + [e] == [e];
    } else {
      assert (s + [e])[1..] == s[1..] + [e];
      SumAppend(s[1..], e);
    }
  }

  /** Appending an expense lowers the remaining budget by exactly its amount. */
  lemma RemainingAfterAdd(budget: real, s: seq<Expense>, e: Expense)
    ensures Remaining(budget, s + [e]) == Remaining(budget, s) - e.amount
  {
    SumAppend(s, e);
  }

  /** Filtering distributes over concatenation: the kept entries stay in their relative order. */
  lemma {:induction false} RemoveConcat(a: seq<Expense>, b: seq<Expense>, id: int)
    ensures RemoveById(a + b, id) == RemoveById(a, id) + RemoveById(b, id)
  {
    if a == [] {
      assert a + b == b;
    } else {
      assert (a + b)[1..] == a[1..] + b;
      RemoveConcat(a[1..], b, id);
    }
  }

  /** Filtering by an id no entry carries gives the list back. */
  lemma {:induction false} RemoveAbsent(s: seq<Expense>, id: int)
    requires Count(s, id) == 0
    ensures RemoveById(s, id) == s
  {
    if s != [] {
      RemoveAbsent(s[1..], id);
    }
  }

  /** Replacing by an id no entry carries gives the list back. */
  lemma {:induction false} ReplaceAbsent(s: seq<Expense>, updated: Expense)
    requires Count(s, updated.id) == 0
    ensures ReplaceById(s, updated) == s
  {
    if s != [] {
      ReplaceAbsent(s[1..], updated);
    }
  }

  /** Deleting raises the remaining budget by the amounts of the removed entries. */
  lemma {:induction false} RemainingAfterDelete(budget: real, s: seq<Expense>, id: int)
    ensures Remaining(budget, RemoveById(s, id)) == Remaining(budget, s) + IdTotal(s, id)
  {
    if s != [] {
      RemainingAfterDelete(budget, s[1..], id);
      var rest := RemoveById(s[1..], id);
      if s[0].id == id {
        assert RemoveById(s, id) == rest;
      } else {
        assert RemoveById(s, id) == [s[0]] + rest;
        assert ([s[0]] + rest)[1..] == rest;
      }
    }
  }

  /**
   * Updating swaps the amounts of the entries with the updated id for the new amount,
   * once per such entry.
   */
  lemma {:induction false} RemainingAfterUpdate(budget: real, s: seq<Expense>, updated: Expense)
    ensures Remaining(budget, ReplaceById(s, updated))
         == Remaining(budget, s) + IdTotal(s, updated.id) - Count(s, updated.id) as real * updated.amount
  {
    if s != [] {
      RemainingAfterUpdate(budget, s[1..], updated);
      assert ReplaceById(s, updated)[1..] == ReplaceById(s[1..], updated);
    }
  }

  // ---------------------------------------------------------------------------------------
  // The component state and its handlers
  // ---------------------------------------------------------------------------------------

  /** The request the add/update handler issues. */
  datatype Request = Post | Put(id: Option<int>)

  /** `!id` is false: the id is present and not 0. */
  predicate Truthy(id: Option<int>)
  {
    id.Some? && id.value != 0
  }

  /** `response.ok`: a status in the 200 range. */
  predicate Ok(status: int)
  {
    200 <= status <= 299
  }

  class AppState {
    var expenses: seq<Expense>
    var budget: real
    var tempBudget: string
    var editingExpense: Option<Expense>

    /** The four `useState` hooks with their initial values. */
    constructor ()
      ensures expenses == [] && budget == 0.0 && tempBudget == "" && editingExpense == None
    {
      expenses := [];
      budget := 0.0;
      tempBudget := "";
      editingExpense := None;
    }

    /** The value passed to the form as `remainingBudget`. */
    function RemainingBudget(): real
      reads this
    {
      Remaining(budget, expenses)
    }

    /**
     * The initial load: the fetched list replaces `expenses`; a failed fetch (`None`) is only
     * logged.
     */
    method Load(data: Option<seq<Expense>>)
      modifies this
      ensures expenses == (if data.Some? then data.value else old(expenses))
      ensures budget == old(budget) && tempBudget == old(tempBudget) && editingExpense == old(editingExpense)
    {
      if data.Some? {
        expenses := data.value;
      }
    }

    /** The budget input's `onChange`. */
    method EnterBudget(text: string)
      modifies this
      ensures tempBudget == text
      ensures expenses == old(expenses) && budget == old(budget) && editingExpense == old(editingExpense)
    {
      tempBudget := text;
    }

    /** The list's edit button: `onEdit={setEditingExpense}`. */
    method StartEditing(e: Expense)
      modifies this
      ensures editingExpense == Some(e)
      ensures expenses == old(expenses) && budget == old(budget) && tempBudget == old(tempBudget)
    {
      editingExpense := Some(e);
    }

    /**
     * `handleSetBudget`: a NaN or non-positive parse raises the alert and changes nothing;
     * a positive one becomes the budget and clears the input.
     */
    method SetBudget(parseFloat: string -> Num) returns (alerted: bool)
      modifies this
      ensures var p := parseFloat(old(tempBudget));
        alerted <==> (p == NaN || p.value <= 0.0)
      ensures alerted ==> budget == old(budget) && tempBudget == old(tempBudget)
      ensures !alerted ==> budget == parseFloat(old(tempBudget)).value && budget > 0.0 && tempBudget == ""
      ensures expenses == old(expenses) && editingExpense == old(editingExpense)
    {
      var newBudget := parseFloat(tempBudget);
      if newBudget == NaN || newBudget.value <= 0.0 {
        return true;
      }
      budget := newBudget.value;
      tempBudget := "";
      alerted := false;
    }

    /**
     * `handleAddOrUpdateExpense`: PUT to the expense's id when editing, else POST. A delivered
     * reply is appended (add) or replaces every entry with its id (update); a rejected request
     * (`None`) leaves the list alone. The editing state is cleared in every case.
     */
    method AddOrUpdate(expense: Draft, reply: Option<Expense>) returns (request: Request)
      modifies this
      ensures request == (if old(editingExpense).Some? then Put(expense.id) else Post)
      ensures reply.None? ==> expenses == old(expenses)
      ensures reply.Some? && request == Post ==> expenses == old(expenses) + [reply.value]
      ensures reply.Some? && request.Put? ==> expenses == ReplaceById(old(expenses), reply.value)
      ensures editingExpense == None
      ensures budget == old(budget) && tempBudget == old(tempBudget)
    {
      var editing := editingExpense.Some?;
      request := if editing then Put(expense.id) else Post;
      if reply.Some? {
        var updatedExpense := reply.value;
        if editing {
          expenses := ReplaceById(expenses, updatedExpense);
        } else {
          expenses := expenses + [updatedExpense];
        }
      }
      editingExpense := None;
    }

    /**
     * `handleDeleteExpense`: a missing or zero id is refused before any request; otherwise the
     * DELETE is sent, and only an ok response (`Some(status)` in the 200 range) filters the
     * entries with that id out. A rejected request (`None`) or another status changes nothing.
     */
    method DeleteExpense(id: Option<int>, response: Option<int>) returns (sent: bool)
      modifies this
      ensures sent <==> Truthy(id)
      ensures sent && response.Some? && Ok(response.value) ==> expenses == RemoveById(old(expenses), id.value)
      ensures !(sent && response.Some? && Ok(response.value)) ==> expenses == old(expenses)
      ensures budget == old(budget) && tempBudget == old(tempBudget) && editingExpense == old(editingExpense)
    {
      if id.None? || id.value == 0 {
        return false;
      }
      sent := true;
      if response.None? {
        return;
      }
      if !Ok(response.value) {
        return;
      }
      expenses := RemoveById(expenses, id.value);
    }
  }
}
