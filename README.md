# Expense tracker: the client state, the expense form and the service's table

A model in Dafny of the expense tracker's state-transition logic. The tracker has a browser client (a list of expenses, a budget and an add/edit form) and an HTTP service that keeps expenses in one database table. The network and the database are parameters of the model. Each request completes at once, one after another.

- `Types` (`types.dfy`): the expense record the client and the service exchange, `Option`, and `Num`. `Num` is what `parseFloat` yields: a number, or NaN.
- `App` (`app.dfy`): the client state controller. The pure list computations are functions with lemmas: the remaining budget (a sum), replacing entries by id (a map), and removing entries by id (a filter). The component's four state fields make up the class `AppState`. Its handlers are methods. The server's reply is a method argument: the returned record, `None` for a rejected request, or the HTTP status.
- `ExpenseForm` (`expense_form.dfy`): the two-mode form. The class `Form` holds its five state fields. The prefill/reset effect and the submit handler are methods. The submit decision is the function `Check`.
- `Server` (`server.dfy`): the four `/expenses` route handlers, as methods of `ExpenseTable`. The table is a map from id to row plus the next id to hand out. A storage fault is the parameter `fault`. Each handler returns its status code.
- `Flow` (`flow.dfy`): properties across the three files:
  - an accepted add keeps the remaining budget non-negative once the service stores it;
  - the client's list stays an exact copy of the table through a create, an update and a delete;
  - a session (set budget, add, edit, delete) is checked against the methods' contracts alone.

`parseFloat` is a parameter of type `string -> Num`. Amounts are `real`.

## Model

| member | source | states |
|---|---|---|
| `App.Remaining` | ClientSide/my-project/src/App.jsx:20 | with no expenses loaded, the remaining budget is the budget itself |
| `App.SumAppend` | ClientSide/my-project/src/App.jsx:20 | the total of a list with one more expense is the old total plus its amount |
| `App.RemainingAfterAdd` | ClientSide/my-project/src/App.jsx:44 | appending a returned record (line 44) lowers `remainingBudget` (line 20) by exactly its amount |
| `App.ReplaceById` | ClientSide/my-project/src/App.jsx:39-41 | the update keeps the length; each entry whose id equals the returned record's id becomes that record; every other entry stays in place, unchanged |
| `App.ReplaceAbsent` | ClientSide/my-project/src/App.jsx:39-41 | an update whose id no entry carries leaves the list as it was |
| `App.RemainingAfterUpdate` | ClientSide/my-project/src/App.jsx:39-41 | after an update, the remaining budget has gained the old amounts under that id and lost the new amount once per such entry |
| `App.RemoveById` | ClientSide/my-project/src/App.jsx:73 | after the filter, no entry carries the id; every other entry is kept; nothing new appears; the length drops by the number of matching entries |
| `App.RemoveConcat` | ClientSide/my-project/src/App.jsx:73 | the filter distributes over concatenation, so the kept entries keep their relative order |
| `App.RemoveAbsent` | ClientSide/my-project/src/App.jsx:73 | filtering by an id no entry carries leaves the list as it was |
| `App.RemainingAfterDelete` | ClientSide/my-project/src/App.jsx:73 | a delete raises the remaining budget by exactly the amounts of the removed entries |
| `App.AppState.constructor` | ClientSide/my-project/src/App.jsx:6-9 | the four state hooks start as an empty list, a budget of 0, an empty budget input and no edited expense |
| `App.AppState.Load` | ClientSide/my-project/src/App.jsx:12-17 | a fetched list replaces `expenses`; a failed fetch leaves it; nothing else changes |
| `App.AppState.EnterBudget` | ClientSide/my-project/src/App.jsx:105 | the budget input's text becomes `tempBudget`; nothing else changes |
| `App.AppState.StartEditing` | ClientSide/my-project/src/App.jsx:128 | the list's edit action sets `editingExpense` to the chosen record; nothing else changes |
| `App.AppState.SetBudget` | ClientSide/my-project/src/App.jsx:83-91 | the alert is raised exactly when the parse is NaN or not positive, and then `budget` and `tempBudget` are unchanged; otherwise `budget` becomes the parsed positive value and `tempBudget` becomes "" |
| `App.AppState.AddOrUpdate` | ClientSide/my-project/src/App.jsx:23-50 | PUT to the expense's id when editing, else POST. A returned record is appended on add, or replaces every entry with its id on update. A rejected request leaves `expenses`. `editingExpense` is cleared whatever the outcome; the budget fields are untouched |
| `App.AppState.DeleteExpense` | ClientSide/my-project/src/App.jsx:54-77 | a missing or zero id sends no request and changes nothing. Only an ok response (status 200-299) filters the entries with that id out. A rejected request or any other status leaves `expenses`. Nothing else changes |
| `ExpenseForm.PrefillAmount` | ClientSide/my-project/src/components/ExpenseForm.jsx:18 | the prefilled amount is filled exactly when the edited amount is non-zero, and then it is that number; a zero amount becomes "" |
| `ExpenseForm.Check` | ClientSide/my-project/src/components/ExpenseForm.jsx:34-53 | the submit is incomplete exactly when a field is empty; that check comes first, so it wins whatever the budget. It is over budget exactly when the form is complete and the parsed amount is a number strictly above the remaining budget. An accepted draft carries `editingExpense?.id` (absent in add mode), the parsed amount and the current name, category and date. An accepted numeric amount is at most the remaining budget |
| `ExpenseForm.NaNAmountAccepted` | ClientSide/my-project/src/components/ExpenseForm.jsx:39-43 | a complete form whose amount parses to NaN is accepted whatever the remaining budget, with a NaN amount (`NaN > x` is false) |
| `ExpenseForm.Form.constructor` | ClientSide/my-project/src/components/ExpenseForm.jsx:9-13 | all four fields and the error start empty |
| `ExpenseForm.Form.Sync` | ClientSide/my-project/src/components/ExpenseForm.jsx:15-28 | with an edited expense, the fields are prefilled from it (a zero amount becomes ""). Without one, all four fields are reset to "". The error message is left alone |
| `ExpenseForm.Form.Submit` | ClientSide/my-project/src/components/ExpenseForm.jsx:30-61 | an incomplete form sets the fields error. An over-budget amount sets the budget error. Either way nothing is submitted and the fields are kept. An accepted form submits its draft exactly once, clears the error and empties the four fields |
| `Server.Patched` | Server/server.js:93 | each field the PUT body carries overwrites the row's, even in a partial body and even when the value is "" or 0; a field absent from the body keeps the row's value; a body with all four fields gives the row POST would create from it |
| `Server.PatchIdempotent` | Server/server.js:93 | applying the same PUT body twice gives the same row as applying it once |
| `Server.ListRangeSpec` | Server/server.js:60-63 | the listing of an id range holds the rows with ids in that range and nothing else, each once, as stored, in ascending id order |
| `Server.TableListing` | Server/server.js:60-63 | listing ids from 1 up to the counter lists the whole table |
| `Server.ExpenseTable.constructor` | Server/server.js:33-50 | the table starts empty and the id counter at 1 |
| `Server.ExpenseTable.GetAll` | Server/server.js:60-67 | GET answers 200 with every row of the table, each once, in ascending id order, and changes nothing. A storage fault answers 500 |
| `Server.ExpenseTable.Create` | Server/server.js:70-83 | a missing or falsy field (amount 0 included) answers 400 before the store is touched; the table is unchanged. A storage fault answers 500; the table is unchanged. Otherwise the answer is 201 with a new row under a fresh id; the table grows by exactly that row |
| `Server.ExpenseTable.Update` | Server/server.js:86-98 | PUT never answers 400. An unknown id answers 404; the table is unchanged. A known id has the fields the body carries overwritten and answers 200 with the updated record; every other row is unchanged |
| `Server.ExpenseTable.Delete` | Server/server.js:101-114 | an id matching no row answers 404; the table is unchanged. A known id answers 204 and removes that row alone |
| `Flow.AddStaysWithinBudget` | ClientSide/my-project/src/components/ExpenseForm.jsx:39-43 | in add mode, the service refuses an accepted draft with 400 exactly when its amount is NaN or 0. Otherwise appending the record it stores keeps `remainingBudget` at or above 0 |
| `Flow.ZeroAmountPassesFormOnly` | Server/server.js:71-75 | when the remaining budget is at least 0 and `parseFloat("0")` is 0, the form accepts the amount text "0", and the service answers that body with 400 |
| `Flow.ListingCountsOnce` | Server/server.js:60-63 | a list the service returned holds each id of the table exactly once and no other id |
| `Flow.EditStaysAboveOldAmount` | ClientSide/my-project/src/components/ExpenseForm.jsx:39-43 | in edit mode, on a list loaded from the service, an accepted numeric amount, once applied by PUT and mapped in by the client, leaves the remaining budget at or above the edited row's old amount |
| `Flow.EditUnchangedRefusedIff` | ClientSide/my-project/src/components/ExpenseForm.jsx:39-43 | for any expense with its fields filled and a non-zero amount, opening it for editing and submitting it unchanged is refused as over budget exactly when its amount exceeds the remaining budget, which still counts that amount |
| `Flow.EditUnchangedRefusedOnListing` | ClientSide/my-project/src/components/ExpenseForm.jsx:39-43 | on a list loaded from the service, re-submitting a stored expense unchanged is refused exactly when twice its amount exceeds the budget less the other expenses |
| `Flow.EditUnchangedRefused` | ClientSide/my-project/src/components/ExpenseForm.jsx:39-43 | an instance: with a budget of 100 and one expense of 80, submitting that expense unchanged in edit mode is refused as over budget |
| `Flow.MirrorAfterCreate` | ClientSide/my-project/src/App.jsx:44 | if the client's list is an exact copy of the table, appending the record a 201 returned keeps it an exact copy of the new table |
| `Flow.MirrorAfterUpdate` | ClientSide/my-project/src/App.jsx:39-41 | if the client's list is an exact copy of the table, mapping in the record a PUT returned keeps it an exact copy of the updated table |
| `Flow.MirrorAfterDelete` | ClientSide/my-project/src/App.jsx:73 | if the client's list is an exact copy of the table, filtering out the deleted id keeps it an exact copy of the table without that row |

## Left out

- HTTP and JSON plumbing are not modelled: `fetch`, URLs as strings, headers and (de)serialisation. A request is represented by its method and id (`App.Request`). The JSON body of a draft is `Flow.BodyOf`: a NaN amount becomes `null` and the id is dropped.
- Express routing, `cors`, `body-parser`, `dotenv` and `app.listen` are not modelled: they are framework wiring.
- The Sequelize connection, `authenticate` and `sync` are not modelled: they are library set-up.
- Auto-increment ids are a counter that starts at 1.
- Column typing is not modelled: amounts are `real` in every body. A non-numeric amount string, and the validation failure it causes in the store, are out.
- Every storage-layer fault is one flag, `fault`. It answers 500 and leaves the table as it was. POST's 400 check comes before it, as in the source.
- `Server.ExpenseTable.Update`: a body field is either present or absent. A field sent as `null` counts as absent, although the store's not-null constraint would answer 500. Only name, amount, category and date are overwritten; an `id` or any other key in the body is ignored.
- `Server.ExpenseTable.GetAll`: rows come back in ascending id order. The query has no ORDER BY; this is the primary-key order MySQL returns in practice, but SQL does not promise it.
- `App.AppState.AddOrUpdate`: the handler does not check `response.ok`. In the source, a 400, 404 or 500 reply's error object would be appended (add) or mapped in (update) like a record. The model's reply is the returned record or a rejected request; that error-body path is not modelled.
- Asynchrony is not modelled: there is no interleaving of promises. `editingExpense` is cleared before the reply arrives; the delete handler's closure can hold a stale `expenses` while the add/update handler uses the functional updater. The model runs each request to completion, one after another.
- Floating point is not modelled. Amounts and budgets are exact `real`s, so the sum's order does not matter: `App.Sum` is a right fold, while `reduce` is a left fold; over `real` they agree, and `App.SumAppend` is the left fold's step. Rounding, `Infinity`, and `toFixed` formatting are out. `parseFloat` is an uninterpreted parameter; only its NaN-or-number result is modelled.
- `ExpenseForm.Form.Sync`: records always carry all four fields here, so the `|| ""` fallback for a missing name, category or date never fires. Only the zero-amount case of `editingExpense.amount || ""` is modelled.
- The form's `onChange` setters are plain assignments of the typed text, and the model assigns the fields directly. The `categories` prop only fills the select's options; nothing checks it.
- React rendering, the JSX markup and `ExpenseList.jsx` are not modelled. `ExpenseList.jsx`'s missing-id guard repeats `App.AppState.DeleteExpense`'s. `alert` is the returned flag `alerted`. `console` output is not modelled.
