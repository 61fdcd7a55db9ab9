/**
 * The HTTP service: four route handlers over the Expense table. The table is a map from id to
 * row with a counter that supplies fresh ids; each handler answers with a status code and
 * changes the table in place. A storage fault inside a handler's `try` block is the parameter
 * `fault`: the handler then answers 500 and the table is left as it was.
 */
module Server {
  import opened Types

  const OK := 200
  const Created := 201
  const NoContent := 204
  const BadRequest := 400
  const NotFound := 404
  const ServerError := 500

  /** A stored expense without its id. */
  datatype Row = Row(name: string, amount: real, category: string, date: string)

  /** A JSON request body: each of the four fields may be missing. */
  datatype Body = Body(name: Option<string>, amount: Option<real>, category: Option<string>, date: Option<string>)

  /** The JSON form of a stored row. */
  function Record(id: int, r: Row): Expense
  {
    Expense(id, r.name, r.amount, r.category, r.date)
  }

  /** A string field is present and truthy. */
  predicate Given(f: Option<string>)
  {
    f.Some? && f.value != ""
  }

  /** The amount is present and truthy: 0 is falsy. */
  predicate AmountGiven(a: Option<real>)
  {
    a.Some? && a.value != 0.0
  }

  /** POST's guard `!name || !amount || !category || !date`. */
  predicate MissingField(b: Body)
  {
    !Given(b.name) || !AmountGiven(b.amount) || !Given(b.category) || !Given(b.date)
  }

  /** The row `Expense.create({ name, amount, category, date })` stores. */
  function NewRow(b: Body): Row
    requires !MissingField(b)
  {
    Row(b.name.value, b.amount.value, b.category.value, b.date.value)
  }

  /** `expense.update(req.body)`: each field the body carries overwrites the row's. */
  function Patched(r: Row, b: Body): (p: Row)
    ensures b.name.None? ==> p.name == r.name
    ensures b.amount.None? ==> p.amount == r.amount
    ensures b.category.None? ==> p.category == r.category
    ensures b.date.None? ==> p.date == r.date
    ensures b.name.Some? ==> p.name == b.name.value
    ensures b.amount.Some? ==> p.amount == b.amount.value
    ensures b.category.Some? ==> p.category == b.category.value
    ensures b.date.Some? ==> p.date == b.date.value
    ensures !MissingField(b) ==> p == NewRow(b)
  {
    Row(if b.name.Some? then b.name.value else r.name,
        if b.amount.Some? then b.amount.value else r.amount,
        if b.category.Some? then b.category.value else r.category,
        if b.date.Some? then b.date.value else r.date)
  }

  /** Sending the same update twice leaves the row as sending it once. */
  lemma PatchIdempotent(r: Row, b: Body)
    ensures Patched(Patched(r, b), b) == Patched(r, b)
  {
  }

  /** Every id in the table is positive and below the next id to hand out. */
  predicate IdsBelow(rows: map<int, Row>, nextId: int)
  {
    forall id :: id in rows ==> 1 <= id < nextId
  }

  /** The records of the rows whose ids lie in [lo, hi), in ascending id order. */
  function ListRange(rows: map<int, Row>, lo: int, hi: int): seq<Expense>
    decreases hi - lo
  {
    if hi <= lo then []
    else ListRange(rows, lo, hi - 1) + (if hi - 1 in rows then [Record(hi - 1, rows[hi - 1])] else [])
  }

  /** `l` has strictly ascending ids. */
  ghost predicate Ascending(l: seq<Expense>)
  {
    forall j, k :: 0 <= j < k < |l| ==> l[j].id < l[k].id
  }

  /** Every entry of `l` is the record of a row of the table. */
  ghost predicate FromTable(l: seq<Expense>, rows: map<int, Row>)
  {
    forall k :: 0 <= k < |l| ==> l[k].id in rows && l[k] == Record(l[k].id, rows[l[k].id])
  }

  /** Every row of the table has an entry in `l`. */
  ghost predicate CoversTable(l: seq<Expense>, rows: map<int, Row>)
  {
    forall id :: id in rows ==> exists k :: 0 <= k < |l| && l[k].id == id
  }

  /** `l` lists exactly the rows of the table, each once, in ascending id order. */
  ghost predicate ListsTable(l: seq<Expense>, rows: map<int, Row>)
  {
    FromTable(l, rows) && Ascending(l) && CoversTable(l, rows)
  }

  /**
   * `l` lists exactly the rows whose ids lie in [lo, hi), each once, in ascending id order.
   * With the whole id range it is `ListsTable`.
   */
  ghost predicate ListsRange(l: seq<Expense>, rows: map<int, Row>, lo: int, hi: int)
  {
    && (forall k :: 0 <= k < |l| ==>
          lo <= l[k].id < hi && l[k].id in rows && l[k] == Record(l[k].id, rows[l[k].id]))
    && (forall j, k :: 0 <= j < k < |l| ==> l[j].id < l[k].id)
    && (forall id :: lo <= id < hi && id in rows ==> exists k :: 0 <= k < |l| && l[k].id == id)
  }

  lemma {:induction false} ListRangeSpec(rows: map<int, Row>, lo: int, hi: int)
    ensures ListsRange(ListRange(rows, lo, hi), rows, lo, hi)
    decreases hi - lo
  {
    if hi > lo {
      ListRangeSpec(rows, lo, hi - 1);
      var prefix := ListRange(rows, lo, hi - 1);
      var l := ListRange(rows, lo, hi);
      if hi - 1 in rows {
        assert l == prefix + [Record(hi - 1, rows[hi - 1])];
        forall id | lo <= id < hi && id in rows
          ensures exists k :: 0 <= k < |l| && l[k].id == id
        {
          if id == hi - 1 {
            assert l[|prefix|].id == id;
          } else {
            var k :| 0 <= k < |prefix| && prefix[k].id == id;
            assert l[k].id == id;
          }
        }
      } else {
        assert l == prefix;
      }
    }
  }

  /** Listing ids 1 up to the counter lists the whole table. */
  lemma TableListing(rows: map<int, Row>, nextId: int)
    requires IdsBelow(rows, nextId)
    ensures ListsTable(ListRange(rows, 1, nextId), rows)
  {
    ListRangeSpec(rows, 1, nextId);
  }

  class ExpenseTable {
    var rows: map<int, Row>
    var nextId: int

    ghost predicate Valid()
      reads this
    {
      nextId >= 1 && IdsBelow(rows, nextId)
    }

    /** An empty table whose auto-increment counter starts at 1. */
    constructor ()
      ensures Valid() && rows == map[] && nextId == 1
    {
      rows := map[];
      nextId := 1;
    }

    /** GET /expenses: 200 with every row, in ascending id order; the table is only read. */
    method GetAll(fault: bool) returns (status: int, list: seq<Expense>)
      requires Valid()
      ensures fault ==> status == ServerError && list == []
      ensures !fault ==> status == OK && list == ListRange(rows, 1, nextId) && ListsTable(list, rows)
    {
      if fault {
        return ServerError, [];
      }
      list := [];
      var id := 1;
      while id < nextId
        invariant 1 <= id <= nextId
        invariant list == ListRange(rows, 1, id)
      {
        if id in rows {
          list := list + [Record(id, rows[id])];
        }
        id := id + 1;
      }
      TableListing(rows, nextId);
      status := OK;
    }

    /**
     * POST /expenses: 400 when a field is missing or falsy, before the store is touched;
     * otherwise 201 with a new row under a fresh id, the other rows as they were.
     */
    method Create(body: Body, fault: bool) returns (status: int, created: Option<Expense>)
      requires Valid()
      modifies this
      ensures Valid()
      ensures MissingField(body) ==>
        status == BadRequest && created == None && rows == old(rows) && nextId == old(nextId)
      ensures !MissingField(body) && fault ==>
        status == ServerError && created == None && rows == old(rows) && nextId == old(nextId)
      ensures !MissingField(body) && !fault ==>
        && old(nextId) !in old(rows)
        && status == Created
        && created == Some(Record(old(nextId), NewRow(body)))
        && rows == old(rows)[old(nextId) := NewRow(body)]
        && nextId == old(nextId) + 1
    {
      if !Given(body.name) || !AmountGiven(body.amount) || !Given(body.category) || !Given(body.date) {
        return BadRequest, None;
      }
      if fault {
        return ServerError, None;
      }
      var id := nextId;
      var row := Row(body.name.value, body.amount.value, body.category.value, body.date.value);
      rows := rows[id := row];
      nextId := nextId + 1;
      status, created := Created, Some(Record(id, row));
    }

    /**
     * PUT /expenses/:id: 404 for an unknown id; otherwise the fields in the body overwrite that
     * row's and the updated record is returned with 200. There is no required-field check.
     */
    method Update(id: int, body: Body, fault: bool) returns (status: int, updated: Option<Expense>)
      requires Valid()
      modifies this
      ensures Valid()
      ensures status in {OK, NotFound, ServerError}
      ensures fault ==> status == ServerError && updated == None && rows == old(rows)
      ensures !fault && id !in old(rows) ==> status == NotFound && updated == None && rows == old(rows)
      ensures !fault && id in old(rows) ==>
        && status == OK
        && updated == Some(Record(id, Patched(old(rows)[id], body)))
        && rows == old(rows)[id := Patched(old(rows)[id], body)]
      ensures nextId == old(nextId)
    {
      if fault {
        return ServerError, None;
      }
      if id !in rows {
        return NotFound, None;
      }
      var expense := Patched(rows[id], body);
      rows := rows[id := expense];
      status, updated := OK, Some(Record(id, expense));
    }

    /** DELETE /expenses/:id: 404 when no row has the id; otherwise that row alone goes, 204. */
    method Delete(id: int, fault: bool) returns (status: int)
      requires Valid()
      modifies this
      ensures Valid()
      ensures fault ==> status == ServerError && rows == old(rows)
      ensures !fault && id !in old(rows) ==> status == NotFound && rows == old(rows)
      ensures !fault && id in old(rows) ==> status == NoContent && rows == old(rows) - {id}
      ensures nextId == old(nextId)
    {
      if fault {
        return ServerError;
      }
      var rowsDeleted := if id in rows then 1 else 0;
      if rowsDeleted == 0 {
        return NotFound;
      }
      rows := rows - {id};
      status := NoContent;
    }
  }
}
