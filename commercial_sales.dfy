/** The `commercialSales` table that correlates a CRM deal, a design
    project, a signature request, a sales-system deal and a field-service
    customer. Rows are keyed by the design project id, which is unique;
    `order` is the creation order, so "newest first" is its reverse. */
module CommercialSales {
  import opened Wrappers

  /** One row. Every column but the project id may be null. */
  datatype Sale = Sale(
    pipedriveDealId: Option<string>,
    arcSiteProjectId: string,
    zohoSignRequestId: Option<string>,
    zohoDealId: Option<string>,
    pestRoutesCustomerId: Option<int>)

  /** The database errors the handlers can see. */
  datatype DbError = UniqueConstraintViolation(projectId: string) | RecordNotFound

  /** The rows of `order`, newest first, whose customer id is `customerId`. */
  function NewestFirst(order: seq<string>, rows: map<string, Sale>, customerId: int): (r: seq<Sale>)
    requires forall p :: p in order ==> p in rows
    ensures forall s :: s in r ==> s.pestRoutesCustomerId == Some(customerId)
    ensures forall p :: p in order && rows[p].pestRoutesCustomerId == Some(customerId) ==> rows[p] in r
    ensures forall s :: s in r ==> exists p :: p in order && rows[p] == s
  {
    if |order| == 0 then []
    else
      var p := order[|order| - 1];
      var older := NewestFirst(order[..|order| - 1], rows, customerId);
      assert forall q :: q in order ==> q in order[..|order| - 1] || q == p;
      if rows[p].pestRoutesCustomerId == Some(customerId) then [rows[p]] + older else older
  }

  class Table {
    var rows: map<string, Sale>
    var order: seq<string>

    /** Each row is stored under its own project id, and `order` lists
        every key exactly once. */
    ghost predicate Valid()
      reads this
    {
      && (forall p :: p in rows <==> p in order)
      && (forall i, j :: 0 <= i < j < |order| ==> order[i] != order[j])
      && (forall p :: p in rows ==> rows[p].arcSiteProjectId == p)
    }

    constructor()
      ensures Valid()
      ensures rows == map[] && order == []
    {
      rows := map[];
      order := [];
    }

    /** `findUnique` by project id. */
    function FindByProject(projectId: string): (r: Option<Sale>)
      reads this
      requires Valid()
      ensures r.Some? <==> projectId in rows
      ensures r.Some? ==> r.value.arcSiteProjectId == projectId && r.value == rows[projectId]
    {
      if projectId in rows then Some(rows[projectId]) else None
    }

    /** `findMany` by customer id, ordered by creation time, newest first. */
    function FindManyByCustomer(customerId: int): (r: seq<Sale>)
      reads this
      requires Valid()
      ensures forall s :: s in r <==> s in rows.Values && s.pestRoutesCustomerId == Some(customerId)
    {
      NewestFirst(order, rows, customerId)
    }

    /** `create`: inserts a new row, or fails on the unique project id and
        leaves the table as it was. */
    method Create(sale: Sale) returns (r: Result<Sale, DbError>)
      requires Valid()
      modifies this
      ensures Valid()
      ensures old(sale.arcSiteProjectId in rows) ==>
                r == Err(UniqueConstraintViolation(sale.arcSiteProjectId)) && rows == old(rows) && order == old(order)
      ensures old(sale.arcSiteProjectId !in rows) ==>
                r == Ok(sale) && rows == old(rows)[sale.arcSiteProjectId := sale] && order == old(order) + [sale.arcSiteProjectId]
    {
      if sale.arcSiteProjectId in rows {
        return Err(UniqueConstraintViolation(sale.arcSiteProjectId));
      }
      rows := rows[sale.arcSiteProjectId := sale];
      order := order + [sale.arcSiteProjectId];
      r := Ok(sale);
    }

    /** `update` of the row with this project id and deal id: sets the
        signature request id and nothing else. Fails when no row matches
        both, leaving the table as it was. */
    method SetSignRequestId(dealId: Option<string>, projectId: string, requestId: string) returns (r: Result<Sale, DbError>)
      requires Valid()
      modifies this
      ensures Valid()
      ensures order == old(order)
      ensures !(projectId in old(rows) && old(rows)[projectId].pipedriveDealId == dealId) ==>
                r == Err(RecordNotFound) && rows == old(rows)
      ensures projectId in old(rows) && old(rows)[projectId].pipedriveDealId == dealId ==>
                r == Ok(old(rows)[projectId].(zohoSignRequestId := Some(requestId))) &&
                rows == old(rows)[projectId := r.value]
    {
      if projectId !in rows || rows[projectId].pipedriveDealId != dealId {
        return Err(RecordNotFound);
      }
      var updated := rows[projectId].(zohoSignRequestId := Some(requestId));
      rows := rows[projectId := updated];
      r := Ok(updated);
    }
  }

  /** `NewestFirst` lists later-created rows before earlier ones: the row
      created last, if it matches, comes first. */
  lemma {:induction false} NewestFirstHead(order: seq<string>, rows: map<string, Sale>, customerId: int, p: string)
    requires forall q :: q in order ==> q in rows
    requires p in rows
    requires rows[p].pestRoutesCustomerId == Some(customerId)
    ensures NewestFirst(order + [p], rows, customerId) == [rows[p]] + NewestFirst(order, rows, customerId)
  {
    assert (order + [p])[..|order|] == order;
  }

  /** The matching rows of `order`, oldest first: a reference definition
      scanning `order` from the front. */
  function OldestFirst(order: seq<string>, rows: map<string, Sale>, customerId: int): seq<Sale>
    requires forall p :: p in order ==> p in rows
  {
    if |order| == 0 then []
    else
      assert forall q :: q in order[1..] ==> q in order;
      (if rows[order[0]].pestRoutesCustomerId == Some(customerId) then [rows[order[0]]] else []) +
      OldestFirst(order[1..], rows, customerId)
  }

  function Reversed(s: seq<Sale>): seq<Sale>
  {
    if |s| == 0 then [] else Reversed(s[1..]) + [s[0]]
  }

  lemma {:induction false} OldestFirstAppend(order: seq<string>, rows: map<string, Sale>, customerId: int, p: string)
    requires forall q :: q in order ==> q in rows
    requires p in rows
    ensures OldestFirst(order + [p], rows, customerId) ==
            OldestFirst(order, rows, customerId) +
            (if rows[p].pestRoutesCustomerId == Some(customerId) then [rows[p]] else [])
  {
    if |order| > 0 {
      assert (order + [p])[1..] == order[1..] + [p];
      assert forall q :: q in order[1..] ==> q in order;
      OldestFirstAppend(order[1..], rows, customerId, p);
    }
  }

  lemma {:induction false} ReversedPrepend(x: Sale, s: seq<Sale>)
    ensures Reversed([x] + s) == Reversed(s) + [x]
  {
    assert ([x] + s)[1..] == s;
  }

  lemma {:induction false} ReversedAppend(s: seq<Sale>, t: seq<Sale>)
    ensures Reversed(s + t) == Reversed(t) + Reversed(s)
    decreases |s|
  {
    if |s| == 0 {
      assert s + t == t;
    } else {
      assert s + t == [s[0]] + (s[1..] + t);
      ReversedPrepend(s[0], s[1..] + t);
      ReversedAppend(s[1..], t);
    }
  }

  /** `NewestFirst` is the matching rows of the creation order, in
      reverse. */
  lemma {:induction false} NewestFirstReversesOldest(order: seq<string>, rows: map<string, Sale>, customerId: int)
    requires forall q :: q in order ==> q in rows
    ensures NewestFirst(order, rows, customerId) == Reversed(OldestFirst(order, rows, customerId))
    decreases |order|
  {
    if |order| > 0 {
      var init := order[..|order| - 1];
      var p := order[|order| - 1];
      assert order == init + [p];
      assert forall q :: q in init ==> q in order;
      NewestFirstReversesOldest(init, rows, customerId);
      OldestFirstAppend(init, rows, customerId, p);
      var last := if rows[p].pestRoutesCustomerId == Some(customerId) then [rows[p]] else [];
      ReversedAppend(OldestFirst(init, rows, customerId), last);
      assert Reversed(last) == last by {
        if |last| == 1 {
          assert last[1..] == [];
        }
      }
    }
  }
}
