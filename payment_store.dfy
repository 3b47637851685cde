/**
 * The `orders.payments` table as the payment service's connection sees it: the
 * committed rows, and a transaction that buffers writes until COMMIT applies them or
 * ROLLBACK drops them. Outside a transaction each write is applied at once. A statement
 * told to fail throws and changes nothing, except a failing COMMIT, which ends the
 * transaction without applying its writes. ROLLBACK outside a transaction does nothing.
 */
module PaymentStore {
  import opened Wrappers
  import opened Payments

  type Table = map<string, Payment>

  /** A write one statement makes. */
  datatype Write =
    | InsertRow(row: Payment)
    | SetSession(id: string, sessionId: string, sessionUrl: string)
    | SetStatus(id: string, status: PaymentStatus)

  /** An UPDATE changes the row with the given id, when there is one, and nothing else. */
  function ApplyWrite(t: Table, w: Write): Table {
    match w
    case InsertRow(p) => t[p.id := p]
    case SetSession(id, sid, url) =>
      if id in t then t[id := t[id].(sessionId := Some(sid), sessionUrl := Some(url))] else t
    case SetStatus(id, s) =>
      if id in t then t[id := t[id].(status := s)] else t
  }

  /** The table after the writes, applied in order. */
  function ApplyAll(t: Table, ws: seq<Write>): Table
    decreases |ws|
  {
    if ws == [] then t else ApplyWrite(ApplyAll(t, ws[..|ws| - 1]), ws[|ws| - 1])
  }

  lemma ApplyAllSnoc(t: Table, ws: seq<Write>, w: Write)
    ensures ApplyAll(t, ws + [w]) == ApplyWrite(ApplyAll(t, ws), w)
  {
    assert (ws + [w])[..|ws|] == ws;
  }

  /** A row's session id and session URL are both present or both absent. */
  predicate RowOk(p: Payment) {
    p.sessionId.Some? <==> p.sessionUrl.Some?
  }

  /** Each row is stored under its own id, with paired session fields. */
  ghost predicate TableOk(t: Table) {
    forall k :: k in t ==> t[k].id == k && RowOk(t[k])
  }

  /** The fields fixed when a row is created. */
  function Immutable(p: Payment): (string, int, string, string, nat) {
    (p.id, p.amount, p.currency, p.receipt, p.createdAt)
  }

  /**
   * `t1` can follow `t0`: no row disappears, no field fixed at creation changes, and
   * session fields once set stay set.
   */
  ghost predicate Evolves(t0: Table, t1: Table) {
    forall k :: k in t0 ==>
      k in t1 && Immutable(t1[k]) == Immutable(t0[k])
      && (t0[k].sessionId.Some? ==> t1[k].sessionId.Some?)
  }

  lemma EvolvesTransitive(t0: Table, t1: Table, t2: Table)
    requires Evolves(t0, t1) && Evolves(t1, t2)
    ensures Evolves(t0, t2)
  {
  }

  /** A write that inserts a well-formed row under a new id keeps the table well-formed and only lets it evolve. */
  lemma ApplyWriteKeeps(t: Table, w: Write)
    requires TableOk(t)
    requires w.InsertRow? ==> w.row.id !in t && RowOk(w.row)
    ensures TableOk(ApplyWrite(t, w)) && Evolves(t, ApplyWrite(t, w))
  {
  }

  class Database {
    var table: Table        // committed rows
    var inTx: bool          // a transaction is open on the service's connection
    var pending: seq<Write> // writes of the open transaction, oldest first
    var acquired: nat       // connections taken from the pool
    var released: nat       // connections given back

    /** The rows as the service's connection sees them: committed rows plus its own pending writes. */
    function View(): Table
      reads this
    {
      ApplyAll(table, pending)
    }

    ghost predicate Valid()
      reads this
    {
      TableOk(table) && TableOk(View()) && Evolves(table, View()) && (!inTx ==> pending == [])
    }

    constructor()
      ensures Valid() && table == map[] && !inTx && acquired == 0 && released == 0
    {
      table, inTx, pending := map[], false, [];
      acquired, released := 0, 0;
    }

    /** `pool.connect()`. */
    method Connect(fails: bool) returns (err: Option<Error>)
      modifies this`acquired
      ensures err == (if fails then Some(StoreError(Step.Connect)) else None)
      ensures acquired == old(acquired) + (if fails then 0 else 1)
    {
      if fails {
        return Some(StoreError(Step.Connect));
      }
      acquired := acquired + 1;
      err := None;
    }

    /** `client.release()`. */
    method Release()
      modifies this`released
      ensures released == old(released) + 1
    {
      released := released + 1;
    }

    /** `BEGIN`; inside an open transaction it changes nothing. */
    method Begin(fails: bool) returns (err: Option<Error>)
      requires Valid()
      modifies this`inTx
      ensures Valid()
      ensures err == (if fails then Some(StoreError(Step.Begin)) else None)
      ensures inTx == (old(inTx) || !fails)
    {
      if fails {
        return Some(StoreError(Step.Begin));
      }
      inTx := true;
      err := None;
    }

    /** INSERT ... RETURNING *: refused when asked to fail or when the id is taken (a primary-key violation). */
    method Insert(row: Payment, fails: bool) returns (r: Result<Payment, Error>)
      requires Valid() && RowOk(row)
      modifies this`table, this`pending
      ensures Valid()
      ensures r.Success? <==> !fails && row.id !in old(View())
      ensures r.Success? ==> r.value == row && View() == old(View())[row.id := row]
      ensures r.Failure? ==> r.error == StoreError(Step.Insert) && table == old(table) && pending == old(pending)
      ensures inTx ==> table == old(table)
    {
      if fails || row.id in View() {
        return Failure(StoreError(Step.Insert));
      }
      Write(InsertRow(row));
      r := Success(row);
    }

    /**
     * UPDATE ... WHERE id (RETURNING *): the changed row, or None when no row has the id.
     * `step` names the call site, for the error.
     */
    method Update(w: Write, step: Step, fails: bool) returns (r: Result<Option<Payment>, Error>)
      requires Valid() && !w.InsertRow?
      modifies this`table, this`pending
      ensures Valid()
      ensures fails ==> r == Failure(StoreError(step)) && table == old(table) && pending == old(pending)
      ensures !fails ==> View() == ApplyWrite(old(View()), w)
      ensures !fails ==> r == Success(if w.id in View() then Some(View()[w.id]) else None)
      ensures inTx ==> table == old(table)
    {
      if fails {
        return Failure(StoreError(step));
      }
      Write(w);
      r := Success(if w.id in View() then Some(View()[w.id]) else None);
    }

    /** Buffers `w` in an open transaction; applies it at once otherwise. */
    method Write(w: Write)
      requires Valid()
      requires w.InsertRow? ==> w.row.id !in View() && RowOk(w.row)
      modifies this`table, this`pending
      ensures Valid()
      ensures View() == ApplyWrite(old(View()), w)
      ensures inTx ==> table == old(table)
    {
      ApplyWriteKeeps(View(), w);
      if inTx {
        ApplyAllSnoc(table, pending, w);
        EvolvesTransitive(table, View(), ApplyWrite(View(), w));
        pending := pending + [w];
      } else {
        table := ApplyWrite(table, w);
      }
    }

    /**
     * `COMMIT`: applies the pending writes, or, when it fails, ends the transaction
     * without applying them. Outside a transaction it has nothing to apply.
     */
    method Commit(step: Step, fails: bool) returns (err: Option<Error>)
      requires Valid()
      modifies this`table, this`pending, this`inTx
      ensures Valid() && !inTx && pending == []
      ensures err == (if fails then Some(StoreError(step)) else None)
      ensures table == (if fails then old(table) else old(View()))
    {
      if fails {
        inTx, pending := false, [];
        return Some(StoreError(step));
      }
      table, inTx, pending := View(), false, [];
      err := None;
    }

    /** `ROLLBACK`: drops the pending writes; outside a transaction it changes nothing. */
    method Rollback()
      requires Valid()
      modifies this`pending, this`inTx
      ensures Valid() && !inTx && pending == []
      ensures !old(inTx) ==> unchanged(this)
    {
      inTx, pending := false, [];
    }
  }
}
