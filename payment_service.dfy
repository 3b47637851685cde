/**
 * The payment service: creating a payment together with its checkout session inside
 * one transaction, reading payments back, and reconciling a payment's status with the
 * checkout provider. The provider's replies, the id and creation time the database
 * assigns, and the statements at which the database throws are parameters.
 */
module PaymentService {
  import opened Wrappers
  import opened Runtime
  import opened Payments
  import opened StatusMapper
  import opened DinteroTypes
  import opened PaymentValidation
  import opened PaymentStore

  const DefaultBaseUrl := "http://localhost:3000"

  predicate EndsWith(s: string, suffix: string) {
    |suffix| <= |s| && s[|s| - |suffix|..] == suffix
  }

  predicate StartsWith(s: string, prefix: string) {
    |prefix| <= |s| && s[..|prefix|] == prefix
  }

  /** The row the INSERT creates: PENDING, with no session yet. */
  function NewRow(data: CreatePaymentDto, id: string, createdAt: nat): Payment {
    Payment(id, data.amount, data.currency, data.receipt, PENDING, None, None, createdAt)
  }

  /** The provider's redirect target for the payment `id`. */
  function ReturnUrl(env: Env, id: string): (url: string)
    ensures EndsWith(url, "/orders/" + id + "/payment-redirect")
    ensures |url| == |EnvOr(env, "BASE_URL", DefaultBaseUrl)| + |"/orders/" + id + "/payment-redirect"|
    ensures IsSet(env, "BASE_URL") ==> StartsWith(url, env["BASE_URL"])
    ensures !IsSet(env, "BASE_URL") ==> StartsWith(url, DefaultBaseUrl)
  {
    var base := EnvOr(env, "BASE_URL", DefaultBaseUrl);
    var suffix := "/orders/" + id + "/payment-redirect";
    assert (base + suffix)[|base + suffix| - |suffix|..] == suffix;
    assert (base + suffix)[..|base|] == base;
    base + suffix
  }

  /** The session request sent for a freshly inserted row; the client replaces the empty profile id. */
  function SessionRequestFor(order: Payment, env: Env): SessionRequest {
    SessionRequest(
      SessionUrls(ReturnUrl(env, order.id), None),
      SessionOrder(order.amount, order.currency, order.receipt),
      "")
  }

  /** What creating a payment returns, the committed table afterwards, and the session request sent, if any. */
  datatype CreateOutcome = CreateOutcome(
    result: Result<Payment, Error>,
    table: Table,
    request: Option<SessionRequest>)

  /**
   * Creating a payment, statement by statement. The INSERT, the session UPDATE and its
   * COMMIT run in one transaction. When the session step throws, the handler marks the
   * row FAILED and commits, then rethrows the session error; an error from the handler
   * itself replaces it. The outer handler rolls back whatever is still open.
   * A failing COMMIT has already ended the transaction, so when the session COMMIT fails
   * the handler's UPDATE finds no row and nothing persists.
   */
  function CreateSpec(t: Table, data: CreatePaymentDto, env: Env, id: string, createdAt: nat,
                      gateway: Result<SessionResponse, string>, faults: set<Step>): (o: CreateOutcome)
    // only the new payment's row can appear, and no existing row changes
    ensures Evolves(t, o.table)
    ensures o.table == t || (id !in t && id in o.table && o.table == t[id := o.table[id]])
    ensures o.table != t ==> Immutable(o.table[id]) == Immutable(NewRow(data, id, createdAt))
    // success exactly when no statement of the transaction fails and the provider opens a session
    ensures o.result.Success? <==>
      gateway.Success? && id !in t && faults !! {Step.Connect, Step.Begin, Step.Insert, AttachSession, CommitSession}
    // the returned payment is the committed row: PENDING, holding the provider's session
    ensures o.result.Success? ==>
      o.table != t && o.result.value == o.table[id] && o.result.value.status == PENDING
      && o.result.value.sessionId == Some(gateway.value.id) && o.result.value.sessionUrl == Some(gateway.value.url)
    // a row that outlives a failure is FAILED and has no session
    ensures o.result.Failure? && o.table != t ==> o.table[id] == NewRow(data, id, createdAt).(status := FAILED)
    // a refused session, or a failed session UPDATE, leaves the row FAILED and rethrows that error
    ensures (gateway.Failure? || AttachSession in faults) && id !in t
            && faults !! {Step.Connect, Step.Begin, Step.Insert, MarkFailed, CommitFailed} ==>
      o.table == t[id := NewRow(data, id, createdAt).(status := FAILED)]
      && o.result == Failure(if gateway.Failure? then GatewayError(gateway.error) else StoreError(AttachSession))
    // a failing compensation statement replaces the session error, and nothing persists
    ensures o.result.Failure? && o.request.Some? && MarkFailed in faults ==> o.result.error == StoreError(MarkFailed)
    ensures o.result.Failure? && o.request.Some? && MarkFailed !in faults && CommitFailed in faults ==>
      o.result.error == StoreError(CommitFailed)
    ensures o.result.Failure? && o.request.Some? && (MarkFailed in faults || CommitFailed in faults) ==> o.table == t
    // a compensation that succeeds rethrows the session error: the provider's, the UPDATE's, or the COMMIT's
    ensures o.result.Failure? && o.request.Some? && MarkFailed !in faults && CommitFailed !in faults ==>
      o.result.error == (if gateway.Failure? then GatewayError(gateway.error)
                         else if AttachSession in faults then StoreError(AttachSession)
                         else StoreError(CommitSession))
    // a failing session COMMIT loses the row
    ensures CommitSession in faults && gateway.Success? && AttachSession !in faults ==> o.table == t
    // before the INSERT succeeds nothing is written and the provider is not called
    ensures o.request.None? <==> (id in t || Step.Connect in faults || Step.Begin in faults || Step.Insert in faults)
    ensures o.request.None? ==> o.table == t && o.result.Failure?
    // and the error is that of the first statement that throws: connect, BEGIN, or INSERT (a taken id included)
    ensures o.request.None? ==>
      o.result == Failure(StoreError(
        if Step.Connect in faults then Step.Connect else if Step.Begin in faults then Step.Begin else Step.Insert))
    // the request carries the row's amount, currency and receipt and a return URL naming the row
    ensures o.request.Some? ==>
      o.request.value.order == SessionOrder(data.amount, data.currency, data.receipt)
      && o.request.value.profileId == "" && o.request.value.url.callbackUrl.None?
      && o.request.value.url.returnUrl == ReturnUrl(env, id)
  {
    var row := NewRow(data, id, createdAt);
    if Step.Connect in faults then CreateOutcome(Failure(StoreError(Step.Connect)), t, None)
    else if Step.Begin in faults then CreateOutcome(Failure(StoreError(Step.Begin)), t, None)
    else if Step.Insert in faults || id in t then CreateOutcome(Failure(StoreError(Step.Insert)), t, None)
    else
      var request := Some(SessionRequestFor(row, env));
      if gateway.Success? && AttachSession !in faults && CommitSession !in faults then
        var attached := row.(sessionId := Some(gateway.value.id), sessionUrl := Some(gateway.value.url));
        CreateOutcome(Success(attached), t[id := attached], request)
      else
        var sessionError :=
          if gateway.Failure? then GatewayError(gateway.error)
          else if AttachSession in faults then StoreError(AttachSession)
          else StoreError(CommitSession);
        var rowLost := gateway.Success? && AttachSession !in faults;
        if MarkFailed in faults then CreateOutcome(Failure(StoreError(MarkFailed)), t, request)
        else if CommitFailed in faults then CreateOutcome(Failure(StoreError(CommitFailed)), t, request)
        else if rowLost then CreateOutcome(Failure(sessionError), t, request)
        else CreateOutcome(Failure(sessionError), t[id := row.(status := FAILED)], request)
  }

  /**
   * The inner `try` of `createPayment`: the session request has been answered by
   * `gateway`; on success the session is stored on the row and the transaction commits.
   * Returns the error the inner handler catches, if any.
   */
  method AttachAndCommit(db: Database, order: Payment, gateway: Result<SessionResponse, string>, faults: set<Step>)
    returns (sessionError: Option<Error>, attached: Payment)
    requires db.Valid() && db.inTx && order.id !in db.table && db.View() == db.table[order.id := order]
    modifies db
    ensures db.Valid() && db.acquired == old(db.acquired) && db.released == old(db.released)
    ensures sessionError ==
      if gateway.Failure? then Some(GatewayError(gateway.error))
      else if AttachSession in faults then Some(StoreError(AttachSession))
      else if CommitSession in faults then Some(StoreError(CommitSession))
      else None
    ensures sessionError.None? ==>
      !db.inTx && attached == order.(sessionId := Some(gateway.value.id), sessionUrl := Some(gateway.value.url))
      && db.table == old(db.table)[order.id := attached]
    ensures gateway.Failure? || AttachSession in faults ==>
      db.inTx && db.table == old(db.table) && db.View() == old(db.View())
    ensures gateway.Success? && AttachSession !in faults && CommitSession in faults ==>
      !db.inTx && db.table == old(db.table)
  {
    attached := order;
    if gateway.Failure? {
      return Some(GatewayError(gateway.error)), order;
    }
    var updated := db.Update(SetSession(order.id, gateway.value.id, gateway.value.url),
                             AttachSession, AttachSession in faults);
    if updated.Failure? {
      return Some(updated.error), order;
    }
    attached := updated.value.value;
    sessionError := db.Commit(CommitSession, CommitSession in faults);
  }

  /**
   * The inner `catch` of `createPayment`: marks the row FAILED and commits. Returns the
   * error either statement throws, if any.
   */
  method MarkFailedAndCommit(db: Database, id: string, faults: set<Step>) returns (err: Option<Error>)
    requires db.Valid()
    modifies db
    ensures db.Valid() && db.acquired == old(db.acquired) && db.released == old(db.released)
    ensures err ==
      if MarkFailed in faults then Some(StoreError(MarkFailed))
      else if CommitFailed in faults then Some(StoreError(CommitFailed))
      else None
    ensures MarkFailed in faults ==>
      db.table == old(db.table) && db.inTx == old(db.inTx) && db.pending == old(db.pending)
    ensures MarkFailed !in faults ==>
      !db.inTx
      && db.table == if CommitFailed in faults && old(db.inTx) then old(db.table)
                     else ApplyWrite(old(db.View()), SetStatus(id, FAILED))
  {
    var marked := db.Update(SetStatus(id, FAILED), MarkFailed, MarkFailed in faults);
    if marked.Failure? {
      return Some(marked.error);
    }
    err := db.Commit(CommitFailed, CommitFailed in faults);
  }

  /**
   * The outer `try` block of `createPayment`, from BEGIN to the inner handler: returns
   * the error that reaches the outer handler, or the created payment. Writes still
   * pending when it throws are left for the outer handler's ROLLBACK.
   */
  method CreateInTransaction(db: Database, data: CreatePaymentDto, env: Env, id: string, createdAt: nat,
                             gateway: Result<SessionResponse, string>, faults: set<Step>)
    returns (thrown: Option<Error>, created: Payment, request: Option<SessionRequest>)
    requires db.Valid() && !db.inTx && Step.Connect !in faults
    modifies db
    ensures db.Valid() && db.acquired == old(db.acquired) && db.released == old(db.released)
    ensures thrown.None? ==> !db.inTx
    ensures var o := CreateSpec(old(db.table), data, env, id, createdAt, gateway, faults);
      db.table == o.table && request == o.request
      && o.result == if thrown.Some? then Failure(thrown.value) else Success(created)
  {
    ghost var t0 := db.table;
    var row := NewRow(data, id, createdAt);
    created, request := row, None;
    thrown := db.Begin(Step.Begin in faults);
    if thrown.Some? {
      return;
    }
    var inserted := db.Insert(row, Step.Insert in faults);
    if inserted.Failure? {
      return Some(inserted.error), row, None;
    }
    request := Some(SessionRequestFor(row, env));
    var sessionError, attached := AttachAndCommit(db, row, gateway, faults);
    if sessionError.None? {
      return None, attached, request;
    }
    ghost var seen := db.View();
    var handlerError := MarkFailedAndCommit(db, id, faults);
    if handlerError.None? {
      if gateway.Success? && AttachSession !in faults {
        assert db.table == t0;
      } else {
        assert seen == t0[id := row];
        assert db.table == t0[id := row.(status := FAILED)];
      }
    }
    thrown := if handlerError.Some? then handlerError else sessionError;
  }

  /**
   * `createPayment`: the connection is taken from the pool and given back on every path;
   * `faults` names the statements at which the database throws, `gateway` is the
   * provider's reply to the session request.
   */
  method CreatePayment(db: Database, data: CreatePaymentDto, env: Env, id: string, createdAt: nat,
                       gateway: Result<SessionResponse, string>, faults: set<Step>)
    returns (r: Result<Payment, Error>, request: Option<SessionRequest>)
    requires db.Valid() && !db.inTx
    modifies db
    ensures db.Valid() && !db.inTx
    ensures var o := CreateSpec(old(db.table), data, env, id, createdAt, gateway, faults);
      r == o.result && db.table == o.table && request == o.request
    ensures db.acquired == old(db.acquired) + (if Step.Connect in faults then 0 else 1)
    ensures db.released - old(db.released) == db.acquired - old(db.acquired)
  {
    var connectError := db.Connect(Step.Connect in faults);
    if connectError.Some? {
      return Failure(connectError.value), None;
    }
    var thrown, created;
    thrown, created, request := CreateInTransaction(db, data, env, id, createdAt, gateway, faults);
    if thrown.Some? {
      db.Rollback();
      r := Failure(thrown.value);
    } else {
      r := Success(created);
    }
    db.Release();
  }

  /**
   * `findById`: the committed row with the given id, read outside any transaction of
   * the service; None when there is none.
   */
  method FindById(db: Database, id: string, fails: bool) returns (r: Result<Option<Payment>, Error>)
    requires TableOk(db.table)
    ensures fails <==> r.Failure?
    ensures r.Failure? ==> r.error == StoreError(SelectById)
    ensures r.Success? ==> (r.value.Some? <==> id in db.table)
    ensures r.Success? && r.value.Some? ==> r.value.value == db.table[id] && r.value.value.id == id
  {
    if fails {
      return Failure(StoreError(SelectById));
    }
    r := Success(if id in db.table then Some(db.table[id]) else None);
  }

  /**
   * `findAll`: every committed row exactly once, in the order the table yields them
   * (the query has no ORDER BY, so the model fixes no order).
   */
  method FindAll(db: Database, fails: bool) returns (r: Result<seq<Payment>, Error>)
    requires TableOk(db.table)
    ensures fails <==> r.Failure?
    ensures r.Failure? ==> r.error == StoreError(SelectAll)
    ensures r.Success? ==> |r.value| == |db.table|
    ensures r.Success? ==> forall i :: 0 <= i < |r.value| ==>
      r.value[i].id in db.table && db.table[r.value[i].id] == r.value[i]
    ensures r.Success? ==> forall i, j :: 0 <= i < j < |r.value| ==> r.value[i].id != r.value[j].id
    ensures r.Success? ==> forall id :: id in db.table ==> db.table[id] in r.value
  {
    if fails {
      return Failure(StoreError(SelectAll));
    }
    var table := db.table;
    var rows: seq<Payment> := [];
    var remaining := table.Keys;
    while remaining != {}
      invariant remaining <= table.Keys
      invariant |rows| + |remaining| == |table.Keys|
      invariant forall i :: 0 <= i < |rows| ==>
        rows[i].id in table && table[rows[i].id] == rows[i] && rows[i].id !in remaining
      invariant forall i, j :: 0 <= i < j < |rows| ==> rows[i].id != rows[j].id
      invariant forall id :: id in table && id !in remaining ==> table[id] in rows
      decreases remaining
    {
      var id :| id in remaining;
      rows := rows + [table[id]];
      remaining := remaining - {id};
    }
    r := Success(rows);
  }

  /**
   * The provider status `updatePaymentStatus` reconciles to: the name of the last event,
   * or "PENDING" when the event list is absent or empty or the last name is empty.
   */
  function LatestStatusName(events: Option<seq<SessionEvent>>): (name: string)
    ensures name != ""
    ensures events.None? || events.value == [] ==> name == StatusName(PENDING)
    ensures events.Some? && events.value != [] ==>
      var last := events.value[|events.value| - 1];
      name == if last.name == "" then StatusName(PENDING) else last.name
  {
    if events.Some? && |events.value| > 0 && events.value[|events.value| - 1].name != "" then
      events.value[|events.value| - 1].name
    else
      StatusName(PENDING)
  }

  /** Only the last event counts: earlier events never influence the reconciled status. */
  lemma OnlyLastEventCounts(earlier: seq<SessionEvent>, other: seq<SessionEvent>, last: SessionEvent)
    ensures LatestStatusName(Some(earlier + [last])) == LatestStatusName(Some(other + [last]))
    ensures last.name != "" ==> LatestStatusName(Some(earlier + [last])) == last.name
  {
    assert (earlier + [last])[|earlier + [last]| - 1] == last;
    assert (other + [last])[|other + [last]| - 1] == last;
  }

  /** What reconciling returns, the table afterwards, and the session id sent to the provider, if any. */
  datatype ReconcileOutcome = ReconcileOutcome(
    result: Result<Payment, Error>,
    table: Table,
    queried: Option<string>)

  /**
   * Reconciling the payment `id` with the provider, whose reply to the status request
   * is `reply`; `faults` names the statements at which the database throws.
   */
  function ReconcileSpec(t: Table, id: string, reply: Result<SessionStatusResponse, string>,
                         faults: set<Step>): (o: ReconcileOutcome)
    // rows keep their fixed fields and their sessions
    ensures Evolves(t, o.table)
    // an error changes nothing
    ensures o.result.Failure? ==> o.table == t
    // success changes the status of this payment's row and nothing else
    ensures o.result.Success? ==>
      id in t && o.table == t[id := o.result.value] && o.result.value == t[id].(status := o.result.value.status)
    ensures o.result.Success? <==>
      SelectById !in faults && UpdateStatus !in faults && id in t && Truthy(t[id].sessionId) && reply.Success?
    // the new status is the local reading of the latest provider event, never INITIATED
    ensures o.result.Success? ==>
      o.result.value.status == MapDinteroStatus(LatestStatusName(reply.value.events))
      && o.result.value.status != INITIATED
    // a throwing SELECT or status UPDATE propagates its own error
    ensures SelectById in faults ==> o.result == Failure(StoreError(SelectById))
    ensures SelectById !in faults && id in t && Truthy(t[id].sessionId) && reply.Success? && UpdateStatus in faults ==>
      o.result == Failure(StoreError(UpdateStatus))
    ensures SelectById !in faults && id !in t ==> o.result == Failure(Thrown(OrderNotFoundMessage))
    ensures SelectById !in faults && id in t && !Truthy(t[id].sessionId) ==>
      o.result == Failure(Thrown(NoSessionMessage))
    // the provider is asked exactly when the row exists and holds a session, and about that session
    ensures o.queried.Some? <==> SelectById !in faults && id in t && Truthy(t[id].sessionId)
    ensures o.queried.Some? ==> o.queried == t[id].sessionId
    ensures SelectById !in faults && id in t && Truthy(t[id].sessionId) && reply.Failure? ==>
      o.result == Failure(GatewayError(reply.error))
  {
    if SelectById in faults then ReconcileOutcome(Failure(StoreError(SelectById)), t, None)
    else if id !in t then ReconcileOutcome(Failure(Thrown(OrderNotFoundMessage)), t, None)
    else if !Truthy(t[id].sessionId) then ReconcileOutcome(Failure(Thrown(NoSessionMessage)), t, None)
    else
      var queried := t[id].sessionId;
      if reply.Failure? then ReconcileOutcome(Failure(GatewayError(reply.error)), t, queried)
      else if UpdateStatus in faults then ReconcileOutcome(Failure(StoreError(UpdateStatus)), t, queried)
      else
        var updated := t[id].(status := MapDinteroStatus(LatestStatusName(reply.value.events)));
        ReconcileOutcome(Success(updated), t[id := updated], queried)
  }

  /** Reconciling twice against the same provider reply changes nothing the second time. */
  lemma ReconcileIdempotent(t: Table, id: string, reply: Result<SessionStatusResponse, string>, faults: set<Step>)
    ensures var once := ReconcileSpec(t, id, reply, faults);
      once.result.Success? ==>
        var twice := ReconcileSpec(once.table, id, reply, faults);
        twice.result == once.result && twice.table == once.table
  {
  }

  /**
   * `updatePaymentStatus`: looks the payment up, asks the provider about its session
   * (the reply is `reply`) and stores the mapped status.
   */
  method UpdatePaymentStatus(db: Database, id: string, reply: Result<SessionStatusResponse, string>,
                             faults: set<Step>)
    returns (r: Result<Payment, Error>, queried: Option<string>)
    requires db.Valid() && !db.inTx
    modifies db
    ensures db.Valid() && !db.inTx
    ensures db.acquired == old(db.acquired) && db.released == old(db.released)
    ensures var o := ReconcileSpec(old(db.table), id, reply, faults);
      r == o.result && db.table == o.table && queried == o.queried
  {
    var found := FindById(db, id, SelectById in faults);
    if found.Failure? {
      return Failure(found.error), None;
    }
    if found.value.None? {
      return Failure(Thrown(OrderNotFoundMessage)), None;
    }
    var order := found.value.value;
    if !Truthy(order.sessionId) {
      return Failure(Thrown(NoSessionMessage)), None;
    }
    queried := order.sessionId;
    if reply.Failure? {
      return Failure(GatewayError(reply.error)), queried;
    }
    var status := MapDinteroStatus(LatestStatusName(reply.value.events));
    var updated := db.Update(SetStatus(id, status), UpdateStatus, UpdateStatus in faults);
    if updated.Failure? {
      return Failure(updated.error), queried;
    }
    r := Success(updated.value.value);
  }
}
