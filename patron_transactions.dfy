/** Patron transactions: the transaction derived from an overdue
    notification, its first ledger event, the references it carries, the
    accessors that resolve them, and the deletion guard.

    Transactions are JSON records; the search index of transaction events is
    an append-only sequence of events in `TransactionStore`. The fee of an
    overdue notification, the current time, the application configuration
    and the pid the minter assigns are inputs.
 */
module PatronTransactions {
  import opened Records

  /** The fields of a notification that the transaction derivation and the
      accessors read. */
  datatype PatronNotification = PatronNotification(
    pid: string,
    notificationType: string,
    patronPid: string,
    organisationPid: string,
    loanPid: Option<string>,
    documentPid: Option<string>)

  /** The configuration values read when building references. */
  datatype AppConfig = AppConfig(baseUrl: string, schemaEndpoint: string, transactionSchema: string)

  /** A ledger entry; only its parent transaction matters here. */
  datatype TransactionEvent = TransactionEvent(parent: string)

  const OverdueType := "overdue"
  const OpenStatus := "open"

  // ---------------------------------------------------------------------------
  // References
  // ---------------------------------------------------------------------------

  /** `{base_url}/api/{resource}s/{pid}` */
  function ApiUrl(baseUrl: string, resource: string, pid: string): string
  {
    baseUrl + "/api/" + resource + "s/" + pid
  }

  /** A JSON reference `{'$ref': url}` to a resource. */
  function RefTo(baseUrl: string, resource: string, pid: string): Value
  {
    Obj(map["$ref" := Str(ApiUrl(baseUrl, resource, pid))])
  }

  /** The last path segment of a URL: the pid the resolver looks up. */
  function LastSegment(url: string): (pid: string)
    ensures '/' !in pid
    ensures |pid| <= |url| && pid == url[|url| - |pid|..]
  {
    if url == [] || url[|url| - 1] == '/' then []
    else LastSegment(url[..|url| - 1]) + [url[|url| - 1]]
  }

  /** The resolver finds the referenced record again: the last segment of an
      API URL is the pid it was built from. */
  lemma {:induction false} LastSegmentOfApiUrl(prefix: string, pid: string)
    requires '/' !in pid
    ensures LastSegment(prefix + "/" + pid) == pid
  {
    var url := prefix + "/" + pid;
    if pid == [] {
      assert url[|url| - 1] == '/';
    } else {
      var init := pid[..|pid| - 1];
      assert url[..|url| - 1] == prefix + "/" + init;
      assert url[|url| - 1] == pid[|pid| - 1];
      assert '/' !in init by {
        forall i | 0 <= i < |init| ensures init[i] != '/' {
          assert init[i] == pid[i];
        }
      }
      LastSegmentOfApiUrl(prefix, init);
      assert init + [pid[|pid| - 1]] == pid;
    }
  }

  lemma ApiUrlShape(baseUrl: string, resource: string, pid: string)
    ensures ApiUrl(baseUrl, resource, pid) == (baseUrl + "/api/" + resource + "s") + "/" + pid
  {
  }

  // ---------------------------------------------------------------------------
  // Building the transaction
  // ---------------------------------------------------------------------------

  const SchemaKey := "$schema"
  const NotificationKey := "notification"
  const PatronKey := "patron"
  const OrganisationKey := "organisation"
  const TotalAmountKey := "total_amount"

  /** The resource a reference points to, and the pid it carries. */
  datatype RefSource = RefSource(resource: string, pid: string)

  /** The three references, each taken from the notification's own pids. */
  function RefSources(n: PatronNotification): seq<RefSource>
  {
    [RefSource(NotificationKey, n.pid), RefSource(PatronKey, n.patronPid),
     RefSource(OrganisationKey, n.organisationPid)]
  }

  /** The fields `build_patron_transaction_ref` writes: the schema URL, a
      reference to the notification, the patron and the organisation, and
      the overdue fee (in cents). */
  function RefFields(n: PatronNotification, config: AppConfig, amount: int): (fields: Record)
    ensures fields.Keys == {SchemaKey, NotificationKey, PatronKey, OrganisationKey, TotalAmountKey}
    ensures fields[NotificationKey] == RefTo(config.baseUrl, NotificationKey, n.pid)
    ensures fields[PatronKey] == RefTo(config.baseUrl, PatronKey, n.patronPid)
    ensures fields[OrganisationKey] == RefTo(config.baseUrl, OrganisationKey, n.organisationPid)
    ensures fields[TotalAmountKey] == Int(amount)
  {
    map[SchemaKey := Str(config.baseUrl + config.schemaEndpoint + config.transactionSchema),
        NotificationKey := RefTo(config.baseUrl, NotificationKey, n.pid),
        PatronKey := RefTo(config.baseUrl, PatronKey, n.patronPid),
        OrganisationKey := RefTo(config.baseUrl, OrganisationKey, n.organisationPid),
        TotalAmountKey := Int(amount)]
  }

  /** `build_patron_transaction_ref`: writes the schema, then one reference
      per resource, then the fee into `data`. */
  method BuildPatronTransactionRef(n: PatronNotification, data: Record, config: AppConfig, amount: int)
    returns (r: Record)
    ensures r == data + RefFields(n, config, amount)
  {
    r := data;
    r := r[SchemaKey := Str(config.baseUrl + config.schemaEndpoint + config.transactionSchema)];
    ghost var start := r;
    var sources := RefSources(n);
    var i := 0;
    while i < |sources|
      invariant 0 <= i <= |sources|
      invariant r == WithRefs(start, config.baseUrl, sources, i)
    {
      r := r[sources[i].resource := RefTo(config.baseUrl, sources[i].resource, sources[i].pid)];
      i := i + 1;
    }
    r := r[TotalAmountKey := Int(amount)];
    RefFieldsAsUpdates(n, data, config, amount);
  }

  /** `r` after the first `i` references were written into it. */
  function WithRefs(r: Record, baseUrl: string, sources: seq<RefSource>, i: nat): Record
    requires i <= |sources|
  {
    if i == 0 then r
    else WithRefs(r, baseUrl, sources, i - 1)[sources[i - 1].resource := RefTo(baseUrl, sources[i - 1].resource, sources[i - 1].pid)]
  }

  /** Writing the fields one after the other gives `data + RefFields`. */
  lemma RefFieldsAsUpdates(n: PatronNotification, data: Record, config: AppConfig, amount: int)
    ensures WithRefs(data[SchemaKey := Str(config.baseUrl + config.schemaEndpoint + config.transactionSchema)],
                     config.baseUrl, RefSources(n), 3)[TotalAmountKey := Int(amount)]
            == data + RefFields(n, config, amount)
  {
    var sources := RefSources(n);
    var start := data[SchemaKey := Str(config.baseUrl + config.schemaEndpoint + config.transactionSchema)];
    var w1 := start[NotificationKey := RefTo(config.baseUrl, NotificationKey, n.pid)];
    var w2 := w1[PatronKey := RefTo(config.baseUrl, PatronKey, n.patronPid)];
    var w3 := w2[OrganisationKey := RefTo(config.baseUrl, OrganisationKey, n.organisationPid)];
    assert WithRefs(start, config.baseUrl, sources, 1) == w1;
    assert WithRefs(start, config.baseUrl, sources, 2) == w2;
    assert WithRefs(start, config.baseUrl, sources, 3) == w3;
  }

  /** The transaction record created from an overdue notification. */
  function OverdueTransaction(n: PatronNotification, config: AppConfig, now: string, amount: int, pid: string): (t: Record)
    ensures Get(t, "type") == Str(OverdueType)
    ensures Get(t, "status") == Str(OpenStatus)
    ensures Get(t, "creation_date") == Str(now)
    ensures Get(t, "pid") == Str(pid)
    ensures forall k :: k in RefFields(n, config, amount) ==> k in t && t[k] == RefFields(n, config, amount)[k]
  {
    RefFields(n, config, amount)["creation_date" := Str(now)]["type" := Str(OverdueType)]
      ["status" := Str(OpenStatus)]["pid" := Str(pid)]
  }

  // ---------------------------------------------------------------------------
  // Accessors
  // ---------------------------------------------------------------------------

  /** `notification_pid`: the pid of the referenced notification, or None
      when the transaction has no notification. */
  function NotificationPid(t: Record): (r: Option<string>)
    ensures !Truthy(Get(t, NotificationKey)) ==> r.None?
    ensures r.Some? ==> '/' !in r.value
  {
    if Truthy(Get(t, NotificationKey)) then
      match t[NotificationKey]
      case Obj(ref) =>
        if "$ref" in ref && ref["$ref"].Str? then Some(LastSegment(ref["$ref"].s)) else None
      case _ => None
    else None
  }

  /** The notification a transaction points to, looked up by pid; None when
      the transaction has no (truthy) notification pid. */
  function LinkedNotification(t: Record, notifications: map<string, PatronNotification>): (r: Option<PatronNotification>)
    ensures r.Some? ==> NotificationPid(t).Some? && NotificationPid(t).value != ""
    ensures r.Some? ==> NotificationPid(t).value in notifications && r.value == notifications[NotificationPid(t).value]
  {
    var p := NotificationPid(t);
    if p.Some? && p.value != "" && p.value in notifications then Some(notifications[p.value]) else None
  }

  /** `loan_pid`: the loan of the transaction's notification. */
  function LoanPid(t: Record, notifications: map<string, PatronNotification>): (r: Option<string>)
    ensures NotificationPid(t).None? ==> r.None?
  {
    var n := LinkedNotification(t, notifications);
    if n.Some? then n.value.loanPid else None
  }

  /** `document_pid`: the document of the transaction's notification. */
  function DocumentPid(t: Record, notifications: map<string, PatronNotification>): (r: Option<string>)
    ensures NotificationPid(t).None? ==> r.None?
  {
    var n := LinkedNotification(t, notifications);
    if n.Some? then n.value.documentPid else None
  }

  /** The last segment of an API URL is the pid it was built from. */
  lemma PidOfApiUrl(baseUrl: string, resource: string, pid: string)
    requires '/' !in pid
    ensures LastSegment(ApiUrl(baseUrl, resource, pid)) == pid
  {
    ApiUrlShape(baseUrl, resource, pid);
    LastSegmentOfApiUrl(baseUrl + "/api/" + resource + "s", pid);
  }

  /** The notification pid of a created transaction is read from its
      notification reference. */
  lemma NotificationPidOfOverdue(n: PatronNotification, config: AppConfig, now: string, amount: int, pid: string)
    ensures NotificationPid(OverdueTransaction(n, config, now, amount, pid)) ==
      Some(LastSegment(ApiUrl(config.baseUrl, NotificationKey, n.pid)))
  {
    var t := OverdueTransaction(n, config, now, amount, pid);
    var ref := map["$ref" := Str(ApiUrl(config.baseUrl, NotificationKey, n.pid))];
    assert NotificationKey in RefFields(n, config, amount);
    assert Get(t, NotificationKey) == Obj(ref);
    assert "$ref" in ref && ref["$ref"].Str?;
    assert Truthy(Obj(ref));
  }

  /** A transaction created from a notification resolves back to that
      notification, so its loan and document are the notification's. */
  lemma CreatedTransactionResolvesNotification(
    n: PatronNotification, config: AppConfig, now: string, amount: int, pid: string,
    notifications: map<string, PatronNotification>)
    requires '/' !in n.pid && n.pid != ""
    requires n.pid in notifications && notifications[n.pid] == n
    ensures NotificationPid(OverdueTransaction(n, config, now, amount, pid)) == Some(n.pid)
    ensures LoanPid(OverdueTransaction(n, config, now, amount, pid), notifications) == n.loanPid
    ensures DocumentPid(OverdueTransaction(n, config, now, amount, pid), notifications) == n.documentPid
  {
    NotificationPidOfOverdue(n, config, now, amount, pid);
    PidOfApiUrl(config.baseUrl, NotificationKey, n.pid);
  }

  // ---------------------------------------------------------------------------
  // Links and the deletion guard
  // ---------------------------------------------------------------------------

  /** `get_number_of_patron_transaction_events`. */
  function EventCount(events: seq<TransactionEvent>, pid: string): (n: nat)
    ensures n <= |events|
    ensures n > 0 <==> exists e :: e in events && e.parent == pid
  {
    if events == [] then 0
    else
      assert forall e :: e in events <==> e == events[0] || e in events[1..];
      (if events[0].parent == pid then 1 else 0) + EventCount(events[1..], pid)
  }

  /** A new event adds one to its parent's count and nothing to the others'. */
  lemma {:induction false} EventCountAppend(events: seq<TransactionEvent>, e: TransactionEvent, pid: string)
    ensures EventCount(events + [e], pid) == EventCount(events, pid) + (if e.parent == pid then 1 else 0)
  {
    if events != [] {
      assert (events + [e])[1..] == events[1..] + [e];
      EventCountAppend(events[1..], e, pid);
    } else {
      assert events + [e] == [e];
    }
  }

  const EventsKey := "events"
  const LinksKey := "links"

  /** `get_links_to_me`: the event count, kept only when positive. */
  function LinksToMe(events: seq<TransactionEvent>, pid: string): (links: map<string, nat>)
    ensures links.Keys <= {EventsKey}
    ensures EventsKey in links <==> EventCount(events, pid) > 0
    ensures EventsKey in links ==> links[EventsKey] == EventCount(events, pid)
  {
    var count := EventCount(events, pid);
    if count > 0 then map[EventsKey := count] else map[]
  }

  /** `reasons_not_to_delete`: any event blocks the deletion. */
  function ReasonsNotToDelete(events: seq<TransactionEvent>, pid: string): (reasons: map<string, map<string, nat>>)
    ensures reasons == map[] <==> forall e | e in events :: e.parent != pid
    ensures reasons != map[] ==> reasons == map[LinksKey := map[EventsKey := EventCount(events, pid)]]
  {
    var links := LinksToMe(events, pid);
    if links != map[] then
      assert links == map[EventsKey := EventCount(events, pid)];
      assert LinksKey in map[LinksKey := links];
      map[LinksKey := links]
    else
      assert EventsKey !in links;
      map[]
  }

  // ---------------------------------------------------------------------------
  // The store
  // ---------------------------------------------------------------------------

  /** The stored transactions and the append-only ledger of their events. */
  class TransactionStore {
    var transactions: seq<Record>
    var events: seq<TransactionEvent>

    constructor ()
      ensures transactions == [] && events == []
    {
      transactions := [];
      events := [];
    }

    /** `PatronTransaction.create`: stores the record under the pid the
        minter assigns, then appends its first event. */
    method Create(data: Record, pid: string) returns (record: Record)
      modifies this
      ensures record == data["pid" := Str(pid)]
      ensures transactions == old(transactions) + [record]
      ensures events == old(events) + [TransactionEvent(pid)]
      ensures EventCount(events, pid) == EventCount(old(events), pid) + 1
      ensures ReasonsNotToDelete(events, pid) != map[]
    {
      record := data["pid" := Str(pid)];
      transactions := transactions + [record];
      EventCountAppend(events, TransactionEvent(pid), pid);
      events := events + [TransactionEvent(pid)];
      assert TransactionEvent(pid) in events;
    }

    /** `create_patron_transaction_from_notification`: only an overdue
        notification yields a transaction (open, of type overdue); any other
        one yields the empty record and creates nothing. */
    method CreateFromNotification(n: PatronNotification, config: AppConfig, now: string, amount: int, pid: string)
      returns (record: Record)
      modifies this
      ensures n.notificationType != OverdueType ==>
        record == map[] && transactions == old(transactions) && events == old(events)
      ensures n.notificationType == OverdueType ==>
        && record == OverdueTransaction(n, config, now, amount, pid)
        && transactions == old(transactions) + [record]
        && events == old(events) + [TransactionEvent(pid)]
    {
      record := map[];
      if n.notificationType == OverdueType {
        var data := BuildPatronTransactionRef(n, map[], config, amount);
        assert data == RefFields(n, config, amount);
        data := data["creation_date" := Str(now)];
        data := data["type" := Str(OverdueType)];
        data := data["status" := Str(OpenStatus)];
        record := Create(data, pid);
      }
    }
  }
}
