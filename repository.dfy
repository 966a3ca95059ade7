/**
 * The Postgres repository of internal/repository/dbrepo/host_postgresql.go
 * as in-memory tables. Each query is split in two: what the database
 * answers (a filter, a left join and an order over the tables, written as
 * functions of the tables) and what the Go code does with the rows (a scan
 * loop, written as a method). A statement that fails in transit is modelled
 * by the set `failing` of operations that currently return an error.
 */
module Repository {
  import opened Text
  import opened Models
  import opened Sorting

  /** The statements a transient fault can hit. */
  datatype Op =
    | InsertHostOp | SelectServiceIdsOp
    | InsertHostServiceOp(n: nat)  // the n-th host_services insert of an InsertHost call, counted from 0
    | SelectHostOp | SelectHostServicesOp
    | SelectAllHostsOp | SelectServicesOfHostOp
    | CountsOp | UpdateStatusOp | ByStatusOp | SelectHostServiceOp
    | UpdateHostServiceOp | ToMonitorOp | InsertEventOp | AllEventsOp

  // ---------------------------------------------------------------------
  // Joins and the scan of one joined row
  // ---------------------------------------------------------------------

  /** A host_services row with what its left joins found (None is NULL). */
  datatype Joined = Joined(row: HostServiceRow, service: Option<Service>, host: Option<HostRow>)

  /** The first row with the given id; ids are unique in a valid database. */
  function FindHost(hosts: seq<HostRow>, id: int): (r: Option<HostRow>)
    ensures r.Some? ==> r.value in hosts && r.value.id == id
    ensures r.None? ==> forall k :: 0 <= k < |hosts| ==> hosts[k].id != id
  {
    if hosts == [] then None
    else if hosts[0].id == id then Some(hosts[0])
    else FindHost(hosts[1..], id)
  }

  function FindService(services: seq<Service>, id: int): (r: Option<Service>)
    ensures r.Some? ==> r.value in services && r.value.id == id
    ensures r.None? ==> forall k :: 0 <= k < |services| ==> services[k].id != id
  {
    if services == [] then None
    else if services[0].id == id then Some(services[0])
    else FindService(services[1..], id)
  }

  /** The columns of the host_services table inside a scanned record. */
  function RowOf(hs: HostService): HostServiceRow
  {
    HostServiceRow(hs.id, hs.hostId, hs.serviceId, hs.active, hs.scheduleNumber, hs.scheduleUnit,
                   hs.lastCheck, hs.status, hs.createdAt, hs.updatedAt, hs.lastMessage)
  }

  function WithJoin(r: HostServiceRow, s: Service, hostName: string): (hs: HostService)
    ensures RowOf(hs) == r && hs.service == s && hs.hostName == hostName
  {
    HostService(r.id, r.hostId, r.serviceId, r.active, r.scheduleNumber, r.scheduleUnit,
                r.lastCheck, r.status, r.createdAt, r.updatedAt, s, hostName, r.lastMessage)
  }

  /** Scan for queries selecting all of `s.*`, `h.host_name` and `hs.last_message`. */
  function ScanFull(j: Joined): (r: Option<HostService>)
    ensures r.Some? <==> j.service.Some? && j.host.Some?
    ensures r.Some? ==> RowOf(r.value) == j.row && r.value.hostName == j.host.value.hostName
  {
    if j.service.Some? && j.host.Some? then Some(WithJoin(j.row, j.service.value, j.host.value.hostName))
    else None
  }

  /** Scan for the host-detail query, which selects `s.*` but not the host name. */
  function ScanWithService(j: Joined): (r: Option<HostService>)
    ensures r.Some? <==> j.service.Some?
    ensures r.Some? ==> RowOf(r.value) == j.row && r.value.hostName == ""
  {
    if j.service.Some? then Some(WithJoin(j.row, j.service.value, "")) else None
  }

  /** Scan for the by-status query: host name, service name and icon only. */
  function ScanForStatus(j: Joined): (r: Option<HostService>)
    ensures r.Some? <==> j.service.Some? && j.host.Some?
    ensures r.Some? ==> RowOf(r.value) == j.row
  {
    if j.service.Some? && j.host.Some? then
      var s := Service(0, j.service.value.serviceName, 0, j.service.value.icon, ZeroTime, ZeroTime);
      Some(WithJoin(j.row, s, j.host.value.hostName))
    else None
  }

  /**
   * The records a `for rows.Next()` loop collects from position `i` on:
   * the scans of the rows before the first row that fails to scan.
   */
  function ScanFrom(rows: seq<Joined>, i: nat, scan: Joined -> Option<HostService>): (r: seq<HostService>)
    requires i <= |rows|
    ensures |r| <= |rows| - i
    ensures forall k :: 0 <= k < |r| ==> scan(rows[i + k]) == Some(r[k])
    ensures |r| < |rows| - i ==> scan(rows[i + |r|]).None?
    decreases |rows| - i
  {
    if i == |rows| || scan(rows[i]).None? then []
    else [scan(rows[i]).value] + ScanFrom(rows, i + 1, scan)
  }

  function ScanPrefix(rows: seq<Joined>, scan: Joined -> Option<HostService>): (r: seq<HostService>)
    ensures |r| <= |rows|
    ensures forall k :: 0 <= k < |r| ==> scan(rows[k]) == Some(r[k])
    ensures |r| < |rows| ==> scan(rows[|r|]).None?
  {
    ScanFrom(rows, 0, scan)
  }

  /** A `for rows.Next()` loop: scans rows until one fails; `complete` when none did. */
  method ScanRows(rows: seq<Joined>, scan: Joined -> Option<HostService>) returns (scanned: seq<HostService>, complete: bool)
    ensures scanned == ScanPrefix(rows, scan)
    ensures complete <==> |scanned| == |rows|
  {
    scanned := [];
    var i := 0;
    while i < |rows|
      invariant 0 <= i <= |rows|
      invariant ScanPrefix(rows, scan) == scanned + ScanFrom(rows, i, scan) && |scanned| == i
    {
      var hs := scan(rows[i]);
      if hs.None? {
        return scanned, false;
      }
      scanned := scanned + [hs.value];
      i := i + 1;
    }
    complete := true;
  }

  /** An error from a scan loop: none when every row scanned. */
  function ScanError(scanned: seq<HostService>, rows: seq<Joined>): Option<DbError>
  {
    if |scanned| == |rows| then None else Some(ErrNullColumn)
  }

  // ---------------------------------------------------------------------
  // Orders used by the queries' ORDER BY clauses (NULLs sort last)
  // ---------------------------------------------------------------------

  predicate OptStrLe(a: Option<string>, b: Option<string>)
  {
    match (a, b)
    case (Some(x), Some(y)) => StrLessEq(x, y)
    case (Some(_), None) => true
    case (None, Some(_)) => false
    case (None, None) => true
  }

  function ServiceNameKey(j: Joined): Option<string>
  {
    if j.service.Some? then Some(j.service.value.serviceName) else None
  }

  function HostNameKey(j: Joined): Option<string>
  {
    if j.host.Some? then Some(j.host.value.hostName) else None
  }

  /** `order by s.service_name` */
  predicate ServiceNameLe(a: Joined, b: Joined)
  {
    OptStrLe(ServiceNameKey(a), ServiceNameKey(b))
  }

  /** `order by host_name, service_name` */
  predicate HostThenServiceLe(a: Joined, b: Joined)
  {
    || (OptStrLe(HostNameKey(a), HostNameKey(b)) && HostNameKey(a) != HostNameKey(b))
    || (HostNameKey(a) == HostNameKey(b) && ServiceNameLe(a, b))
  }

  /** `order by host_name` on the hosts table */
  predicate HostRowNameLe(a: HostRow, b: HostRow)
  {
    StrLessEq(a.hostName, b.hostName)
  }

  /** `order by created_at` on the events table */
  predicate CreatedAtLe(a: Event, b: Event)
  {
    a.createdAt <= b.createdAt
  }

  lemma OptStrLeTotalOrder()
    ensures forall a, b :: OptStrLe(a, b) || OptStrLe(b, a)
    ensures forall a, b, c :: OptStrLe(a, b) && OptStrLe(b, c) ==> OptStrLe(a, c)
    ensures forall a, b :: OptStrLe(a, b) && OptStrLe(b, a) ==> a == b
  {
    StrLessEqTotalOrder();
  }

  lemma OrdersAreTotalPreorders()
    ensures TotalPreorder(ServiceNameLe)
    ensures TotalPreorder(HostThenServiceLe)
    ensures TotalPreorder(HostRowNameLe)
    ensures TotalPreorder(CreatedAtLe)
  {
    OptStrLeTotalOrder();
    StrLessEqTotalOrder();
  }

  // ---------------------------------------------------------------------
  // What the database answers
  // ---------------------------------------------------------------------

  predicate HostIsActive(hosts: seq<HostRow>, id: int)
  {
    var h := FindHost(hosts, id);
    h.Some? && h.value.active == 1
  }

  /** `where h.active = 1 and hs.active = 1` */
  function Monitored(hosts: seq<HostRow>): HostServiceRow -> bool
  {
    (r: HostServiceRow) => r.active == 1 && HostIsActive(hosts, r.hostId)
  }

  /** `where status = $1 and hs.active = 1` */
  function ActiveWithStatus(status: string): HostServiceRow -> bool
  {
    (r: HostServiceRow) => r.status == status && r.active == 1
  }

  /** `where host_id = $1` */
  function OfHost(hostId: int): HostServiceRow -> bool
  {
    (r: HostServiceRow) => r.hostId == hostId
  }

  /** `where hs.id = $1` */
  function WithId(id: int): HostServiceRow -> bool
  {
    (r: HostServiceRow) => r.id == id
  }

  function JoinAll(rows: seq<HostServiceRow>, hosts: seq<HostRow>, services: seq<Service>): (r: seq<Joined>)
    ensures |r| == |rows|
    ensures forall k :: 0 <= k < |r| ==> r[k].row == rows[k]
  {
    seq(|rows|, k requires 0 <= k < |rows| =>
      Joined(rows[k], FindService(services, rows[k].serviceId), FindHost(hosts, rows[k].hostId)))
  }

  /** Rows of GetServicesToMonitor: `where h.active = 1 and hs.active = 1`, no order. */
  function ToMonitorRows(hosts: seq<HostRow>, services: seq<Service>, hostServices: seq<HostServiceRow>): seq<Joined>
  {
    JoinAll(Filter(hostServices, Monitored(hosts)), hosts, services)
  }

  /** Rows of GetServicesByStatus: `where status = $1 and hs.active = 1 order by host_name, service_name`. */
  function ByStatusRows(hosts: seq<HostRow>, services: seq<Service>, hostServices: seq<HostServiceRow>, status: string): seq<Joined>
  {
    SortBy(JoinAll(Filter(hostServices, ActiveWithStatus(status)), hosts, services), HostThenServiceLe)
  }

  /** Rows of the services query in GetHostByID: `where host_id = $1 order by s.service_name`. */
  function ServicesOfHostRows(services: seq<Service>, hostServices: seq<HostServiceRow>, hostId: int): seq<Joined>
  {
    SortBy(ServicesOfHostUnordered(services, hostServices, hostId), ServiceNameLe)
  }

  /** The same query without its order, as AllHosts issues it. */
  function ServicesOfHostUnordered(services: seq<Service>, hostServices: seq<HostServiceRow>, hostId: int): (r: seq<Joined>)
    ensures forall k :: 0 <= k < |r| ==> r[k].row.hostId == hostId && r[k].host.None?
  {
    var rows := Filter(hostServices, OfHost(hostId));
    seq(|rows|, k requires 0 <= k < |rows| => Joined(rows[k], FindService(services, rows[k].serviceId), None))
  }

  /** Number of active host services with the given status. */
  function CountActive(rows: seq<HostServiceRow>, status: string): (n: nat)
    ensures n <= |rows|
  {
    if rows == [] then 0
    else (if rows[0].active == 1 && rows[0].status == status then 1 else 0) + CountActive(rows[1..], status)
  }

  // ---------------------------------------------------------------------
  // What each repository call returns, as a function of the tables
  // ---------------------------------------------------------------------

  /** GetHostServiceByID: a single-row query; columns before a NULL one are already assigned. */
  function HostServiceByID(hosts: seq<HostRow>, services: seq<Service>, hostServices: seq<HostServiceRow>,
                           failing: set<Op>, id: int): (HostService, Option<DbError>)
  {
    if SelectHostServiceOp in failing then (ZeroHostService, Some(ErrTransient))
    else
      var rows := Filter(hostServices, WithId(id));
      if rows == [] then (ZeroHostService, Some(ErrNoRows))
      else
        var r := rows[0];
        var s := FindService(services, r.serviceId);
        var h := FindHost(hosts, r.hostId);
        if s.None? then (WithJoin(r, ZeroService, "").(lastMessage := ""), Some(ErrNullColumn))
        else if h.None? then (WithJoin(r, s.value, "").(lastMessage := ""), Some(ErrNullColumn))
        else (WithJoin(r, s.value, h.value.hostName), None)
  }

  /** GetHostByID: the host row, then its services ordered by service name. */
  function HostByID(hosts: seq<HostRow>, services: seq<Service>, hostServices: seq<HostServiceRow>,
                    failing: set<Op>, id: int): (Host, Option<DbError>)
  {
    if SelectHostOp in failing then (ZeroHost, Some(ErrTransient))
    else
      var h := FindHost(hosts, id);
      if h.None? then (ZeroHost, Some(ErrNoRows))
      else if SelectHostServicesOp in failing then (HostOfRow(h.value, []), Some(ErrTransient))
      else
        var rows := ServicesOfHostRows(services, hostServices, id);
        var scanned := ScanPrefix(rows, ScanWithService);
        if |scanned| < |rows| then (HostOfRow(h.value, []), Some(ErrNullColumn))
        else (HostOfRow(h.value, scanned), None)
  }

  /**
   * The host services AllHosts attaches to one host: the loop closes the
   * row set after its first row, so it keeps at most that row.
   */
  function FirstServiceOfHost(services: seq<Service>, hostServices: seq<HostServiceRow>, hostId: int)
    : (r: (seq<HostService>, Option<DbError>))
    ensures |r.0| <= 1
    ensures var own := Filter(hostServices, OfHost(hostId));
      && (own == [] ==> r == ([], None))
      && (own != [] && FindService(services, own[0].serviceId).None? ==> r == ([], Some(ErrNullColumn)))
      && (own != [] && FindService(services, own[0].serviceId).Some? ==>
            && r.1.None? && |r.0| == 1 && RowOf(r.0[0]) == own[0]
            && r.0[0].service == FindService(services, own[0].serviceId).value)
  {
    var rows := ServicesOfHostUnordered(services, hostServices, hostId);
    if rows == [] then ([], None)
    else
      var hs := ScanWithService(rows[0]);
      if hs.None? then ([], Some(ErrNullColumn)) else ([hs.value], None)
  }

  /** AllHosts row by row, from position `i` of the ordered hosts. */
  function AllHostsFrom(sorted: seq<HostRow>, services: seq<Service>, hostServices: seq<HostServiceRow>,
                        failing: set<Op>, i: nat): (r: (seq<Host>, Option<DbError>))
    requires i <= |sorted|
    ensures r.1.Some? ==> r.0 == []
    decreases |sorted| - i
  {
    if i == |sorted| then ([], None)
    else if SelectServicesOfHostOp in failing then ([], Some(ErrTransient))
    else
      var (svc, err) := FirstServiceOfHost(services, hostServices, sorted[i].id);
      if err.Some? then ([], err)
      else
        var (more, err') := AllHostsFrom(sorted, services, hostServices, failing, i + 1);
        if err'.Some? then ([], err') else ([HostOfRow(sorted[i], svc)] + more, None)
  }

  /** The hosts already collected in front of the rest of the loop's outcome. */
  function Prepend(acc: seq<Host>, rest: (seq<Host>, Option<DbError>)): (seq<Host>, Option<DbError>)
  {
    if rest.1.Some? then ([], rest.1) else (acc + rest.0, None)
  }

  /** One round of the AllHosts loop that neither fails nor stops. */
  lemma AllHostsFromStep(sorted: seq<HostRow>, services: seq<Service>, hostServices: seq<HostServiceRow>,
                         failing: set<Op>, i: nat, acc: seq<Host>)
    requires i < |sorted| && SelectServicesOfHostOp !in failing
    requires FirstServiceOfHost(services, hostServices, sorted[i].id).1.None?
    ensures Prepend(acc, AllHostsFrom(sorted, services, hostServices, failing, i))
         == Prepend(acc + [HostOfRow(sorted[i], FirstServiceOfHost(services, hostServices, sorted[i].id).0)],
                    AllHostsFrom(sorted, services, hostServices, failing, i + 1))
  {
    var rest := AllHostsFrom(sorted, services, hostServices, failing, i + 1);
    var h := HostOfRow(sorted[i], FirstServiceOfHost(services, hostServices, sorted[i].id).0);
    assert acc + ([h] + rest.0) == acc + [h] + rest.0;
  }

  /** AllHosts: hosts ordered by name, each with at most one host service. */
  function AllHostsResult(hosts: seq<HostRow>, services: seq<Service>, hostServices: seq<HostServiceRow>,
                          failing: set<Op>): (seq<Host>, Option<DbError>)
  {
    if SelectAllHostsOp in failing then ([], Some(ErrTransient))
    else AllHostsFrom(SortBy(hosts, HostRowNameLe), services, hostServices, failing, 0)
  }

  /** GetAllServiceStatusCounts: (pending, healthy, warning, problem), four zeros on error. */
  function StatusCounts(hostServices: seq<HostServiceRow>, failing: set<Op>): (int, int, int, int, Option<DbError>)
  {
    if CountsOp in failing then (0, 0, 0, 0, Some(ErrTransient))
    else (CountActive(hostServices, Pending), CountActive(hostServices, Healthy),
          CountActive(hostServices, Warning), CountActive(hostServices, Problem), None)
  }

  /** GetServicesToMonitor: the records scanned before any NULL join, and the error if there was one. */
  function ServicesToMonitor(hosts: seq<HostRow>, services: seq<Service>, hostServices: seq<HostServiceRow>,
                             failing: set<Op>): (seq<HostService>, Option<DbError>)
  {
    if ToMonitorOp in failing then ([], Some(ErrTransient))
    else
      var rows := ToMonitorRows(hosts, services, hostServices);
      var scanned := ScanPrefix(rows, ScanFull);
      (scanned, ScanError(scanned, rows))
  }

  /**
   * What a query loop ends with, or the runtime panic of calling Next or
   * Close on the nil `*sql.Rows` that a failed QueryContext leaves behind.
   */
  datatype Answer<T> = Answered(rows: seq<T>, err: Option<DbError>) | Panicked

  /**
   * GetServicesToMonitor as the code stands: the QueryContext error is only
   * logged and the loop then runs on nil rows. ServicesToMonitor is the
   * corrected query, which returns the error instead.
   */
  function ServicesToMonitorAsWritten(hosts: seq<HostRow>, services: seq<Service>, hostServices: seq<HostServiceRow>,
                                      failing: set<Op>): Answer<HostService>
  {
    if ToMonitorOp in failing then Panicked
    else
      var rows := ToMonitorRows(hosts, services, hostServices);
      var scanned := ScanPrefix(rows, ScanFull);
      Answered(scanned, ScanError(scanned, rows))
  }

  /** GetAllEvents as the code stands: the same missing return after the query error. */
  function AllEventsAsWritten(events: seq<Event>, failing: set<Op>): Answer<Event>
  {
    if AllEventsOp in failing then Panicked else Answered(SortBy(events, CreatedAtLe), None)
  }

  /** GetServicesByStatus: on a scan error the slice is dropped (`return nil, err`). */
  function ServicesByStatus(hosts: seq<HostRow>, services: seq<Service>, hostServices: seq<HostServiceRow>,
                            failing: set<Op>, status: string): (seq<HostService>, Option<DbError>)
  {
    if ByStatusOp in failing then ([], Some(ErrTransient))
    else
      var rows := ByStatusRows(hosts, services, hostServices, status);
      var scanned := ScanPrefix(rows, ScanForStatus);
      if |scanned| < |rows| then ([], Some(ErrNullColumn)) else (scanned, None)
  }

  /** The position of the first of n inserts that fails, or n when none does. */
  function FirstFailingInsert(failing: set<Op>, n: nat): (k: nat)
    ensures k <= n
    ensures forall j: nat :: j < k ==> InsertHostServiceOp(j) !in failing
    ensures k < n ==> InsertHostServiceOp(k) in failing
  {
    if n == 0 then 0
    else
      var k := FirstFailingInsert(failing, n - 1);
      if k < n - 1 || InsertHostServiceOp(n - 1) in failing then k else n
  }

  /** The rows InsertHost adds for a new host: one per service, inactive, every 3 minutes, pending. */
  function DefaultHostServices(hostId: int, firstId: int, serviceIds: seq<int>, now: int): (r: seq<HostServiceRow>)
    ensures |r| == |serviceIds|
    ensures forall k :: 0 <= k < |r| ==>
      && r[k].id == firstId + k && r[k].hostId == hostId && r[k].serviceId == serviceIds[k]
      && r[k].active == 0 && r[k].scheduleNumber == 3 && r[k].scheduleUnit == "m"
      && r[k].status == Pending && r[k].createdAt == now && r[k].updatedAt == now
  {
    seq(|serviceIds|, k requires 0 <= k < |serviceIds| =>
      HostServiceRow(firstId + k, hostId, serviceIds[k], 0, 3, "m", ZeroTime, Pending, now, now, ""))
  }

  /** What InsertEvent stores for a record, given the next serial id and the clock. */
  function Stored(e: Event, id: int, now: int): (r: Event)
    ensures r.id == id && r.createdAt == now && r.updatedAt == now
    ensures r.(id := e.id, createdAt := e.createdAt, updatedAt := e.updatedAt) == e
  {
    e.(id := id, createdAt := now, updatedAt := now)
  }

  /** One more service id adds one more default row, with the next id. */
  lemma DefaultHostServicesSnoc(hostId: int, firstId: int, ids: seq<int>, i: nat, now: int)
    requires i < |ids|
    ensures DefaultHostServices(hostId, firstId, ids[..i + 1], now)
         == DefaultHostServices(hostId, firstId, ids[..i], now)
            + [HostServiceRow(firstId + i, hostId, ids[i], 0, 3, "m", ZeroTime, Pending, now, now, "")]
  {
  }

  /** `update host_services set active = $1 where host_id = $2 and service_id = $3` */
  function WithActive(rows: seq<HostServiceRow>, hostId: int, serviceId: int, active: int): (r: seq<HostServiceRow>)
    ensures |r| == |rows|
  {
    seq(|rows|, k requires 0 <= k < |rows| =>
      if rows[k].hostId == hostId && rows[k].serviceId == serviceId then rows[k].(active := active) else rows[k])
  }

  /** The columns UpdateHostService writes: all but id and created_at. */
  function Overwrite(r: HostServiceRow, hs: HostService): HostServiceRow
  {
    r.(hostId := hs.hostId, serviceId := hs.serviceId, active := hs.active,
       scheduleNumber := hs.scheduleNumber, scheduleUnit := hs.scheduleUnit,
       lastCheck := hs.lastCheck, status := hs.status, updatedAt := hs.updatedAt,
       lastMessage := hs.lastMessage)
  }

  /** `update host_services set ... where id = $10` */
  function WithHostService(rows: seq<HostServiceRow>, hs: HostService): (r: seq<HostServiceRow>)
    ensures |r| == |rows|
  {
    seq(|rows|, k requires 0 <= k < |rows| => if rows[k].id == hs.id then Overwrite(rows[k], hs) else rows[k])
  }

  function ServiceIds(services: seq<Service>): (r: seq<int>)
    ensures |r| == |services|
  {
    seq(|services|, k requires 0 <= k < |services| => services[k].id)
  }

  // ---------------------------------------------------------------------
  // The repository object
  // ---------------------------------------------------------------------

  /** No two services share an id. */
  ghost predicate UniqueServiceIds(services: seq<Service>)
  {
    forall i, j :: 0 <= i < j < |services| ==> services[i].id != services[j].id
  }

  class Db {
    var hosts: seq<HostRow>
    var services: seq<Service>
    var hostServices: seq<HostServiceRow>
    var events: seq<Event>
    /** The next value of each table's serial id column. */
    var nextHostId: int
    var nextHostServiceId: int
    var nextEventId: int
    /** Statements that currently fail in transit. */
    var failing: set<Op>

    /** Serial ids are positive, unique, and below the next value; services.id is the services table's primary key. */
    ghost predicate Valid()
      reads this
    {
      && 0 < nextHostId && 0 < nextHostServiceId && 0 < nextEventId
      && UniqueServiceIds(services)
      && (forall i :: 0 <= i < |hosts| ==> 0 < hosts[i].id < nextHostId)
      && (forall i, j :: 0 <= i < j < |hosts| ==> hosts[i].id != hosts[j].id)
      && (forall i :: 0 <= i < |hostServices| ==> 0 < hostServices[i].id < nextHostServiceId)
      && (forall i, j :: 0 <= i < j < |hostServices| ==> hostServices[i].id != hostServices[j].id)
      && (forall i :: 0 <= i < |events| ==> 0 < events[i].id < nextEventId)
      && (forall i, j :: 0 <= i < j < |events| ==> events[i].id != events[j].id)
    }

    constructor (services: seq<Service>, failing: set<Op>)
      requires UniqueServiceIds(services)
      ensures Valid()
      ensures this.services == services && this.failing == failing
      ensures hosts == [] && hostServices == [] && events == []
    {
      this.services := services;
      this.failing := failing;
      hosts := [];
      hostServices := [];
      events := [];
      nextHostId := 1;
      nextHostServiceId := 1;
      nextEventId := 1;
    }

    /** InsertHost: the host row, then one default host_services row per service. */
    method InsertHost(h: Host, now: int) returns (newId: int, err: Option<DbError>)
      requires Valid()
      modifies this
      ensures Valid()
      ensures services == old(services) && events == old(events) && failing == old(failing)
      ensures nextEventId == old(nextEventId)
      ensures InsertHostOp in failing ==>
        && newId == 0 && err == Some(ErrTransient) && hosts == old(hosts) && hostServices == old(hostServices)
        && nextHostId == old(nextHostId) && nextHostServiceId == old(nextHostServiceId)
      ensures InsertHostOp !in failing ==>
        && nextHostId == old(nextHostId) + 1
        && (forall k :: 0 <= k < |old(hosts)| ==> old(hosts)[k].id != old(nextHostId))
        && hosts == old(hosts) + [HostRow(old(nextHostId), h.hostName, h.canonicalName, h.url, h.ip, h.ipv6,
                                          h.location, h.os, h.active, now, now)]
      ensures InsertHostOp !in failing && SelectServiceIdsOp in failing ==>
        && newId == 0 && err == Some(ErrTransient) && hostServices == old(hostServices)
        && nextHostServiceId == old(nextHostServiceId)
      ensures InsertHostOp !in failing && SelectServiceIdsOp !in failing ==> newId == old(nextHostId)
      ensures InsertHostOp !in failing && SelectServiceIdsOp !in failing ==>
        var k := FirstFailingInsert(failing, |services|);
        && hostServices == old(hostServices) + DefaultHostServices(newId, old(nextHostServiceId), ServiceIds(services)[..k], now)
        && nextHostServiceId == old(nextHostServiceId) + k
        && (k < |services| ==> err == Some(ErrTransient))
        && (k == |services| ==> err.None?)
    {
      if InsertHostOp in failing {
        return 0, Some(ErrTransient);
      }
      newId := nextHostId;
      hosts := hosts + [HostRow(newId, h.hostName, h.canonicalName, h.url, h.ip, h.ipv6,
                                h.location, h.os, h.active, now, now)];
      nextHostId := nextHostId + 1;
      if SelectServiceIdsOp in failing {
        return 0, Some(ErrTransient);
      }
      err := InsertHostServices(newId, ServiceIds(services), now);
    }

    /**
     * The loop of InsertHost over the service ids: one default row per id
     * until an insert fails. There is no transaction, so the rows written
     * before the failing insert stay.
     */
    method InsertHostServices(hostId: int, ids: seq<int>, now: int) returns (err: Option<DbError>)
      requires Valid()
      modifies this
      ensures Valid()
      ensures hosts == old(hosts) && services == old(services) && events == old(events) && failing == old(failing)
      ensures nextHostId == old(nextHostId) && nextEventId == old(nextEventId)
      ensures var k := FirstFailingInsert(failing, |ids|);
        && hostServices == old(hostServices) + DefaultHostServices(hostId, old(nextHostServiceId), ids[..k], now)
        && nextHostServiceId == old(nextHostServiceId) + k
        && (k < |ids| ==> err == Some(ErrTransient))
        && (k == |ids| ==> err.None?)
    {
      ghost var k := FirstFailingInsert(failing, |ids|);
      var i := 0;
      while i < |ids|
        invariant 0 <= i <= k
        invariant Valid()
        invariant hosts == old(hosts) && services == old(services) && events == old(events) && failing == old(failing)
        invariant nextHostId == old(nextHostId) && nextEventId == old(nextEventId)
        invariant nextHostServiceId == old(nextHostServiceId) + i
        invariant hostServices == old(hostServices) + DefaultHostServices(hostId, old(nextHostServiceId), ids[..i], now)
      {
        if InsertHostServiceOp(i) in failing {
          return Some(ErrTransient);
        }
        DefaultHostServicesSnoc(hostId, old(nextHostServiceId), ids, i, now);
        InsertDefaultRow(hostId, ids[i], now);
        i := i + 1;
      }
      assert ids[..i] == ids;
      err := None;
    }

    /** One `insert into host_services` of InsertHost, with the next serial id. */
    method InsertDefaultRow(hostId: int, serviceId: int, now: int)
      requires Valid()
      modifies this
      ensures Valid()
      ensures hosts == old(hosts) && services == old(services) && events == old(events) && failing == old(failing)
      ensures nextHostId == old(nextHostId) && nextEventId == old(nextEventId)
      ensures nextHostServiceId == old(nextHostServiceId) + 1
      ensures hostServices == old(hostServices)
        + [HostServiceRow(old(nextHostServiceId), hostId, serviceId, 0, 3, "m", ZeroTime, Pending, now, now, "")]
    {
      hostServices := hostServices + [HostServiceRow(nextHostServiceId, hostId, serviceId, 0, 3, "m", ZeroTime, Pending, now, now, "")];
      nextHostServiceId := nextHostServiceId + 1;
    }

    /** GetHostByID: the host, then a scan loop over its services in service-name order. */
    method GetHostByID(id: int) returns (h: Host, err: Option<DbError>)
      ensures (h, err) == HostByID(hosts, services, hostServices, failing, id)
    {
      if SelectHostOp in failing {
        return ZeroHost, Some(ErrTransient);
      }
      var row := FindHost(hosts, id);
      if row.None? {
        return ZeroHost, Some(ErrNoRows);
      }
      h := HostOfRow(row.value, []);
      if SelectHostServicesOp in failing {
        return h, Some(ErrTransient);
      }
      var rows := ServicesOfHostRows(services, hostServices, id);
      var scanned, complete := ScanRows(rows, ScanWithService);
      if !complete {
        return h, Some(ErrNullColumn);
      }
      h := h.(hostServices := scanned);
      err := None;
    }

    /** AllHosts: hosts in name order; each inner service loop stops after one row. */
    method AllHosts() returns (result: seq<Host>, err: Option<DbError>)
      ensures (result, err) == AllHostsResult(hosts, services, hostServices, failing)
    {
      if SelectAllHostsOp in failing {
        return [], Some(ErrTransient);
      }
      var sorted := SortBy(hosts, HostRowNameLe);
      ghost var whole := AllHostsFrom(sorted, services, hostServices, failing, 0);
      var acc: seq<Host> := [];
      assert [] + whole.0 == whole.0;
      var i := 0;
      while i < |sorted|
        invariant 0 <= i <= |sorted|
        invariant whole == Prepend(acc, AllHostsFrom(sorted, services, hostServices, failing, i))
      {
        if SelectServicesOfHostOp in failing {
          return [], Some(ErrTransient);
        }
        var (attached, e) := FirstServiceOfHost(services, hostServices, sorted[i].id);
        if e.Some? {
          return [], e;
        }
        AllHostsFromStep(sorted, services, hostServices, failing, i, acc);
        acc := acc + [HostOfRow(sorted[i], attached)];
        i := i + 1;
      }
      assert acc + [] == acc;
      result := acc;
      err := None;
    }

    /** GetAllServiceStatusCounts: one row of four counts over active host services. */
    function GetAllServiceStatusCounts(): (int, int, int, int, Option<DbError>)
      reads this
    {
      StatusCounts(hostServices, failing)
    }

    /** UpdateHostServiceStatus: only `active`, only in rows matching both ids. */
    method UpdateHostServiceStatus(hostId: int, serviceId: int, active: int) returns (err: Option<DbError>)
      requires Valid()
      modifies this
      ensures Valid()
      ensures hosts == old(hosts) && services == old(services) && events == old(events)
      ensures failing == old(failing) && nextHostServiceId == old(nextHostServiceId)
      ensures nextHostId == old(nextHostId) && nextEventId == old(nextEventId)
      ensures UpdateStatusOp in failing ==> err == Some(ErrTransient) && hostServices == old(hostServices)
      ensures UpdateStatusOp !in failing ==> err.None? && hostServices == WithActive(old(hostServices), hostId, serviceId, active)
    {
      if UpdateStatusOp in failing {
        return Some(ErrTransient);
      }
      hostServices := WithActive(hostServices, hostId, serviceId, active);
      err := None;
    }

    /** GetServicesByStatus: active rows with the status, by host name then service name. */
    method GetServicesByStatus(status: string) returns (result: seq<HostService>, err: Option<DbError>)
      ensures (result, err) == ServicesByStatus(hosts, services, hostServices, failing, status)
    {
      if ByStatusOp in failing {
        return [], Some(ErrTransient);
      }
      var rows := ByStatusRows(hosts, services, hostServices, status);
      var scanned, complete := ScanRows(rows, ScanForStatus);
      if !complete {
        return [], Some(ErrNullColumn);
      }
      result := scanned;
      err := None;
    }

    /** GetHostServiceByID: one row joined with its service and host name. */
    function GetHostServiceByID(id: int): (HostService, Option<DbError>)
      reads this
    {
      HostServiceByID(hosts, services, hostServices, failing, id)
    }

    /** UpdateHostService: overwrites the listed columns of the row with that id. */
    method UpdateHostService(hs: HostService) returns (err: Option<DbError>)
      requires Valid()
      modifies this
      ensures Valid()
      ensures hosts == old(hosts) && services == old(services) && events == old(events)
      ensures failing == old(failing) && nextHostServiceId == old(nextHostServiceId)
      ensures nextHostId == old(nextHostId) && nextEventId == old(nextEventId)
      ensures UpdateHostServiceOp in failing ==> err == Some(ErrTransient) && hostServices == old(hostServices)
      ensures UpdateHostServiceOp !in failing ==> err.None? && hostServices == WithHostService(old(hostServices), hs)
    {
      if UpdateHostServiceOp in failing {
        return Some(ErrTransient);
      }
      hostServices := WithHostService(hostServices, hs);
      err := None;
    }

    /** GetServicesToMonitor: the scan loop keeps what it scanned before an error. */
    method GetServicesToMonitor() returns (result: seq<HostService>, err: Option<DbError>)
      ensures (result, err) == ServicesToMonitor(hosts, services, hostServices, failing)
    {
      if ToMonitorOp in failing {
        return [], Some(ErrTransient);
      }
      var rows := ToMonitorRows(hosts, services, hostServices);
      var scanned, complete := ScanRows(rows, ScanFull);
      if !complete {
        return scanned, Some(ErrNullColumn);
      }
      result := scanned;
      err := None;
    }

    /** InsertEvent: one new row stamped with the clock, not with the record's times. */
    method InsertEvent(e: Event, now: int) returns (err: Option<DbError>)
      requires Valid()
      modifies this
      ensures Valid()
      ensures hosts == old(hosts) && services == old(services) && hostServices == old(hostServices)
      ensures failing == old(failing) && nextHostServiceId == old(nextHostServiceId)
      ensures nextHostId == old(nextHostId)
      ensures nextEventId == old(nextEventId) + (if InsertEventOp in failing then 0 else 1)
      ensures InsertEventOp in failing ==> err == Some(ErrTransient) && events == old(events)
      ensures InsertEventOp !in failing ==>
        && err.None?
        && events == old(events) + [Stored(e, old(nextEventId), now)]
    {
      if InsertEventOp in failing {
        return Some(ErrTransient);
      }
      events := events + [Stored(e, nextEventId, now)];
      nextEventId := nextEventId + 1;
      err := None;
    }

    /** GetAllEvents: every event, ordered by creation time. */
    method GetAllEvents() returns (result: seq<Event>, err: Option<DbError>)
      ensures AllEventsOp in failing ==> result == [] && err == Some(ErrTransient)
      ensures AllEventsOp !in failing ==> result == SortBy(events, CreatedAtLe) && err.None?
    {
      if AllEventsOp in failing {
        return [], Some(ErrTransient);
      }
      var rows := SortBy(events, CreatedAtLe);
      result := [];
      var i := 0;
      while i < |rows|
        invariant 0 <= i <= |rows|
        invariant result == rows[..i]
      {
        result := result + [rows[i]];
        i := i + 1;
      }
      assert rows[..i] == rows;
      err := None;
    }
  }
}
