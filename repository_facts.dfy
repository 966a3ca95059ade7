/**
 * What the repository's queries and statements promise, proved about the
 * table functions of module Repository.
 */
module RepositoryFacts {
  import opened Text
  import opened Models
  import opened Sorting
  import opened Repository

  /** The host_services columns of scanned records, in order. */
  function Rows(s: seq<HostService>): (r: seq<HostServiceRow>)
    ensures |r| == |s|
    ensures forall k :: 0 <= k < |s| ==> r[k] == RowOf(s[k])
  {
    seq(|s|, k requires 0 <= k < |s| => RowOf(s[k]))
  }

  /** Every host_services row points at an existing service and host. */
  predicate ForeignKeysHold(hosts: seq<HostRow>, services: seq<Service>, hostServices: seq<HostServiceRow>)
  {
    forall k :: 0 <= k < |hostServices| ==>
      FindService(services, hostServices[k].serviceId).Some? && FindHost(hosts, hostServices[k].hostId).Some?
  }

  predicate UniqueIds(rows: seq<HostServiceRow>)
  {
    forall i, j :: 0 <= i < j < |rows| ==> rows[i].id != rows[j].id
  }

  // ---------------------------------------------------------------------
  // Status counts
  // ---------------------------------------------------------------------

  lemma {:induction false} CountActiveIsFilterSize(rows: seq<HostServiceRow>, status: string)
    ensures CountActive(rows, status) == |Filter(rows, ActiveWithStatus(status))|
  {
    if rows != [] {
      CountActiveIsFilterSize(rows[1..], status);
    }
  }

  lemma {:induction false} CountActiveAppend(a: seq<HostServiceRow>, b: seq<HostServiceRow>, status: string)
    ensures CountActive(a + b, status) == CountActive(a, status) + CountActive(b, status)
  {
    if a == [] {
      assert a + b == b;
    } else {
      assert (a + b)[1..] == a[1..] + b;
      CountActiveAppend(a[1..], b, status);
    }
  }

  lemma {:induction false} CountInactiveRows(rows: seq<HostServiceRow>, status: string)
    requires forall k :: 0 <= k < |rows| ==> rows[k].active != 1
    ensures CountActive(rows, status) == 0
  {
    if rows != [] {
      CountInactiveRows(rows[1..], status);
    }
  }

  /** GetAllServiceStatusCounts: four counts of active rows by status, or four zeros and the error. */
  lemma StatusCountsMeaning(hostServices: seq<HostServiceRow>, failing: set<Op>)
    ensures var (p, h, w, q, err) := StatusCounts(hostServices, failing);
      && (CountsOp in failing ==> p == 0 && h == 0 && w == 0 && q == 0 && err == Some(ErrTransient))
      && (CountsOp !in failing ==>
            && err.None?
            && p == |Filter(hostServices, ActiveWithStatus(Pending))|
            && h == |Filter(hostServices, ActiveWithStatus(Healthy))|
            && w == |Filter(hostServices, ActiveWithStatus(Warning))|
            && q == |Filter(hostServices, ActiveWithStatus(Problem))|
            && p + h + w + q <= |hostServices|)
  {
    CountActiveIsFilterSize(hostServices, Pending);
    CountActiveIsFilterSize(hostServices, Healthy);
    CountActiveIsFilterSize(hostServices, Warning);
    CountActiveIsFilterSize(hostServices, Problem);
    CountsAreDisjoint(hostServices);
  }

  lemma {:induction false} CountsAreDisjoint(rows: seq<HostServiceRow>)
    ensures CountActive(rows, Pending) + CountActive(rows, Healthy)
          + CountActive(rows, Warning) + CountActive(rows, Problem) <= |rows|
  {
    if rows != [] {
      CountsAreDisjoint(rows[1..]);
    }
  }

  /** The rows InsertHost adds are inactive, so no status count moves. */
  lemma InsertedRowsAreNotCounted(rows: seq<HostServiceRow>, hostId: int, firstId: int, serviceIds: seq<int>,
                                  now: int, status: string)
    ensures CountActive(rows + DefaultHostServices(hostId, firstId, serviceIds, now), status)
         == CountActive(rows, status)
  {
    var d := DefaultHostServices(hostId, firstId, serviceIds, now);
    CountActiveAppend(rows, d, status);
    CountInactiveRows(d, status);
  }

  // ---------------------------------------------------------------------
  // Services to monitor
  // ---------------------------------------------------------------------

  /** A full scan of rows that all join gives their host_services columns, in order. */
  lemma FullScanRows(rows: seq<Joined>, scan: Joined -> Option<HostService>, scanned: seq<HostService>)
    requires scanned == ScanPrefix(rows, scan) && |scanned| == |rows|
    requires forall j :: scan(j).Some? ==> RowOf(scan(j).value) == j.row
    ensures forall k :: 0 <= k < |rows| ==> Rows(scanned)[k] == rows[k].row
  {
    forall k | 0 <= k < |rows| ensures Rows(scanned)[k] == rows[k].row {
      assert scan(rows[k]) == Some(scanned[k]);
    }
  }

  /**
   * GetServicesToMonitor: the records are a prefix of the monitored rows;
   * with no error they are exactly the rows whose own `active` and whose
   * host's `active` are 1. With every join present there is no error.
   */
  lemma ServicesToMonitorExact(hosts: seq<HostRow>, services: seq<Service>, hostServices: seq<HostServiceRow>,
                               failing: set<Op>)
    requires ToMonitorOp !in failing
    ensures var (result, err) := ServicesToMonitor(hosts, services, hostServices, failing);
      var monitored := Filter(hostServices, Monitored(hosts));
      && |result| <= |monitored|
      && Rows(result) == monitored[..|result|]
      && (err.None? <==> |result| == |monitored|)
      && (err.None? ==> forall r :: r in Rows(result) <==>
            r in hostServices && r.active == 1 && HostIsActive(hosts, r.hostId))
      && (ForeignKeysHold(hosts, services, hostServices) ==> err.None?)
  {
    var rows := ToMonitorRows(hosts, services, hostServices);
    var monitored := Filter(hostServices, Monitored(hosts));
    var result := ScanPrefix(rows, ScanFull);
    forall k | 0 <= k < |result| ensures Rows(result)[k] == monitored[k] {
      assert ScanFull(rows[k]) == Some(result[k]);
    }
    if ForeignKeysHold(hosts, services, hostServices) {
      forall k | 0 <= k < |rows| ensures ScanFull(rows[k]).Some? {
        var m := monitored[k];
        assert m in hostServices;
      }
    }
  }

  // ---------------------------------------------------------------------
  // Services by status
  // ---------------------------------------------------------------------

  /** `order by host_name, service_name` on scanned records. */
  predicate HostServiceNameLe(a: HostService, b: HostService)
  {
    || (StrLessEq(a.hostName, b.hostName) && a.hostName != b.hostName)
    || (a.hostName == b.hostName && StrLessEq(a.service.serviceName, b.service.serviceName))
  }

  lemma ScannedOrder(a: Joined, b: Joined)
    requires ScanForStatus(a).Some? && ScanForStatus(b).Some?
    requires HostThenServiceLe(a, b)
    ensures HostServiceNameLe(ScanForStatus(a).value, ScanForStatus(b).value)
  {
  }

  lemma SortedMembers<T>(s: seq<T>, le: (T, T) -> bool, x: T)
    ensures x in SortBy(s, le) <==> x in s
  {
    assert x in multiset(SortBy(s, le)) <==> x in multiset(s);
  }

  /** The sort keeps exactly the members of its input. */
  lemma SortedSameMembers<T>(s: seq<T>, le: (T, T) -> bool)
    ensures forall x :: x in SortBy(s, le) <==> x in s
  {
    forall x ensures x in SortBy(s, le) <==> x in s {
      SortedMembers(s, le, x);
    }
  }

  /**
   * GetServicesByStatus: with no error the records are exactly the active
   * rows with that status, ordered by host name then service name; on an
   * error the slice is empty.
   */
  lemma ServicesByStatusExact(hosts: seq<HostRow>, services: seq<Service>, hostServices: seq<HostServiceRow>,
                              failing: set<Op>, status: string)
    ensures var (result, err) := ServicesByStatus(hosts, services, hostServices, failing, status);
      && (ByStatusOp in failing ==> result == [] && err == Some(ErrTransient))
      && (err.Some? ==> result == [])
      && (err.None? ==> forall r :: r in Rows(result) <==> r in hostServices && r.status == status && r.active == 1)
      && (err.None? ==> multiset(Rows(result)) == multiset(Filter(hostServices, ActiveWithStatus(status))))
      && (err.None? ==> SortedBy(result, HostServiceNameLe))
  {
    if ByStatusOp !in failing {
      var rows := ByStatusRows(hosts, services, hostServices, status);
      var result := ScanPrefix(rows, ScanForStatus);
      if |result| == |rows| {
        ByStatusMembers(hosts, services, hostServices, status, result);
        ByStatusSorted(hosts, services, hostServices, status, result);
        var f := Filter(hostServices, ActiveWithStatus(status));
        FullScanRows(rows, ScanForStatus, result);
        ScannedRowsMultiset(f, JoinAll(f, hosts, services), HostThenServiceLe, result);
      }
    }
  }

  function JoinedRow(j: Joined): HostServiceRow
  {
    j.row
  }

  /** Rows read back from the sorted joined rows of `f` are `f`'s rows, each as often as in `f`. */
  lemma ScannedRowsMultiset(f: seq<HostServiceRow>, unordered: seq<Joined>, le: (Joined, Joined) -> bool,
                            result: seq<HostService>)
    requires |unordered| == |f| && forall m :: 0 <= m < |f| ==> unordered[m].row == f[m]
    requires var rows := SortBy(unordered, le);
      |result| == |rows| && forall k :: 0 <= k < |rows| ==> Rows(result)[k] == rows[k].row
    ensures multiset(Rows(result)) == multiset(f)
  {
    var rows := SortBy(unordered, le);
    assert Rows(result) == MapSeq(rows, JoinedRow);
    assert MapSeq(unordered, JoinedRow) == f;
    SortByMapMultiset(unordered, le, JoinedRow);
  }

  lemma ByStatusMembers(hosts: seq<HostRow>, services: seq<Service>, hostServices: seq<HostServiceRow>,
                        status: string, result: seq<HostService>)
    requires var rows := ByStatusRows(hosts, services, hostServices, status);
      result == ScanPrefix(rows, ScanForStatus) && |result| == |rows|
    ensures forall r :: r in Rows(result) <==> r in hostServices && r.status == status && r.active == 1
  {
    var f := Filter(hostServices, ActiveWithStatus(status));
    var joined := JoinAll(f, hosts, services);
    var rows := ByStatusRows(hosts, services, hostServices, status);
    FullScanRows(rows, ScanForStatus, result);
    forall r ensures r in Rows(result) <==> r in f {
      if r in Rows(result) {
        var k :| 0 <= k < |result| && Rows(result)[k] == r;
        SortedMembers(joined, HostThenServiceLe, rows[k]);
        var m :| 0 <= m < |joined| && joined[m] == rows[k];
        assert f[m] == r;
      }
      if r in f {
        var m :| 0 <= m < |f| && f[m] == r;
        SortedMembers(joined, HostThenServiceLe, joined[m]);
        var k :| 0 <= k < |rows| && rows[k] == joined[m];
        assert Rows(result)[k] == r;
      }
    }
  }

  lemma ByStatusSorted(hosts: seq<HostRow>, services: seq<Service>, hostServices: seq<HostServiceRow>,
                       status: string, result: seq<HostService>)
    requires var rows := ByStatusRows(hosts, services, hostServices, status);
      result == ScanPrefix(rows, ScanForStatus) && |result| == |rows|
    ensures SortedBy(result, HostServiceNameLe)
  {
    var joined := JoinAll(Filter(hostServices, ActiveWithStatus(status)), hosts, services);
    var rows := ByStatusRows(hosts, services, hostServices, status);
    OrdersAreTotalPreorders();
    SortBySorted(joined, HostThenServiceLe);
    forall i, j | 0 <= i < j < |result| ensures HostServiceNameLe(result[i], result[j]) {
      assert ScanForStatus(rows[i]) == Some(result[i]);
      assert ScanForStatus(rows[j]) == Some(result[j]);
      ScannedOrder(rows[i], rows[j]);
    }
  }

  // ---------------------------------------------------------------------
  // Host detail and host list
  // ---------------------------------------------------------------------

  /** `order by s.service_name` on scanned records. */
  predicate ServiceOfRecordLe(a: HostService, b: HostService)
  {
    StrLessEq(a.service.serviceName, b.service.serviceName)
  }

  /**
   * GetHostByID: with no error the host is the row with that id and its
   * services are exactly that host's rows, ordered by service name.
   */
  lemma HostByIDExact(hosts: seq<HostRow>, services: seq<Service>, hostServices: seq<HostServiceRow>,
                      failing: set<Op>, id: int)
    ensures var (h, err) := HostByID(hosts, services, hostServices, failing, id);
      && (err == Some(ErrNoRows) <==> SelectHostOp !in failing && FindHost(hosts, id).None?)
      && (err.None? ==> h.id == id && HostOfRow(FindHost(hosts, id).value, h.hostServices) == h)
      && (err.None? ==> forall r :: r in Rows(h.hostServices) <==> r in hostServices && r.hostId == id)
      && (err.None? ==> multiset(Rows(h.hostServices)) == multiset(Filter(hostServices, OfHost(id))))
      && (err.None? ==> SortedBy(h.hostServices, ServiceOfRecordLe))
  {
    if SelectHostOp !in failing && FindHost(hosts, id).Some? && SelectHostServicesOp !in failing {
      var f := Filter(hostServices, OfHost(id));
      var unordered := ServicesOfHostUnordered(services, hostServices, id);
      var rows := ServicesOfHostRows(services, hostServices, id);
      var result := ScanPrefix(rows, ScanWithService);
      if |result| == |rows| {
        FullScanRows(rows, ScanWithService, result);
        SortedSameMembers(unordered, ServiceNameLe);
        ScannedRowsMembers(f, unordered, rows, result);
        SortedByServiceName(unordered);
        ScannedRowsOrdered(rows, result);
        ScannedRowsMultiset(f, unordered, ServiceNameLe, result);
      }
    }
  }

  /** Rows read back, in any order, from the joined rows of `f` are exactly the rows of `f`. */
  lemma ScannedRowsMembers(f: seq<HostServiceRow>, unordered: seq<Joined>, rows: seq<Joined>, result: seq<HostService>)
    requires |unordered| == |f| && forall m :: 0 <= m < |f| ==> unordered[m].row == f[m]
    requires forall j :: j in rows <==> j in unordered
    requires |result| == |rows| && forall k :: 0 <= k < |rows| ==> Rows(result)[k] == rows[k].row
    ensures forall r :: r in Rows(result) <==> r in f
  {
    forall r ensures r in Rows(result) <==> r in f {
      if r in Rows(result) {
        var k :| 0 <= k < |result| && Rows(result)[k] == r;
        assert rows[k] in unordered;
        var m :| 0 <= m < |unordered| && unordered[m] == rows[k];
        assert f[m] == r;
      }
      if r in f {
        var m :| 0 <= m < |f| && f[m] == r;
        assert unordered[m] in rows;
        var k :| 0 <= k < |rows| && rows[k] == unordered[m];
        assert Rows(result)[k] == r;
      }
    }
  }

  lemma SortedByServiceName(unordered: seq<Joined>)
    ensures SortedBy(SortBy(unordered, ServiceNameLe), ServiceNameLe)
  {
    OrdersAreTotalPreorders();
    SortBySorted(unordered, ServiceNameLe);
  }

  /** The full scan of rows sorted by service name is ordered by service name. */
  lemma ScannedRowsOrdered(rows: seq<Joined>, result: seq<HostService>)
    requires SortedBy(rows, ServiceNameLe)
    requires result == ScanPrefix(rows, ScanWithService) && |result| == |rows|
    ensures SortedBy(result, ServiceOfRecordLe)
  {
    forall i, j | 0 <= i < j < |result| ensures ServiceOfRecordLe(result[i], result[j]) {
      assert ScanWithService(rows[i]) == Some(result[i]);
      assert ScanWithService(rows[j]) == Some(result[j]);
    }
  }

  /** The hosts of AllHosts from position `i`: the ordered hosts, each with at most one service. */
  lemma {:induction false} AllHostsFromShape(sorted: seq<HostRow>, services: seq<Service>,
                                             hostServices: seq<HostServiceRow>, failing: set<Op>, i: nat)
    requires i <= |sorted|
    ensures AllHostsFrom(sorted, services, hostServices, failing, i).1.None? ==>
      HostsFollow(sorted, i, AllHostsFrom(sorted, services, hostServices, failing, i).0)
    decreases |sorted| - i
  {
    if i < |sorted| && SelectServicesOfHostOp !in failing {
      var res := FirstServiceOfHost(services, hostServices, sorted[i].id);
      if res.1.None? {
        AllHostsFromShape(sorted, services, hostServices, failing, i + 1);
        FirstServiceIsOwn(services, hostServices, sorted[i].id);
        var rest := AllHostsFrom(sorted, services, hostServices, failing, i + 1);
        if rest.1.None? {
          HostsFollowCons(sorted, i, res.0, rest.0);
        }
      }
    }
  }

  /** `r` copies the ordered hosts from position `i`, each with at most one of its own services. */
  ghost predicate HostsFollow(sorted: seq<HostRow>, i: nat, r: seq<Host>)
  {
    && i + |r| == |sorted|
    && forall k :: 0 <= k < |r| ==>
         r[k] == HostOfRow(sorted[i + k], r[k].hostServices) && AttachedTo(sorted[i + k], r[k].hostServices)
  }

  lemma HostsFollowCons(sorted: seq<HostRow>, i: nat, svc: seq<HostService>, rest: seq<Host>)
    requires i < |sorted| && HostsFollow(sorted, i + 1, rest) && AttachedTo(sorted[i], svc)
    ensures HostsFollow(sorted, i, [HostOfRow(sorted[i], svc)] + rest)
  {
    var r := [HostOfRow(sorted[i], svc)] + rest;
    forall k | 0 <= k < |r|
      ensures r[k] == HostOfRow(sorted[i + k], r[k].hostServices) && AttachedTo(sorted[i + k], r[k].hostServices)
    {
      if k > 0 {
        assert r[k] == rest[k - 1] && i + k == (i + 1) + (k - 1);
      }
    }
  }

  /** Each record from position `i` carries what the inner query gave its host, which did not fail. */
  ghost predicate CarriesFirst(sorted: seq<HostRow>, services: seq<Service>, hostServices: seq<HostServiceRow>,
                               i: nat, r: seq<Host>)
  {
    && i + |r| == |sorted|
    && forall k :: 0 <= k < |r| ==>
         FirstServiceOfHost(services, hostServices, sorted[i + k].id) == (r[k].hostServices, None)
  }

  /** A successful host loop gives every host exactly what its inner query returned. */
  lemma {:induction false} AllHostsFromFirst(sorted: seq<HostRow>, services: seq<Service>,
                                             hostServices: seq<HostServiceRow>, failing: set<Op>, i: nat)
    requires i <= |sorted|
    ensures AllHostsFrom(sorted, services, hostServices, failing, i).1.None? ==>
      CarriesFirst(sorted, services, hostServices, i, AllHostsFrom(sorted, services, hostServices, failing, i).0)
    decreases |sorted| - i
  {
    if i < |sorted| && SelectServicesOfHostOp !in failing {
      var res := FirstServiceOfHost(services, hostServices, sorted[i].id);
      if res.1.None? {
        AllHostsFromFirst(sorted, services, hostServices, failing, i + 1);
        var rest := AllHostsFrom(sorted, services, hostServices, failing, i + 1);
        if rest.1.None? {
          CarriesFirstCons(sorted, services, hostServices, i, res.0, rest.0);
        }
      }
    }
  }

  lemma CarriesFirstCons(sorted: seq<HostRow>, services: seq<Service>, hostServices: seq<HostServiceRow>,
                         i: nat, svc: seq<HostService>, rest: seq<Host>)
    requires i < |sorted| && CarriesFirst(sorted, services, hostServices, i + 1, rest)
    requires FirstServiceOfHost(services, hostServices, sorted[i].id) == (svc, None)
    ensures CarriesFirst(sorted, services, hostServices, i, [HostOfRow(sorted[i], svc)] + rest)
  {
    var r := [HostOfRow(sorted[i], svc)] + rest;
    forall k | 0 <= k < |r|
      ensures FirstServiceOfHost(services, hostServices, sorted[i + k].id) == (r[k].hostServices, None)
    {
      if k > 0 {
        assert r[k] == rest[k - 1] && i + k == (i + 1) + (k - 1);
      }
    }
  }

  /** A host with a host_services row gets exactly one service: the record of its first row. */
  lemma CarriedFirstRow(services: seq<Service>, hostServices: seq<HostServiceRow>, h: Host)
    requires FirstServiceOfHost(services, hostServices, h.id) == (h.hostServices, None)
    ensures (exists r :: r in hostServices && r.hostId == h.id) ==>
      && |h.hostServices| == 1
      && RowOf(h.hostServices[0]) == Filter(hostServices, OfHost(h.id))[0]
  {
    var own := Filter(hostServices, OfHost(h.id));
    if exists r :: r in hostServices && r.hostId == h.id {
      var r :| r in hostServices && r.hostId == h.id;
      assert OfHost(h.id)(r);
      assert r in own;
    }
  }

  /** A host record carrying at most one of its own host services. */
  ghost predicate AttachedTo(row: HostRow, svc: seq<HostService>)
  {
    |svc| <= 1 && (forall x :: x in svc ==> x.hostId == row.id)
  }

  lemma FirstServiceIsOwn(services: seq<Service>, hostServices: seq<HostServiceRow>, hostId: int)
    ensures forall x :: x in FirstServiceOfHost(services, hostServices, hostId).0 ==> x.hostId == hostId
  {
    var rows := ServicesOfHostUnordered(services, hostServices, hostId);
    if rows != [] && ScanWithService(rows[0]).Some? {
      assert RowOf(ScanWithService(rows[0]).value) == rows[0].row;
    }
  }

  /**
   * AllHosts: with no error, one record per host, ordered by host name,
   * each carrying at most one of its own host services.
   */
  lemma AllHostsExact(hosts: seq<HostRow>, services: seq<Service>, hostServices: seq<HostServiceRow>, failing: set<Op>)
    ensures var (result, err) := AllHostsResult(hosts, services, hostServices, failing);
      && (err.Some? ==> result == [])
      && (err.None? ==>
            && |result| == |hosts|
            && (forall k :: 0 <= k < |result| ==> |result[k].hostServices| <= 1)
            && (forall k :: 0 <= k < |result| ==> forall x :: x in result[k].hostServices ==> x.hostId == result[k].id)
            && OwnFirstAttached(hostServices, result)
            && (forall i, j :: 0 <= i < j < |result| ==> StrLessEq(result[i].hostName, result[j].hostName))
            && (forall h :: h in hosts <==>
                  exists k :: 0 <= k < |result| && result[k] == HostOfRow(h, result[k].hostServices)))
  {
    if SelectAllHostsOp !in failing {
      SortedSameMembers(hosts, HostRowNameLe);
      SortedByHostName(hosts);
      AllHostsFromExact(hosts, SortBy(hosts, HostRowNameLe), services, hostServices, failing);
      var sorted := SortBy(hosts, HostRowNameLe);
      AllHostsFromShape(sorted, services, hostServices, failing, 0);
      AllHostsFromFirst(sorted, services, hostServices, failing, 0);
      var (result, err) := AllHostsFrom(sorted, services, hostServices, failing, 0);
      if err.None? {
        AllHostsCarryFirst(sorted, services, hostServices, result);
      }
    }
  }

  /** With services.id a primary key, the left join finds the one service carrying the id. */
  lemma {:induction false} FindServiceUnique(services: seq<Service>, id: int, k: nat)
    requires UniqueServiceIds(services)
    requires k < |services| && services[k].id == id
    ensures FindService(services, id) == Some(services[k])
    decreases k
  {
    if k > 0 {
      assert services[0].id != id;
      assert UniqueServiceIds(services[1..]) by {
        forall i, j | 0 <= i < j < |services[1..]|
          ensures services[1..][i].id != services[1..][j].id
        {
          assert services[1..][i] == services[i + 1] && services[1..][j] == services[j + 1];
        }
      }
      FindServiceUnique(services[1..], id, k - 1);
    }
  }

  /** Every host that has a host_services row carries exactly one service, the record of its first row. */
  ghost predicate OwnFirstAttached(hostServices: seq<HostServiceRow>, result: seq<Host>)
  {
    forall k :: 0 <= k < |result| ==>
      (exists r :: r in hostServices && r.hostId == result[k].id) ==>
        && |result[k].hostServices| == 1
        && RowOf(result[k].hostServices[0]) == Filter(hostServices, OfHost(result[k].id))[0]
  }

  lemma AllHostsCarryFirst(sorted: seq<HostRow>, services: seq<Service>, hostServices: seq<HostServiceRow>,
                           result: seq<Host>)
    requires HostsFollow(sorted, 0, result) && CarriesFirst(sorted, services, hostServices, 0, result)
    ensures OwnFirstAttached(hostServices, result)
  {
    forall k | 0 <= k < |result|
      ensures (exists r :: r in hostServices && r.hostId == result[k].id) ==>
        && |result[k].hostServices| == 1
        && RowOf(result[k].hostServices[0]) == Filter(hostServices, OfHost(result[k].id))[0]
    {
      assert result[k].id == sorted[k].id;
      CarriedFirstRow(services, hostServices, result[k]);
    }
  }

  lemma SortedByHostName(hosts: seq<HostRow>)
    ensures SortedBy(SortBy(hosts, HostRowNameLe), HostRowNameLe)
  {
    OrdersAreTotalPreorders();
    SortBySorted(hosts, HostRowNameLe);
  }

  /** AllHosts over any name-ordered reordering of the hosts. */
  lemma AllHostsFromExact(hosts: seq<HostRow>, sorted: seq<HostRow>, services: seq<Service>,
                          hostServices: seq<HostServiceRow>, failing: set<Op>)
    requires |sorted| == |hosts| && (forall h :: h in sorted <==> h in hosts) && SortedBy(sorted, HostRowNameLe)
    ensures var (result, err) := AllHostsFrom(sorted, services, hostServices, failing, 0);
      err.None? ==>
        && |result| == |hosts|
        && (forall k :: 0 <= k < |result| ==> |result[k].hostServices| <= 1)
        && (forall k :: 0 <= k < |result| ==> forall x :: x in result[k].hostServices ==> x.hostId == result[k].id)
        && (forall i, j :: 0 <= i < j < |result| ==> StrLessEq(result[i].hostName, result[j].hostName))
        && (forall h :: h in hosts <==>
              exists k :: 0 <= k < |result| && result[k] == HostOfRow(h, result[k].hostServices))
  {
    AllHostsFromShape(sorted, services, hostServices, failing, 0);
    var (result, err) := AllHostsFrom(sorted, services, hostServices, failing, 0);
    if err.None? {
      HostRecordsOrdered(sorted, result);
      HostRecordsMembers(hosts, sorted, result);
    }
  }

  /** Records that copy name-ordered hosts position by position are ordered by name. */
  lemma HostRecordsOrdered(sorted: seq<HostRow>, result: seq<Host>)
    requires |result| == |sorted| && SortedBy(sorted, HostRowNameLe)
    requires forall k :: 0 <= k < |result| ==> result[k] == HostOfRow(sorted[k], result[k].hostServices)
    ensures forall i, j :: 0 <= i < j < |result| ==> StrLessEq(result[i].hostName, result[j].hostName)
  {
    forall i, j | 0 <= i < j < |result| ensures StrLessEq(result[i].hostName, result[j].hostName) {
      assert HostRowNameLe(sorted[i], sorted[j]);
    }
  }

  /** Records that copy, position by position, a reordering of the hosts are, up to their services, exactly the hosts. */
  lemma HostRecordsMembers(hosts: seq<HostRow>, sorted: seq<HostRow>, result: seq<Host>)
    requires |result| == |sorted| && forall h :: h in sorted <==> h in hosts
    requires forall k :: 0 <= k < |result| ==> result[k] == HostOfRow(sorted[k], result[k].hostServices)
    ensures forall h :: h in hosts <==> exists k :: 0 <= k < |result| && result[k] == HostOfRow(h, result[k].hostServices)
  {
    forall h ensures h in hosts <==> exists k :: 0 <= k < |result| && result[k] == HostOfRow(h, result[k].hostServices) {
      if h in sorted {
        var k :| 0 <= k < |sorted| && sorted[k] == h;
        assert result[k] == HostOfRow(h, result[k].hostServices);
      }
      if exists k :: 0 <= k < |result| && result[k] == HostOfRow(h, result[k].hostServices) {
        var k :| 0 <= k < |result| && result[k] == HostOfRow(h, result[k].hostServices);
        assert HostOfRow(sorted[k], result[k].hostServices) == HostOfRow(h, result[k].hostServices);
        assert sorted[k] == h;
      }
    }
  }

  // ---------------------------------------------------------------------
  // Writes
  // ---------------------------------------------------------------------

  /** UpdateHostServiceStatus: only `active`, only in the rows matching both ids. */
  lemma WithActiveTouchesOnlyMatches(rows: seq<HostServiceRow>, hostId: int, serviceId: int, active: int)
    ensures var r := WithActive(rows, hostId, serviceId, active);
      forall k :: 0 <= k < |rows| ==>
        && r[k].(active := rows[k].active) == rows[k]
        && (rows[k].hostId == hostId && rows[k].serviceId == serviceId ==> r[k].active == active)
        && (rows[k].hostId != hostId || rows[k].serviceId != serviceId ==> r[k] == rows[k])
  {
  }

  /** After setting `active = 0` for a pair, no row of that pair is monitored. */
  lemma DeactivatedIsNotMonitored(hosts: seq<HostRow>, rows: seq<HostServiceRow>, hostId: int, serviceId: int)
    ensures forall r :: r in Filter(WithActive(rows, hostId, serviceId, 0), Monitored(hosts)) ==>
      r.hostId != hostId || r.serviceId != serviceId
  {
    var w := WithActive(rows, hostId, serviceId, 0);
    forall r | r in Filter(w, Monitored(hosts)) ensures r.hostId != hostId || r.serviceId != serviceId {
      var k :| 0 <= k < |w| && w[k] == r;
    }
  }

  lemma {:induction false} FilterSingleId(rows: seq<HostServiceRow>, k: nat, id: int)
    requires UniqueIds(rows) && k < |rows| && rows[k].id == id
    ensures Filter(rows, WithId(id)) == [rows[k]]
  {
    if k == 0 {
      NoIdInFilter(rows[1..], id);
    } else {
      FilterSingleId(rows[1..], k - 1, id);
    }
  }

  lemma {:induction false} NoIdInFilter(rows: seq<HostServiceRow>, id: int)
    requires forall k :: 0 <= k < |rows| ==> rows[k].id != id
    ensures Filter(rows, WithId(id)) == []
  {
    if rows != [] {
      NoIdInFilter(rows[1..], id);
    }
  }

  /**
   * UpdateHostService then GetHostServiceByID: the written columns come
   * back as written, and id and created_at as they were.
   */
  lemma UpdateThenGet(hosts: seq<HostRow>, services: seq<Service>, rows: seq<HostServiceRow>,
                      failing: set<Op>, hs: HostService, k: nat)
    requires UniqueIds(rows) && k < |rows| && rows[k].id == hs.id
    requires SelectHostServiceOp !in failing
    requires FindService(services, hs.serviceId).Some? && FindHost(hosts, hs.hostId).Some?
    ensures var (got, err) := HostServiceByID(hosts, services, WithHostService(rows, hs), failing, hs.id);
      && err.None?
      && got.id == hs.id && got.createdAt == rows[k].createdAt
      && got.hostId == hs.hostId && got.serviceId == hs.serviceId && got.active == hs.active
      && got.scheduleNumber == hs.scheduleNumber && got.scheduleUnit == hs.scheduleUnit
      && got.lastCheck == hs.lastCheck && got.status == hs.status && got.updatedAt == hs.updatedAt
      && got.lastMessage == hs.lastMessage
      && got.service == FindService(services, hs.serviceId).value
      && got.hostName == FindHost(hosts, hs.hostId).value.hostName
  {
    var w := WithHostService(rows, hs);
    assert UniqueIds(w) by {
      forall i, j | 0 <= i < j < |w| ensures w[i].id != w[j].id {
        assert w[i].id == rows[i].id && w[j].id == rows[j].id;
      }
    }
    FilterSingleId(w, k, hs.id);
  }

  /** GetAllEvents: every event once, ordered by creation time. */
  lemma AllEventsOrdered(events: seq<Event>)
    ensures SortedBy(SortBy(events, CreatedAtLe), CreatedAtLe)
    ensures multiset(SortBy(events, CreatedAtLe)) == multiset(events)
  {
    OrdersAreTotalPreorders();
    SortBySorted(events, CreatedAtLe);
  }

  // ---------------------------------------------------------------------
  // The two queries that go on after a failed QueryContext
  // ---------------------------------------------------------------------

  /**
   * A failed GetServicesToMonitor query panics as written; the corrected
   * query reports the error with no records. Without the fault the two agree.
   */
  lemma MonitorQueryFault(hosts: seq<HostRow>, services: seq<Service>, hostServices: seq<HostServiceRow>,
                          failing: set<Op>)
    ensures ToMonitorOp in failing ==>
      && ServicesToMonitorAsWritten(hosts, services, hostServices, failing).Panicked?
      && ServicesToMonitor(hosts, services, hostServices, failing) == ([], Some(ErrTransient))
    ensures ToMonitorOp !in failing ==>
      var (result, err) := ServicesToMonitor(hosts, services, hostServices, failing);
      ServicesToMonitorAsWritten(hosts, services, hostServices, failing) == Answered(result, err)
  {
  }

  /**
   * A failed GetAllEvents query panics as written; the corrected method
   * (Db.GetAllEvents) reports the error with no events. Without the fault
   * both return every event in created_at order.
   */
  lemma EventsQueryFault(events: seq<Event>, failing: set<Op>)
    ensures AllEventsOp in failing ==> AllEventsAsWritten(events, failing).Panicked?
    ensures AllEventsOp !in failing ==>
      && AllEventsAsWritten(events, failing) == Answered(SortBy(events, CreatedAtLe), None)
      && SortedBy(AllEventsAsWritten(events, failing).rows, CreatedAtLe)
      && multiset(AllEventsAsWritten(events, failing).rows) == multiset(events)
  {
    AllEventsOrdered(events);
  }
}
