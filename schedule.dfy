/**
 * internal/handlers/schedule.go: the schedule page. ListEntries builds one
 * item per MonitorMap slot, looking the host service up in the database,
 * and sorts the items by host name with sort.Sort over ByHost. Go's
 * receiver becomes the first parameter; the page rendering is not modelled.
 */
module Schedule {
  import opened Text
  import opened Models
  import opened Repository
  import opened Cron
  import opened Handlers

  /** A row of the schedule page (models.Schedule, with the cron entry reduced to its next activation). */
  datatype ScheduleItem = ScheduleItem(
    entryID: int, entryNext: int, scheduleText: string, lastRunFromHS: int, host: string, service: string)

  // ---------------------------------------------------------------------
  // ByHost
  // ---------------------------------------------------------------------

  /** ByHost.Len */
  function Len(a: array<ScheduleItem>): int
  {
    a.Length
  }

  /** ByHost.Less: byte-wise `<` on the host names. */
  predicate Less(a: array<ScheduleItem>, i: int, j: int)
    requires 0 <= i < a.Length && 0 <= j < a.Length
    reads a
  {
    StrLess(a[i].host, a[j].host)
  }

  /** Less is a strict weak order: irreflexive, transitive, and incomparable only for equal hosts. */
  lemma LessIsStrictOrder(a: array<ScheduleItem>, i: int, j: int, k: int)
    requires 0 <= i < Len(a) && 0 <= j < Len(a) && 0 <= k < Len(a)
    ensures !Less(a, i, i)
    ensures Less(a, i, j) && Less(a, j, k) ==> Less(a, i, k)
    ensures !Less(a, i, j) && !Less(a, j, i) <==> a[i].host == a[j].host
  {
    StrLessIrreflexive(a[i].host);
    StrLessTrichotomy(a[i].host, a[j].host);
    if Less(a, i, j) && Less(a, j, k) {
      StrLessTransitive(a[i].host, a[j].host, a[k].host);
    }
    if Less(a, i, j) && Less(a, j, i) {
      StrLessTransitive(a[i].host, a[j].host, a[i].host);
    }
  }

  /** ByHost.Swap: exchanges the two positions and nothing else. */
  method Swap(a: array<ScheduleItem>, i: int, j: int)
    requires 0 <= i < a.Length && 0 <= j < a.Length
    modifies a
    ensures a[..] == old(a[..])[i := old(a[j])][j := old(a[i])]
    ensures multiset(a[..]) == multiset(old(a[..]))
  {
    a[i], a[j] := a[j], a[i];
  }

  /** Not after by host name. */
  predicate HostLe(x: ScheduleItem, y: ScheduleItem)
  {
    StrLessEq(x.host, y.host)
  }

  predicate SortedByHost(s: seq<ScheduleItem>)
  {
    forall p, q :: 0 <= p < q < |s| ==> HostLe(s[p], s[q])
  }

  lemma HostLeTransitive(x: ScheduleItem, y: ScheduleItem, z: ScheduleItem)
    requires HostLe(x, y) && HostLe(y, z)
    ensures HostLe(x, z)
  {
    if StrLess(x.host, y.host) && StrLess(y.host, z.host) {
      StrLessTransitive(x.host, y.host, z.host);
    }
  }

  // ---------------------------------------------------------------------
  // sort.Sort(ByHost(items))
  // ---------------------------------------------------------------------

  /** Moves a[i] left by swaps until the prefix a[..i + 1] is sorted. */
  method InsertLast(a: array<ScheduleItem>, i: int)
    requires 0 <= i < a.Length && SortedByHost(a[..i])
    modifies a
    ensures SortedByHost(a[..i + 1])
    ensures multiset(a[..]) == multiset(old(a[..]))
    ensures a[i + 1..] == old(a[i + 1..])
  {
    var j := i;
    while j > 0 && Less(a, j, j - 1)
      invariant 0 <= j <= i
      invariant multiset(a[..]) == multiset(old(a[..]))
      invariant a[i + 1..] == old(a[i + 1..])
      invariant forall p, q :: 0 <= p < q <= i && p != j && q != j ==> HostLe(a[p], a[q])
      invariant forall q :: j < q <= i ==> HostLe(a[j], a[q])
    {
      Swap(a, j - 1, j);
      j := j - 1;
    }
    if j > 0 {
      StrLessTrichotomy(a[j].host, a[j - 1].host);
      forall p | 0 <= p < j ensures HostLe(a[p], a[j]) {
        if p < j - 1 {
          HostLeTransitive(a[p], a[j - 1], a[j]);
        }
      }
    }
  }

  /** The sort: the result is ordered by host and holds the same items. */
  method SortByHost(a: array<ScheduleItem>)
    modifies a
    ensures SortedByHost(a[..])
    ensures multiset(a[..]) == multiset(old(a[..]))
  {
    var i := 0;
    while i < a.Length
      invariant 0 <= i <= a.Length
      invariant SortedByHost(a[..i])
      invariant multiset(a[..]) == multiset(old(a[..]))
    {
      InsertLast(a, i);
      i := i + 1;
    }
    assert a[..i] == a[..];
  }

  // ---------------------------------------------------------------------
  // ListEntries
  // ---------------------------------------------------------------------

  /** The item ListEntries builds for the MonitorMap key `k`. */
  function ItemFor(repo: DBRepo, k: int): (item: ScheduleItem)
    reads repo.app, repo.app.scheduler, repo.db
  {
    var v := repo.app.MonitorEntry(k);
    var hs := repo.db.GetHostServiceByID(k).0;
    ScheduleItem(v, repo.app.scheduler.EntryNext(v), EverySpec(hs.scheduleNumber, hs.scheduleUnit),
                 hs.lastCheck, hs.hostName, hs.service.serviceName)
  }

  /** Whether the lookup of `k` fails, which ends ListEntries without a page. */
  predicate LookupFails(repo: DBRepo, k: int)
    reads repo.db
  {
    repo.db.GetHostServiceByID(k).1.Some?
  }

  /** The item for `k`, field by field. */
  method MakeItem(repo: DBRepo, k: int, hs: HostService) returns (item: ScheduleItem)
    requires hs == repo.db.GetHostServiceByID(k).0
    ensures item == ItemFor(repo, k)
  {
    var v := repo.app.MonitorEntry(k);
    item := ScheduleItem(v, repo.app.scheduler.EntryNext(v), "", 0, "", "");
    item := item.(scheduleText := EverySpec(hs.scheduleNumber, hs.scheduleUnit));
    item := item.(lastRunFromHS := hs.lastCheck);
    item := item.(host := hs.hostName);
    item := item.(service := hs.service.serviceName);
  }

  /** One key of a non-empty set; which one is unspecified, like Go's map iteration order. */
  method PickKey(keys: set<int>) returns (k: int)
    requires keys != {}
    ensures k in keys
  {
    if forall x :: x !in keys {
      assert false;
    }
    k :| k in keys;
  }

  /**
   * The MonitorMap walk, in an arbitrary order: one item per key, or None as
   * soon as a lookup fails.
   */
  method CollectItems(repo: DBRepo) returns (items: Option<seq<ScheduleItem>>)
    ensures items.None? <==> exists k :: k in repo.app.monitorMap && LookupFails(repo, k)
    ensures items.Some? ==>
      && |items.value| == |repo.app.monitorMap|
      && (forall k :: k in repo.app.monitorMap ==> ItemFor(repo, k) in items.value)
      && (forall it :: it in items.value ==> exists k :: k in repo.app.monitorMap && it == ItemFor(repo, k))
  {
    var keys := repo.app.monitorMap.Keys;
    var acc: seq<ScheduleItem> := [];
    ghost var done: set<int> := {};
    while keys != {}
      invariant keys + done == repo.app.monitorMap.Keys && keys !! done
      invariant |acc| == |done|
      invariant forall k :: k in done ==> ItemFor(repo, k) in acc && !LookupFails(repo, k)
      invariant forall it :: it in acc ==> exists k :: k in done && it == ItemFor(repo, k)
      decreases keys
    {
      var k := PickKey(keys);
      var found := repo.db.GetHostServiceByID(k);
      if found.1.Some? {
        return None;
      }
      var item := MakeItem(repo, k, found.0);
      acc := acc + [item];
      keys := keys - {k};
      done := done + {k};
    }
    assert done == repo.app.monitorMap.Keys;
    items := Some(acc);
  }

  /** ListEntries: the page's items sorted by host, or nothing when a lookup fails. */
  method ListEntries(repo: DBRepo) returns (page: Option<seq<ScheduleItem>>)
    ensures page.None? <==> exists k :: k in repo.app.monitorMap && LookupFails(repo, k)
    ensures page.Some? ==>
      && |page.value| == |repo.app.monitorMap|
      && SortedByHost(page.value)
      && (forall k :: k in repo.app.monitorMap ==> ItemFor(repo, k) in page.value)
      && (forall it :: it in page.value ==> exists k :: k in repo.app.monitorMap && it == ItemFor(repo, k))
  {
    var items := CollectItems(repo);
    if items.None? {
      return None;
    }
    var s := items.value;
    var a := new ScheduleItem[|s|](i requires 0 <= i < |s| => s[i]);
    assert a[..] == s;
    SortByHost(a);
    forall it ensures it in a[..] <==> it in s {
      assert it in a[..] <==> it in multiset(a[..]);
    }
    page := Some(a[..]);
  }
}
