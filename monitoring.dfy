/**
 * internal/handlers/start-monitoring.go: the job the scheduler runs, and
 * StartMonitoring, which schedules every monitored host service when the
 * application starts with monitoring live. Go's receivers become the
 * first parameter.
 */
module Monitoring {
  import opened Text
  import opened Models
  import opened Repository
  import opened Cron
  import opened Probes
  import opened Handlers

  /** A scheduled job remembers the host service it checks. */
  datatype Job = Job(hostServiceID: int)

  /** job.Run: the scheduled check of exactly the job's own host service. */
  method Run(repo: DBRepo, j: Job, net: Network, now: int)
    requires repo.Valid()
    modifies repo.app, repo.db
    ensures repo.Valid()
    ensures var (hs, h, loaded) := old(repo.Loaded(j.hostServiceID));
      var p := TestService(hs.serviceId, h.url, net);
      && (!loaded ==>
            && repo.db.hostServices == old(repo.db.hostServices) && repo.db.events == old(repo.db.events)
            && repo.app.outbox == old(repo.app.outbox))
      && (loaded && p.status == hs.status ==> repo.db.hostServices == old(repo.db.hostServices))
      && (loaded && p.status != hs.status && UpdateHostServiceOp !in repo.db.failing ==>
            repo.db.hostServices == WithHostService(old(repo.db.hostServices), Checked(hs, p.status, p.msg, now)))
      && (loaded && p.status != hs.status && UpdateHostServiceOp in repo.db.failing ==>
            repo.db.hostServices == old(repo.db.hostServices))
      && (loaded ==>
            var tested := WithStatusNotice(old(repo.app.outbox), h, hs, p.status, now)
                          + [ScheduleNotice(hs, p.status, old(repo.NextRun(hs.id)), now)];
            repo.app.outbox == if p.status != hs.status && UpdateHostServiceOp !in repo.db.failing
                               then WithCountNotice(tested, repo.db.hostServices, repo.db.failing) else tested)
      && (loaded ==>
            repo.db.events == WithCheckEvent(old(repo.db.events), h, hs, p, repo.db.failing, old(repo.db.nextEventId), now))
    ensures repo.app.preferenceMap == old(repo.app.preferenceMap) && repo.app.monitorMap == old(repo.app.monitorMap)
    ensures repo.db.hosts == old(repo.db.hosts) && repo.db.services == old(repo.db.services)
    ensures repo.db.failing == old(repo.db.failing)
    ensures repo.db.nextHostId == old(repo.db.nextHostId) && repo.db.nextHostServiceId == old(repo.db.nextHostServiceId)
    ensures repo.db.nextEventId == old(repo.db.nextEventId) + (|repo.db.events| - |old(repo.db.events)|)
  {
    repo.ScheduledCheck(j.hostServiceID, net, now);
  }

  // ---------------------------------------------------------------------
  // What StartMonitoring schedules and announces
  // ---------------------------------------------------------------------

  /** The schedule StartMonitoring hands the cron parser: days are rewritten as hours. */
  function ScheduleSpec(n: int, unit: string): string
  {
    if unit == "d" then EverySpec(n * 24, "h") else EverySpec(n, unit)
  }

  /** A timestamp after the startup cutoff is shown; anything else reads "Pending...". */
  function BootStamp(t: int): string
  {
    if t > BootstrapCutoff then FormatTime(t) else "Pending..."
  }

  /** The payload of both startup pushes for a host service, given its entry's next activation. */
  function BootPayload(x: HostService, next: int): map<string, string>
  {
    map[
      "message" := "scheduling",
      "host_service_id" := IntToString(x.id),
      "next_run" := BootStamp(next),
      "host" := x.hostName,
      "service" := x.service.serviceName,
      "last_run" := BootStamp(x.lastCheck),
      "schedule" := EverySpec(x.scheduleNumber, x.scheduleUnit)]
  }

  function NextRunNotice(x: HostService, next: int): Notification
  {
    Notification(PublicChannel, "next-run-event", BootPayload(x, next))
  }

  function ScheduledNotice(x: HostService, next: int): Notification
  {
    Notification(PublicChannel, "schedule-changed-event", BootPayload(x, next))
  }

  /** next-run-event, then schedule-changed-event, with one payload. */
  function BootNotices(x: HostService, next: int): seq<Notification>
  {
    [NextRunNotice(x, next), ScheduledNotice(x, next)]
  }

  const StartingNotice := Notification(PublicChannel, "app-starting", map["message" := "Monitoring is starting..."])

  /** The part of the application state StartMonitoring changes. */
  datatype Boot = Boot(entries: map<int, CronEntry>, nextID: int, monitorMap: map<int, int>, outbox: seq<Notification>)

  function Snapshot(app: AppConfig): Boot
    reads app, app.scheduler
  {
    Boot(app.scheduler.entries, app.scheduler.nextID, app.monitorMap, app.outbox)
  }

  /**
   * What the startup loop depends on besides the state: the spec it builds
   * for a service, the scheduler's parser and next activations, and the
   * pushes made for one service given its next activation.
   */
  datatype Startup = Startup(
    schedule: HostService -> string,
    parses: string -> bool,
    nextFire: int -> int,
    announce: (HostService, int) -> seq<Notification>)

  /** The startup of a real application: ScheduleSpec, its scheduler, and the two pushes of StartMonitoring. */
  function Live(sched: Scheduler): Startup
  {
    Startup((x: HostService) => ScheduleSpec(x.scheduleNumber, x.scheduleUnit), sched.parses, sched.nextFire, BootNotices)
  }

  /** Whether the cron parser takes the spec built for `x`. */
  predicate Accepts(x: HostService, s: Startup)
  {
    s.parses(s.schedule(x))
  }

  /**
   * One pass of the loop: AddJob, the MonitorMap slot (entry id 0 after a
   * rejected spec), and the pushes.
   */
  function BootStep(b: Boot, x: HostService, s: Startup): Boot
  {
    var spec := s.schedule(x);
    if s.parses(spec) then
      var id := b.nextID + 1;
      Boot(b.entries[id := CronEntry(x.id, spec)], id, b.monitorMap[x.id := id], b.outbox + s.announce(x, s.nextFire(id)))
    else
      Boot(b.entries, b.nextID, b.monitorMap[x.id := 0], b.outbox + s.announce(x, ZeroTime))
  }

  /** The loop over `xs`, in order. */
  function BootAll(b: Boot, xs: seq<HostService>, s: Startup): Boot
    decreases |xs|
  {
    if xs == [] then b
    else BootStep(BootAll(b, xs[..|xs| - 1], s), xs[|xs| - 1], s)
  }

  /** StartMonitoring's payload, filled key by key. */
  method BootData(x: HostService, next: int) returns (payload: map<string, string>)
    ensures payload == BootPayload(x, next)
  {
    payload := map[];
    payload := payload["message" := "scheduling"];
    payload := payload["host_service_id" := IntToString(x.id)];
    if next > BootstrapCutoff {
      payload := payload["next_run" := FormatTime(next)];
    } else {
      payload := payload["next_run" := "Pending..."];
    }
    payload := payload["host" := x.hostName];
    payload := payload["service" := x.service.serviceName];
    if x.lastCheck > BootstrapCutoff {
      payload := payload["last_run" := FormatTime(x.lastCheck)];
    } else {
      payload := payload["last_run" := "Pending..."];
    }
    payload := payload["schedule" := EverySpec(x.scheduleNumber, x.scheduleUnit)];
  }

  /** The first half of one iteration: AddJob and the MonitorMap slot (an error is only logged). */
  method ScheduleJob(app: AppConfig, x: HostService)
    requires app.scheduler.Valid()
    modifies app, app.scheduler
    ensures app.scheduler.Valid()
    ensures Snapshot(app) == BootStep(old(Snapshot(app)), x, Live(app.scheduler)).(outbox := old(app.outbox))
    ensures app.preferenceMap == old(app.preferenceMap)
    ensures old(app.JobsMatch()) ==> app.JobsMatch()
  {
    var schedule: string;
    if x.scheduleUnit == "d" {
      schedule := EverySpec(x.scheduleNumber * 24, "h");
    } else {
      schedule := EverySpec(x.scheduleNumber, x.scheduleUnit);
    }
    assert schedule == Live(app.scheduler).schedule(x);
    var scheduleID, failed := app.scheduler.AddJob(schedule, x.id);
    app.monitorMap := app.monitorMap[x.id := scheduleID];
    if old(app.JobsMatch()) {
      if failed {
        RejectKeepsJobsMatch(old(app.monitorMap), old(app.scheduler.entries), old(app.scheduler.nextID), x.id);
      } else {
        AddKeepsJobsMatch(old(app.monitorMap), old(app.scheduler.entries), old(app.scheduler.nextID), CronEntry(x.id, schedule));
      }
    }
  }

  /** The second half: the payload read back through MonitorMap and the scheduler, pushed twice. */
  method AnnounceJob(repo: DBRepo, x: HostService)
    modifies repo.app
    ensures repo.app.outbox == old(repo.app.outbox)
      + BootNotices(x, repo.app.scheduler.EntryNext(repo.app.MonitorEntry(x.id)))
    ensures repo.app.preferenceMap == old(repo.app.preferenceMap) && repo.app.monitorMap == old(repo.app.monitorMap)
  {
    var payload := BootData(x, repo.app.scheduler.EntryNext(repo.app.MonitorEntry(x.id)));
    repo.Broadcast(PublicChannel, "next-run-event", payload);
    repo.Broadcast(PublicChannel, "schedule-changed-event", payload);
  }

  /** One iteration of StartMonitoring's loop. */
  method ScheduleOne(repo: DBRepo, x: HostService)
    requires repo.app.scheduler.Valid()
    modifies repo.app, repo.app.scheduler
    ensures repo.app.scheduler.Valid()
    ensures Snapshot(repo.app) == BootStep(old(Snapshot(repo.app)), x, Live(repo.app.scheduler))
    ensures repo.app.preferenceMap == old(repo.app.preferenceMap)
    ensures old(repo.app.JobsMatch()) ==> repo.app.JobsMatch()
  {
    ScheduleJob(repo.app, x);
    AnnounceJob(repo, x);
  }

  /**
   * StartMonitoring: only with monitoring live; announce the start, then
   * schedule every row GetServicesToMonitor returned (its error is only
   * logged, so a partial scan is still scheduled).
   */
  method StartMonitoring(repo: DBRepo)
    requires repo.app.scheduler.Valid()
    modifies repo.app, repo.app.scheduler
    ensures repo.app.scheduler.Valid()
    ensures !old(repo.app.MonitoringLive()) ==> Snapshot(repo.app) == old(Snapshot(repo.app))
    ensures old(repo.app.MonitoringLive()) ==>
      var (xs, _) := ServicesToMonitor(repo.db.hosts, repo.db.services, repo.db.hostServices, repo.db.failing);
      var started := old(Snapshot(repo.app)).(outbox := old(repo.app.outbox) + [StartingNotice]);
      Snapshot(repo.app) == BootAll(started, xs, Live(repo.app.scheduler))
    ensures repo.app.preferenceMap == old(repo.app.preferenceMap)
    ensures old(repo.app.JobsMatch()) ==> repo.app.JobsMatch()
  {
    if !repo.app.MonitoringLive() {
      return;
    }
    var data: map<string, string> := map[];
    data := data["message" := "Monitoring is starting..."];
    repo.Broadcast(PublicChannel, "app-starting", data);
    var servicesToMonitor, _ := repo.db.GetServicesToMonitor();
    ghost var started := Snapshot(repo.app);
    var i := 0;
    while i < |servicesToMonitor|
      invariant 0 <= i <= |servicesToMonitor|
      invariant repo.app.scheduler.Valid()
      invariant Snapshot(repo.app)
        == BootAll(started, servicesToMonitor[..i], Live(repo.app.scheduler))
      invariant repo.app.preferenceMap == old(repo.app.preferenceMap)
      invariant old(repo.app.JobsMatch()) ==> repo.app.JobsMatch()
    {
      assert servicesToMonitor[..i + 1][..i] == servicesToMonitor[..i];
      ScheduleOne(repo, servicesToMonitor[i]);
      i := i + 1;
    }
    assert servicesToMonitor[..i] == servicesToMonitor;
  }

  // ---------------------------------------------------------------------
  // Properties of the startup schedule
  // ---------------------------------------------------------------------

  /** Every unit the forms offer, days included, gives a spec the cron parser accepts. */
  lemma ScheduleSpecAccepted(n: int, unit: string)
    requires unit in DurationUnits || unit == "d"
    ensures SpecAccepted(ScheduleSpec(n, unit))
  {
    if unit == "d" {
      EverySpecAccepted(n * 24, "h");
    } else {
      EverySpecAccepted(n, unit);
    }
  }

  /**
   * Days are scheduled only because StartMonitoring rewrites them: the
   * un-rewritten spec, which activating a single service hands the parser,
   * is rejected.
   */
  lemma DaysOnlyAtStartup(n: int)
    ensures SpecAccepted(ScheduleSpec(n, "d"))
    ensures !SpecAccepted(EverySpec(n, "d"))
  {
    ScheduleSpecAccepted(n, "d");
    EveryDaysRejected(n);
  }

  /** The payload names its host service, shows a time only after the cutoff, and the configured schedule. */
  lemma BootPayloadShape(x: HostService, next: int)
    ensures BootPayload(x, next).Keys == {"message", "host_service_id", "next_run", "host", "service", "last_run", "schedule"}
    ensures Atoi(BootPayload(x, next)["host_service_id"]) == Some(x.id)
    ensures BootPayload(x, next)["next_run"] == "Pending..." <==> next <= BootstrapCutoff
    ensures BootPayload(x, next)["last_run"] == "Pending..." <==> x.lastCheck <= BootstrapCutoff
    ensures next > BootstrapCutoff ==> BootPayload(x, next)["next_run"] == FormatTime(next)
    ensures x.scheduleUnit == "d" ==> BootPayload(x, next)["schedule"] != ScheduleSpec(x.scheduleNumber, x.scheduleUnit)
  {
    FormatTimeIsNotSentinel(next);
    FormatTimeIsNotSentinel(x.lastCheck);
    AtoiOfIntToString(x.id);
    if x.scheduleUnit == "d" {
      var shown := EverySpec(x.scheduleNumber, "d");
      var handed := EverySpec(x.scheduleNumber * 24, "h");
      assert shown[|shown| - 1] == 'd';
      assert handed[|handed| - 1] == 'h';
    }
  }

  /** How many of `xs` get a scheduler entry. */
  function AcceptedCount(xs: seq<HostService>, s: Startup): (n: nat)
    ensures n <= |xs|
    decreases |xs|
  {
    if xs == [] then 0
    else AcceptedCount(xs[..|xs| - 1], s) + (if Accepts(xs[|xs| - 1], s) then 1 else 0)
  }

  /** The next activation announced for `xs[i]`: that of the entry id it was given, or the zero time. */
  function AnnouncedNext(b: Boot, xs: seq<HostService>, i: nat, s: Startup): int
    requires i < |xs|
  {
    if Accepts(xs[i], s) then s.nextFire(b.nextID + AcceptedCount(xs[..i], s) + 1) else ZeroTime
  }

  /** The host service ids in `xs`. */
  function Ids(xs: seq<HostService>): (ids: set<int>)
    ensures forall x :: x in xs ==> x.id in ids
    decreases |xs|
  {
    if xs == [] then {} else Ids(xs[..|xs| - 1]) + {xs[|xs| - 1].id}
  }

  /** Each service is announced by a pair of pushes. */
  ghost predicate Paired(s: Startup)
  {
    forall x, t :: |s.announce(x, t)| == 2
  }

  lemma LivePaired(sched: Scheduler)
    ensures Paired(Live(sched))
    ensures forall x, t :: Live(sched).announce(x, t) == [NextRunNotice(x, t), ScheduledNotice(x, t)]
  {
  }

  /** Ids are handed out one per accepted service, and the pushes only ever append. */
  lemma {:induction false} BootAllCounts(b: Boot, xs: seq<HostService>, s: Startup)
    ensures BootAll(b, xs, s).nextID == b.nextID + AcceptedCount(xs, s)
    ensures Paired(s) ==> |BootAll(b, xs, s).outbox| == |b.outbox| + 2 * |xs|
    ensures b.outbox <= BootAll(b, xs, s).outbox
    decreases |xs|
  {
    if xs != [] {
      var n := |xs| - 1;
      BootAllCounts(b, xs[..n], s);
      var prev := BootAll(b, xs[..n], s);
      if Paired(s) {
        var t := if Accepts(xs[n], s) then s.nextFire(prev.nextID + 1) else ZeroTime;
        assert |s.announce(xs[n], t)| == 2;
        assert BootAll(b, xs, s).outbox == prev.outbox + s.announce(xs[n], t);
      }
    }
  }

  /** What is announced for an element does not depend on the services after it. */
  lemma AnnouncedNextOfPrefix(b: Boot, xs: seq<HostService>, m: nat, i: nat, s: Startup)
    requires i < m <= |xs|
    ensures AnnouncedNext(b, xs[..m], i, s) == AnnouncedNext(b, xs, i, s)
  {
    assert xs[..m][..i] == xs[..i];
    assert xs[..m][i] == xs[i];
  }

  /** `out` holds, from `k` on, the pair of pushes of each of `xs` in order. */
  ghost predicate NoticesFrom(out: seq<Notification>, k: nat, b: Boot, xs: seq<HostService>, s: Startup)
  {
    && Paired(s)
    && |out| == k + 2 * |xs|
    && forall i {:trigger AnnouncedNext(b, xs, i, s)} :: 0 <= i < |xs| ==>
         && out[k + 2 * i] == s.announce(xs[i], AnnouncedNext(b, xs, i, s))[0]
         && out[k + 2 * i + 1] == s.announce(xs[i], AnnouncedNext(b, xs, i, s))[1]
  }

  /** Appending the pair of one more service extends NoticesFrom by that service. */
  lemma NoticesFromExtend(out: seq<Notification>, k: nat, b: Boot, xs: seq<HostService>, s: Startup)
    requires Paired(s) && xs != []
    requires NoticesFrom(out, k, b, xs[..|xs| - 1], s)
    ensures NoticesFrom(out + s.announce(xs[|xs| - 1], AnnouncedNext(b, xs, |xs| - 1, s)), k, b, xs, s)
  {
    var n := |xs| - 1;
    var pair := s.announce(xs[n], AnnouncedNext(b, xs, n, s));
    var out' := out + pair;
    assert |pair| == 2 && |out| == k + 2 * n;
    forall i | 0 <= i < |xs|
      ensures out'[k + 2 * i] == s.announce(xs[i], AnnouncedNext(b, xs, i, s))[0]
      ensures out'[k + 2 * i + 1] == s.announce(xs[i], AnnouncedNext(b, xs, i, s))[1]
    {
      if i < n {
        AnnouncedNextOfPrefix(b, xs, n, i, s);
        assert xs[..n][i] == xs[i];
        assert out'[k + 2 * i] == out[k + 2 * i] && out'[k + 2 * i + 1] == out[k + 2 * i + 1];
      } else {
        assert out'[k + 2 * i] == pair[0] && out'[k + 2 * i + 1] == pair[1];
      }
    }
  }

  /**
   * The pushes come in list order, each pair announcing its service with
   * the next activation of the entry it was given (the zero time when none).
   */
  lemma {:induction false} BootAllNotices(b: Boot, xs: seq<HostService>, s: Startup)
    requires Paired(s)
    ensures NoticesFrom(BootAll(b, xs, s).outbox, |b.outbox|, b, xs, s)
    decreases |xs|
  {
    if xs != [] {
      var n := |xs| - 1;
      BootAllNotices(b, xs[..n], s);
      BootAllCounts(b, xs[..n], s);
      NoticesFromExtend(BootAll(b, xs[..n], s).outbox, |b.outbox|, b, xs, s);
    }
  }

  /** Every listed service has a MonitorMap slot afterwards, and the slots of others are untouched. */
  lemma {:induction false} BootAllSlots(b: Boot, xs: seq<HostService>, s: Startup)
    ensures var r := BootAll(b, xs, s);
      && r.monitorMap.Keys == b.monitorMap.Keys + Ids(xs)
      && forall k :: k in b.monitorMap && k !in Ids(xs) ==> r.monitorMap[k] == b.monitorMap[k]
    decreases |xs|
  {
    if xs != [] {
      BootAllSlots(b, xs[..|xs| - 1], s);
    }
  }

  /** When every spec parses, every listed service ends with a slot naming a live scheduler entry. */
  lemma {:induction false} BootAllScheduled(b: Boot, xs: seq<HostService>, s: Startup)
    requires forall x :: x in xs ==> Accepts(x, s)
    ensures var r := BootAll(b, xs, s);
      forall k :: k in Ids(xs) ==> k in r.monitorMap && r.monitorMap[k] in r.entries
    decreases |xs|
  {
    if xs != [] {
      var n := |xs| - 1;
      var init := xs[..n];
      assert forall x :: x in init ==> x in xs;
      BootAllScheduled(b, init, s);
      assert xs[n] in xs;
    }
  }

  /** The loop keeps every slot's entry, when it has one, an entry for that very host service. */
  lemma {:induction false} BootAllKeepsJobsMatch(b: Boot, xs: seq<HostService>, s: Startup)
    requires 0 <= b.nextID && (forall id :: id in b.entries ==> 0 < id <= b.nextID)
    requires JobsMatchIn(b.monitorMap, b.entries, b.nextID)
    ensures var r := BootAll(b, xs, s);
      && JobsMatchIn(r.monitorMap, r.entries, r.nextID)
      && 0 <= r.nextID && (forall id :: id in r.entries ==> 0 < id <= r.nextID)
    decreases |xs|
  {
    if xs != [] {
      var n := |xs| - 1;
      BootAllKeepsJobsMatch(b, xs[..n], s);
      var prev := BootAll(b, xs[..n], s);
      var x := xs[n];
      var spec := s.schedule(x);
      if s.parses(spec) {
        AddKeepsJobsMatch(prev.monitorMap, prev.entries, prev.nextID, CronEntry(x.id, spec));
      } else {
        RejectKeepsJobsMatch(prev.monitorMap, prev.entries, prev.nextID, x.id);
      }
    }
  }

  /**
   * With the real cron parser and the units the forms offer, StartMonitoring
   * leaves every listed service with a scheduled job that checks that service.
   */
  lemma StartedJobsAreOwn(b: Boot, xs: seq<HostService>, sched: Scheduler)
    requires sched.ParsesAsCron()
    requires forall x :: x in xs ==> x.scheduleUnit in DurationUnits || x.scheduleUnit == "d"
    requires 0 <= b.nextID && (forall id :: id in b.entries ==> 0 < id <= b.nextID)
    requires JobsMatchIn(b.monitorMap, b.entries, b.nextID)
    ensures var r := BootAll(b, xs, Live(sched));
      forall x :: x in xs ==>
        && x.id in r.monitorMap && r.monitorMap[x.id] in r.entries
        && r.entries[r.monitorMap[x.id]].hostServiceID == x.id
  {
    forall x | x in xs ensures Accepts(x, Live(sched)) {
      ScheduleSpecAccepted(x.scheduleNumber, x.scheduleUnit);
    }
    BootAllScheduled(b, xs, Live(sched));
    BootAllKeepsJobsMatch(b, xs, Live(sched));
  }
}
