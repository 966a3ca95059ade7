/**
 * The check coordinator and schedule registry of
 * internal/handlers/perform-checks.go. The application configuration
 * holds the preferences, the map from host service id to scheduler entry
 * id, the scheduler, and the outbox standing for the push client: every
 * `Trigger` call appends one notification to it (its error is only logged).
 * The clock is the parameter `now`; the network is the parameter `net`.
 */
module Handlers {
  import opened Text
  import opened Models
  import opened Repository
  import opened Cron
  import opened Probes

  class AppConfig {
    var preferenceMap: map<string, string>
    /** Host service id to scheduler entry id. */
    var monitorMap: map<int, int>
    const scheduler: Scheduler
    /** Every notification triggered so far, in order. */
    var outbox: seq<Notification>

    constructor (preferenceMap: map<string, string>, scheduler: Scheduler)
      ensures this.preferenceMap == preferenceMap && this.scheduler == scheduler
      ensures monitorMap == map[] && outbox == []
    {
      this.preferenceMap := preferenceMap;
      this.scheduler := scheduler;
      monitorMap := map[];
      outbox := [];
    }

    /** `PreferenceMap["monitoring_live"] == "1"`; a missing key reads as "". */
    predicate MonitoringLive()
      reads this
    {
      "monitoring_live" in preferenceMap && preferenceMap["monitoring_live"] == "1"
    }

    /**
     * Every slot of MonitorMap holds an id the scheduler has handed out (or
     * 0), and one that names a live entry names a job for that very host
     * service.
     */
    ghost predicate JobsMatch()
      reads this, scheduler
    {
      JobsMatchIn(monitorMap, scheduler.entries, scheduler.nextID)
    }

    /** `MonitorMap[id]`: entry id 0 for a host service that was never scheduled. */
    function MonitorEntry(id: int): (e: int)
      reads this
      ensures id !in monitorMap ==> e == 0
      ensures id in monitorMap ==> e == monitorMap[id]
    {
      if id in monitorMap then monitorMap[id] else 0
    }
  }

  ghost predicate JobsMatchIn(monitorMap: map<int, int>, entries: map<int, CronEntry>, nextID: int)
  {
    forall id :: id in monitorMap ==>
      && monitorMap[id] <= nextID
      && (monitorMap[id] in entries ==> entries[monitorMap[id]].hostServiceID == id)
  }

  /** Scheduling a fresh id for a host service and recording it in its slot keeps the jobs matched. */
  lemma AddKeepsJobsMatch(monitorMap: map<int, int>, entries: map<int, CronEntry>, nextID: int, e: CronEntry)
    requires JobsMatchIn(monitorMap, entries, nextID)
    ensures JobsMatchIn(monitorMap[e.hostServiceID := nextID + 1], entries[nextID + 1 := e], nextID + 1)
  {
  }

  /** Recording entry id 0 (a rejected spec) keeps the jobs matched: 0 is never an entry. */
  lemma RejectKeepsJobsMatch(monitorMap: map<int, int>, entries: map<int, CronEntry>, nextID: int, hostServiceID: int)
    requires JobsMatchIn(monitorMap, entries, nextID)
    requires 0 <= nextID && 0 !in entries
    ensures JobsMatchIn(monitorMap[hostServiceID := 0], entries, nextID)
  {
  }

  /** Dropping scheduler entries keeps the jobs matched. */
  lemma RemoveKeepsJobsMatch(monitorMap: map<int, int>, entries: map<int, CronEntry>, nextID: int, gone: int)
    requires JobsMatchIn(monitorMap, entries, nextID)
    ensures JobsMatchIn(monitorMap, entries - {gone}, nextID)
  {
  }

  // ---------------------------------------------------------------------
  // Payloads
  // ---------------------------------------------------------------------

  /** A timestamp shown only when after the cutoff; the sentinel otherwise. */
  function Stamp(t: int, cutoff: int, shown: string, sentinel: string): string
  {
    if t > cutoff then shown else sentinel
  }

  /** pushStatusChangedEvent's data; `last_run` shows the clock, not the stored check time. */
  function StatusChangedPayload(h: Host, hs: HostService, newStatus: string, now: int): map<string, string>
  {
    map[
      "host_id" := IntToString(hs.hostId),
      "host_service_id" := IntToString(hs.id),
      "host_name" := h.hostName,
      "service_name" := hs.service.serviceName,
      "icon" := hs.service.icon,
      "status" := newStatus,
      "message" := "host service " + hs.service.serviceName + " on " + h.hostName + " has changed to " + newStatus,
      "last_run" := Stamp(hs.lastCheck, StatusCutoff, FormatTime(now), "Pending")]
  }

  /** pushScheduleChangedEvent's data, given the scheduler's next activation for the entry. */
  function ScheduleChangedPayload(hs: HostService, newStatus: string, entryNext: int, now: int): map<string, string>
  {
    map[
      "host_service_id" := IntToString(hs.id),
      "service_id" := IntToString(hs.serviceId),
      "host_id" := IntToString(hs.hostId),
      "next_run" := Stamp(entryNext, StatusCutoff, FormatTime(entryNext), "Pending"),
      "last_run" := Stamp(hs.lastCheck, StatusCutoff, FormatTime(now), "Pending"),
      "host" := hs.hostName,
      "service" := hs.service.serviceName,
      "schedule" := EverySpec(hs.scheduleNumber, hs.scheduleUnit),
      "status" := newStatus,
      "icon" := hs.service.icon]
  }

  /** updateHostServiceStatusCount's data. */
  function CountsPayload(pending: int, healthy: int, warning: int, problem: int): map<string, string>
  {
    map[
      "healthy_count" := IntToString(healthy),
      "pending_count" := IntToString(pending),
      "problem_count" := IntToString(problem),
      "warning_count" := IntToString(warning)]
  }

  /** addToMonitorMap's data: `next_run` is always the sentinel, `last_run` never is. */
  function SchedulingPayload(hs: HostService): map<string, string>
  {
    map[
      "message" := "scheduling",
      "host_service_id" := IntToString(hs.id),
      "next_run" := "Pending",
      "service" := hs.service.serviceName,
      "host" := hs.hostName,
      "last_run" := FormatTime(hs.lastCheck),
      "schedule" := EverySpec(hs.scheduleNumber, hs.scheduleUnit)]
  }

  /** addToMonitorMap's payload, filled key by key. */
  method SchedulingData(hs: HostService) returns (data: map<string, string>)
    ensures data == SchedulingPayload(hs)
  {
    data := map[];
    data := data["message" := "scheduling"];
    data := data["host_service_id" := IntToString(hs.id)];
    data := data["next_run" := "Pending"];
    data := data["service" := hs.service.serviceName];
    data := data["host" := hs.hostName];
    data := data["last_run" := FormatTime(hs.lastCheck)];
    data := data["schedule" := EverySpec(hs.scheduleNumber, hs.scheduleUnit)];
  }

  /** The event testServiceForHost records; its host_service_id is the service id. */
  function CheckEvent(h: Host, hs: HostService, p: Probe): Event
  {
    Event(0, hs.serviceId, p.status, h.id, hs.service.serviceName, h.hostName, p.msg, ZeroTime, ZeroTime)
  }

  /** The record updateHostServiceStatusCount writes back. */
  function Checked(hs: HostService, newStatus: string, msg: string, now: int): HostService
  {
    hs.(status := newStatus, lastMessage := msg, lastCheck := now)
  }

  /** The outbox after a status-changed push, which happens exactly when the status moves. */
  function WithStatusNotice(out: seq<Notification>, h: Host, hs: HostService, newStatus: string, now: int)
    : (r: seq<Notification>)
    ensures |r| == |out| + (if hs.status != newStatus then 1 else 0)
    ensures out <= r
  {
    if hs.status != newStatus
    then out + [Notification(PublicChannel, "host-service-status-changed", StatusChangedPayload(h, hs, newStatus, now))]
    else out
  }

  /** The schedule-changed push that testServiceForHost always makes. */
  function ScheduleNotice(hs: HostService, newStatus: string, next: int, now: int): Notification
  {
    Notification(PublicChannel, "schedule-changed-event", ScheduleChangedPayload(hs, newStatus, next, now))
  }

  /** The events table after testServiceForHost's insert: one row when the status moves and the insert succeeds. */
  function WithCheckEvent(events: seq<Event>, h: Host, hs: HostService, p: Probe, failing: set<Op>, nextEventId: int, now: int)
    : (r: seq<Event>)
    ensures |r| == |events| + (if hs.status != p.status && InsertEventOp !in failing then 1 else 0)
    ensures events <= r
  {
    if hs.status != p.status && InsertEventOp !in failing
    then events + [Stored(CheckEvent(h, hs, p), nextEventId, now)]
    else events
  }

  /** The outbox after updateHostServiceStatusCount's push of the counts over `rows`: none when the counts fail. */
  function WithCountNotice(out: seq<Notification>, rows: seq<HostServiceRow>, failing: set<Op>): (r: seq<Notification>)
    ensures |r| == |out| + (if CountsOp in failing then 0 else 1)
    ensures out <= r
  {
    if CountsOp in failing then out
    else out + [Notification(PublicChannel, "host-service-count-changed",
                  CountsPayload(CountActive(rows, Pending), CountActive(rows, Healthy),
                                CountActive(rows, Warning), CountActive(rows, Problem)))]
  }

  /** TestCheck's JSON response. */
  datatype JsonResp = JsonResp(
    ok: bool, message: string, serviceID: int, hostServiceID: int, hostID: int,
    oldStatus: string, newStatus: string, lastCheck: int)

  const FailedResp := JsonResp(false, "Something went wrong", 0, 0, 0, "", "", ZeroTime)

  // ---------------------------------------------------------------------
  // Facts about the payloads
  // ---------------------------------------------------------------------

  /** The sentinel is shown exactly when the timestamp is not after the cutoff. */
  lemma StampIsSentinel(t: int, cutoff: int, sentinel: string, shown: string)
    requires shown != sentinel
    ensures Stamp(t, cutoff, shown, sentinel) == sentinel <==> t <= cutoff
  {
  }

  lemma StatusChangedPayloadShape(h: Host, hs: HostService, newStatus: string, now: int)
    ensures var d := StatusChangedPayload(h, hs, newStatus, now);
      && d.Keys == {"host_id", "host_service_id", "host_name", "service_name", "icon", "status", "message", "last_run"}
      && Atoi(d["host_id"]) == Some(hs.hostId) && Atoi(d["host_service_id"]) == Some(hs.id)
      && d["status"] == newStatus
      && (d["last_run"] == "Pending" <==> hs.lastCheck <= StatusCutoff)
  {
    AtoiOfIntToString(hs.hostId);
    AtoiOfIntToString(hs.id);
    FormatTimeIsNotSentinel(now);
  }

  lemma ScheduleChangedPayloadShape(hs: HostService, newStatus: string, entryNext: int, now: int)
    ensures var d := ScheduleChangedPayload(hs, newStatus, entryNext, now);
      && d.Keys == {"host_service_id", "service_id", "host_id", "next_run", "last_run", "host", "service",
                    "schedule", "status", "icon"}
      && Atoi(d["host_service_id"]) == Some(hs.id) && Atoi(d["service_id"]) == Some(hs.serviceId)
      && Atoi(d["host_id"]) == Some(hs.hostId)
      && (d["next_run"] == "Pending" <==> entryNext <= StatusCutoff)
      && (d["last_run"] == "Pending" <==> hs.lastCheck <= StatusCutoff)
      && d["schedule"] == "@every " + IntToString(hs.scheduleNumber) + hs.scheduleUnit
  {
    AtoiOfIntToString(hs.id);
    AtoiOfIntToString(hs.serviceId);
    AtoiOfIntToString(hs.hostId);
    FormatTimeIsNotSentinel(now);
    FormatTimeIsNotSentinel(entryNext);
  }

  /** The counts go out as decimal text that reads back as the counts. */
  lemma CountsPayloadRoundTrip(pending: int, healthy: int, warning: int, problem: int)
    ensures var d := CountsPayload(pending, healthy, warning, problem);
      && d.Keys == {"healthy_count", "pending_count", "problem_count", "warning_count"}
      && Atoi(d["pending_count"]) == Some(pending) && Atoi(d["healthy_count"]) == Some(healthy)
      && Atoi(d["warning_count"]) == Some(warning) && Atoi(d["problem_count"]) == Some(problem)
  {
    AtoiOfIntToString(pending);
    AtoiOfIntToString(healthy);
    AtoiOfIntToString(warning);
    AtoiOfIntToString(problem);
  }

  lemma SchedulingPayloadShape(hs: HostService)
    ensures var d := SchedulingPayload(hs);
      && d.Keys == {"message", "host_service_id", "next_run", "service", "host", "last_run", "schedule"}
      && d["next_run"] == "Pending" && d["last_run"] != "Pending"
      && Atoi(d["host_service_id"]) == Some(hs.id)
  {
    AtoiOfIntToString(hs.id);
    FormatTimeIsNotSentinel(hs.lastCheck);
  }

  // ---------------------------------------------------------------------
  // The repository object of the handlers
  // ---------------------------------------------------------------------

  class DBRepo {
    const app: AppConfig
    const db: Db

    ghost predicate Valid()
      reads this, app, app.scheduler, db
    {
      db.Valid() && app.scheduler.Valid()
    }

    constructor (app: AppConfig, db: Db)
      ensures this.app == app && this.db == db
    {
      this.app := app;
      this.db := db;
    }

    /** The scheduler's next activation for a host service, through MonitorMap. */
    function NextRun(hostServiceID: int): int
      reads this, app, app.scheduler
    {
      app.scheduler.EntryNext(app.MonitorEntry(hostServiceID))
    }

    /**
     * What ScheduledCheck and TestCheck load: the host service by id, then
     * the host of whatever record came back, and whether both loads succeeded.
     */
    function Loaded(hostServiceID: int): (HostService, Host, bool)
      reads this, db
    {
      var (hs, e1) := db.GetHostServiceByID(hostServiceID);
      var (h, e2) := HostByID(db.hosts, db.services, db.hostServices, db.failing, hs.hostId);
      (hs, h, e1.None? && e2.None?)
    }

    /** The two loads that open a check; nothing changes. */
    method LoadCheck(hostServiceID: int) returns (hs: HostService, h: Host, loaded: bool)
      ensures (hs, h, loaded) == Loaded(hostServiceID)
    {
      var loadedHs := db.GetHostServiceByID(hostServiceID);
      hs := loadedHs.0;
      var e1 := loadedHs.1;
      var e2;
      h, e2 := db.GetHostByID(hs.hostId);
      loaded := e1.None? && e2.None?;
    }

    /** broadcastMessage / Trigger */
    method Broadcast(channel: string, event: string, data: map<string, string>)
      modifies app
      ensures app.outbox == old(app.outbox) + [Notification(channel, event, data)]
      ensures app.preferenceMap == old(app.preferenceMap) && app.monitorMap == old(app.monitorMap)
    {
      app.outbox := app.outbox + [Notification(channel, event, data)];
    }

    method PushStatusChangedEvent(h: Host, hs: HostService, newStatus: string, now: int)
      modifies app
      ensures app.outbox == old(app.outbox)
        + [Notification(PublicChannel, "host-service-status-changed", StatusChangedPayload(h, hs, newStatus, now))]
      ensures app.preferenceMap == old(app.preferenceMap) && app.monitorMap == old(app.monitorMap)
    {
      var data: map<string, string> := map[];
      data := data["host_id" := IntToString(hs.hostId)];
      data := data["host_service_id" := IntToString(hs.id)];
      data := data["host_name" := h.hostName];
      data := data["service_name" := hs.service.serviceName];
      data := data["icon" := hs.service.icon];
      data := data["status" := newStatus];
      data := data["message" := "host service " + hs.service.serviceName + " on " + h.hostName + " has changed to " + newStatus];
      if hs.lastCheck > StatusCutoff {
        data := data["last_run" := FormatTime(now)];
      } else {
        data := data["last_run" := "Pending"];
      }
      Broadcast(PublicChannel, "host-service-status-changed", data);
    }

    method PushScheduleChangedEvent(hs: HostService, newStatus: string, now: int)
      modifies app
      ensures app.outbox == old(app.outbox)
        + [Notification(PublicChannel, "schedule-changed-event",
                        ScheduleChangedPayload(hs, newStatus, old(NextRun(hs.id)), now))]
      ensures app.preferenceMap == old(app.preferenceMap) && app.monitorMap == old(app.monitorMap)
    {
      var data: map<string, string> := map[];
      data := data["host_service_id" := IntToString(hs.id)];
      data := data["service_id" := IntToString(hs.serviceId)];
      data := data["host_id" := IntToString(hs.hostId)];
      var next := app.scheduler.EntryNext(app.MonitorEntry(hs.id));
      if next > StatusCutoff {
        data := data["next_run" := FormatTime(next)];
      } else {
        data := data["next_run" := "Pending"];
      }
      if hs.lastCheck > StatusCutoff {
        data := data["last_run" := FormatTime(now)];
      } else {
        data := data["last_run" := "Pending"];
      }
      data := data["host" := hs.hostName];
      data := data["service" := hs.service.serviceName];
      data := data["schedule" := EverySpec(hs.scheduleNumber, hs.scheduleUnit)];
      data := data["status" := newStatus];
      data := data["icon" := hs.service.icon];
      Broadcast(PublicChannel, "schedule-changed-event", data);
    }

    /**
     * testServiceForHost: probe, then a status-changed push and an event
     * exactly when the status differs, then a schedule-changed push always.
     * Returns (newStatus, msg).
     */
    method TestServiceForHost(h: Host, hs: HostService, net: Network, now: int) returns (newStatus: string, msg: string)
      requires Valid()
      modifies app, db
      ensures Valid()
      ensures var p := TestService(hs.serviceId, h.url, net);
        && newStatus == p.status && msg == p.msg
        && app.outbox == WithStatusNotice(old(app.outbox), h, hs, newStatus, now)
                          + [ScheduleNotice(hs, newStatus, old(NextRun(hs.id)), now)]
        && db.events == WithCheckEvent(old(db.events), h, hs, p, db.failing, old(db.nextEventId), now)
        && db.nextEventId == old(db.nextEventId) + (|db.events| - |old(db.events)|)
      ensures app.preferenceMap == old(app.preferenceMap) && app.monitorMap == old(app.monitorMap)
      ensures db.hosts == old(db.hosts) && db.services == old(db.services) && db.hostServices == old(db.hostServices)
      ensures db.failing == old(db.failing) && db.nextHostServiceId == old(db.nextHostServiceId)
      ensures db.nextHostId == old(db.nextHostId)
    {
      var p := TestService(hs.serviceId, h.url, net);
      newStatus, msg := p.status, p.msg;
      ghost var next := NextRun(hs.id);
      if hs.status != newStatus {
        PushStatusChangedEvent(h, hs, newStatus, now);
        var _ := db.InsertEvent(CheckEvent(h, hs, p), now);
      }
      assert NextRun(hs.id) == next;
      PushScheduleChangedEvent(hs, newStatus, now);
    }

    /**
     * updateHostServiceStatusCount: write status, message and check time;
     * on success broadcast the fresh counts, unless reading them fails.
     */
    method UpdateHostServiceStatusCount(h: Host, hs: HostService, newStatus: string, msg: string, now: int)
      requires Valid()
      modifies app, db
      ensures Valid()
      ensures UpdateHostServiceOp in db.failing ==>
        db.hostServices == old(db.hostServices) && app.outbox == old(app.outbox)
      ensures UpdateHostServiceOp !in db.failing ==>
        && db.hostServices == WithHostService(old(db.hostServices), Checked(hs, newStatus, msg, now))
        && app.outbox == WithCountNotice(old(app.outbox), db.hostServices, db.failing)
      ensures app.preferenceMap == old(app.preferenceMap) && app.monitorMap == old(app.monitorMap)
      ensures db.hosts == old(db.hosts) && db.services == old(db.services) && db.events == old(db.events)
      ensures db.failing == old(db.failing) && db.nextHostServiceId == old(db.nextHostServiceId)
      ensures db.nextEventId == old(db.nextEventId) && db.nextHostId == old(db.nextHostId)
    {
      var updated := hs.(status := newStatus);
      updated := updated.(lastMessage := msg);
      updated := updated.(lastCheck := now);
      var err := db.UpdateHostService(updated);
      if err.Some? {
        return;
      }
      var (pending, healthy, warning, problem, err') := db.GetAllServiceStatusCounts();
      if err'.Some? {
        return;
      }
      var data: map<string, string> := map[];
      data := data["healthy_count" := IntToString(healthy)];
      data := data["pending_count" := IntToString(pending)];
      data := data["problem_count" := IntToString(problem)];
      data := data["warning_count" := IntToString(warning)];
      Broadcast(PublicChannel, "host-service-count-changed", data);
    }

    /**
     * ScheduledCheck: load the host service and its host (aborting on
     * either error), probe, and write back only when the status changed.
     */
    method ScheduledCheck(hostServiceID: int, net: Network, now: int)
      requires Valid()
      modifies app, db
      ensures Valid()
      ensures var (hs, h, loaded) := old(Loaded(hostServiceID));
        var p := TestService(hs.serviceId, h.url, net);
        && (!loaded ==>
              db.hostServices == old(db.hostServices) && db.events == old(db.events) && app.outbox == old(app.outbox))
        && (loaded && p.status == hs.status ==> db.hostServices == old(db.hostServices))
        && (loaded && p.status != hs.status && UpdateHostServiceOp !in db.failing ==>
              db.hostServices == WithHostService(old(db.hostServices), Checked(hs, p.status, p.msg, now)))
        && (loaded && p.status != hs.status && UpdateHostServiceOp in db.failing ==>
              db.hostServices == old(db.hostServices))
        && (loaded ==>
              var tested := WithStatusNotice(old(app.outbox), h, hs, p.status, now)
                            + [ScheduleNotice(hs, p.status, old(NextRun(hs.id)), now)];
              app.outbox == if p.status != hs.status && UpdateHostServiceOp !in db.failing
                            then WithCountNotice(tested, db.hostServices, db.failing) else tested)
        && (loaded ==> db.events == WithCheckEvent(old(db.events), h, hs, p, db.failing, old(db.nextEventId), now))
      ensures app.preferenceMap == old(app.preferenceMap) && app.monitorMap == old(app.monitorMap)
      ensures db.hosts == old(db.hosts) && db.services == old(db.services) && db.failing == old(db.failing)
      ensures db.nextHostId == old(db.nextHostId) && db.nextHostServiceId == old(db.nextHostServiceId)
      ensures db.nextEventId == old(db.nextEventId) + (|db.events| - |old(db.events)|)
    {
      var hs, h, loaded := LoadCheck(hostServiceID);
      if !loaded {
        return;
      }
      var newStatus, msg := TestServiceForHost(h, hs, net, now);
      if newStatus != hs.status {
        UpdateHostServiceStatusCount(h, hs, newStatus, msg, now);
      }
    }

    /**
     * TestCheck's probe: testServiceForHost, then the status-changed push
     * and the event once more when the status moved.
     */
    method ProbeTwice(h: Host, hs: HostService, net: Network, now: int) returns (newStatus: string, msg: string)
      requires Valid()
      modifies app, db
      ensures Valid()
      ensures var p := TestService(hs.serviceId, h.url, net);
        && newStatus == p.status && msg == p.msg
        && app.outbox == WithStatusNotice(WithStatusNotice(old(app.outbox), h, hs, newStatus, now)
                                           + [ScheduleNotice(hs, newStatus, old(NextRun(hs.id)), now)], h, hs, newStatus, now)
        && db.events == WithCheckEvent(WithCheckEvent(old(db.events), h, hs, p, db.failing, old(db.nextEventId), now),
                                       h, hs, p, db.failing, old(db.nextEventId) + 1, now)
      ensures app.preferenceMap == old(app.preferenceMap) && app.monitorMap == old(app.monitorMap)
      ensures db.hosts == old(db.hosts) && db.services == old(db.services) && db.hostServices == old(db.hostServices)
      ensures db.failing == old(db.failing) && db.nextHostServiceId == old(db.nextHostServiceId)
      ensures db.nextHostId == old(db.nextHostId)
      ensures db.nextEventId == old(db.nextEventId) + (|db.events| - |old(db.events)|)
    {
      newStatus, msg := TestServiceForHost(h, hs, net, now);
      RepeatStatusChange(h, hs, Probe(msg, newStatus), now);
    }

    /** The second status-changed push and event of TestCheck, made when the status moved. */
    method RepeatStatusChange(h: Host, hs: HostService, p: Probe, now: int)
      requires Valid()
      modifies app, db
      ensures Valid()
      ensures app.outbox == WithStatusNotice(old(app.outbox), h, hs, p.status, now)
      ensures db.events == WithCheckEvent(old(db.events), h, hs, p, db.failing, old(db.nextEventId), now)
      ensures db.nextEventId == old(db.nextEventId) + (|db.events| - |old(db.events)|)
      ensures app.preferenceMap == old(app.preferenceMap) && app.monitorMap == old(app.monitorMap)
      ensures db.hosts == old(db.hosts) && db.services == old(db.services) && db.hostServices == old(db.hostServices)
      ensures db.failing == old(db.failing) && db.nextHostServiceId == old(db.nextHostServiceId)
      ensures db.nextHostId == old(db.nextHostId)
    {
      if p.status != hs.status {
        PushStatusChangedEvent(h, hs, p.status, now);
        var _ := db.InsertEvent(CheckEvent(h, hs, p), now);
      }
    }

    /**
     * TestCheck: the manual check. Loads never abort it; the probe runs on
     * whatever was loaded; a changed status is pushed and recorded a second
     * time after testServiceForHost already did; the record is always
     * written back with the clock as check and update time.
     */
    method TestCheck(idParam: string, oldStatus: string, net: Network, now: int) returns (resp: JsonResp)
      requires Valid()
      modifies app, db
      ensures Valid()
      ensures var (hs, h, loaded) := old(Loaded(if Atoi(idParam).Some? then Atoi(idParam).value else 0));
        var p := TestService(hs.serviceId, h.url, net);
        var written := hs.(status := p.status, lastMessage := p.msg, lastCheck := now, updatedAt := now);
        var okay := loaded && UpdateHostServiceOp !in db.failing;
        && (UpdateHostServiceOp !in db.failing ==> db.hostServices == WithHostService(old(db.hostServices), written))
        && (UpdateHostServiceOp in db.failing ==> db.hostServices == old(db.hostServices))
        && (okay ==> resp == JsonResp(true, p.msg, hs.serviceId, hs.id, hs.hostId, oldStatus, p.status, now))
        && (!okay ==> resp == FailedResp)
      ensures var (hs, h, loaded) := old(Loaded(if Atoi(idParam).Some? then Atoi(idParam).value else 0));
        var p := TestService(hs.serviceId, h.url, net);
        app.outbox == WithStatusNotice(WithStatusNotice(old(app.outbox), h, hs, p.status, now)
                                       + [ScheduleNotice(hs, p.status, old(NextRun(hs.id)), now)], h, hs, p.status, now)
      ensures var (hs, h, loaded) := old(Loaded(if Atoi(idParam).Some? then Atoi(idParam).value else 0));
        var p := TestService(hs.serviceId, h.url, net);
        db.events == WithCheckEvent(WithCheckEvent(old(db.events), h, hs, p, db.failing, old(db.nextEventId), now),
                                    h, hs, p, db.failing, old(db.nextEventId) + 1, now)
      ensures app.preferenceMap == old(app.preferenceMap) && app.monitorMap == old(app.monitorMap)
      ensures db.hosts == old(db.hosts) && db.services == old(db.services) && db.failing == old(db.failing)
      ensures db.nextHostId == old(db.nextHostId) && db.nextHostServiceId == old(db.nextHostServiceId)
      ensures db.nextEventId == old(db.nextEventId) + (|db.events| - |old(db.events)|)
    {
      var hostServiceID := if Atoi(idParam).Some? then Atoi(idParam).value else 0;
      resp := CheckById(hostServiceID, oldStatus, net, now);
    }

    /** TestCheck once the id is parsed: everything after `strconv.Atoi`. */
    method CheckById(hostServiceID: int, oldStatus: string, net: Network, now: int) returns (resp: JsonResp)
      requires Valid()
      modifies app, db
      ensures Valid()
      ensures var (hs, h, loaded) := old(Loaded(hostServiceID));
        var p := TestService(hs.serviceId, h.url, net);
        var written := hs.(status := p.status, lastMessage := p.msg, lastCheck := now, updatedAt := now);
        var okay := loaded && UpdateHostServiceOp !in db.failing;
        && (UpdateHostServiceOp !in db.failing ==> db.hostServices == WithHostService(old(db.hostServices), written))
        && (UpdateHostServiceOp in db.failing ==> db.hostServices == old(db.hostServices))
        && (okay ==> resp == JsonResp(true, p.msg, hs.serviceId, hs.id, hs.hostId, oldStatus, p.status, now))
        && (!okay ==> resp == FailedResp)
      ensures var (hs, h, loaded) := old(Loaded(hostServiceID));
        var p := TestService(hs.serviceId, h.url, net);
        app.outbox == WithStatusNotice(WithStatusNotice(old(app.outbox), h, hs, p.status, now)
                                       + [ScheduleNotice(hs, p.status, old(NextRun(hs.id)), now)], h, hs, p.status, now)
      ensures var (hs, h, loaded) := old(Loaded(hostServiceID));
        var p := TestService(hs.serviceId, h.url, net);
        db.events == WithCheckEvent(WithCheckEvent(old(db.events), h, hs, p, db.failing, old(db.nextEventId), now),
                                    h, hs, p, db.failing, old(db.nextEventId) + 1, now)
      ensures app.preferenceMap == old(app.preferenceMap) && app.monitorMap == old(app.monitorMap)
      ensures db.hosts == old(db.hosts) && db.services == old(db.services) && db.failing == old(db.failing)
      ensures db.nextHostId == old(db.nextHostId) && db.nextHostServiceId == old(db.nextHostServiceId)
      ensures db.nextEventId == old(db.nextEventId) + (|db.events| - |old(db.events)|)
    {
      var hs, h, okay := LoadCheck(hostServiceID);
      var newStatus, msg := ProbeTwice(h, hs, net, now);
      resp := WriteBack(hs, newStatus, msg, okay, oldStatus, now);
    }

    /** TestCheck's ending: write the record back with the clock, then answer. */
    method WriteBack(hs: HostService, newStatus: string, msg: string, loaded: bool, oldStatus: string, now: int)
      returns (resp: JsonResp)
      requires Valid()
      modifies db
      ensures Valid()
      ensures var written := hs.(status := newStatus, lastMessage := msg, lastCheck := now, updatedAt := now);
        && (UpdateHostServiceOp !in db.failing ==> db.hostServices == WithHostService(old(db.hostServices), written))
        && (UpdateHostServiceOp in db.failing ==> db.hostServices == old(db.hostServices))
      ensures loaded && UpdateHostServiceOp !in db.failing ==>
        resp == JsonResp(true, msg, hs.serviceId, hs.id, hs.hostId, oldStatus, newStatus, now)
      ensures !(loaded && UpdateHostServiceOp !in db.failing) ==> resp == FailedResp
      ensures db.hosts == old(db.hosts) && db.services == old(db.services) && db.events == old(db.events)
      ensures db.failing == old(db.failing) && db.nextHostServiceId == old(db.nextHostServiceId)
      ensures db.nextHostId == old(db.nextHostId) && db.nextEventId == old(db.nextEventId)
    {
      var okay := loaded;
      var updated := hs.(status := newStatus);
      updated := updated.(lastMessage := msg);
      updated := updated.(lastCheck := now);
      updated := updated.(updatedAt := now);
      var err := db.UpdateHostService(updated);
      if err.Some? {
        okay := false;
      }
      if okay {
        resp := JsonResp(true, msg, updated.serviceId, updated.id, updated.hostId, oldStatus, newStatus, now);
      } else {
        resp := FailedResp;
      }
    }

    /**
     * addToMonitorMap: only with monitoring live; the spec is not
     * normalised, a rejected spec changes nothing, and the slot is
     * overwritten without removing the entry it held.
     */
    method AddToMonitorMap(hs: HostService)
      requires app.scheduler.Valid()
      modifies app, app.scheduler
      ensures app.scheduler.Valid()
      ensures !old(app.MonitoringLive()) || !app.scheduler.parses(EverySpec(hs.scheduleNumber, hs.scheduleUnit)) ==>
        && app.monitorMap == old(app.monitorMap) && app.outbox == old(app.outbox)
        && app.scheduler.entries == old(app.scheduler.entries) && app.scheduler.nextID == old(app.scheduler.nextID)
      ensures old(app.MonitoringLive()) && app.scheduler.parses(EverySpec(hs.scheduleNumber, hs.scheduleUnit)) ==>
        var id := old(app.scheduler.nextID) + 1;
        && app.scheduler.nextID == id
        && id !in old(app.scheduler.entries)
        && app.scheduler.entries == old(app.scheduler.entries)[id := CronEntry(hs.id, EverySpec(hs.scheduleNumber, hs.scheduleUnit))]
        && app.monitorMap == old(app.monitorMap)[hs.id := id]
      ensures old(app.MonitoringLive()) && app.scheduler.parses(EverySpec(hs.scheduleNumber, hs.scheduleUnit)) ==>
        app.outbox == old(app.outbox) + [Notification(PublicChannel, "schedule-changed-event", SchedulingPayload(hs))]
      ensures app.preferenceMap == old(app.preferenceMap)
      ensures old(app.JobsMatch()) ==> app.JobsMatch()
    {
      if !app.MonitoringLive() {
        return;
      }
      var schedule := EverySpec(hs.scheduleNumber, hs.scheduleUnit);
      var scheduleID, failed := app.scheduler.AddJob(schedule, hs.id);
      if failed {
        return;
      }
      RecordJob(hs, scheduleID);
      if old(app.JobsMatch()) {
        AddKeepsJobsMatch(old(app.monitorMap), old(app.scheduler.entries), old(app.scheduler.nextID), CronEntry(hs.id, schedule));
      }
    }

    /** addToMonitorMap after a successful AddJob: remember the entry id and announce it. */
    method RecordJob(hs: HostService, scheduleID: int)
      requires app.scheduler.Valid()
      requires scheduleID == app.scheduler.nextID && scheduleID in app.scheduler.entries
      requires app.scheduler.entries[scheduleID].hostServiceID == hs.id
      modifies app
      ensures app.scheduler.Valid()
      ensures app.monitorMap == old(app.monitorMap)[hs.id := scheduleID]
      ensures app.outbox == old(app.outbox) + [Notification(PublicChannel, "schedule-changed-event", SchedulingPayload(hs))]
      ensures app.preferenceMap == old(app.preferenceMap)
    {
      app.monitorMap := app.monitorMap[hs.id := scheduleID];
      var data := SchedulingData(hs);
      Broadcast(PublicChannel, "schedule-changed-event", data);
    }

    /** removeFromMonitorMap: removes the scheduler entry but keeps the MonitorMap key. */
    method RemoveFromMonitorMap(hs: HostService)
      requires app.scheduler.Valid()
      modifies app, app.scheduler
      ensures app.scheduler.Valid()
      ensures app.monitorMap == old(app.monitorMap) && app.preferenceMap == old(app.preferenceMap)
      ensures app.scheduler.nextID == old(app.scheduler.nextID)
      ensures !old(app.MonitoringLive()) ==>
        app.outbox == old(app.outbox) && app.scheduler.entries == old(app.scheduler.entries)
      ensures old(app.MonitoringLive()) ==>
        && app.scheduler.entries == old(app.scheduler.entries) - {old(app.MonitorEntry(hs.id))}
        && app.outbox == old(app.outbox)
             + [Notification(PublicChannel, "schedule-item-removed-event", map["host_service_id" := IntToString(hs.id)])]
      ensures old(app.JobsMatch()) ==> app.JobsMatch()
    {
      if app.MonitoringLive() {
        app.scheduler.Remove(app.MonitorEntry(hs.id));
        if old(app.JobsMatch()) {
          RemoveKeepsJobsMatch(app.monitorMap, old(app.scheduler.entries), app.scheduler.nextID, old(app.MonitorEntry(hs.id)));
        }
        var data: map<string, string> := map[];
        data := data["host_service_id" := IntToString(hs.id)];
        Broadcast(PublicChannel, "schedule-item-removed-event", data);
      }
    }
  }
}
