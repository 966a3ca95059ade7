# go-watch monitoring core, modelled in Dafny

go-watch watches hosts. Each host carries host services (an HTTP, HTTPS or
SSL-certificate check with a schedule such as "every 3 minutes"). A cron
scheduler runs each check. When a check changes a host service's status,
go-watch records the status in PostgreSQL, stores an event and pushes
notifications to browser clients.

This project models four parts of that system:

- **The check engine** (`internal/handlers/perform-checks.go`):
  ScheduledCheck, TestCheck and testServiceForHost. It also covers the
  HTTP/HTTPS/SSL probes and the three push payloads, plus the schedule
  registry addToMonitorMap / removeFromMonitorMap.
- **Start-up scheduling** (`internal/handlers/start-monitoring.go`):
  StartMonitoring and job.Run.
- **The schedule page** (`internal/handlers/schedule.go`): ByHost and
  ListEntries.
- **The repository** (`internal/repository/dbrepo/host_postgresql.go`): the
  four tables hosts, services, host_services and events, and every query
  the core uses.

The modules follow that layout:

- `Text`: strconv.Itoa/Atoi, the `strings` helpers, and byte-wise string order.
- `Models`: the records, and time as nanoseconds since 0001-01-01 UTC, so Go's zero time is 0.
- `Sorting`: a stable insertion sort standing for SQL `ORDER BY`.
- `Cron`: the robfig/cron scheduler as a class, and which `@every` specs parse.
- `Repository` and `RepositoryFacts`: the tables as a class `Db`, and the facts about its queries.
- `Probes`: the three checks as pure functions of the network's answer.
- `Handlers`: `AppConfig` and `DBRepo` as classes.
- `Monitoring`: start-up scheduling.
- `Schedule`: the schedule page.

Go's receivers stay receivers where the source type is modelled as a class
(`DBRepo`, `Db`, `Scheduler`). StartMonitoring, job.Run and ListEntries take
the repository as their first parameter.

Inputs stand for the environment:

- The clock is the parameter `now`.
- The network is a `Network` value: the HTTP answer for a URL, and the certificate scan for a host.
- The cron parser is the scheduler's `parses` function. `ParsesAsCron` says it decides exactly `SpecAccepted`.
- The next activation time is the scheduler's `nextFire` function.
- Database faults are a set `failing` of operations that return a transient error.
- The Pusher client is an `outbox` that every `Trigger` call appends to.

Where the code and its documentation differ, the model follows the code:

- addToMonitorMap does not rewrite a `d` unit into hours, so a day schedule added after start-up is rejected by the parser and never scheduled.
- addToMonitorMap formats LastCheck unconditionally.
- A failed certificate scan leaves both the message and the status empty.
- TestCheck pushes the status-changed notification and stores the event twice, because testServiceForHost already does both.
- StartMonitoring records `MonitorMap[id] = 0` even when AddJob fails.

The main results:

- **StartMonitoring** leaves the registry in the state given by a fold over
  the rows GetServicesToMonitor returned. With the real parser, every started
  host service gets a slot naming a live job for that same host service, and
  the outbox grows by the start notice plus two notices per row, in row order.
- **The schedule registry invariant `JobsMatch`** is preserved by
  StartMonitoring, addToMonitorMap and removeFromMonitorMap. It says every
  MonitorMap slot names an id the scheduler handed out, and a live entry it
  names runs that very host service.
- **ScheduledCheck** writes the database only on a status change. A
  notification of the new counts follows a successful write.
- **The repository queries** return exactly the rows their SQL selects, in
  the order it asks for, and stop at the first row with a NULL join.
- **The payloads** carry ids that Atoi reads back, and show the "Pending"
  sentinels exactly when the time is before the cutoff.
- **The schedule page** lists one item per MonitorMap slot, sorted by host,
  or nothing when a lookup fails.

## Model

| member | source | states |
|---|---|---|
| Text.IntToString | internal/handlers/perform-checks.go:79-82 | strconv.Itoa writes at least one digit, led by a minus sign exactly for negative numbers |
| Text.AtoiOfIntToString | internal/handlers/perform-checks.go:97 | strconv.Atoi reads back every number strconv.Itoa wrote (round trip) |
| Text.IntToStringInjective | internal/handlers/perform-checks.go:222-223 | distinct ids are rendered as distinct strings |
| Text.TrimSuffix | internal/handlers/perform-checks.go:269-271 | strings.TrimSuffix drops the suffix exactly when it is there, and only it |
| Text.ReplaceAllRemoves | internal/handlers/perform-checks.go:272 | after replacing every "https://" by "http://" (or back), no occurrence of the replaced prefix is left |
| Text.ReplaceAllAbsent | internal/handlers/perform-checks.go:318-323 | replacing a pattern that does not occur leaves the text unchanged |
| Text.StrLessIrreflexive | internal/handlers/schedule.go:21 | Go's `<` on strings is irreflexive |
| Text.StrLessTransitive | internal/handlers/schedule.go:21 | Go's `<` on strings is transitive |
| Text.StrLessTrichotomy | internal/handlers/schedule.go:21 | any two strings are equal or ordered one way by `<` |
| Text.StrLessEqTotalOrder | internal/repository/dbrepo/host_postgresql.go:218 | byte-wise `<=` is a total order, the one ORDER BY on a text column is taken to use |
| Models.FormatTime | internal/handlers/perform-checks.go:230 | a formatted time is a non-empty text starting with a digit or a sign |
| Models.FormatTimeInjective | internal/handlers/perform-checks.go:248 | distinct instants format differently |
| Models.FormatTimeIsNotSentinel | internal/handlers/start-monitoring.go:77-82 | no formatted time reads as "Pending" or "Pending...", so the sentinel reveals the branch taken |
| Sorting.Filter | internal/repository/dbrepo/host_postgresql.go:461-480 | a WHERE clause keeps only rows of the table that satisfy it, and every row that does, never more rows than the table; the order, table order, comes from its definition and is not stated by its contract |
| Sorting.SortBy | internal/repository/dbrepo/host_postgresql.go:338 | ORDER BY returns a permutation of its rows |
| Sorting.SortBySorted | internal/repository/dbrepo/host_postgresql.go:338 | with a total preorder, ORDER BY returns its rows sorted and permuted |
| Sorting.InsertBySorted | internal/repository/dbrepo/host_postgresql.go:338 | inserting into a sorted list keeps it sorted |
| Cron.EverySpec | internal/handlers/start-monitoring.go:54 | `@every %d%s` is "@every " followed by the number and the unit |
| Cron.Scheduler.constructor | cmd/web/setup-app.go:151-155 | a new scheduler has no entries and has handed out no id |
| Cron.Scheduler.AddJob | internal/handlers/start-monitoring.go:61-64 | an unparsable spec yields id 0 and an error and changes nothing; otherwise the next id, fresh, now naming the job |
| Cron.Scheduler.Remove | internal/handlers/perform-checks.go:384 | removes that entry and no other; removing an unknown id is a no-op |
| Cron.Scheduler.EntryNext | internal/handlers/perform-checks.go:247 | Entry(id).Next is the zero time for an id with no entry |
| Cron.EverySpecAccepted | internal/handlers/start-monitoring.go:54 | every `@every <n><unit>` with a unit time.ParseDuration knows is accepted, negative n included |
| Cron.EveryDaysRejected | internal/handlers/perform-checks.go:361 | `@every <n>d` is rejected for every n, since ParseDuration has no day unit |
| Cron.SignedDuration | internal/handlers/start-monitoring.go:52 | ParseDuration ignores a leading sign before reading components |
| Cron.DigitsUnitAccepted | internal/handlers/start-monitoring.go:54 | digits followed by a known unit form one accepted component |
| Cron.DigitsDayRejected | internal/handlers/perform-checks.go:361 | digits followed by "d" are not a component |
| Cron.SignAndDigits | internal/handlers/start-monitoring.go:52 | Itoa output is an optional minus sign and at least one digit |
| Repository.FindHost | internal/repository/dbrepo/host_postgresql.go:73-96 | the host row with that id, or none when no row has it |
| Repository.FindService | internal/repository/dbrepo/host_postgresql.go:102-110 | the service row with that id, or none when no row has it |
| Repository.WithJoin | internal/repository/dbrepo/host_postgresql.go:123-145 | a scanned record carries its host_services columns unchanged plus the joined service and host name |
| Repository.ScanFull | internal/repository/dbrepo/host_postgresql.go:482-507 | a joined row scans exactly when both joins found a row, keeping its columns and host name |
| Repository.ScanWithService | internal/repository/dbrepo/host_postgresql.go:123-145 | a row scans exactly when its service join found a row; the host name stays empty |
| Repository.ScanForStatus | internal/repository/dbrepo/host_postgresql.go:346-368 | a row scans exactly when both joins found a row, keeping its columns |
| Repository.ScanPrefix | internal/repository/dbrepo/host_postgresql.go:482-507 | the rows.Next loop returns the records scanned before the first failing row, in order |
| Repository.ScanRows | internal/repository/dbrepo/host_postgresql.go:482-510 | the loop computes that prefix and says whether every row scanned |
| Repository.JoinAll | internal/repository/dbrepo/host_postgresql.go:461-480 | a left join keeps one joined row per host_services row, in order |
| Repository.ServicesOfHostUnordered | internal/repository/dbrepo/host_postgresql.go:251-262 | the joined rows for a host are all that host's rows, with no host joined |
| Repository.CountActive | internal/repository/dbrepo/host_postgresql.go:190-193 | a `count(id)` never exceeds the table size |
| Repository.FirstServiceOfHost | internal/repository/dbrepo/host_postgresql.go:250-294 | AllHosts keeps at most one host service per host, because its loop closes the rows after the first one: no own row gives no service; a first own row whose service is missing gives the NULL-scan error; otherwise exactly one record, whose columns are the host's first host_services row in table order and whose service is that row's service |
| Repository.AllHostsFrom | internal/repository/dbrepo/host_postgresql.go:230-297 | an error from any host's lookup discards all hosts |
| Repository.AllHostsFromStep | internal/repository/dbrepo/host_postgresql.go:230-297 | one round of the host loop appends that host's record and goes on |
| Repository.DefaultHostServices | internal/repository/dbrepo/host_postgresql.go:56-60 | a new host gets one row per service: inactive, every 3 minutes, pending, fresh ids |
| Repository.WithActive | internal/repository/dbrepo/host_postgresql.go:313 | the UPDATE keeps the number of rows |
| Repository.WithHostService | internal/repository/dbrepo/host_postgresql.go:431-445 | the UPDATE keeps the number of rows |
| Repository.ServiceIds | internal/repository/dbrepo/host_postgresql.go:41-55 | `select id from services` returns one id per service |
| Repository.OptStrLeTotalOrder | internal/repository/dbrepo/host_postgresql.go:111 | ordering by a joined name whose NULLs sort last is a total order |
| Repository.OrdersAreTotalPreorders | internal/repository/dbrepo/host_postgresql.go:111 | the four ORDER BY keys (service name; host then service; host name; created_at) are total preorders |
| Repository.Db.constructor | internal/repository/dbrepo/dbrepo.go:18 | a fresh repository over a services table with unique ids has empty hosts, host services and events |
| Repository.Db.InsertHost | internal/repository/dbrepo/host_postgresql.go:12-67 | the host row is appended with a fresh id; then one default row per service up to the first failing insert, with the error and the id Go returns at each step; the host id counter moves by one once the host row is written, the host_services counter by the rows written, and the event counter not at all |
| Repository.FirstFailingInsert | internal/repository/dbrepo/host_postgresql.go:56-60 | the position of the first failing host_services insert: no earlier one fails, and it fails unless it is the end |
| Repository.Db.InsertHostServices | internal/repository/dbrepo/host_postgresql.go:47-64 | with no transaction, the insert loop keeps the default rows written before the first failing insert, and errs exactly when one failed |
| Repository.Db.InsertDefaultRow | internal/repository/dbrepo/host_postgresql.go:52-60 | one insert appends an inactive, pending, every-3-minutes row with the next serial id, and nothing else |
| Repository.Db.GetHostByID | internal/repository/dbrepo/host_postgresql.go:69-153 | GetHostByID returns the HostByID result, whose meaning HostByIDExact states |
| Repository.Db.AllHosts | internal/repository/dbrepo/host_postgresql.go:212-304 | AllHosts returns the AllHostsResult, whose meaning AllHostsExact states |
| Repository.Db.UpdateHostServiceStatus | internal/repository/dbrepo/host_postgresql.go:307-321 | sets `active` on the matching rows and changes nothing else, or fails and changes nothing |
| Repository.Db.GetServicesByStatus | internal/repository/dbrepo/host_postgresql.go:323-373 | returns the ServicesByStatus result, whose meaning ServicesByStatusExact states |
| Repository.Db.UpdateHostService | internal/repository/dbrepo/host_postgresql.go:425-455 | overwrites the row with that id and nothing else, or fails and changes nothing |
| Repository.Db.GetServicesToMonitor | internal/repository/dbrepo/host_postgresql.go:457-511 | returns the ServicesToMonitor result, whose meaning ServicesToMonitorExact states |
| Repository.Db.InsertEvent | internal/repository/dbrepo/host_postgresql.go:561-584 | appends the event with a fresh id and the insert time, or fails and changes nothing |
| Repository.Stored | internal/repository/dbrepo/host_postgresql.go:565-577 | the stored event takes the serial id and the insert time for created_at and updated_at, and keeps every other column |
| Repository.Db.GetAllEvents | internal/repository/dbrepo/host_postgresql.go:587-625 | every event, ordered by created_at; on a failed query, the corrected return of no events and the error |
| RepositoryFacts.Rows | internal/repository/dbrepo/host_postgresql.go:123-145 | the host_services columns of each record, position by position |
| RepositoryFacts.CountActiveIsFilterSize | internal/repository/dbrepo/host_postgresql.go:190-193 | a status count is the number of active rows with that status |
| RepositoryFacts.CountActiveAppend | internal/repository/dbrepo/host_postgresql.go:190-193 | counting over two groups of rows adds up |
| RepositoryFacts.CountInactiveRows | internal/repository/dbrepo/host_postgresql.go:190-193 | inactive rows are never counted |
| RepositoryFacts.StatusCountsMeaning | internal/repository/dbrepo/host_postgresql.go:184-208 | GetAllServiceStatusCounts gives four zeros and the error, or the four active-row counts, which together never exceed the table |
| RepositoryFacts.CountsAreDisjoint | internal/repository/dbrepo/host_postgresql.go:190-193 | no row is counted under two statuses |
| RepositoryFacts.InsertedRowsAreNotCounted | internal/repository/dbrepo/host_postgresql.go:56-60 | the inactive rows InsertHost adds leave all counts unchanged |
| RepositoryFacts.FullScanRows | internal/repository/dbrepo/host_postgresql.go:482-507 | a complete scan keeps every row's columns in order |
| RepositoryFacts.ServicesToMonitorExact | internal/repository/dbrepo/host_postgresql.go:457-511 | GetServicesToMonitor returns, in table order (the query has no ORDER BY), the active rows of active hosts up to the first NULL join; it errs exactly when it stopped early, and never when every key resolves |
| RepositoryFacts.ScannedOrder | internal/repository/dbrepo/host_postgresql.go:338 | scanning keeps the host-then-service order |
| RepositoryFacts.SortedMembers | internal/repository/dbrepo/host_postgresql.go:338 | ORDER BY neither adds nor drops a row |
| RepositoryFacts.SortedSameMembers | internal/repository/dbrepo/host_postgresql.go:218 | ORDER BY neither adds nor drops a row, for all rows at once |
| RepositoryFacts.ServicesByStatusExact | internal/repository/dbrepo/host_postgresql.go:323-373 | GetServicesByStatus returns exactly the active rows with that status, each as often as in the table, ordered by host then service name, or nothing on error |
| RepositoryFacts.ByStatusMembers | internal/repository/dbrepo/host_postgresql.go:327-338 | a complete scan holds exactly the active rows with that status |
| RepositoryFacts.ByStatusSorted | internal/repository/dbrepo/host_postgresql.go:338 | a complete scan is ordered by host name, then service name |
| RepositoryFacts.HostByIDExact | internal/repository/dbrepo/host_postgresql.go:69-153 | GetHostByID fails with no-rows exactly for an unknown id; otherwise returns that host with all its host services, each once as in the table, ordered by service name |
| RepositoryFacts.ScannedRowsMembers | internal/repository/dbrepo/host_postgresql.go:102-145 | the records of a reordered full scan are exactly the selected rows |
| RepositoryFacts.SortedByServiceName | internal/repository/dbrepo/host_postgresql.go:111 | `order by s.service_name` sorts the joined rows |
| RepositoryFacts.ScannedRowsOrdered | internal/repository/dbrepo/host_postgresql.go:111 | the scan keeps the service-name order |
| RepositoryFacts.AllHostsFromShape | internal/repository/dbrepo/host_postgresql.go:230-297 | a successful host loop copies each host in order, with at most one of its own services |
| RepositoryFacts.HostsFollowCons | internal/repository/dbrepo/host_postgresql.go:296 | appending a host record to the records of the later hosts keeps that shape |
| RepositoryFacts.FirstServiceIsOwn | internal/repository/dbrepo/host_postgresql.go:251-262 | the service kept for a host belongs to that host |
| RepositoryFacts.AllHostsExact | internal/repository/dbrepo/host_postgresql.go:212-304 | AllHosts returns nothing on error; otherwise one record per host, ordered by host name, each with at most one of its own services, and every host with a host_services row carries exactly one, its first row in table order |
| RepositoryFacts.SortedByHostName | internal/repository/dbrepo/host_postgresql.go:218 | `order by host_name` sorts the host rows |
| RepositoryFacts.AllHostsFromExact | internal/repository/dbrepo/host_postgresql.go:230-303 | the host loop over name-ordered hosts gives ordered records of exactly those hosts |
| RepositoryFacts.AllHostsFromFirst | internal/repository/dbrepo/host_postgresql.go:230-297 | a successful host loop gives every host exactly the services its first-row lookup returns |
| RepositoryFacts.CarriedFirstRow | internal/repository/dbrepo/host_postgresql.go:250-294 | a host that has host_services rows and scanned without error carries one service, whose columns are its first row |
| RepositoryFacts.AllHostsCarryFirst | internal/repository/dbrepo/host_postgresql.go:230-297 | every record of a successful host loop that has host_services rows carries its first row |
| RepositoryFacts.FindServiceUnique | internal/repository/dbrepo/host_postgresql.go:102-110 | with services.id a primary key, the left join on services finds the one service with that id |
| RepositoryFacts.HostRecordsOrdered | internal/repository/dbrepo/host_postgresql.go:218 | records copied from name-ordered rows are ordered by name |
| RepositoryFacts.HostRecordsMembers | internal/repository/dbrepo/host_postgresql.go:230-297 | the records correspond exactly to the host rows |
| RepositoryFacts.WithActiveTouchesOnlyMatches | internal/repository/dbrepo/host_postgresql.go:313 | the UPDATE sets `active` exactly on rows matching host id and service id, leaving every other column and row unchanged |
| RepositoryFacts.DeactivatedIsNotMonitored | internal/repository/dbrepo/host_postgresql.go:307-321 | once deactivated, the pair is not among the rows to monitor |
| RepositoryFacts.FilterSingleId | internal/repository/dbrepo/host_postgresql.go:381-396 | with unique ids, `where hs.id = $1` selects exactly that row |
| RepositoryFacts.NoIdInFilter | internal/repository/dbrepo/host_postgresql.go:381-396 | an unknown id selects no row |
| RepositoryFacts.UpdateThenGet | internal/repository/dbrepo/host_postgresql.go:375-455 | GetHostServiceByID after UpdateHostService reads back every written column, keeps created_at, and joins the service and host name |
| RepositoryFacts.AllEventsOrdered | internal/repository/dbrepo/host_postgresql.go:594 | GetAllEvents returns all events, sorted by created_at |
| RepositoryFacts.MonitorQueryFault | internal/repository/dbrepo/host_postgresql.go:476-482 | a failed GetServicesToMonitor query panics as written, while the corrected query returns no records and the error; without the fault both give the same records and error |
| RepositoryFacts.EventsQueryFault | internal/repository/dbrepo/host_postgresql.go:598-604 | a failed GetAllEvents query panics as written; without the fault it returns every event once, in created_at order |
| RepositoryFacts.ScannedRowsMultiset | internal/repository/dbrepo/host_postgresql.go:111-150 | the records scanned from a sorted join carry the selected rows, each as often as in the table |
| Sorting.SortByMapMultiset | internal/repository/dbrepo/host_postgresql.go:338 | ORDER BY permutes the rows, so whatever a scan reads off each row keeps its multiset |
| Probes.ClassifyHttp | internal/handlers/perform-checks.go:274-283 | healthy exactly on a 200 answer, problem otherwise, with the URL and status line or "error connecting" |
| Probes.ClassifyCert | internal/handlers/perform-checks.go:332-354 | a failed scan gives empty results; otherwise problem under 7 days when expiring soon, warning from 7 days, healthy when not expiring, with the days in the message |
| Probes.TestService | internal/handlers/perform-checks.go:174-189 | the check that matches the service id runs; any other id gives empty results |
| Probes.HttpUrlHasNoHttps | internal/handlers/perform-checks.go:272 | the HTTP check never requests an https:// URL |
| Probes.HttpsUrlHasNoHttp | internal/handlers/perform-checks.go:292 | the HTTPS check never requests an http:// URL |
| Probes.HttpUrlOnlyTrims | internal/handlers/perform-checks.go:267-273 | a URL without "https://" is changed only by dropping a trailing slash |
| Probes.HttpsUrlOnlyTrims | internal/handlers/perform-checks.go:287-293 | a URL without "http://" is changed only by dropping a trailing slash |
| Probes.SslHostOfPlainHost | internal/handlers/perform-checks.go:317-323 | either scheme prefix is stripped to leave the host name |
| Probes.ContainsInPrefix | internal/handlers/perform-checks.go:272 | a pattern found in a prefix is found in the text |
| Handlers.AppConfig.constructor | cmd/web/setup-app.go:114-155 | the application starts with its preferences and scheduler, an empty MonitorMap and nothing pushed |
| Handlers.AppConfig.MonitorEntry | internal/handlers/perform-checks.go:384 | reading MonitorMap gives 0 for a host service never scheduled |
| Handlers.AddKeepsJobsMatch | internal/handlers/perform-checks.go:361-367 | recording a freshly added job in its slot keeps every slot naming its own job |
| Handlers.RejectKeepsJobsMatch | internal/handlers/start-monitoring.go:61-66 | recording id 0 after a rejected spec keeps the slots matched |
| Handlers.RemoveKeepsJobsMatch | internal/handlers/perform-checks.go:382-390 | removing an entry keeps the slots matched |
| Handlers.StampIsSentinel | internal/handlers/perform-checks.go:229-233 | the sentinel shows exactly when the time is not after the cutoff |
| Handlers.StatusChangedPayloadShape | internal/handlers/perform-checks.go:218-236 | the status payload has its eight keys, Atoi reads back both ids, and last_run is "Pending" exactly before the cutoff |
| Handlers.ScheduleChangedPayloadShape | internal/handlers/perform-checks.go:238-265 | the schedule payload has its ten keys and readable ids; the sentinels show exactly before the cutoff; the schedule is the raw `@every` text |
| Handlers.CountsPayloadRoundTrip | internal/handlers/perform-checks.go:78-83 | the four counts are read back from the count payload |
| Handlers.SchedulingPayloadShape | internal/handlers/perform-checks.go:368-375 | the scheduling payload always says next_run is "Pending", and its last_run is a formatted time |
| Handlers.SchedulingData | internal/handlers/perform-checks.go:368-375 | builds that payload key by key |
| Handlers.WithStatusNotice | internal/handlers/perform-checks.go:192-193 | exactly one notification is appended when the status changed, none otherwise |
| Handlers.WithCheckEvent | internal/handlers/perform-checks.go:192-210 | exactly one event is stored on a change whose insert succeeds |
| Handlers.WithCountNotice | internal/handlers/perform-checks.go:73-83 | the count notification is appended unless the count query fails |
| Handlers.DBRepo.constructor | internal/repository/dbrepo/dbrepo.go:18 | the repository holds the application state and the database |
| Handlers.DBRepo.LoadCheck | internal/handlers/perform-checks.go:39-49 | loads the host service and its host, reporting whether both were found |
| Handlers.DBRepo.Broadcast | internal/handlers/perform-checks.go:88-93 | Trigger appends exactly that notification and touches nothing else |
| Handlers.DBRepo.PushStatusChangedEvent | internal/handlers/perform-checks.go:218-236 | appends the status-changed notification |
| Handlers.DBRepo.PushScheduleChangedEvent | internal/handlers/perform-checks.go:238-265 | appends the schedule-changed notification, with next_run read through MonitorMap and the scheduler |
| Handlers.DBRepo.TestServiceForHost | internal/handlers/perform-checks.go:174-216 | returns the probe's status and message; on a change pushes and stores one event; always pushes the schedule notice; leaves the tables alone |
| Handlers.DBRepo.UpdateHostServiceStatusCount | internal/handlers/perform-checks.go:61-86 | writes the new status, message and check time, then pushes the new counts; a failed write changes nothing |
| Handlers.DBRepo.ScheduledCheck | internal/handlers/perform-checks.go:36-59 | a failed lookup changes nothing; otherwise the probe's pushes and event; an unchanged status or a failed update writes nothing; a changed one writes the checked record and pushes the counts; the id counters move only by the events added |
| Handlers.DBRepo.ProbeTwice | internal/handlers/perform-checks.go:115-135 | TestCheck's probe, then its own second status notice and event on a change; the event counter moves by the events added, and the other counters stay |
| Handlers.DBRepo.RepeatStatusChange | internal/handlers/perform-checks.go:117-135 | on a status change, one more status notice and one more event with the next event id; nothing else moves |
| Handlers.DBRepo.TestCheck | internal/handlers/perform-checks.go:96-172 | the id comes from Atoi (0 when unreadable); the host service is written back only if the update succeeds; the response reports success only when every step succeeded; the event counter moves by the events added, and the other counters stay |
| Handlers.DBRepo.CheckById | internal/handlers/perform-checks.go:101-165 | TestCheck for a parsed id, with the same effects on the tables, the outbox and the counters |
| Handlers.DBRepo.WriteBack | internal/handlers/perform-checks.go:137-165 | writes the checked record and builds the JSON response, or the failure response; no other table and no id counter changes |
| Handlers.DBRepo.AddToMonitorMap | internal/handlers/perform-checks.go:357-379 | with monitoring live and a parsable spec, the job gets the next id, which is recorded in its slot and announced; otherwise nothing changes, the id counter included; the slots stay matched |
| Handlers.DBRepo.RecordJob | internal/handlers/perform-checks.go:367-377 | records the entry id in the slot and announces it |
| Handlers.DBRepo.RemoveFromMonitorMap | internal/handlers/perform-checks.go:382-390 | with monitoring live, removes the entry the slot names and announces it; the slot itself and the id counter stay; the slots stay matched |
| Monitoring.Run | internal/handlers/start-monitoring.go:15-20 | a job run is a ScheduledCheck of its host service, with all of its effects on the tables, the outbox and the counters |
| Monitoring.BootData | internal/handlers/start-monitoring.go:71-90 | builds the start-up payload key by key |
| Monitoring.ScheduleJob | internal/handlers/start-monitoring.go:49-66 | rewrites "d" into hours, adds the job, and records its id (0 on rejection); the slots stay matched |
| Monitoring.AnnounceJob | internal/handlers/start-monitoring.go:71-102 | pushes next-run-event and then schedule-changed-event with the same payload |
| Monitoring.ScheduleOne | internal/handlers/start-monitoring.go:46-104 | one loop round is one step of the start-up fold |
| Monitoring.StartMonitoring | internal/handlers/start-monitoring.go:23-110 | not live: nothing changes; live: the start notice, then the fold over every row the corrected GetServicesToMonitor returned, even after its error; the slots stay matched |
| Monitoring.ScheduleSpecAccepted | internal/handlers/start-monitoring.go:51-55 | every schedule StartMonitoring builds from a known unit or "d" parses |
| Monitoring.DaysOnlyAtStartup | internal/handlers/start-monitoring.go:51-55 | a day schedule parses after the rewrite but not as written |
| Monitoring.BootPayloadShape | internal/handlers/start-monitoring.go:71-90 | seven keys; Atoi reads the id back; the "Pending..." sentinels show exactly before the cutoff; the schedule shown is the one before the "d" rewrite |
| Monitoring.AcceptedCount | internal/handlers/start-monitoring.go:61 | at most one id per row is handed out |
| Monitoring.Ids | internal/handlers/start-monitoring.go:66 | every row's id is among the slots written |
| Monitoring.LivePaired | internal/handlers/start-monitoring.go:93-102 | two notices per row, next-run first |
| Monitoring.BootAllCounts | internal/handlers/start-monitoring.go:46-104 | the scheduler hands out one id per accepted row; the outbox grows by two per row and only at its end |
| Monitoring.AnnouncedNextOfPrefix | internal/handlers/start-monitoring.go:77-78 | the next run announced for a row does not depend on later rows |
| Monitoring.NoticesFromExtend | internal/handlers/start-monitoring.go:93-102 | one more row appends its two notices after the previous ones |
| Monitoring.BootAllNotices | internal/handlers/start-monitoring.go:46-104 | the notices appear in row order, each with the next run of that row's entry |
| Monitoring.BootAllSlots | internal/handlers/start-monitoring.go:66 | the slots written are exactly the rows' ids; other slots keep their entry |
| Monitoring.BootAllScheduled | internal/handlers/start-monitoring.go:61-66 | when every spec parses, every row's slot names a live entry |
| Monitoring.BootAllKeepsJobsMatch | internal/handlers/start-monitoring.go:46-104 | the start-up loop keeps the slots matched and the ids in range |
| Monitoring.StartedJobsAreOwn | internal/handlers/start-monitoring.go:46-104 | with the real parser, every started host service has a slot naming a live job that checks it |
| Schedule.LessIsStrictOrder | internal/handlers/schedule.go:21 | ByHost.Less is irreflexive and transitive, and incomparable only for equal hosts |
| Schedule.Swap | internal/handlers/schedule.go:24 | exchanges the two items, keeping the multiset |
| Schedule.HostLeTransitive | internal/handlers/schedule.go:21 | "not after by host" is transitive |
| Schedule.InsertLast | internal/handlers/schedule.go:57 | moving the last item left by swaps sorts the prefix and keeps the items |
| Schedule.SortByHost | internal/handlers/schedule.go:57 | sort.Sort(ByHost) leaves the items sorted by host and permuted |
| Schedule.MakeItem | internal/handlers/schedule.go:32-47 | builds the page item for a key, field by field |
| Schedule.PickKey | internal/handlers/schedule.go:31 | map iteration visits some key not yet visited |
| Schedule.CollectItems | internal/handlers/schedule.go:31-51 | nothing exactly when some lookup fails; otherwise one item per MonitorMap slot, and no other |
| Schedule.ListEntries | internal/handlers/schedule.go:27-66 | nothing exactly when some lookup fails; otherwise the items of every slot, sorted by host |

## Left out

- Network I/O: http.Get answers and the certificate scan (with its channels) are the input `Network`.
- The Pusher transport: each Trigger is an appended notification, and its error is only logged.
- Log output is not modelled.
- The SQL driver, contexts and timeouts: each query is its relational meaning over the four tables. A fault is an operation named in `failing`.
- The wall clock and the "2006-01-02 3:04:05 PM" layout: `now` is a parameter. FormatTime is an injective rendering, not Go's calendar layout.
- The cron engine's goroutine, timers and `Start`: the next activation time is the input `nextFire`.
- Cron.SpecAccepted: only the `@every <duration>` form is modelled, the only form the core builds. Duration overflow in time.ParseDuration is not modelled.
- Text.Atoi: the 64-bit range of strconv.Atoi is not modelled; integers are unbounded.
- ScheduleNumber*24 is unbounded, with no 64-bit wrap-around.
- Text.StrLessEqTotalOrder: the database collation is taken to be byte order, and the order of rows with equal keys is taken to be table order.
- Schedule.SortByHost: sort.Sort's algorithm is not modelled. The insertion sort gives the same contract (sorted by host and permuted), but may order equal hosts differently.
- Schedule.ListEntries and Schedule.CollectItems: the items are stated by membership and count, not as a multiset of slots.
- The item reduces cron.Entry to its Next time.
- The rendering of the schedule page (jet templates) and the JSON encoding of the TestCheck response are not modelled.
- UpdateHost and GetHostServiceByHostIDServiceID are not used by the core and are not part of this model.
- `Schedule.Len` (ByHost.Len, internal/handlers/schedule.go:18) is modelled as the array length. It has no contract of its own.
- The rest of the repository is not part of this model: setup-app.go, routes.go, the pusher authentication and the other handlers.
- Repository.ServicesToMonitor, Repository.FirstServiceOfHost, Repository.ServiceIds and Repository.Db.InsertHost: their queries have no ORDER BY, and the model takes their rows in table order. A database may return them in any order. For InsertHost this order decides which services get rows before a failing insert.
- Repository.Db.InsertHost and Repository.Db.AllHosts: iteration errors are not modelled. These are the `serviceRows.Scan` error of InsertHost (internal/repository/dbrepo/host_postgresql.go:51-55) and the `rows.Err()` check of AllHosts (298-301). An integer id column always scans, and a row set that was read to its end has no pending error.
- Handlers.DBRepo.TestCheck: a fault is one persistent entry of `failing`, so both event inserts of one call fail or succeed together. The source makes two independent InsertEvent calls (internal/handlers/perform-checks.go:206 and 131), so the first could succeed while the second fails, and that case is not modelled. The same holds for Handlers.DBRepo.CheckById and Handlers.DBRepo.ProbeTwice.
- The crash of a failed GetServicesToMonitor or GetAllEvents query (see Findings) is modelled only by Repository.ServicesToMonitorAsWritten and Repository.AllEventsAsWritten. Everything else uses the corrected queries.
- Repository.Db.constructor: the services table is given, never written, and its id column is taken to be its primary key (Repository.UniqueServiceIds, part of Repository.Db.Valid). The left joins on services.id, and the lemmas about them, say nothing about a table with duplicate service ids, where SQL would return one joined row per duplicate.
- Monitoring.StartMonitoring: it is modelled with the corrected GetServicesToMonitor. As written, a failed query panics in the monitoring goroutine and ends the process, and no contract here describes that.

## Findings

| source | as written | input that shows it | evidently intended | confidence | as-written member | corrected member |
|---|---|---|---|---|---|---|
| internal/repository/dbrepo/host_postgresql.go:476-482 | a QueryContext error is only logged; the loop then calls Next and the deferred Close on the nil rows, which panics | any state with ToMonitorOp in `failing` | return no records with the error, as the other queries do | not executed | Repository.ServicesToMonitorAsWritten (RepositoryFacts.MonitorQueryFault) | Repository.ServicesToMonitor (RepositoryFacts.MonitorQueryFault, RepositoryFacts.ServicesToMonitorExact) |
| internal/repository/dbrepo/host_postgresql.go:598-604 | the same missing return after the QueryContext error of the events query | any state with AllEventsOp in `failing` | return no events with the error | not executed | Repository.AllEventsAsWritten (RepositoryFacts.EventsQueryFault) | Repository.Db.GetAllEvents (RepositoryFacts.EventsQueryFault, RepositoryFacts.AllEventsOrdered) |
