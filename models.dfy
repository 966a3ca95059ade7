/**
 * The records the monitor reads and writes (hosts, services, host
 * services, events), the notifications it pushes, and how it represents
 * time.
 */
module Models {
  import opened Text

  /** Status values a host service moves between. */
  const Pending := "pending"
  const Healthy := "healthy"
  const Warning := "warning"
  const Problem := "problem"

  /**
   * Time is an integer count of nanoseconds since 0001-01-01 00:00:00 UTC,
   * so Go's zero time.Time is 0.
   */
  const ZeroTime: int := 0
  const NanosPerSecond: int := 1000000000
  const NanosPerDay: int := 86400 * NanosPerSecond

  /** time.Date(1, 2, 2, 0, 0, 0, 1, UTC): February 2nd of year one plus 1ns. */
  const StatusCutoff: int := 32 * NanosPerDay + 1

  /** time.Date(1, 11, 17, 20, 34, 58, 651387, UTC): day 320 of year one. */
  const BootstrapCutoff: int := (320 * 86400 + 20 * 3600 + 34 * 60 + 58) * NanosPerSecond + 651387

  /**
   * The "2006-01-02 3:04:05 PM" layout stands for an injective rendering of
   * an instant; only its injectivity and that it never reads as a sentinel
   * matter to the monitor.
   */
  function FormatTime(t: int): (s: string)
    ensures |s| >= 1 && (IsDigit(s[0]) || s[0] == '-')
  {
    IntToString(t)
  }

  lemma FormatTimeInjective(a: int, b: int)
    ensures FormatTime(a) == FormatTime(b) ==> a == b
  {
    IntToStringInjective(a, b);
  }

  /** Rendered instants are never one of the sentinels the display relies on. */
  lemma FormatTimeIsNotSentinel(t: int)
    ensures FormatTime(t) != "Pending" && FormatTime(t) != "Pending..."
  {
    var s := FormatTime(t);
    assert s[0] != 'P';
  }

  /** A row of the `services` table (HTTP, HTTPS, SSL certificate). */
  datatype Service = Service(
    id: int, serviceName: string, active: int, icon: string, createdAt: int, updatedAt: int)

  const ZeroService := Service(0, "", 0, "", ZeroTime, ZeroTime)

  /** A row of the `hosts` table. */
  datatype HostRow = HostRow(
    id: int, hostName: string, canonicalName: string, url: string, ip: string, ipv6: string,
    location: string, os: string, active: int, createdAt: int, updatedAt: int)

  /** A row of the `host_services` table. */
  datatype HostServiceRow = HostServiceRow(
    id: int, hostId: int, serviceId: int, active: int, scheduleNumber: int, scheduleUnit: string,
    lastCheck: int, status: string, createdAt: int, updatedAt: int, lastMessage: string)

  /** models.HostService: a host_services row joined with its service and host name. */
  datatype HostService = HostService(
    id: int, hostId: int, serviceId: int, active: int, scheduleNumber: int, scheduleUnit: string,
    lastCheck: int, status: string, createdAt: int, updatedAt: int,
    service: Service, hostName: string, lastMessage: string)

  const ZeroHostService := HostService(0, 0, 0, 0, 0, "", ZeroTime, "", ZeroTime, ZeroTime, ZeroService, "", "")

  /** models.Host: a hosts row with the host services a query attached. */
  datatype Host = Host(
    id: int, hostName: string, canonicalName: string, url: string, ip: string, ipv6: string,
    location: string, os: string, active: int, createdAt: int, updatedAt: int,
    hostServices: seq<HostService>)

  const ZeroHost := Host(0, "", "", "", "", "", "", "", 0, ZeroTime, ZeroTime, [])

  function HostOfRow(r: HostRow, services: seq<HostService>): Host
  {
    Host(r.id, r.hostName, r.canonicalName, r.url, r.ip, r.ipv6, r.location, r.os, r.active,
         r.createdAt, r.updatedAt, services)
  }

  /** A row of the `events` table (and models.Event). */
  datatype Event = Event(
    id: int, hostServiceId: int, eventType: string, hostId: int, serviceName: string,
    hostName: string, message: string, createdAt: int, updatedAt: int)

  /** Why a repository call failed. */
  datatype DbError =
    | ErrNoRows      // a single-row query found nothing (sql.ErrNoRows)
    | ErrTransient   // the statement itself failed: timeout, lost connection
    | ErrNullColumn  // a left join produced NULL where Go scans into a string or int

  /** One call of the push client's Trigger: channel, event name, payload. */
  datatype Notification = Notification(channel: string, event: string, data: map<string, string>)

  const PublicChannel := "public-channel"
}
