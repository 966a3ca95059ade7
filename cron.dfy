/**
 * The part of the robfig/cron scheduler the monitor relies on: entries
 * keyed by an id that is allocated by incrementing a counter, `AddJob`
 * that rejects a spec it cannot parse, `Remove`, and `Entry(id).Next`.
 * Only the `@every <duration>` descriptor is modelled, with Go's
 * time.ParseDuration deciding which durations parse.
 */
module Cron {
  import opened Text
  import opened Models

  /** `fmt.Sprintf("@every %d%s", n, unit)` */
  function EverySpec(n: int, unit: string): (s: string)
    ensures HasPrefix(s, "@every ") && s[7..] == IntToString(n) + unit
  {
    "@every " + IntToString(n) + unit
  }

  /** The units time.ParseDuration knows; the two spellings of micro are U+00B5 and U+03BC. */
  const DurationUnits: set<string> := {"ns", "us", "\U{00B5}s", "\U{03BC}s", "ms", "s", "m", "h"}

  /** Number of leading decimal digits. */
  function LeadingDigitCount(s: string): (n: nat)
    ensures n <= |s|
    ensures AllDigits(s[..n])
    ensures n < |s| ==> !IsDigit(s[n])
  {
    if s == [] || !IsDigit(s[0]) then 0 else 1 + LeadingDigitCount(s[1..])
  }

  predicate IsUnitChar(c: char) { c != '.' && !IsDigit(c) }

  /** Number of leading characters that can belong to a unit name. */
  function LeadingUnitCount(s: string): (n: nat)
    ensures n <= |s|
    ensures forall i :: 0 <= i < n ==> IsUnitChar(s[i])
    ensures n < |s| ==> !IsUnitChar(s[n])
  {
    if s == [] || !IsUnitChar(s[0]) then 0 else 1 + LeadingUnitCount(s[1..])
  }

  /**
   * One or more `<digits>[.<digits>]<unit>` components with at least one
   * digit on some side of the point and a known unit each.
   */
  predicate ComponentsAccepted(t: string)
    decreases |t|
  {
    if t == [] || !(t[0] == '.' || IsDigit(t[0])) then false
    else
      var d := LeadingDigitCount(t);
      var a := t[d..];
      var hasFraction := a != [] && a[0] == '.';
      var f := if hasFraction then LeadingDigitCount(a[1..]) else 0;
      var b := if hasFraction then a[1 + f..] else a;
      if d == 0 && f == 0 then false
      else
        var u := LeadingUnitCount(b);
        if u == 0 || b[..u] !in DurationUnits then false
        else b[u..] == [] || ComponentsAccepted(b[u..])
  }

  /** The text after an optional leading sign. */
  function Unsigned(s: string): string
  {
    if s != [] && (s[0] == '-' || s[0] == '+') then s[1..] else s
  }

  /** Whether time.ParseDuration returns without error (numeric overflow aside). */
  predicate DurationAccepted(s: string)
  {
    Unsigned(s) == "0" || ComponentsAccepted(Unsigned(s))
  }

  /** Whether the cron parser accepts a spec of the `@every` form. */
  predicate SpecAccepted(spec: string)
  {
    HasPrefix(spec, "@every ") && DurationAccepted(spec[7..])
  }

  /** A scheduled job: the host service whose check it runs, and its spec. */
  datatype CronEntry = CronEntry(hostServiceID: int, spec: string)

  /**
   * The scheduler. The cron parser is the input `parses`; ParsesAsCron
   * says it decides exactly SpecAccepted.
   */
  class Scheduler {
    var entries: map<int, CronEntry>
    /** The last id handed out; ids start at 1. */
    var nextID: int
    /** The next activation the engine computed for an entry id (zero before it is scheduled). */
    const nextFire: int -> int
    /** Whether the cron parser accepts a spec. */
    const parses: string -> bool

    ghost predicate Valid()
      reads this
    {
      0 <= nextID && forall id :: id in entries ==> 0 < id <= nextID
    }

    ghost predicate ParsesAsCron()
    {
      forall spec :: parses(spec) == SpecAccepted(spec)
    }

    constructor (nextFire: int -> int, parses: string -> bool)
      ensures Valid() && entries == map[] && nextID == 0
      ensures this.nextFire == nextFire && this.parses == parses
    {
      entries := map[];
      nextID := 0;
      this.nextFire := nextFire;
      this.parses := parses;
    }

    /** `Entry(id).Next`: the zero time for an id with no entry. */
    function EntryNext(id: int): (t: int)
      reads this
      ensures id !in entries ==> t == ZeroTime
      ensures id in entries ==> t == nextFire(id)
    {
      if id in entries then nextFire(id) else ZeroTime
    }

    /** AddJob: a rejected spec yields id 0 and changes nothing; otherwise a fresh id. */
    method AddJob(spec: string, hostServiceID: int) returns (id: int, failed: bool)
      requires Valid()
      modifies this
      ensures Valid()
      ensures !parses(spec) ==> failed && id == 0 && entries == old(entries) && nextID == old(nextID)
      ensures parses(spec) ==>
        && !failed && id == old(nextID) + 1 && id !in old(entries) && nextID == id
        && entries == old(entries)[id := CronEntry(hostServiceID, spec)]
    {
      if !parses(spec) {
        return 0, true;
      }
      nextID := nextID + 1;
      id := nextID;
      entries := entries[id := CronEntry(hostServiceID, spec)];
      failed := false;
    }

    /** Remove: drops the entry with that id, if any. */
    method Remove(id: int)
      requires Valid()
      modifies this
      ensures Valid()
      ensures entries == old(entries) - {id} && nextID == old(nextID)
    {
      entries := entries - {id};
    }
  }

  // ---------------------------------------------------------------------
  // Which `@every <n><unit>` specs parse
  // ---------------------------------------------------------------------

  lemma {:induction false} DigitsThenUnit(d: string, u: string)
    requires AllDigits(d)
    requires u == [] || !IsDigit(u[0])
    ensures LeadingDigitCount(d + u) == |d|
    ensures (d + u)[|d|..] == u
  {
    if d != [] {
      assert (d + u)[1..] == d[1..] + u;
      DigitsThenUnit(d[1..], u);
    }
  }

  lemma {:induction false} WholeUnit(u: string)
    requires forall i :: 0 <= i < |u| ==> IsUnitChar(u[i])
    ensures LeadingUnitCount(u) == |u|
  {
    if u != [] {
      WholeUnit(u[1..]);
    }
  }

  /** `<digits><unit>` with a known unit is one accepted component. */
  lemma {:induction false} DigitsUnitAccepted(d: string, u: string)
    requires |d| >= 1 && AllDigits(d) && u in DurationUnits
    ensures ComponentsAccepted(d + u)
  {
    assert forall i :: 0 <= i < |u| ==> IsUnitChar(u[i]);
    DigitsThenUnit(d, u);
    WholeUnit(u);
    var t := d + u;
    assert t[0] == d[0];
    assert t[|d|..] == u;
    assert u[..|u|] == u && u[|u|..] == [];
  }

  /** `<digits>d` is not a component: "d" is no unit. */
  lemma {:induction false} DigitsDayRejected(d: string)
    requires |d| >= 1 && AllDigits(d)
    ensures !ComponentsAccepted(d + "d")
  {
    DigitsThenUnit(d, "d");
    var t := d + "d";
    assert t[0] == d[0];
    var a := t[LeadingDigitCount(t)..];
    assert a == "d";
    assert LeadingUnitCount(a) == 1;
    assert a[..1] == "d";
    assert "d" !in DurationUnits;
  }

  /** Itoa writes an optional minus sign and then at least one digit. */
  lemma SignAndDigits(n: int) returns (signed: bool, d: string)
    ensures |d| >= 1 && AllDigits(d)
    ensures IntToString(n) == (if signed then "-" else "") + d
  {
    var s := IntToString(n);
    if n >= 0 {
      signed, d := false, s;
    } else {
      signed, d := true, s[1..];
      assert s == "-" + s[1..];
    }
  }

  /** The sign is dropped before the components are read; a unit keeps the text from being "0". */
  lemma SignedDuration(signed: bool, d: string, u: string)
    requires |d| >= 1 && AllDigits(d) && u != [] && !IsDigit(u[0])
    ensures DurationAccepted((if signed then "-" else "") + d + u) == ComponentsAccepted(d + u)
  {
    var t := d + u;
    var s := (if signed then "-" else "") + d + u;
    assert t[0] == d[0] && |t| >= 2;
    if signed {
      assert s[0] == '-' && s[1..] == t;
    } else {
      assert s == t;
    }
    assert Unsigned(s) == t;
  }

  /** Every interval the monitor builds with a unit ParseDuration knows is accepted. */
  lemma EverySpecAccepted(n: int, unit: string)
    requires unit in DurationUnits
    ensures SpecAccepted(EverySpec(n, unit))
  {
    var signed, d := SignAndDigits(n);
    DigitsUnitAccepted(d, unit);
    SignedDuration(signed, d, unit);
    assert EverySpec(n, unit)[7..] == (if signed then "-" else "") + d + unit;
  }

  /** ParseDuration has no day unit, so `@every <n>d` is rejected. */
  lemma EveryDaysRejected(n: int)
    ensures !SpecAccepted(EverySpec(n, "d"))
  {
    var signed, d := SignAndDigits(n);
    DigitsDayRejected(d);
    SignedDuration(signed, d, "d");
    assert EverySpec(n, "d")[7..] == (if signed then "-" else "") + d + "d";
  }
}
