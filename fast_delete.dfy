/**
 * The iOS fast-delete operations: removing the whole automatic-samples directory in one
 * request, and removing one sub-directory of every per-day directory in a date range.
 */
module FastDelete {
  import opened Wrappers
  import opened Errors
  import opened CivilDate
  import opened PolarFileUtils

  /**
   * How the session lookup ends: `sessionFtpClientReady` throws, or the session has no
   * PSFTP client, or the client is there.
   */
  datatype FtpGate = SessionFails | NoFtpClient | FtpClientReady

  /** The errors the two operations complete with. */
  datatype DeleteError =
    | ServiceNotFound
    | DeviceError(description: string)
      /** The REMOVE request's own failure, handed on untranslated. */
    | RequestFailed(cause: TransportError)

  const AutosPath := "/U/0/AUTOS/"

  /**
   * `deleteAutoSamplesDirectory`: a single REMOVE of the automatic-samples directory once the
   * PSFTP client is available; its failure is the operation's failure.
   */
  method DeleteAutoSamplesDirectory(identifier: string, gate: FtpGate, device: Responder)
    returns (r: Option<DeleteError>, sent: seq<PftpOperation>)
    ensures gate == SessionFails ==>
      sent == [] && r == Some(DeviceError("Failed to delete AUTOS directory from device " + identifier + "."))
    ensures gate == NoFtpClient ==> sent == [] && r == Some(ServiceNotFound)
    ensures gate == FtpClientReady ==> sent == [PftpOperation(REMOVE, AutosPath)]
    ensures gate == FtpClientReady ==>
      r == if device(PftpOperation(REMOVE, AutosPath)).Err? then Some(RequestFailed(device(PftpOperation(REMOVE, AutosPath)).error)) else None
  {
    sent := [];
    if gate == SessionFails {
      return Some(DeviceError("Failed to delete AUTOS directory from device " + identifier + ".")), sent;
    }
    if gate == NoFtpClient {
      return Some(ServiceNotFound), sent;
    }
    var op := PftpOperation(REMOVE, AutosPath);
    sent := [op];
    var reply := device(op);
    r := if reply.Err? then Some(RequestFailed(reply.error)) else None;
  }

  /** The days from `fromDate` through `toDate`, one per day, in order; none when `fromDate` is after `toDate`. */
  function DaysBetween(fromDate: Date, toDate: Date): seq<Date>
    requires Valid(fromDate)
    decreases toDate.year - fromDate.year, 12 - fromDate.month, 31 - fromDate.day
  {
    if Before(toDate, fromDate) then [] else [fromDate] + DaysBetween(NextDay(fromDate), toDate)
  }

  lemma DaysBetweenEmptyIff(fromDate: Date, toDate: Date)
    requires Valid(fromDate)
    ensures DaysBetween(fromDate, toDate) == [] <==> Before(toDate, fromDate)
  {
  }

  /**
   * The enumerated days start at `fromDate`, never pass `toDate`, follow each other day by day, and
   * the day after the last one is past `toDate`.
   */
  lemma {:induction false} DaysBetweenShape(fromDate: Date, toDate: Date)
    requires Valid(fromDate)
    decreases toDate.year - fromDate.year, 12 - fromDate.month, 31 - fromDate.day
    ensures forall i :: 0 <= i < |DaysBetween(fromDate, toDate)| ==>
      Valid(DaysBetween(fromDate, toDate)[i]) && NotAfter(fromDate, DaysBetween(fromDate, toDate)[i]) &&
      NotAfter(DaysBetween(fromDate, toDate)[i], toDate)
    ensures DaysBetween(fromDate, toDate) != [] ==> DaysBetween(fromDate, toDate)[0] == fromDate
    ensures DaysBetween(fromDate, toDate) != [] ==>
      Before(toDate, NextDay(DaysBetween(fromDate, toDate)[|DaysBetween(fromDate, toDate)| - 1]))
    ensures forall i :: 0 <= i < |DaysBetween(fromDate, toDate)| - 1 ==>
      DaysBetween(fromDate, toDate)[i + 1] == NextDay(DaysBetween(fromDate, toDate)[i])
  {
    if !Before(toDate, fromDate) {
      var next := NextDay(fromDate);
      DaysBetweenShape(next, toDate);
      var rest := DaysBetween(next, toDate);
      var ds := DaysBetween(fromDate, toDate);
      assert ds == [fromDate] + rest;
      if rest == [] {
        assert Before(toDate, next);
      }
      forall i | 0 <= i < |ds|
        ensures Valid(ds[i]) && NotAfter(fromDate, ds[i]) && NotAfter(ds[i], toDate)
      {
        if i > 0 {
          assert ds[i] == rest[i - 1];
        } else {
          OrderIsTotal(fromDate, toDate);
        }
      }
    }
  }

  /** Every enumerated day is a valid calendar day. */
  predicate DaysBetweenValid(fromDate: Date, toDate: Date)
    requires Valid(fromDate)
  {
    forall i :: 0 <= i < |DaysBetween(fromDate, toDate)| ==> Valid(DaysBetween(fromDate, toDate)[i])
  }

  lemma DaysBetweenAreValid(fromDate: Date, toDate: Date)
    requires Valid(fromDate)
    ensures DaysBetweenValid(fromDate, toDate)
  {
    DaysBetweenShape(fromDate, toDate);
  }

  /** Every valid day from `fromDate` through `toDate` is enumerated. */
  lemma {:induction false} DaysBetweenIsComplete(fromDate: Date, toDate: Date, d: Date)
    requires Valid(fromDate) && Valid(d) && NotAfter(fromDate, d) && NotAfter(d, toDate)
    decreases toDate.year - fromDate.year, 12 - fromDate.month, 31 - fromDate.day
    ensures d in DaysBetween(fromDate, toDate)
  {
    if d != fromDate {
      NextDayIsAdjacent(fromDate, d);
      DaysBetweenIsComplete(NextDay(fromDate), toDate, d);
    }
  }

  /** The enumerated days are strictly ascending, hence pairwise distinct. */
  lemma DaysBetweenAscending(fromDate: Date, toDate: Date, i: nat, j: nat)
    requires Valid(fromDate) && i < j < |DaysBetween(fromDate, toDate)|
    ensures Before(DaysBetween(fromDate, toDate)[i], DaysBetween(fromDate, toDate)[j])
  {
    var ds := DaysBetween(fromDate, toDate);
    DaysBetweenShape(fromDate, toDate);
    var k := i + 1;
    while k < j
      invariant i < k <= j && Before(ds[i], ds[k])
    {
      assert ds[k + 1] == NextDay(ds[k]);
      k := k + 1;
    }
  }

  /** The date loop: append the current day and step to the next while it is not past `toDate`. */
  method EnumerateDays(fromDate: Date, toDate: Date) returns (dates: seq<Date>)
    requires Valid(fromDate)
    ensures dates == DaysBetween(fromDate, toDate)
  {
    dates := [];
    var current := fromDate;
    while !Before(toDate, current)
      invariant Valid(current)
      invariant dates + DaysBetween(current, toDate) == DaysBetween(fromDate, toDate)
      decreases toDate.year - current.year, 12 - current.month, 31 - current.day
    {
      dates := dates + [current];
      current := NextDay(current);
    }
  }

  /** The directory removed for one day: "/U/0/" + yyyyMMdd + "/" + subdirectory + "/". */
  function DayPath(subdirectory: string, d: Date): string
    requires Valid(d)
  {
    "/U/0/" + FormatYyyyMMdd(d) + "/" + subdirectory + "/"
  }

  /** For the years 1 to 9999, distinct days give distinct paths. */
  lemma DayPathIsInjective(subdirectory: string, a: Date, b: Date)
    requires Valid(a) && a.year <= 9999 && Valid(b) && b.year <= 9999
    requires DayPath(subdirectory, a) == DayPath(subdirectory, b)
    ensures a == b
  {
    FormatRoundTrip(a);
    FormatRoundTrip(b);
    assert DayPath(subdirectory, a)[5..13] == FormatYyyyMMdd(a);
    assert DayPath(subdirectory, b)[5..13] == FormatYyyyMMdd(b);
    FormatIsInjective(a, b);
  }

  /** One REMOVE per day, in day order. */
  function DeletePlan(subdirectory: string, days: seq<Date>): (ops: seq<PftpOperation>)
    requires forall i :: 0 <= i < |days| ==> Valid(days[i])
    ensures |ops| == |days|
  {
    seq(|days|, i requires 0 <= i < |days| => PftpOperation(REMOVE, DayPath(subdirectory, days[i])))
  }

  /**
   * Over days of the years 1 to 9999 the plan never removes the same directory twice, and
   * every day of the range is covered.
   */
  lemma DeletePlanCoversRangeOnce(subdirectory: string, fromDate: Date, toDate: Date)
    requires Valid(fromDate) && Valid(toDate) && toDate.year <= 9999
    ensures var days := DaysBetween(fromDate, toDate);
      (forall i :: 0 <= i < |days| ==> Valid(days[i])) &&
      var plan := DeletePlan(subdirectory, days);
      (forall i, j :: 0 <= i < j < |plan| ==> plan[i] != plan[j]) &&
      (forall d :: Valid(d) && NotAfter(fromDate, d) && NotAfter(d, toDate) ==> PftpOperation(REMOVE, DayPath(subdirectory, d)) in plan)
  {
    var days := DaysBetween(fromDate, toDate);
    DaysBetweenShape(fromDate, toDate);
    var plan := DeletePlan(subdirectory, days);
    forall i, j | 0 <= i < j < |plan|
      ensures plan[i] != plan[j]
    {
      DaysBetweenAscending(fromDate, toDate, i, j);
      assert days[j].year <= toDate.year;
      if plan[i] == plan[j] {
        DayPathIsInjective(subdirectory, days[i], days[j]);
      }
    }
    forall d | Valid(d) && NotAfter(fromDate, d) && NotAfter(d, toDate)
      ensures PftpOperation(REMOVE, DayPath(subdirectory, d)) in plan
    {
      DaysBetweenIsComplete(fromDate, toDate, d);
      var k :| 0 <= k < |days| && days[k] == d;
      assert plan[k] == PftpOperation(REMOVE, DayPath(subdirectory, d));
    }
  }

  /**
   * `deleteStoredDataDirectories`: once the PSFTP client is available, one REMOVE per day of
   * the range, in day order; a failing REMOVE is ignored and the next day is still tried, so
   * the operation then always completes.
   */
  method DeleteStoredDataDirectories(identifier: string, subdirectory: string, fromDate: Date, toDate: Date,
                                     gate: FtpGate, device: Responder)
    returns (r: Option<DeleteError>, sent: seq<PftpOperation>)
    requires Valid(fromDate)
    ensures gate == SessionFails ==>
      sent == [] && r == Some(DeviceError("Failed to delete " + subdirectory + " directories from device " + identifier + "."))
    ensures gate == NoFtpClient ==> sent == [] && r == Some(ServiceNotFound)
    ensures gate == FtpClientReady ==> r == None
    ensures gate == FtpClientReady ==> DaysBetweenValid(fromDate, toDate) && sent == DeletePlan(subdirectory, DaysBetween(fromDate, toDate))
  {
    sent := [];
    if gate == SessionFails {
      return Some(DeviceError("Failed to delete " + subdirectory + " directories from device " + identifier + ".")), sent;
    }
    if gate == NoFtpClient {
      return Some(ServiceNotFound), sent;
    }
    var dates := EnumerateDays(fromDate, toDate);
    DaysBetweenAreValid(fromDate, toDate);
    for i := 0 to |dates|
      invariant |sent| == i
      invariant forall k :: 0 <= k < i ==> sent[k] == PftpOperation(REMOVE, DayPath(subdirectory, dates[k]))
    {
      var op := PftpOperation(REMOVE, DayPath(subdirectory, dates[i]));
      var reply := device(op);
      // A failed REMOVE (the directory may not exist for that day) is not an error.
      sent := sent + [op];
    }
    r := None;
    assert sent == DeletePlan(subdirectory, dates);
  }
}
