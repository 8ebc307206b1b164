/**
 * The QR access-code generator: a toggle over the list of shared permission
 * ids, and the code record stamped with its creation and expiry times.
 * Times are epoch milliseconds; the ISO-8601 rendering of them is not modelled.
 */
module QRGenerator {
  import opened Wrappers
  import Text
  import Seqs

  /** 60 * 60 * 1000 */
  const HourMs: int := 3_600_000

  /** The durations the select offers, in hours, as the strings it stores. */
  const OfferedDurations: seq<string> := ["1", "6", "24", "72", "168"]

  datatype QRData = QRData(
    id: string,
    qrType: string,
    duration: string,
    permissions: seq<string>,
    created: int,
    expires: int)

  /** togglePermission: drop every copy of the id if present, otherwise append it. */
  function TogglePermission(prev: seq<string>, permissionId: string): seq<string> {
    if permissionId in prev then Seqs.Filter(prev, (p: string) => p != permissionId)
    else prev + [permissionId]
  }

  /** The three clock readings generateQR makes, in this order: `Date.now()`
      for the id, `new Date()` for the creation stamp and `Date.now()` again
      for the expiry. */
  datatype ClockReads = ClockReads(forId: nat, forCreated: nat, forExpires: nat)

  /** The clock never runs backwards between the readings. */
  predicate InOrder(clock: ClockReads) {
    clock.forId <= clock.forCreated <= clock.forExpires
  }

  /** generateQR: the record for the current settings. When the duration does
      not parse, `parseInt` yields NaN and `toISOString` throws before the
      state is set; that is None. */
  function GenerateQR(clock: ClockReads, qrType: string, duration: string, permissions: seq<string>): Option<QRData> {
    match Text.ParseInt(duration)
    case None => None
    case Some(hours) =>
      Some(QRData("QR-" + Text.DecimalString(clock.forId), qrType, duration, permissions,
                  clock.forCreated, clock.forExpires + hours * HourMs))
  }

  /** After a toggle the id's membership is flipped and every other id's is unchanged. */
  lemma ToggleFlipsMembership(prev: seq<string>, permissionId: string)
    ensures permissionId in TogglePermission(prev, permissionId) <==> permissionId !in prev
    ensures forall q :: q != permissionId ==> (q in TogglePermission(prev, permissionId) <==> q in prev)
  {
  }

  /** A duplicate-free list stays duplicate-free. */
  lemma ToggleKeepsDistinct(prev: seq<string>, permissionId: string)
    requires Seqs.Distinct(prev)
    ensures Seqs.Distinct(TogglePermission(prev, permissionId))
  {
    if permissionId in prev {
      Seqs.FilterDistinct(prev, (p: string) => p != permissionId);
    }
  }

  /** Toggling an absent id twice gives back the original list. */
  lemma ToggleAbsentTwice(prev: seq<string>, permissionId: string)
    requires permissionId !in prev
    ensures TogglePermission(TogglePermission(prev, permissionId), permissionId) == prev
  {
    var keep := (p: string) => p != permissionId;
    Seqs.FilterConcat(prev, [permissionId], keep);
    Seqs.FilterAllPass(prev, keep);
    assert Seqs.Filter([permissionId], keep) == [];
  }

  /** Toggling a present id removes it and keeps the rest in order. */
  lemma TogglePresentRemoves(prev: seq<string>, permissionId: string)
    requires permissionId in prev
    ensures Seqs.IsSubsequence(TogglePermission(prev, permissionId), prev)
    ensures |TogglePermission(prev, permissionId)| < |prev|
  {
    var keep := (p: string) => p != permissionId;
    Seqs.FilterIsSubsequence(prev, keep);
    FilterDropsFailing(prev, keep, permissionId);
  }

  /** A filter that rejects an element of the list is strictly shorter. */
  lemma {:induction false} FilterDropsFailing(s: seq<string>, p: string -> bool, x: string)
    requires x in s && !p(x)
    ensures |Seqs.Filter(s, p)| < |s|
    decreases |s|
  {
    if s[0] != x {
      FilterDropsFailing(s[1..], p, x);
    }
  }

  /** The record copies the settings and expires `duration` hours after the
      last clock reading: at least `duration` hours after it is created, and
      exactly that when the two readings coincide. */
  lemma GeneratedStampsExpiry(clock: ClockReads, qrType: string, duration: string, permissions: seq<string>, hours: int)
    requires Text.ParseInt(duration) == Some(hours)
    ensures GenerateQR(clock, qrType, duration, permissions).Some?
    ensures var q := GenerateQR(clock, qrType, duration, permissions).value;
      q.qrType == qrType && q.duration == duration && q.permissions == permissions
      && q.created == clock.forCreated
      && q.expires - q.created == hours * HourMs + (clock.forExpires - clock.forCreated)
    ensures InOrder(clock) ==>
      GenerateQR(clock, qrType, duration, permissions).value.expires
      - GenerateQR(clock, qrType, duration, permissions).value.created >= hours * HourMs
  {
  }

  /** The id is "QR-" followed by the first clock reading, which reads back
      from it and is no later than the creation time. */
  lemma IdEncodesCreation(clock: ClockReads, qrType: string, duration: string, permissions: seq<string>)
    requires GenerateQR(clock, qrType, duration, permissions).Some?
    ensures var q := GenerateQR(clock, qrType, duration, permissions).value;
      q.id[..3] == "QR-" && Text.ParseInt(q.id[3..]) == Some(clock.forId)
      && (InOrder(clock) ==> clock.forId <= q.created)
      && (clock.forId == clock.forCreated ==> Text.ParseInt(q.id[3..]) == Some(q.created))
  {
    var q := GenerateQR(clock, qrType, duration, permissions).value;
    assert q.id[..3] == "QR-" && q.id[3..] == Text.DecimalString(clock.forId);
    Text.ParseIntOfDecimalString(clock.forId);
  }

  /** Each offered duration parses to its number of hours. */
  lemma OfferedDurationParses(duration: string)
    requires duration in OfferedDurations
    ensures Text.ParseInt(duration) == Some(DurationHours(duration))
  {
    if duration == "1" { ParseOneHour(duration); }
    else if duration == "6" { ParseSixHours(duration); }
    else if duration == "24" { ParseOneDay(duration); }
    else if duration == "72" { ParseThreeDays(duration); }
    else { ParseOneWeek(duration); }
  }

  /** The hours each offered duration stands for. */
  function DurationHours(duration: string): (h: nat)
    ensures h >= 1
  {
    if duration == "1" then 1
    else if duration == "6" then 6
    else if duration == "24" then 24
    else if duration == "72" then 72
    else 168
  }

  /** The offered durations, one literal at a time. */
  lemma ParseOneHour(s: string)
    requires s == "1"
    ensures Text.ParseInt(s) == Some(1)
  {
    assert Text.AllDigits(s, 10) by { assert Text.IsDigit(s[0], 10); }
    assert Text.ValueOf(s[..0], 10) == 0;
    assert Text.ValueOf(s, 10) == 1;
    Text.ParseIntOfDigits(s);
  }

  /** "6" */
  lemma ParseSixHours(s: string)
    requires s == "6"
    ensures Text.ParseInt(s) == Some(6)
  {
    assert Text.AllDigits(s, 10) by { assert Text.IsDigit(s[0], 10); }
    assert Text.ValueOf(s[..0], 10) == 0;
    assert Text.ValueOf(s, 10) == 6;
    Text.ParseIntOfDigits(s);
  }

  /** "24" */
  lemma ParseOneDay(s: string)
    requires s == "24"
    ensures Text.ParseInt(s) == Some(24)
  {
    assert Text.AllDigits(s, 10) by { assert Text.IsDigit(s[0], 10) && Text.IsDigit(s[1], 10); }
    assert Text.ValueOf(s[..1][..0], 10) == 0;
    assert Text.ValueOf(s[..1], 10) == 2;
    assert Text.ValueOf(s, 10) == 24;
    Text.ParseIntOfDigits(s);
  }

  /** "72" */
  lemma ParseThreeDays(s: string)
    requires s == "72"
    ensures Text.ParseInt(s) == Some(72)
  {
    assert Text.AllDigits(s, 10) by { assert Text.IsDigit(s[0], 10) && Text.IsDigit(s[1], 10); }
    assert Text.ValueOf(s[..1][..0], 10) == 0;
    assert Text.ValueOf(s[..1], 10) == 7;
    assert Text.ValueOf(s, 10) == 72;
    Text.ParseIntOfDigits(s);
  }

  /** "168" */
  lemma ParseOneWeek(s: string)
    requires s == "168"
    ensures Text.ParseInt(s) == Some(168)
  {
    assert Text.AllDigits(s, 10) by {
      assert Text.IsDigit(s[0], 10) && Text.IsDigit(s[1], 10) && Text.IsDigit(s[2], 10);
    }
    assert Text.ValueOf(s[..1][..0], 10) == 0;
    assert Text.ValueOf(s[..1], 10) == 1;
    assert s[..2][..1] == s[..1];
    assert Text.ValueOf(s[..2], 10) == 16;
    assert Text.ValueOf(s, 10) == 168;
    Text.ParseIntOfDigits(s);
  }

  /** For every offered duration the code expires strictly after it is created. */
  lemma OfferedDurationsExpireLater(clock: ClockReads, qrType: string, duration: string, permissions: seq<string>)
    requires duration in OfferedDurations && InOrder(clock)
    ensures GenerateQR(clock, qrType, duration, permissions).Some?
    ensures GenerateQR(clock, qrType, duration, permissions).value.expires
          > GenerateQR(clock, qrType, duration, permissions).value.created
  {
    OfferedDurationParses(duration);
    GeneratedStampsExpiry(clock, qrType, duration, permissions, DurationHours(duration));
  }

  /** The component's state and its handlers. */
  class QRGeneratorView {
    var qrType: string
    var duration: string
    var permissions: seq<string>
    var generatedQR: Option<QRData>

    constructor ()
      ensures qrType == "emergency" && duration == "24"
      ensures permissions == ["medical-history", "vitals"] && generatedQR == None
    {
      qrType := "emergency";
      duration := "24";
      permissions := ["medical-history", "vitals"];
      generatedQR := None;
    }

    method SetQrType(value: string)
      modifies this
      ensures qrType == value
      ensures duration == old(duration) && permissions == old(permissions) && generatedQR == old(generatedQR)
    {
      qrType := value;
    }

    method SetDuration(value: string)
      modifies this
      ensures duration == value
      ensures qrType == old(qrType) && permissions == old(permissions) && generatedQR == old(generatedQR)
    {
      duration := value;
    }

    method TogglePermissionHandler(permissionId: string)
      modifies this
      ensures permissions == TogglePermission(old(permissions), permissionId)
      ensures qrType == old(qrType) && duration == old(duration) && generatedQR == old(generatedQR)
    {
      permissions := TogglePermission(permissions, permissionId);
    }

    /** On an unparseable duration the handler throws and nothing is set. */
    method GenerateQRHandler(clock: ClockReads)
      modifies this
      ensures generatedQR == (if GenerateQR(clock, qrType, duration, permissions).Some?
                              then GenerateQR(clock, qrType, duration, permissions) else old(generatedQR))
      ensures qrType == old(qrType) && duration == old(duration) && permissions == old(permissions)
    {
      var q := GenerateQR(clock, qrType, duration, permissions);
      if q.Some? {
        generatedQR := q;
      }
    }
  }
}
