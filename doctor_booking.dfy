/**
 * The appointment booking screen: the doctor filters and the distance sort of
 * filterDoctors, the guards and timestamp of bookAppointment, and the
 * availability of time slots.
 *
 * Doctor lists are arrays, because filterDoctors sorts its local list in
 * place and, when no filter applies, that list is the `doctors` state array
 * itself. Dates are milliseconds in the local time zone, treated as a fixed
 * offset (no daylight-saving changes).
 */
module DoctorBooking {
  import opened Wrappers
  import Text
  import Seqs

  datatype Doctor = Doctor(
    doctorId: string,
    walletAddress: string,
    licenseNumber: string,
    specialization: string,
    hospitalName: string,
    isVerified: bool,
    consultationFee: string,
    country: string,
    state: string,
    distance: Option<real>,
    rating: Option<real>,
    availableSlots: Option<seq<string>>)

  datatype LatLng = LatLng(lat: real, lng: real)

  const MockDoctors: seq<Doctor> := [
    Doctor("DOC000001", "0x1234...5678", "MD123456", "Cardiology", "Central Medical Center", true, "0.01",
           "USA", "California", Some(2.5), Some(4.8), Some(["09:00", "10:00", "14:00", "15:00"])),
    Doctor("DOC000002", "0x5678...9012", "MD789012", "Dermatology", "Skin Care Clinic", true, "0.008",
           "USA", "California", Some(1.8), Some(4.6), Some(["09:30", "11:00", "14:30", "16:00"])),
    Doctor("DOC000003", "0x9012...3456", "MD345678", "Pediatrics", "Children's Hospital", true, "0.012",
           "USA", "California", Some(3.2), Some(4.9), Some(["10:30", "11:30", "15:30", "17:00"]))
  ]

  const TimeSlots: seq<string> := [
    "09:00", "09:30", "10:00", "10:30", "11:00", "11:30",
    "14:00", "14:30", "15:00", "15:30", "16:00", "16:30",
    "17:00", "17:30"
  ]

  // ---------------------------------------------------------------- filters

  predicate MatchesQuery(d: Doctor, searchQuery: string) {
    var q := Text.ToLowerCase(searchQuery);
    Text.Includes(Text.ToLowerCase(d.specialization), q) || Text.Includes(Text.ToLowerCase(d.hospitalName), q)
  }

  /** Each filter applies only when its selection is non-empty. */
  function Filtered(doctors: seq<Doctor>, searchQuery: string, specialization: string, location: string): seq<Doctor> {
    var byQuery := if searchQuery != "" then Seqs.Filter(doctors, (d: Doctor) => MatchesQuery(d, searchQuery)) else doctors;
    var bySpec := if specialization != "" then Seqs.Filter(byQuery, (d: Doctor) => d.specialization == specialization) else byQuery;
    if location != "" then Seqs.Filter(bySpec, (d: Doctor) => d.state == location) else bySpec
  }

  /** The filtered list is a subsequence of the doctors, and keeps a doctor exactly
      when every criterion that is set holds of it. */
  lemma FilteredSpec(doctors: seq<Doctor>, searchQuery: string, specialization: string, location: string)
    ensures Seqs.IsSubsequence(Filtered(doctors, searchQuery, specialization, location), doctors)
    ensures forall d :: d in Filtered(doctors, searchQuery, specialization, location) <==>
      d in doctors
      && (searchQuery != "" ==> MatchesQuery(d, searchQuery))
      && (specialization != "" ==> d.specialization == specialization)
      && (location != "" ==> d.state == location)
  {
    var byQuery := if searchQuery != "" then Seqs.Filter(doctors, (d: Doctor) => MatchesQuery(d, searchQuery)) else doctors;
    var bySpec := if specialization != "" then Seqs.Filter(byQuery, (d: Doctor) => d.specialization == specialization) else byQuery;
    var byLoc := Filtered(doctors, searchQuery, specialization, location);
    Seqs.SubsequenceRefl(doctors);
    if searchQuery != "" {
      Seqs.FilterIsSubsequence(doctors, (d: Doctor) => MatchesQuery(d, searchQuery));
    }
    if specialization != "" {
      Seqs.FilterIsSubsequence(byQuery, (d: Doctor) => d.specialization == specialization);
      Seqs.SubsequenceTrans(bySpec, byQuery, doctors);
    }
    if location != "" {
      Seqs.FilterIsSubsequence(bySpec, (d: Doctor) => d.state == location);
      Seqs.SubsequenceTrans(byLoc, bySpec, doctors);
    }
  }

  /** With no criterion set every doctor is kept, in order. */
  lemma NoCriteriaKeepsAll(doctors: seq<Doctor>)
    ensures Filtered(doctors, "", "", "") == doctors
  {
  }

  // ---------------------------------------------------------------- distance sort

  /** `a.distance || 0`: a missing distance counts as 0. */
  function SortKey(d: Doctor): real {
    d.distance.GetOr(0.0)
  }

  predicate SortedByDistance(s: seq<Doctor>) {
    forall i, j :: 0 <= i < j < |s| ==> SortKey(s[i]) <= SortKey(s[j])
  }

  /** `filtered.sort((a, b) => (a.distance || 0) - (b.distance || 0))`, in place. */
  method SortByDistance(a: array<Doctor>)
    modifies a
    ensures SortedByDistance(a[..])
    ensures multiset(a[..]) == multiset(old(a[..]))
  {
    var i := 0;
    while i < a.Length
      invariant 0 <= i <= a.Length
      invariant SortedPrefix(a, i)
      invariant multiset(a[..]) == multiset(old(a[..]))
    {
      InsertAt(a, i);
      i := i + 1;
    }
  }

  /** The first n elements are in ascending distance order. */
  ghost predicate SortedPrefix(a: array<Doctor>, n: int)
    reads a
    requires 0 <= n <= a.Length
  {
    forall k, l :: 0 <= k < l < n ==> SortKey(a[k]) <= SortKey(a[l])
  }

  /** Moves a[i] left past the larger elements before it, so that the first
      i + 1 elements are sorted. */
  method InsertAt(a: array<Doctor>, i: nat)
    requires i < a.Length && SortedPrefix(a, i)
    modifies a
    ensures SortedPrefix(a, i + 1)
    ensures multiset(a[..]) == multiset(old(a[..]))
  {
    var j := i;
    while j > 0 && SortKey(a[j - 1]) > SortKey(a[j])
      invariant 0 <= j <= i
      invariant forall k, l :: 0 <= k < l <= i && k != j && l != j ==> SortKey(a[k]) <= SortKey(a[l])
      invariant forall k, l :: 0 <= k < j < l <= i ==> SortKey(a[k]) <= SortKey(a[l])
      invariant forall l :: j < l <= i ==> SortKey(a[j]) < SortKey(a[l])
      invariant multiset(a[..]) == multiset(old(a[..]))
    {
      Swap(a, j);
      j := j - 1;
    }
  }

  /** Exchanges a[j - 1] and a[j]. */
  method Swap(a: array<Doctor>, j: nat)
    requires 0 < j < a.Length
    modifies a
    ensures a[j - 1] == old(a[j]) && a[j] == old(a[j - 1])
    ensures forall k :: 0 <= k < a.Length && k != j - 1 && k != j ==> a[k] == old(a[k])
    ensures multiset(a[..]) == multiset(old(a[..]))
  {
    a[j - 1], a[j] := a[j], a[j - 1];
  }

  /** An array holding the elements of `s`. */
  method FromSeq(s: seq<Doctor>) returns (a: array<Doctor>)
    ensures fresh(a) && a[..] == s
  {
    a := new Doctor[|s|](i requires 0 <= i < |s| => s[i]);
  }

  // ---------------------------------------------------------------- booking

  /** What bookAppointment sends to the registry contract. */
  datatype BookingRequest = BookingRequest(doctorId: string, scheduledTime: Option<int>, notes: string, fee: string)

  const MinuteMs: int := 60_000
  const HourMs: int := 3_600_000
  const DayMs: int := 86_400_000

  const MissingSelectionError := "Please select a doctor, date, and time"
  const WalletError := "Please connect your wallet first"
  const DefaultBookingError := "Failed to book appointment"

  /** `date.setHours(h, m)`: the same day at h:m, seconds and milliseconds kept;
      hours and minutes out of range carry into the neighbouring days as in JavaScript. */
  function SetHours(t: int, h: int, m: int): int {
    t - t % DayMs + h * HourMs + m * MinuteMs + t % MinuteMs
  }

  /** For an hour and minute in range, setHours stays on the same day and sets
      the hour and the minute while keeping the seconds. */
  lemma SetHoursSpec(t: int, h: int, m: int)
    requires 0 <= h < 24 && 0 <= m < 60
    ensures SetHours(t, h, m) - SetHours(t, h, m) % DayMs == t - t % DayMs
    ensures (SetHours(t, h, m) % DayMs) / HourMs == h
    ensures (SetHours(t, h, m) % HourMs) / MinuteMs == m
    ensures SetHours(t, h, m) % MinuteMs == t % MinuteMs
  {
    var q := t / DayMs;
    var sec := t % MinuteMs;
    var inHour := m * MinuteMs + sec;
    var within := h * HourMs + inHour;
    WithinDay(h, m, sec);
    assert t - t % DayMs == q * DayMs;
    assert SetHours(t, h, m) == q * DayMs + within;
    DayOffset(q, within);
    HourOffset(h, inHour);
    assert SetHours(t, h, m) == (q * 24 + h) * HourMs + inHour;
    HourOffset(q * 24 + h, inHour);
    MinuteOffset(m, sec);
    assert SetHours(t, h, m) == (q * 1440 + h * 60 + m) * MinuteMs + sec;
    MinuteOffset(q * 1440 + h * 60 + m, sec);
  }

  lemma WithinDay(h: int, m: int, sec: int)
    requires 0 <= h < 24 && 0 <= m < 60 && 0 <= sec < MinuteMs
    ensures 0 <= m * MinuteMs + sec < HourMs
    ensures 0 <= h * HourMs + m * MinuteMs + sec < DayMs
  {
  }

  lemma DayOffset(q: int, r: int)
    requires 0 <= r < DayMs
    ensures (q * DayMs + r) % DayMs == r
  {
  }

  lemma HourOffset(q: int, r: int)
    requires 0 <= r < HourMs
    ensures (q * HourMs + r) % HourMs == r && (q * HourMs + r) / HourMs == q
  {
  }

  lemma MinuteOffset(q: int, r: int)
    requires 0 <= r < MinuteMs
    ensures (q * MinuteMs + r) % MinuteMs == r && (q * MinuteMs + r) / MinuteMs == q
  {
  }

  /** The hours and minutes parsed from a slot "HH:MM"; None stands for NaN
      (a part that does not parse, or no minutes part at all). */
  function SlotHoursMinutes(slot: string): (Option<int>, Option<int>) {
    var parts := Text.Split(slot, ':');
    (Text.ParseInt(parts[0]), if |parts| > 1 then Text.ParseInt(parts[1]) else None)
  }

  /** `Math.floor(date.getTime() / 1000)` after setHours; None when the time is NaN.
      `date` is the instant `new Date(selectedDate)` copies from the calendar's
      selection, in milliseconds since the epoch (UTC), and `offset` is the local zone's offset from UTC in
      milliseconds: setHours works on the local reading `date + offset`, and
      getTime reads the instant back in UTC. */
  function ScheduledTime(date: int, offset: int, slot: string): Option<int> {
    match SlotHoursMinutes(slot)
    case (Some(h), Some(m)) => Some(SentSeconds(date, offset, h, m))
    case _ => None
  }

  /** The seconds sent for hour h and minute m set on the local reading of `date`. */
  function SentSeconds(date: int, offset: int, h: int, m: int): int {
    (SetHours(date + offset, h, m) - offset) / 1000
  }

  /** The seconds sent are the whole seconds, rounded down, of the instant
      whose local reading is the selected day at h:m. */
  lemma SentSecondsSpec(date: int, offset: int, h: int, m: int)
    ensures var t := SetHours(date + offset, h, m) - offset;
      SentSeconds(date, offset, h, m) * 1000 <= t < SentSeconds(date, offset, h, m) * 1000 + 1000
    ensures var local := SetHours(date + offset, h, m);
      0 <= h < 24 && 0 <= m < 60 ==>
        local - local % DayMs == (date + offset) - (date + offset) % DayMs
        && (local % DayMs) / HourMs == h && (local % HourMs) / MinuteMs == m
  {
    FloorSeconds(SetHours(date + offset, h, m) - offset);
    if 0 <= h < 24 && 0 <= m < 60 {
      SetHoursSpec(date + offset, h, m);
    }
  }

  /** Whole seconds rounded down. */
  lemma FloorSeconds(t: int)
    ensures (t / 1000) * 1000 <= t < (t / 1000) * 1000 + 1000
  {
  }

  /** The scheduled time is defined exactly when both parts of the slot parse,
      and is then the whole seconds, rounded down, of the instant whose local
      reading is the selected day at the slot's hour and minute. */
  lemma ScheduledTimeSpec(date: int, offset: int, slot: string)
    ensures ScheduledTime(date, offset, slot).Some? <==> SlotHoursMinutes(slot).0.Some? && SlotHoursMinutes(slot).1.Some?
    ensures ScheduledTime(date, offset, slot).Some? ==>
      var (h, m) := (SlotHoursMinutes(slot).0.value, SlotHoursMinutes(slot).1.value);
      var t := SetHours(date + offset, h, m) - offset;
      var local := t + offset;
      ScheduledTime(date, offset, slot).value * 1000 <= t < ScheduledTime(date, offset, slot).value * 1000 + 1000
      && (0 <= h < 24 && 0 <= m < 60 ==>
        local - local % DayMs == (date + offset) - (date + offset) % DayMs
        && (local % DayMs) / HourMs == h && (local % HourMs) / MinuteMs == m)
  {
    var hm := SlotHoursMinutes(slot);
    if hm.0.Some? && hm.1.Some? {
      SentSecondsSpec(date, offset, hm.0.value, hm.1.value);
    }
  }

  /** For one instant `date` whose local day is its UTC day, in a zone a whole
      number of minutes off UTC, the slot is sent one second earlier for every
      second the zone is ahead of UTC, and later when it is behind. Of the
      calendar's local midnights (BookedOnSelectedDay) only those at or west of
      UTC have their local day equal to their UTC day: in UTC-05:00 the "09:00"
      slot of such a date is sent as 14:00 UTC, five hours after the UTC reading. */
  lemma ScheduledTimeShiftsWithZone(date: int, offset: int, slot: string)
    requires offset % MinuteMs == 0
    requires (date + offset) - (date + offset) % DayMs == date - date % DayMs
    ensures ScheduledTime(date, offset, slot).Some? <==> ScheduledTime(date, 0, slot).Some?
    ensures ScheduledTime(date, offset, slot).Some? ==>
      ScheduledTime(date, offset, slot).value == ScheduledTime(date, 0, slot).value - offset / 1000
  {
    var hm := SlotHoursMinutes(slot);
    if hm.0.Some? && hm.1.Some? {
      SentSecondsShift(date, offset, hm.0.value, hm.1.value);
    }
  }

  /** The arithmetic of ScheduledTimeShiftsWithZone, for a parsed hour and minute. */
  lemma SentSecondsShift(date: int, offset: int, h: int, m: int)
    requires offset % MinuteMs == 0
    requires (date + offset) - (date + offset) % DayMs == date - date % DayMs
    ensures SentSeconds(date, offset, h, m) == SentSeconds(date, 0, h, m) - offset / 1000
  {
    SameSecondsOfMinute(date, offset / MinuteMs);
    assert offset == (offset / MinuteMs) * MinuteMs;
    assert SetHours(date + offset, h, m) == SetHours(date, h, m);
    var k := offset / 1000;
    assert offset == k * 1000;
    WholeSecondsShift(SetHours(date, h, m), k);
  }

  /** Shifting by whole minutes keeps the milliseconds into the minute. */
  lemma SameSecondsOfMinute(t: int, j: int)
    ensures (t + j * MinuteMs) % MinuteMs == t % MinuteMs
  {
    var q, r := t / MinuteMs, t % MinuteMs;
    assert t == q * MinuteMs + r;
    assert t + j * MinuteMs == (q + j) * MinuteMs + r;
    MinuteOffset(q + j, r);
  }

  /** Subtracting whole seconds subtracts them from the seconds count. */
  lemma WholeSecondsShift(t: int, k: int)
    ensures (t - k * 1000) / 1000 == t / 1000 - k
  {
    var q, r := t / 1000, t % 1000;
    assert t - k * 1000 == (q - k) * 1000 + r;
  }

  /** The calendar stores the local midnight of the picked day, the instant
      `day * DayMs - offset`, and bookAppointment copies it. Its local reading is
      that midnight, so setHours lands on the picked day at h:m in every zone,
      and the seconds sent are those of that local time read back in UTC. */
  lemma BookedOnSelectedDay(day: int, offset: int, h: int, m: int)
    ensures SetHours(day * DayMs - offset + offset, h, m) == day * DayMs + h * HourMs + m * MinuteMs
    ensures SentSeconds(day * DayMs - offset, offset, h, m) == (day * DayMs + h * HourMs + m * MinuteMs - offset) / 1000
    ensures 0 <= h < 24 && 0 <= m < 60 ==>
      var local := SetHours(day * DayMs - offset + offset, h, m);
      local - local % DayMs == day * DayMs
      && (local % DayMs) / HourMs == h && (local % HourMs) / MinuteMs == m
  {
    var t := day * DayMs - offset + offset;
    assert t == day * DayMs + 0;
    DayOffset(day, 0);
    assert t == (day * 1440) * MinuteMs + 0;
    MinuteOffset(day * 1440, 0);
    assert SetHours(t, h, m) == day * DayMs + h * HourMs + m * MinuteMs;
    if 0 <= h < 24 && 0 <= m < 60 {
      SetHoursSpec(t, h, m);
    }
  }

  /** The success message, before the appointment id. */
  const SuccessPrefix := "Appointment booked successfully! Appointment ID: "

  /** The request bookAppointment sends for a selection. */
  function RequestFor(d: Doctor, date: int, offset: int, slot: string, notes: string): BookingRequest {
    BookingRequest(d.doctorId, ScheduledTime(date, offset, slot), notes, d.consultationFee)
  }

  /** The time select enables exactly the slots the doctor lists as available. */
  predicate SlotSelectable(d: Doctor, slot: string) {
    d.availableSlots.Some? && slot in d.availableSlots.value
  }

  /** A doctor without a slot list offers no slot at all. */
  lemma NoSlotsNothingSelectable(d: Doctor, slot: string)
    requires d.availableSlots.None?
    ensures !SlotSelectable(d, slot)
  {
  }

  /** filterDoctors' three filters, each applied only when its criterion is
      set. With no criterion the result is the array passed in; otherwise it is
      a fresh array and the one passed in is untouched. */
  method ApplyFilters(doctors: array<Doctor>, searchQuery: string, specialization: string, location: string)
      returns (filtered: array<Doctor>)
    ensures filtered[..] == Filtered(doctors[..], searchQuery, specialization, location)
    ensures searchQuery == "" && specialization == "" && location == "" ==> filtered == doctors
    ensures searchQuery != "" || specialization != "" || location != "" ==> fresh(filtered)
  {
    filtered := doctors;
    if searchQuery != "" {
      filtered := FromSeq(Seqs.Filter(filtered[..], (d: Doctor) => MatchesQuery(d, searchQuery)));
    }
    if specialization != "" {
      filtered := FromSeq(Seqs.Filter(filtered[..], (d: Doctor) => d.specialization == specialization));
    }
    if location != "" {
      filtered := FromSeq(Seqs.Filter(filtered[..], (d: Doctor) => d.state == location));
    }
  }

  /** The component's state. */
  class DoctorBookingView {
    var doctors: array<Doctor>
    var filteredDoctors: array<Doctor>
    var searchQuery: string
    var selectedSpecialization: string
    var selectedLocation: string
    var selectedDate: Option<int>
    var selectedTime: string
    var appointmentNotes: string
    var selectedDoctor: Option<Doctor>
    var isLoading: bool
    var isBooking: bool
    var error: string
    var success: string
    var userLocation: Option<LatLng>

    /** The search criteria and the user's location. */
    function Criteria(): (string, string, string, Option<LatLng>)
      reads this
    {
      (searchQuery, selectedSpecialization, selectedLocation, userLocation)
    }

    /** The doctor, date, time and notes being booked. */
    function Selection(): (Option<Doctor>, Option<int>, string, string)
      reads this
    {
      (selectedDoctor, selectedDate, selectedTime, appointmentNotes)
    }

    /** The loading flags and the two messages. */
    function Messages(): (bool, bool, string, string)
      reads this
    {
      (isLoading, isBooking, error, success)
    }

    constructor ()
      ensures doctors.Length == 0 && filteredDoctors.Length == 0
      ensures searchQuery == "" && selectedSpecialization == "" && selectedLocation == ""
      ensures selectedDate == None && selectedTime == "" && appointmentNotes == "" && selectedDoctor == None
      ensures !isLoading && !isBooking && error == "" && success == "" && userLocation == None
    {
      doctors := new Doctor[0];
      filteredDoctors := new Doctor[0];
      searchQuery, selectedSpecialization, selectedLocation := "", "", "";
      selectedDate, selectedTime, appointmentNotes, selectedDoctor := None, "", "", None;
      isLoading, isBooking, error, success, userLocation := false, false, "", "", None;
    }

    /** loadDoctors: the mock list becomes the doctors state. */
    method LoadDoctors()
      modifies this
      ensures fresh(doctors) && doctors[..] == MockDoctors && !isLoading
      ensures filteredDoctors == old(filteredDoctors)
      ensures isBooking == old(isBooking) && error == old(error) && success == old(success)
      ensures Criteria() == old(Criteria()) && Selection() == old(Selection())
    {
      isLoading := true;
      doctors := FromSeq(MockDoctors);
      isLoading := false;
    }

    /** filterDoctors: the filtered list, sorted by distance when the user's
        location is known. With no criterion set the local list is the doctors
        array itself, so the sort reorders the doctors state too. */
    method FilterDoctors()
      modifies this, doctors
      ensures doctors == old(doctors)
      ensures var expected := Filtered(old(doctors[..]), searchQuery, selectedSpecialization, selectedLocation);
        if userLocation.Some? then SortedByDistance(filteredDoctors[..]) && multiset(filteredDoctors[..]) == multiset(expected)
        else filteredDoctors[..] == expected
      ensures searchQuery == "" && selectedSpecialization == "" && selectedLocation == "" ==> filteredDoctors == doctors
      ensures searchQuery != "" || selectedSpecialization != "" || selectedLocation != "" ==>
        fresh(filteredDoctors) && doctors[..] == old(doctors[..])
      ensures Criteria() == old(Criteria()) && Selection() == old(Selection()) && Messages() == old(Messages())
    {
      var filtered := ApplyFilters(doctors, searchQuery, selectedSpecialization, selectedLocation);
      if userLocation.Some? {
        SortByDistance(filtered);
      }
      filteredDoctors := filtered;
    }

    /** bookAppointment. `walletConnected` is what the blockchain service's
        isConnected reports; `zoneOffset` is the local zone's offset from UTC in
        milliseconds; `outcome` is the registry's reply to the request (an
        appointment id, or the message of the error it threw). The request
        sent, if any, is returned. */
    method BookAppointment(walletConnected: bool, zoneOffset: int, outcome: Result<string, string>) returns (request: Option<BookingRequest>)
      modifies this
      ensures old(selectedDoctor).None? || old(selectedDate).None? || old(selectedTime) == "" ==>
        request == None && error == MissingSelectionError
      ensures old(selectedDoctor).Some? && old(selectedDate).Some? && old(selectedTime) != "" && !walletConnected ==>
        request == None && error == WalletError
      ensures request.None? ==>
        Selection() == old(Selection()) && success == old(success) && isBooking == old(isBooking)
      ensures request.Some? <==>
        old(selectedDoctor).Some? && old(selectedDate).Some? && old(selectedTime) != "" && walletConnected
      ensures request.Some? ==>
        request.value == RequestFor(old(selectedDoctor).value, old(selectedDate).value, zoneOffset, old(selectedTime), old(appointmentNotes))
        && !isBooking
        && (outcome.Ok? ==>
              success == SuccessPrefix + outcome.value
              && error == "" && selectedDoctor == None && selectedDate == None
              && selectedTime == "" && appointmentNotes == "")
        && (outcome.Err? ==>
              error == (if outcome.error != "" then outcome.error else DefaultBookingError)
              && success == old(success) && Selection() == old(Selection()))
      ensures doctors == old(doctors) && filteredDoctors == old(filteredDoctors)
      ensures Criteria() == old(Criteria()) && isLoading == old(isLoading)
    {
      if selectedDoctor.None? || selectedDate.None? || selectedTime == "" {
        error := MissingSelectionError;
        request := None;
      } else if !walletConnected {
        error := WalletError;
        request := None;
      } else {
        request := Some(RequestFor(selectedDoctor.value, selectedDate.value, zoneOffset, selectedTime, appointmentNotes));
        RecordOutcome(outcome);
      }
    }

    /** The part of bookAppointment after the request is sent: its outcome is
        recorded, and isBooking is back to false either way. */
    method RecordOutcome(outcome: Result<string, string>)
      modifies this
      ensures !isBooking
      ensures outcome.Ok? ==>
        success == SuccessPrefix + outcome.value
        && error == "" && selectedDoctor == None && selectedDate == None
        && selectedTime == "" && appointmentNotes == ""
      ensures outcome.Err? ==>
        error == (if outcome.error != "" then outcome.error else DefaultBookingError)
        && success == old(success) && Selection() == old(Selection())
      ensures doctors == old(doctors) && filteredDoctors == old(filteredDoctors)
      ensures Criteria() == old(Criteria()) && isLoading == old(isLoading)
    {
      isBooking := true;
      error := "";
      match outcome {
        case Ok(appointmentId) =>
          success, error := SuccessPrefix + appointmentId, "";
          selectedDoctor, selectedDate, selectedTime, appointmentNotes := None, None, "", "";
        case Err(message) =>
          error := if message != "" then message else DefaultBookingError;
      }
      isBooking := false;
    }
  }
}
