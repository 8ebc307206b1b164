/**
 * The patient's consent list: toggling and deleting grants by id, and the
 * days-remaining count that classifies a grant as expired or expiring soon.
 * Dates are epoch milliseconds; `new Date("YYYY-MM-DD")` reads a date-only
 * string as midnight UTC, which is how the mock dates below are written.
 */
module ConsentManager {
  import Seqs

  datatype Consent = Consent(
    id: int,
    doctorName: string,
    specialty: string,
    hospital: string,
    permissions: seq<string>,
    startDate: int,
    endDate: int,
    active: bool,
    emergency: bool)

  /** 1000 * 60 * 60 * 24 */
  const DayMs: int := 86_400_000

  /** The component's initial list. */
  const MockConsents: seq<Consent> := [
    Consent(1, "Dr. Sarah Johnson", "Cardiology", "Central Medical Center",
            ["Medical History", "Lab Results", "Imaging", "Prescriptions"],
            1_717_200_000_000, 1_733_011_200_000, true, false),
    Consent(2, "Dr. Michael Chen", "Radiology", "St. Mary's Hospital",
            ["Imaging", "Radiology Reports"],
            1_718_409_600_000, 1_721_001_600_000, true, false),
    Consent(3, "Dr. Emily Davis", "Primary Care", "Community Health Clinic",
            ["Medical History", "Lab Results", "Prescriptions", "Vital Signs"],
            1_714_521_600_000, 1_730_419_200_000, false, true)
  ]

  predicate DistinctIds(cs: seq<Consent>) {
    forall i, j :: 0 <= i < j < |cs| ==> cs[i].id != cs[j].id
  }

  // ---------------------------------------------------------------- list operations

  /** toggleConsent: `map` flipping `active` on the entries with this id. */
  function Toggled(cs: seq<Consent>, id: int): seq<Consent> {
    seq(|cs|, i requires 0 <= i < |cs| => if cs[i].id == id then cs[i].(active := !cs[i].active) else cs[i])
  }

  /** deleteConsent: `filter` keeping the entries with a different id. */
  function Deleted(cs: seq<Consent>, id: int): seq<Consent> {
    Seqs.Filter(cs, (c: Consent) => c.id != id)
  }

  /** Toggling flips `active` on exactly the entries with that id, keeps every
      other field and entry, and keeps length and order. */
  lemma ToggleFlipsOnlyMatching(cs: seq<Consent>, id: int)
    ensures |Toggled(cs, id)| == |cs|
    ensures forall i :: 0 <= i < |cs| ==>
      Toggled(cs, id)[i].active == (if cs[i].id == id then !cs[i].active else cs[i].active)
    ensures forall i :: 0 <= i < |cs| ==> Toggled(cs, id)[i].(active := cs[i].active) == cs[i]
  {
  }

  /** Toggling the same id twice restores the list. */
  lemma ToggleTwice(cs: seq<Consent>, id: int)
    ensures Toggled(Toggled(cs, id), id) == cs
  {
    var t := Toggled(Toggled(cs, id), id);
    assert forall i :: 0 <= i < |cs| ==> t[i] == cs[i];
  }

  /** With distinct ids, toggling an id that is present changes exactly one entry. */
  lemma ToggleChangesOneEntry(cs: seq<Consent>, k: nat)
    requires DistinctIds(cs) && k < |cs|
    ensures Toggled(cs, cs[k].id)[k].active == !cs[k].active
    ensures forall i :: 0 <= i < |cs| && i != k ==> Toggled(cs, cs[k].id)[i] == cs[i]
  {
  }

  /** Deleting keeps exactly the entries with a different id, in order. */
  lemma DeleteKeepsOthers(cs: seq<Consent>, id: int)
    ensures forall c :: c in Deleted(cs, id) <==> c in cs && c.id != id
    ensures Seqs.IsSubsequence(Deleted(cs, id), cs)
  {
    Seqs.FilterIsSubsequence(cs, (c: Consent) => c.id != id);
  }

  /** Deleting the same id again changes nothing. */
  lemma DeleteIdempotent(cs: seq<Consent>, id: int)
    ensures Deleted(Deleted(cs, id), id) == Deleted(cs, id)
  {
    var d := Deleted(cs, id);
    Seqs.FilterAllPass(d, (c: Consent) => c.id != id);
  }

  // ---------------------------------------------------------------- expiry

  /** getDaysRemaining: `Math.ceil((end - now) / DayMs)`. */
  function DaysRemaining(endDate: int, now: int): (r: int)
    ensures (r - 1) * DayMs < endDate - now <= r * DayMs
  {
    -((now - endDate) / DayMs)
  }

  predicate IsExpired(days: int) {
    days <= 0
  }

  predicate IsExpiringSoon(days: int) {
    days <= 7 && days > 0
  }

  /** The card shows "Expired" once the end date is reached. */
  lemma ExpiredIffEndReached(endDate: int, now: int)
    ensures IsExpired(DaysRemaining(endDate, now)) <==> endDate <= now
  {
    var r := DaysRemaining(endDate, now);
    if r >= 1 {
      assert (r - 1) * DayMs >= 0;
    }
  }

  /** Expiring soon means the end is less than a week (at most 7 days) ahead. */
  lemma ExpiringSoonIffWithinAWeek(endDate: int, now: int)
    ensures IsExpiringSoon(DaysRemaining(endDate, now)) <==> 0 < endDate - now <= 7 * DayMs
  {
    var r := DaysRemaining(endDate, now);
    if r >= 8 {
      assert (r - 1) * DayMs >= 7 * DayMs;
    }
    if r <= 0 {
      assert r * DayMs <= 0;
    }
  }

  /** The two highlighted bands never overlap. */
  lemma BandsDisjoint(days: int)
    ensures !(IsExpired(days) && IsExpiringSoon(days))
  {
  }

  /** Toggling never moves a grant to another band: the bands read only the end date. */
  lemma ToggleKeepsClassification(cs: seq<Consent>, id: int, now: int, i: nat)
    requires i < |cs|
    ensures |Toggled(cs, id)| == |cs|
    ensures DaysRemaining(Toggled(cs, id)[i].endDate, now) == DaysRemaining(cs[i].endDate, now)
  {
  }

  /** The component's `consents` state and its two handlers. */
  class ConsentManagerView {
    var consents: seq<Consent>

    constructor ()
      ensures consents == MockConsents && DistinctIds(consents)
    {
      consents := MockConsents;
    }

    method ToggleConsent(id: int)
      modifies this
      ensures consents == Toggled(old(consents), id)
    {
      consents := Toggled(consents, id);
    }

    method DeleteConsent(id: int)
      modifies this
      ensures consents == Deleted(old(consents), id)
    {
      consents := Deleted(consents, id);
    }
  }
}
