/**
 * The nearby-doctor search of the map view: an optional specialization filter
 * followed by a radius filter over the view's fixed doctor list. The map,
 * its markers and the browser's geolocation are not modelled.
 */
module GoogleMaps {
  import opened Wrappers
  import Text
  import Seqs

  datatype MapDoctor = MapDoctor(
    id: string,
    name: string,
    specialization: string,
    hospital: string,
    address: string,
    phone: string,
    rating: real,
    distance: real,
    consultationFee: string,
    lat: real,
    lng: real,
    isOpen: bool,
    nextAvailable: string)

  const MockDoctors: seq<MapDoctor> := [
    MapDoctor("DOC001", "Dr. Sarah Johnson", "Cardiology", "Central Medical Center", "123 Medical Plaza, Downtown",
              "(555) 123-4567", 4.8, 1.2, "0.01", 37.7749, -122.4194, true, "Today 2:00 PM"),
    MapDoctor("DOC002", "Dr. Michael Chen", "Dermatology", "Skin Care Clinic", "456 Health Street, Midtown",
              "(555) 234-5678", 4.6, 2.1, "0.008", 37.7849, -122.4094, false, "Tomorrow 9:00 AM"),
    MapDoctor("DOC003", "Dr. Emily Davis", "Pediatrics", "Children's Hospital", "789 Kids Avenue, Uptown",
              "(555) 345-6789", 4.9, 0.8, "0.012", 37.7649, -122.4294, true, "Today 4:30 PM")
  ]

  /** The radius select's option values, in kilometres. */
  const RadiusOptions: seq<string> := ["1", "5", "10", "25"]

  /** `parseFloat` of the radius string, for radii written as whole numbers;
      None stands for NaN. */
  function RadiusKm(searchRadius: string): Option<real> {
    match Text.ParseInt(searchRadius)
    case Some(n) => Some(n as real)
    case None => None
  }

  /** `distance <= radiusKm`; every comparison with NaN is false. */
  predicate WithinRadius(d: MapDoctor, radius: Option<real>) {
    radius.Some? && d.distance <= radius.value
  }

  /** The specialization filter, applied only when one is selected. */
  function BySpecialization(doctors: seq<MapDoctor>, specialization: string): seq<MapDoctor> {
    if specialization != "" then Seqs.Filter(doctors, (d: MapDoctor) => d.specialization == specialization)
    else doctors
  }

  function ByRadius(doctors: seq<MapDoctor>, radius: Option<real>): seq<MapDoctor> {
    Seqs.Filter(doctors, (d: MapDoctor) => WithinRadius(d, radius))
  }

  /** The list searchNearbyDoctors stores. */
  function NearbyDoctors(doctors: seq<MapDoctor>, specialization: string, radius: Option<real>): seq<MapDoctor> {
    ByRadius(BySpecialization(doctors, specialization), radius)
  }

  /** The result is a subsequence of the doctors, and keeps a doctor exactly
      when it is within the radius and, if a specialization is selected, has it. */
  lemma NearbyDoctorsSpec(doctors: seq<MapDoctor>, specialization: string, radius: Option<real>)
    ensures Seqs.IsSubsequence(NearbyDoctors(doctors, specialization, radius), doctors)
    ensures forall d :: d in NearbyDoctors(doctors, specialization, radius) <==>
      d in doctors
      && (specialization != "" ==> d.specialization == specialization)
      && radius.Some? && d.distance <= radius.value
  {
    var bySpec := BySpecialization(doctors, specialization);
    if specialization != "" {
      Seqs.FilterIsSubsequence(doctors, (d: MapDoctor) => d.specialization == specialization);
    } else {
      Seqs.SubsequenceRefl(doctors);
    }
    Seqs.FilterIsSubsequence(bySpec, (d: MapDoctor) => WithinRadius(d, radius));
    Seqs.SubsequenceTrans(NearbyDoctors(doctors, specialization, radius), bySpec, doctors);
  }

  /** With no specialization selected, only the radius applies. */
  lemma NoSpecializationOnlyRadius(doctors: seq<MapDoctor>, radius: Option<real>)
    ensures NearbyDoctors(doctors, "", radius) == ByRadius(doctors, radius)
  {
  }

  /** Enlarging the radius never removes a doctor from the result. */
  lemma LargerRadiusKeepsMore(doctors: seq<MapDoctor>, specialization: string, r1: real, r2: real)
    requires r1 <= r2
    ensures Seqs.IsSubsequence(NearbyDoctors(doctors, specialization, Some(r1)),
                               NearbyDoctors(doctors, specialization, Some(r2)))
  {
    Seqs.FilterWeaker(BySpecialization(doctors, specialization),
                      (d: MapDoctor) => WithinRadius(d, Some(r1)),
                      (d: MapDoctor) => WithinRadius(d, Some(r2)));
  }

  /** A radius that does not parse keeps nobody. */
  lemma NaNRadiusKeepsNobody(doctors: seq<MapDoctor>, specialization: string)
    ensures NearbyDoctors(doctors, specialization, None) == []
  {
    Seqs.FilterNonePass(BySpecialization(doctors, specialization), (d: MapDoctor) => WithinRadius(d, None));
  }

  /** Each offered radius reads as its number of kilometres. */
  lemma RadiusOptionsParse(searchRadius: string)
    requires searchRadius in RadiusOptions
    ensures RadiusKm(searchRadius).Some? && RadiusKm(searchRadius).value >= 1.0
    ensures RadiusKm(searchRadius) == Some(
      if searchRadius == "1" then 1.0 else if searchRadius == "5" then 5.0
      else if searchRadius == "10" then 10.0 else 25.0)
  {
    if searchRadius == "1" {
      ParseOneKm(searchRadius);
    } else if searchRadius == "5" {
      ParseFiveKm(searchRadius);
    } else if searchRadius == "10" {
      ParseTenKm(searchRadius);
    } else {
      ParseTwentyFiveKm(searchRadius);
    }
  }

  /** The offered radii, one literal at a time. */
  lemma ParseOneKm(s: string)
    requires s == "1"
    ensures Text.ParseInt(s) == Some(1)
  {
    assert Text.AllDigits(s, 10) by { assert Text.IsDigit(s[0], 10); }
    assert Text.ValueOf(s[..0], 10) == 0;
    assert Text.ValueOf(s, 10) == 1;
    Text.ParseIntOfDigits(s);
  }

  /** "5" */
  lemma ParseFiveKm(s: string)
    requires s == "5"
    ensures Text.ParseInt(s) == Some(5)
  {
    assert Text.AllDigits(s, 10) by { assert Text.IsDigit(s[0], 10); }
    assert Text.ValueOf(s[..0], 10) == 0;
    assert Text.ValueOf(s, 10) == 5;
    Text.ParseIntOfDigits(s);
  }

  /** "10" */
  lemma ParseTenKm(s: string)
    requires s == "10"
    ensures Text.ParseInt(s) == Some(10)
  {
    assert Text.AllDigits(s, 10) by { assert Text.IsDigit(s[0], 10) && Text.IsDigit(s[1], 10); }
    assert Text.ValueOf(s[..1][..0], 10) == 0;
    assert Text.ValueOf(s[..1], 10) == 1;
    assert Text.ValueOf(s, 10) == 10;
    Text.ParseIntOfDigits(s);
  }

  /** "25" */
  lemma ParseTwentyFiveKm(s: string)
    requires s == "25"
    ensures Text.ParseInt(s) == Some(25)
  {
    assert Text.AllDigits(s, 10) by { assert Text.IsDigit(s[0], 10) && Text.IsDigit(s[1], 10); }
    assert Text.ValueOf(s[..1][..0], 10) == 0;
    assert Text.ValueOf(s[..1], 10) == 2;
    assert Text.ValueOf(s, 10) == 25;
    Text.ParseIntOfDigits(s);
  }

  /** The component's search state. */
  class NearbySearchView {
    /** The component's fixed doctor list. */
    const doctors: seq<MapDoctor>
    var searchRadius: string
    var selectedSpecialization: string
    var nearbyDoctors: seq<MapDoctor>
    var isLoading: bool

    constructor ()
      ensures doctors == MockDoctors
      ensures searchRadius == "5" && selectedSpecialization == "" && nearbyDoctors == [] && !isLoading
    {
      doctors := MockDoctors;
      searchRadius := "5";
      selectedSpecialization := "";
      nearbyDoctors := [];
      isLoading := false;
    }

    /** searchNearbyDoctors: isLoading is set, the two filters run on a local
        list, the result is stored and isLoading is cleared. */
    method SearchNearbyDoctors()
      modifies this
      ensures nearbyDoctors == NearbyDoctors(doctors, selectedSpecialization, RadiusKm(searchRadius))
      ensures !isLoading
      ensures searchRadius == old(searchRadius) && selectedSpecialization == old(selectedSpecialization)
    {
      var specialization, radius := selectedSpecialization, searchRadius;
      isLoading := true;
      var filtered := BySpecialization(doctors, specialization);
      filtered := ByRadius(filtered, RadiusKm(radius));
      nearbyDoctors := filtered;
      isLoading := false;
    }
  }
}
