/**
 * The doctor's patient lookup: a guarded search over the fixed patient list,
 * the consent-gated actions on each result, and the displayed age.
 *
 * The search runs in a timer callback that still sees the query of the render
 * that started it; HandleSearch hands that captured query back, and
 * CompleteSearch is the callback running with it.
 */
module PatientLookup {
  import opened Wrappers
  import Text
  import Seqs

  datatype Patient = Patient(
    id: string,
    name: string,
    dob: string,
    gender: string,
    phone: string,
    email: string,
    address: string,
    lastVisit: string,
    primaryCondition: string,
    consentStatus: string,
    emergencyContact: string,
    insuranceProvider: string,
    riskLevel: string)

  const MockPatients: seq<Patient> := [
    Patient("PAT123456", "John Smith", "1979-03-15", "Male", "(555) 123-4567", "john.smith@email.com",
            "123 Main St, New York, NY 10001", "2024-06-15", "Hypertension", "Active",
            "Jane Smith - (555) 987-6543", "Blue Cross Blue Shield", "Medium"),
    Patient("PAT789012", "Sarah Johnson", "1992-08-22", "Female", "(555) 456-7890", "sarah.johnson@email.com",
            "456 Oak Ave, Boston, MA 02101", "2024-06-20", "Type 2 Diabetes", "Active",
            "Mike Johnson - (555) 321-0987", "Aetna", "High"),
    Patient("PAT345678", "Michael Chen", "1966-11-08", "Male", "(555) 789-0123", "michael.chen@email.com",
            "789 Pine St, Chicago, IL 60601", "2024-06-18", "Cardiac Arrhythmia", "Expired",
            "Lisa Chen - (555) 654-3210", "UnitedHealthcare", "Critical")
  ]

  /** Name or id contain the query case-insensitively, or the date of birth contains it as typed. */
  predicate Matches(p: Patient, query: string) {
    var q := Text.ToLowerCase(query);
    Text.Includes(Text.ToLowerCase(p.name), q) || Text.Includes(Text.ToLowerCase(p.id), q)
    || Text.Includes(p.dob, query)
  }

  /** The timer callback's filter. */
  function SearchPatients(patients: seq<Patient>, query: string): seq<Patient> {
    Seqs.Filter(patients, (p: Patient) => Matches(p, query))
  }

  /** The results are a subsequence of the patient list, and a patient is in
      them exactly when it matches the query. */
  lemma SearchPatientsSpec(patients: seq<Patient>, query: string)
    ensures Seqs.IsSubsequence(SearchPatients(patients, query), patients)
    ensures forall p :: p in SearchPatients(patients, query) <==>
      p in patients
      && (Text.Includes(Text.ToLowerCase(p.name), Text.ToLowerCase(query))
          || Text.Includes(Text.ToLowerCase(p.id), Text.ToLowerCase(query))
          || Text.Includes(p.dob, query))
  {
    Seqs.FilterIsSubsequence(patients, (p: Patient) => Matches(p, query));
  }

  /** "Request Access" and "View Records" are offered unless consent has expired. */
  predicate ActionsOffered(p: Patient) {
    p.consentStatus != "Expired"
  }

  /** Of the mock patients, only the third (whose consent has expired) offers no actions. */
  lemma MockPatientsActions()
    ensures ActionsOffered(MockPatients[0]) && ActionsOffered(MockPatients[1])
    ensures !ActionsOffered(MockPatients[2])
  {
  }

  /** The displayed age: the difference of the calendar years, whatever the day. */
  function DisplayedAge(currentYear: int, birthYear: int): int {
    currentYear - birthYear
  }

  /** Completed years of life on (year, month, day) for a birth date (year, month, day). */
  function CompletedYears(y: int, m: int, d: int, birthYear: int, birthMonth: int, birthDay: int): int {
    if m < birthMonth || (m == birthMonth && d < birthDay) then y - birthYear - 1 else y - birthYear
  }

  /** The displayed age is the completed years, or one more before the birthday of the year. */
  lemma DisplayedAgeVersusCompleted(y: int, m: int, d: int, birthYear: int, birthMonth: int, birthDay: int)
    ensures DisplayedAge(y, birthYear) == CompletedYears(y, m, d, birthYear, birthMonth, birthDay)
         || DisplayedAge(y, birthYear) == CompletedYears(y, m, d, birthYear, birthMonth, birthDay) + 1
    ensures DisplayedAge(y, birthYear) == CompletedYears(y, m, d, birthYear, birthMonth, birthDay) + 1 <==> (m < birthMonth || (m == birthMonth && d < birthDay))
  {
  }

  /** The component's state. */
  class PatientLookupView {
    /** The component's fixed patient list. */
    const patients: seq<Patient>
    var searchQuery: string
    var searchResults: seq<Patient>
    var isSearching: bool

    constructor ()
      ensures patients == MockPatients
      ensures searchQuery == "" && searchResults == [] && !isSearching
    {
      patients := MockPatients;
      searchQuery := "";
      searchResults := [];
      isSearching := false;
    }

    method SetSearchQuery(value: string)
      modifies this
      ensures searchQuery == value && searchResults == old(searchResults) && isSearching == old(isSearching)
    {
      searchQuery := value;
    }

    /** handleSearch: a query that is blank after trimming changes nothing and
        starts nothing; otherwise searching starts with the untrimmed query. */
    method HandleSearch() returns (pending: Option<string>)
      modifies this
      ensures searchQuery == old(searchQuery) && searchResults == old(searchResults)
      ensures Text.Trim(searchQuery) == "" ==> pending == None && isSearching == old(isSearching)
      ensures Text.Trim(searchQuery) != "" ==> pending == Some(searchQuery) && isSearching
      ensures pending.Some? ==> SearchDisabled()
      ensures old(SearchDisabled()) ==> SearchDisabled()
    {
      if Text.Trim(searchQuery) == "" {
        return None;
      }
      isSearching := true;
      pending := Some(searchQuery);
    }

    /** The timer callback with the query it captured. */
    method CompleteSearch(query: string)
      modifies this
      ensures searchResults == SearchPatients(patients, query) && !isSearching
      ensures !SearchDisabled()
      ensures searchQuery == old(searchQuery)
    {
      searchResults := SearchPatients(patients, query);
      isSearching := false;
    }

    /** The search button is disabled while a search is pending: from the
        start of a search until its timer completes it. The Enter key of the
        query field is not disabled and still calls HandleSearch. */
    predicate SearchDisabled()
      reads this
    {
      isSearching
    }
  }

  /** A query made of whitespace only never starts a search. */
  lemma BlankQueryIgnored(query: string)
    requires forall i :: 0 <= i < |query| ==> Text.IsJsWhitespace(query[i])
    ensures Text.Trim(query) == ""
  {
    Text.TrimEmptyIffBlank(query);
  }
}
