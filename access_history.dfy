/**
 * The patient's access log view: a search over doctor and hospital and an
 * access-type filter, applied to the fixed list of log entries.
 */
module AccessHistory {
  import Text
  import Seqs

  datatype AccessLog = AccessLog(
    id: int,
    timestamp: string,
    doctor: string,
    specialty: string,
    hospital: string,
    dataAccessed: seq<string>,
    accessType: string,
    location: string,
    ipAddress: string,
    duration: string,
    status: string)

  /** The three selections of the view; the time range is offered but never read. */
  datatype Filters = Filters(searchTerm: string, filterType: string, timeRange: string)

  const InitialFilters := Filters("", "all", "30")

  const AccessLogs: seq<AccessLog> := [
    AccessLog(1, "2024-06-20 14:30:00", "Dr. Sarah Johnson", "Cardiology", "Central Medical Center",
              ["Medical History", "Lab Results", "Vital Signs"], "Scheduled", "New York, NY",
              "192.168.1.100", "15 minutes", "Completed"),
    AccessLog(2, "2024-06-19 09:45:00", "Dr. Michael Chen", "Radiology", "St. Mary's Hospital",
              ["Imaging", "Radiology Reports"], "QR Code", "Boston, MA",
              "10.0.0.50", "8 minutes", "Completed"),
    AccessLog(3, "2024-06-18 22:15:00", "Dr. Emergency Team", "Emergency Medicine", "City Hospital ER",
              ["All Records", "Emergency Contacts", "Allergies"], "Emergency", "Chicago, IL",
              "172.16.0.25", "45 minutes", "Emergency Access"),
    AccessLog(4, "2024-06-17 11:20:00", "Dr. Emily Davis", "Primary Care", "Community Health Clinic",
              ["Medical History", "Prescriptions"], "Scheduled", "San Francisco, CA",
              "192.168.2.75", "12 minutes", "Completed"),
    AccessLog(5, "2024-06-16 16:00:00", "Unauthorized Access Attempt", "Unknown", "Unknown",
              [], "Failed", "Unknown", "203.0.113.45", "0 minutes", "Blocked")
  ]

  /** The filter select's option values. */
  const FilterOptions: seq<string> := ["all", "scheduled", "emergency", "qr code", "failed"]

  predicate MatchesSearch(log: AccessLog, searchTerm: string) {
    var term := Text.ToLowerCase(searchTerm);
    Text.Includes(Text.ToLowerCase(log.doctor), term) || Text.Includes(Text.ToLowerCase(log.hospital), term)
  }

  predicate MatchesFilter(log: AccessLog, filterType: string) {
    filterType == "all" || Text.ToLowerCase(log.accessType) == filterType
  }

  predicate Kept(log: AccessLog, searchTerm: string, filterType: string) {
    MatchesSearch(log, searchTerm) && MatchesFilter(log, filterType)
  }

  /** filteredLogs: reads the search term and the filter type only. */
  function FilteredLogs(logs: seq<AccessLog>, f: Filters): seq<AccessLog> {
    FilterLogs(logs, f.searchTerm, f.filterType)
  }

  function FilterLogs(logs: seq<AccessLog>, searchTerm: string, filterType: string): seq<AccessLog> {
    Seqs.Filter(logs, (log: AccessLog) => Kept(log, searchTerm, filterType))
  }

  /** The result keeps the logs in their original order, and keeps a log exactly
      when the lower-cased term occurs in its lower-cased doctor or hospital and
      the filter is "all" or its lower-cased access type. */
  lemma FilteredLogsSpec(logs: seq<AccessLog>, f: Filters)
    ensures Seqs.IsSubsequence(FilteredLogs(logs, f), logs)
    ensures forall log :: log in FilteredLogs(logs, f) <==>
      log in logs
      && (Text.Includes(Text.ToLowerCase(log.doctor), Text.ToLowerCase(f.searchTerm))
          || Text.Includes(Text.ToLowerCase(log.hospital), Text.ToLowerCase(f.searchTerm)))
      && (f.filterType == "all" || Text.ToLowerCase(log.accessType) == f.filterType)
  {
    Seqs.FilterIsSubsequence(logs, (log: AccessLog) => Kept(log, f.searchTerm, f.filterType));
  }

  /** An empty term with filter "all" keeps every log. */
  lemma EmptySearchKeepsAll(logs: seq<AccessLog>, timeRange: string)
    ensures FilteredLogs(logs, Filters("", "all", timeRange)) == logs
  {
    var f := Filters("", "all", timeRange);
    forall i | 0 <= i < |logs| ensures Kept(logs[i], "", "all") {
      Text.IncludesEmpty(Text.ToLowerCase(logs[i].doctor));
    }
    Seqs.FilterAllPass(logs, (log: AccessLog) => Kept(log, "", "all"));
  }

  /** The time range never changes the result. */
  lemma TimeRangeIgnored(logs: seq<AccessLog>, f: Filters, timeRange: string)
    ensures FilteredLogs(logs, f.(timeRange := timeRange)) == FilteredLogs(logs, f)
  {
  }

  /** "QR Code" lower-cases to the option value "qr code". */
  lemma QrCodeLowerCases()
    ensures Text.ToLowerCase("QR Code") == "qr code"
  {
    var l := Text.ToLowerCase("QR Code");
    assert l[0] == Text.LowerChar('Q') == 'q';
    assert l[1] == Text.LowerChar('R') == 'r';
    assert l[2] == Text.LowerChar(' ') == ' ';
    assert l[3] == Text.LowerChar('C') == 'c';
    assert l[4] == Text.LowerChar('o') == 'o';
    assert l[5] == Text.LowerChar('d') == 'd';
    assert l[6] == Text.LowerChar('e') == 'e';
  }

  /** The "qr code" option keeps the entries whose access type is "QR Code". */
  lemma QrCodeOptionMatches(log: AccessLog)
    requires log.accessType == "QR Code"
    ensures MatchesFilter(log, "qr code")
  {
    QrCodeLowerCases();
  }

  /** An access type whose first letter is not a q never matches the "qr code" option. */
  lemma NotQrCode(log: AccessLog)
    requires log.accessType != [] && Text.LowerChar(log.accessType[0]) != 'q'
    ensures !MatchesFilter(log, "qr code")
  {
    assert Text.ToLowerCase(log.accessType)[0] != "qr code"[0];
  }

  /** The log's "QR Code" entry passes an empty search and the "qr code" option. */
  lemma QrEntryKept(logs: seq<AccessLog>)
    requires logs == AccessLogs
    ensures Kept(logs[1], "", "qr code")
  {
    QrCodeOptionMatches(logs[1]);
    Text.IncludesEmpty(Text.ToLowerCase(logs[1].doctor));
  }

  /** Every other entry of the log fails the "qr code" option. */
  lemma OtherEntriesDropped(logs: seq<AccessLog>, i: int)
    requires logs == AccessLogs && 0 <= i < |logs| && i != 1
    ensures !Kept(logs[i], "", "qr code")
  {
    NotQrCode(logs[i]);
  }

  /** With an empty search the "qr code" option shows exactly the one
      "QR Code" entry of the log, whatever the time range. */
  lemma QrCodeOptionShowsOnlyQrEntry(logs: seq<AccessLog>, timeRange: string)
    requires logs == AccessLogs
    ensures FilteredLogs(logs, Filters("", "qr code", timeRange)) == [logs[1]]
  {
    var keep := (log: AccessLog) => Kept(log, "", "qr code");
    QrEntryKept(logs);
    forall i | 0 <= i < |logs| && i != 1 ensures !keep(logs[i]) {
      OtherEntriesDropped(logs, i);
    }
    Seqs.FilterOnlyOne(logs, keep, 1);
  }
}
