# MediChain consent nexus: verified model of the component rules

MediChain is a React/TypeScript front end for patient-controlled health
records: patients grant and revoke consents and share QR access codes,
doctors look up patients and book appointments, administrators manage staff
and a crisis mode, and a blockchain service connects a MetaMask wallet to a
registry contract. Almost all of it is layout over mock data; what this
project models is the logic inside the component handlers:

- the break-glass emergency access steps (`EmergencyAccess`);
- consent toggling, deletion and expiry bands (`ConsentManager`);
- the QR permission toggle and expiry stamp (`QRGenerator`);
- the list filters of the access history, the staff directory, the patient
  lookup, the doctor booking screen and the nearby-doctor search
  (`AccessHistory`, `StaffManagement`, `PatientLookup`, `DoctorBooking`,
  `GoogleMaps`), with the booking screen's distance sort and booking guards;
- the UI state machines of payments, crisis mode, the imaging viewer and
  sign-up (`PaymentIntegration`, `CrisisMode`, `MedicalImaging`, `Auth`);
- the blockchain service's connection state and guards (`Blockchain`), and
  the wallet panel on top of it (`WalletConnect`);
- the user menu's initials and badge, and the analytics thresholds
  (`UserMenu`, `Analytics`).

Each React state variable is a field of a class, and each `setX(...)` call
is an assignment to it; every handler method is specified by a pure
function of the old state, and the properties are lemmas about those
functions. JavaScript's string operations (`toLowerCase`, `includes`,
`trim`, `split`, `slice`, `parseInt`, `toString(16)`) are modelled in
`Text`, and `Array.prototype.filter` in `Seqs`. Time is milliseconds since the epoch (UTC) passed
in as a parameter, and the local zone's offset from UTC is one too; what a wallet, a processor, the registry contract or the
authentication backend answers is a parameter too (the three clock readings of the QR generator are separate parameters, in order), with a thrown error as
`Err(message)` (or `Some(message)` for the backend's error field).

Behaviour the model makes explicit, as the code is written:

- `ResetView` puts the slice back to 25 even for the one-slice knee X-ray
  (`MedicalImaging.ResetViewBeyondKneeSlices`).
- A wallet on a chain outside the table is named "unknown", and then
  `initializeContract` fails with a TypeError on the missing table entry,
  although the signer and network are already set
  (`Blockchain.InitOutcomeSpec`, `Blockchain.BlockchainService.ConnectWallet`).
- When the wallet reports chain code 4902, `switchNetwork` adds the chain but
  does not record the new network (`Blockchain.BlockchainService.SwitchNetwork`).
- The displayed age is the difference of calendar years, one more than the
  completed years before the birthday (`PatientLookup.DisplayedAgeVersusCompleted`).
- With no filter set, `filterDoctors` sorts the `doctors` state array itself
  (`DoctorBooking.DoctorBookingView.FilterDoctors`).
- The Enter key of the patient search field still calls `handleSearch` while
  the search button is disabled (`PatientLookup.PatientLookupView.HandleSearch`).

## Model

| member | source | states |
|---|---|---|
| EmergencyAccess.EnterCode | src/components/emergency/EmergencyAccess.tsx:273 | the stored code is the typed text upper-cased |
| EmergencyAccess.ValidPreserved | src/components/emergency/EmergencyAccess.tsx:21-56 | every handler keeps the step in 1..3 and emergency mode only with a completed scan; the initial state is valid |
| EmergencyAccess.ProceedFromStep1 | src/components/emergency/EmergencyAccess.tsx:41-42 | from step 1 the action moves to step 2 and changes nothing else, whatever else the state holds |
| EmergencyAccess.ProceedAtStep2 | src/components/emergency/EmergencyAccess.tsx:43-44 | at step 2 the step becomes 3 iff the code is EMERGENCY123; any other code leaves the state unchanged |
| EmergencyAccess.EmergencyOnlyFromStep3 | src/components/emergency/EmergencyAccess.tsx:45-47 | emergency mode is switched on only from step 3 with the scan completed, and the step returns to 1 |
| EmergencyAccess.AtMostOneStep | src/components/emergency/EmergencyAccess.tsx:40-49 | one action advances the step by at most one, wraps to 1 only on entering emergency mode, and below step 3 never changes emergency mode |
| EmergencyAccess.EmergencyNeedsThreeActions | src/components/emergency/EmergencyAccess.tsx:40-49 | from step 1, one or two actions never reach emergency mode |
| EmergencyAccess.CodeAcceptedInAnyCase | src/components/emergency/EmergencyAccess.tsx:273 | any typing whose upper-case form is the code is accepted at step 2 |
| EmergencyAccess.LowerCaseCodeUpperCases | src/components/emergency/EmergencyAccess.tsx:273 | "emergency123" upper-cases to the code |
| EmergencyAccess.EndSessionOnlyClearsMode | src/components/emergency/EmergencyAccess.tsx:194 | ending the session clears emergency mode and touches nothing else |
| EmergencyAccess.BiometricNeverReset | src/components/emergency/EmergencyAccess.tsx:40-56 | no handler resets a completed scan |
| EmergencyAccess.DisabledActionIsNoOp | src/components/emergency/EmergencyAccess.tsx:323 | when the button is disabled (step 3, no scan) the action would change nothing |
| EmergencyAccess.EmergencyAccessView.constructor | src/components/emergency/EmergencyAccess.tsx:21-24 | the initial state: no emergency mode, empty code, step 1, no scan |
| EmergencyAccess.EmergencyAccessView.HandleEmergencyAccess | src/components/emergency/EmergencyAccess.tsx:40-49 | the new state is Proceed of the old one, and validity is kept |
| EmergencyAccess.EmergencyAccessView.HandleAccessCodeChange | src/components/emergency/EmergencyAccess.tsx:273 | the new state is EnterCode of the old one |
| EmergencyAccess.EmergencyAccessView.HandleBiometricScan | src/components/emergency/EmergencyAccess.tsx:51-56 | when the scan's timer fires only the scan flag is set |
| EmergencyAccess.EmergencyAccessView.HandleEndSession | src/components/emergency/EmergencyAccess.tsx:194 | the new state is EndSession of the old one |
| ConsentManager.ToggleFlipsOnlyMatching | src/components/consent/ConsentManager.tsx:59-63 | length kept; `active` flipped exactly on entries with the id; every other field of every entry unchanged |
| ConsentManager.ToggleTwice | src/components/consent/ConsentManager.tsx:59-63 | toggling the same id twice restores the list |
| ConsentManager.ToggleChangesOneEntry | src/components/consent/ConsentManager.tsx:59-63 | with distinct ids, toggling an entry's id changes that entry only |
| ConsentManager.DeleteKeepsOthers | src/components/consent/ConsentManager.tsx:65-67 | the result is a subsequence holding exactly the entries with a different id |
| ConsentManager.DeleteIdempotent | src/components/consent/ConsentManager.tsx:65-67 | deleting the same id again is a no-op |
| ConsentManager.DaysRemaining | src/components/consent/ConsentManager.tsx:69-75 | the result r is the ceiling of the remaining time in days: (r-1) days < remaining <= r days |
| ConsentManager.ExpiredIffEndReached | src/components/consent/ConsentManager.tsx:140 | "expired" (days <= 0) holds iff the end date has been reached |
| ConsentManager.ExpiringSoonIffWithinAWeek | src/components/consent/ConsentManager.tsx:139 | "expiring soon" (0 < days <= 7) holds iff the end is at most seven days ahead |
| ConsentManager.BandsDisjoint | src/components/consent/ConsentManager.tsx:138-140 | no count of days is both expired and expiring soon |
| ConsentManager.ToggleKeepsClassification | src/components/consent/ConsentManager.tsx:59-63 | toggling never changes any entry's days remaining, so never its band |
| ConsentManager.ConsentManagerView.constructor | src/components/consent/ConsentManager.tsx:21-55 | the initial consents, whose ids are distinct |
| ConsentManager.ConsentManagerView.ToggleConsent | src/components/consent/ConsentManager.tsx:59-63 | the new list is Toggled of the old one |
| ConsentManager.ConsentManagerView.DeleteConsent | src/components/consent/ConsentManager.tsx:65-67 | the new list is Deleted of the old one |
| QRGenerator.ToggleFlipsMembership | src/components/qr/QRGenerator.tsx:61-67 | the toggled id's membership flips; every other id's membership is unchanged |
| QRGenerator.ToggleKeepsDistinct | src/components/qr/QRGenerator.tsx:61-67 | a duplicate-free list stays duplicate-free |
| QRGenerator.ToggleAbsentTwice | src/components/qr/QRGenerator.tsx:61-67 | toggling an absent id twice returns exactly the original list |
| QRGenerator.TogglePresentRemoves | src/components/qr/QRGenerator.tsx:63-64 | toggling a present id leaves a strictly shorter subsequence |
| QRGenerator.GeneratedStampsExpiry | src/components/qr/QRGenerator.tsx:42-53 | with a parseable duration the record copies type, duration and permissions, is created at the second clock reading and expires hours × 3 600 000 ms after the third: with the clock in order at least that long after its creation, exactly that when the two readings coincide |
| QRGenerator.IdEncodesCreation | src/components/qr/QRGenerator.tsx:45 | the id is "QR-" followed by the decimal first clock reading, which parses back from it and, with the clock in order, is no later than the creation stamp (equal to it when the readings coincide) |
| QRGenerator.OfferedDurationParses | src/components/qr/QRGenerator.tsx:113-117 | each offered duration string parses to its number of hours |
| QRGenerator.DurationHours | src/components/qr/QRGenerator.tsx:113-117 | every offered duration is at least one hour |
| QRGenerator.OfferedDurationsExpireLater | src/components/qr/QRGenerator.tsx:50 | for every offered duration and clock readings in order, the code expires strictly after it is created |
| QRGenerator.QRGeneratorView.constructor | src/components/qr/QRGenerator.tsx:20-23 | type "emergency", duration "24", permissions medical-history and vitals, no code |
| QRGenerator.QRGeneratorView.SetQrType | src/components/qr/QRGenerator.tsx:20 | only the type changes |
| QRGenerator.QRGeneratorView.SetDuration | src/components/qr/QRGenerator.tsx:108 | only the duration changes |
| QRGenerator.QRGeneratorView.TogglePermissionHandler | src/components/qr/QRGenerator.tsx:61-67 | the permissions become TogglePermission of the old ones; nothing else changes |
| QRGenerator.QRGeneratorView.GenerateQRHandler | src/components/qr/QRGenerator.tsx:42-53 | the generated code is GenerateQR of the settings and the three clock readings; an unparseable duration throws and leaves it as it was |
| AccessHistory.FilteredLogsSpec | src/components/access/AccessHistory.tsx:93-98 | the result is a subsequence of the logs, and a log is kept iff the lower-cased term occurs in the lower-cased doctor or hospital and the filter is "all" or the lower-cased access type |
| AccessHistory.EmptySearchKeepsAll | src/components/access/AccessHistory.tsx:93-98 | an empty term with filter "all" keeps every log, in order |
| AccessHistory.TimeRangeIgnored | src/components/access/AccessHistory.tsx:93-98 | the time range never changes the result |
| AccessHistory.QrCodeLowerCases | src/components/access/AccessHistory.tsx:96 | "QR Code" lower-cases to the option value "qr code" |
| AccessHistory.QrCodeOptionMatches | src/components/access/AccessHistory.tsx:96 | an entry whose access type is "QR Code" passes the "qr code" option |
| AccessHistory.QrCodeOptionShowsOnlyQrEntry | src/components/access/AccessHistory.tsx:93-98 | with an empty search and any time range the "qr code" option shows exactly the one "QR Code" entry of the log |
| PatientLookup.SearchPatientsSpec | src/components/doctor/PatientLookup.tsx:79-84 | the results are a subsequence of the patients, and a patient is in them iff the lower-cased query occurs in the lower-cased name or id, or the raw query occurs in the date of birth |
| PatientLookup.MockPatientsActions | src/components/doctor/PatientLookup.tsx:215-230 | only the patient whose consent is "Expired" is offered no actions |
| PatientLookup.DisplayedAgeVersusCompleted | src/components/doctor/PatientLookup.tsx:165 | the displayed age (difference of years) equals the completed years on or after the birthday, and is one more before it |
| PatientLookup.BlankQueryIgnored | src/components/doctor/PatientLookup.tsx:73 | a query of whitespace only trims to empty |
| PatientLookup.PatientLookupView.constructor | src/components/doctor/PatientLookup.tsx:20-22 | empty query, no results, not searching |
| PatientLookup.PatientLookupView.SetSearchQuery | src/components/doctor/PatientLookup.tsx:20 | only the query changes |
| PatientLookup.PatientLookupView.HandleSearch | src/components/doctor/PatientLookup.tsx:72-78 | a query empty after trimming changes nothing and starts nothing; otherwise searching is set and the untrimmed query is captured for the timer; a started search disables the search button (line 127), and a disabled button stays disabled |
| PatientLookup.PatientLookupView.CompleteSearch | src/components/doctor/PatientLookup.tsx:78-86 | the results become SearchPatients of the captured query and searching ends, enabling the search button again |
| StaffManagement.FilteredStaffSpec | src/components/admin/StaffManagement.tsx:88-94 | the result is a subsequence of the directory, and a member is kept iff the term occurs case-insensitively in name, email or department and the role filter is "all" or the role exactly |
| StaffManagement.EmptySearchKeepsEveryone | src/components/admin/StaffManagement.tsx:88-94 | an empty term with "all" keeps everyone, in order |
| StaffManagement.RoleFilterNarrows | src/components/admin/StaffManagement.tsx:92 | a particular role keeps a subsequence of what "all" keeps |
| StaffManagement.StatusColorSpec | src/components/admin/StaffManagement.tsx:96-98 | green exactly for "Active", red for every other status |
| DoctorBooking.FilteredSpec | src/components/booking/DoctorBooking.tsx:151-167 | the result is a subsequence of the doctors, and a doctor is kept iff each set criterion holds (term in specialization or hospital, case-insensitively; exact specialization; exact state) |
| DoctorBooking.NoCriteriaKeepsAll | src/components/booking/DoctorBooking.tsx:151-167 | with no criterion set every doctor is kept, in order |
| DoctorBooking.SortByDistance | src/components/booking/DoctorBooking.tsx:171 | the array ends sorted by distance (missing as 0) and is a permutation of its old contents |
| DoctorBooking.SetHoursSpec | src/components/booking/DoctorBooking.tsx:194 | setHours with an hour and minute in range stays on the same day at that hour and minute, keeping seconds and milliseconds |
| DoctorBooking.ScheduledTimeSpec | src/components/booking/DoctorBooking.tsx:192-196 | the timestamp is defined iff both parts of the slot parse, and is then the UTC whole seconds, rounded down, of the instant whose local reading (UTC plus the zone offset) is the local day of `new Date(selectedDate)` at the slot's hour and minute |
| DoctorBooking.SentSecondsSpec | src/components/booking/DoctorBooking.tsx:194-196 | for a parsed hour and minute: the seconds sent are the rounded-down UTC seconds of the set instant, whose local reading keeps the local day and shows that hour and minute |
| DoctorBooking.ScheduledTimeShiftsWithZone | src/components/booking/DoctorBooking.tsx:192-196 | for one instant whose local day is its UTC day (for the calendar's local midnights, only at or west of UTC), in a zone a whole number of minutes off UTC, the slot is sent one second earlier per second the zone is ahead of UTC |
| DoctorBooking.BookedOnSelectedDay | src/components/booking/DoctorBooking.tsx:192-196 | for the calendar's local midnight of a picked day, in any zone the slot is set on that local day at its hour and minute, and the seconds sent are that local time read back in UTC, rounded down |
| DoctorBooking.NoSlotsNothingSelectable | src/components/booking/DoctorBooking.tsx:374 | a doctor without a slot list has no selectable slot |
| DoctorBooking.DoctorBookingView.constructor | src/components/booking/DoctorBooking.tsx:42-55 | the initial, empty booking state |
| DoctorBooking.DoctorBookingView.LoadDoctors | src/components/booking/DoctorBooking.tsx:94-148 | the doctors become a fresh array holding the mock list and loading ends; the filtered list, booking flag, messages, search criteria, user location and selection are unchanged |
| DoctorBooking.ApplyFilters | src/components/booking/DoctorBooking.tsx:151-166 | the list after the three filters is Filtered of the doctors; with no criterion set it is the same array, otherwise a fresh one |
| DoctorBooking.DoctorBookingView.FilterDoctors | src/components/booking/DoctorBooking.tsx:151-175 | the filtered list is Filtered of the doctors, sorted by distance as a permutation when the user's location is known; with no criterion it is the doctors array itself, otherwise a fresh array and the doctors are untouched; criteria, location, selection, flags and messages are unchanged |
| DoctorBooking.DoctorBookingView.BookAppointment | src/components/booking/DoctorBooking.tsx:177-215 | a missing doctor, date or time, then a disconnected wallet, set only their errors and send nothing; otherwise the request for the selection, its time read in the given zone offset, is sent and its outcome recorded; the doctor lists, criteria, user location and loading flag never change |
| DoctorBooking.DoctorBookingView.RecordOutcome | src/components/booking/DoctorBooking.tsx:188-214 | success sets the message with the id and clears the selection; failure sets the message or "Failed to book appointment" and keeps the selection and notes; booking ends either way; the doctor lists, criteria, user location and loading flag are unchanged |
| GoogleMaps.NearbyDoctorsSpec | src/components/maps/GoogleMapsIntegration.tsx:185-195 | the result is a subsequence of the doctors, and a doctor is kept iff it has the selected specialization (when one is selected) and its distance is within the radius |
| GoogleMaps.NoSpecializationOnlyRadius | src/components/maps/GoogleMapsIntegration.tsx:187-193 | with no specialization selected only the radius applies |
| GoogleMaps.LargerRadiusKeepsMore | src/components/maps/GoogleMapsIntegration.tsx:192-193 | the result for a radius is a subsequence of the result for any larger radius |
| GoogleMaps.NaNRadiusKeepsNobody | src/components/maps/GoogleMapsIntegration.tsx:192-193 | a radius that does not parse keeps nobody |
| GoogleMaps.RadiusOptionsParse | src/components/maps/GoogleMapsIntegration.tsx:272-275 | each offered radius reads as its number of kilometres |
| GoogleMaps.NearbySearchView.constructor | src/components/maps/GoogleMapsIntegration.tsx:35-39 | radius "5", no specialization, no results, not loading |
| GoogleMaps.NearbySearchView.SearchNearbyDoctors | src/components/maps/GoogleMapsIntegration.tsx:181-198 | the results are NearbyDoctors of the settings and loading is off on return |
| PaymentIntegration.DispatchTable | src/components/payment/PaymentIntegration.tsx:102-108 | ethereum and polygon go to crypto, stripe to card, bank to bank, any other id to no processor |
| PaymentIntegration.MissingFieldOnlySetsError | src/components/payment/PaymentIntegration.tsx:92-95 | a missing method, amount or recipient sets "Please fill in all required fields" and nothing else |
| PaymentIntegration.PastGuard | src/components/payment/PaymentIntegration.tsx:97-114 | past the guard processing is off at the end; an unknown method leaves status idle and the error cleared; a failure sets status error with its message or "Payment failed" |
| PaymentIntegration.SuccessOnlyFromProcessor | src/components/payment/PaymentIntegration.tsx:102-144 | from a state not already successful, status is success iff the guard passes and a processor runs without throwing, and the id then starts with its prefix (0x, pi_, ACH_); a state already successful stays so when the guard fails |
| PaymentIntegration.EnabledButtonGuard | src/components/payment/PaymentIntegration.tsx:92 | with the pay button enabled only a missing method can trip the guard |
| PaymentIntegration.ResetRestoresInitial | src/components/payment/PaymentIntegration.tsx:192-205 | "Make Another Payment" restores status, details (currency ETH), method and id, keeping the error and the processing flag |
| PaymentIntegration.NeverLeftProcessing | src/components/payment/PaymentIntegration.tsx:97-114 | from a state not processing, a payment never ends processing |
| PaymentIntegration.PaymentView.constructor | src/components/payment/PaymentIntegration.tsx:36-47 | the initial payment state |
| PaymentIntegration.PaymentView.SelectMethod | src/components/payment/PaymentIntegration.tsx:236 | only the method changes |
| PaymentIntegration.PaymentView.SetAmount | src/components/payment/PaymentIntegration.tsx:269 | only the amount changes |
| PaymentIntegration.PaymentView.SetRecipient | src/components/payment/PaymentIntegration.tsx:297 | only the recipient changes |
| PaymentIntegration.PaymentView.HandlePayment | src/components/payment/PaymentIntegration.tsx:91-115 | the new state is Pay of the old one |
| PaymentIntegration.PaymentView.MakeAnotherPayment | src/components/payment/PaymentIntegration.tsx:194-205 | the new state is Reset of the old one |
| CrisisMode.ActivateKeepsProtocols | src/components/admin/CrisisMode.tsx:76-80 | activation sets crisis mode and keeps every protocol |
| CrisisMode.DeactivateRestores | src/components/admin/CrisisMode.tsx:82-91 | deactivation clears crisis mode and restores all five protocols |
| CrisisMode.SetProtocolChangesOne | src/components/admin/CrisisMode.tsx:175-228 | a switch event changes its protocol only, and only when the switch is enabled |
| CrisisMode.OtherSwitchesAlwaysEnabled | src/components/admin/CrisisMode.tsx:198-229 | the contacts, backup and monitoring switches are enabled in any state |
| CrisisMode.SafePreserved | src/components/admin/CrisisMode.tsx:76-91 | outside a crisis mass access and audit bypass stay off under every event |
| CrisisMode.MasterSwitchTwice | src/components/admin/CrisisMode.tsx:140 | flipping the master switch on and off from the initial state returns to it |
| CrisisMode.PortalStatusSpec | src/components/admin/CrisisMode.tsx:93-100 | the portal is "Active" (green) iff in a crisis, else "Standby" (blue); the mass-casualty scenario is active iff in a crisis |
| CrisisMode.CrisisModeView.constructor | src/components/admin/CrisisMode.tsx:21-28 | the initial, safe state |
| CrisisMode.CrisisModeView.ActivateCrisisMode | src/components/admin/CrisisMode.tsx:76-80 | the new state is Activate of the old one |
| CrisisMode.CrisisModeView.DeactivateCrisisMode | src/components/admin/CrisisMode.tsx:82-91 | the new state is Deactivate of the old one, which is safe |
| CrisisMode.CrisisModeView.OnMasterSwitch | src/components/admin/CrisisMode.tsx:140 | the new state is MasterSwitch of the old one |
| CrisisMode.CrisisModeView.OnProtocolSwitch | src/components/admin/CrisisMode.tsx:175-228 | the new state is SetProtocol of the old one |
| MedicalImaging.FindSlices | src/components/imaging/MedicalImaging3D.tsx:197 | a slice count is found iff some scan has the id, and it is then the count of the first scan with that id |
| MedicalImaging.ZoomButtonsClamp | src/components/imaging/MedicalImaging3D.tsx:232-239 | zoom-in gives min(300, z+25), zoom-out max(25, z-25), and a zoom in [25, 300] stays there |
| MedicalImaging.ZoomAfterInRange | src/components/imaging/MedicalImaging3D.tsx:232-239 | a zoom in [25, 300] stays there under any sequence of zoom-button presses |
| MedicalImaging.SliceButtonsClamp | src/components/imaging/MedicalImaging3D.tsx:279-293 | a slice in [1, slices] stays there under both buttons and moves by at most one |
| MedicalImaging.OfferedSliceCounts | src/components/imaging/MedicalImaging3D.tsx:30-33 | the four scans' counts are 50, 80, 1 and 120; an unknown scan counts 50 |
| MedicalImaging.SliceCountPositive | src/components/imaging/MedicalImaging3D.tsx:197 | with every scan's count positive the slice count is at least one |
| MedicalImaging.ResetViewRestores | src/components/imaging/MedicalImaging3D.tsx:94-98 | reset restores rotation, zoom and slice to their initial values and keeps the scan and rotation flag |
| MedicalImaging.ResetViewBeyondKneeSlices | src/components/imaging/MedicalImaging3D.tsx:94-98 | on the knee X-ray reset leaves the slice beyond the scan's count |
| MedicalImaging.SelectScanKeepsSlice | src/components/imaging/MedicalImaging3D.tsx:152 | selecting a scan changes only the selection, not the slice |
| MedicalImaging.ImagingView.constructor | src/components/imaging/MedicalImaging3D.tsx:23-34 | the initial viewer state |
| MedicalImaging.ImagingView.OnZoomIn | src/components/imaging/MedicalImaging3D.tsx:232 | only the zoom changes, to ZoomIn of the old one |
| MedicalImaging.ImagingView.OnZoomOut | src/components/imaging/MedicalImaging3D.tsx:239 | only the zoom changes, to ZoomOut of the old one |
| MedicalImaging.ImagingView.OnSliceBack | src/components/imaging/MedicalImaging3D.tsx:279 | only the slice changes, to SliceBack of the old one |
| MedicalImaging.ImagingView.OnSliceForward | src/components/imaging/MedicalImaging3D.tsx:293 | only the slice changes, capped at the selected scan's count |
| MedicalImaging.ImagingView.OnResetView | src/components/imaging/MedicalImaging3D.tsx:94-98 | the new state is ResetView of the old one |
| MedicalImaging.ImagingView.OnSelectScan | src/components/imaging/MedicalImaging3D.tsx:152 | the new state is SelectScan of the old one |
| MedicalImaging.ImagingView.OnToggleRotation | src/components/imaging/MedicalImaging3D.tsx:213 | only the rotation flag flips |
| Blockchain.Lookup | src/lib/blockchain.ts:87-105 | a found configuration is the table's entry for that name; none is found iff no entry has it |
| Blockchain.NetworkNameOfSpec | src/lib/blockchain.ts:73-80 | the name of the first entry whose chain id matches, or "unknown" when none does |
| Blockchain.NetworkNameRoundTrip | src/lib/blockchain.ts:73-80 | with distinct chain ids, an entry's chain id looks up to its name |
| Blockchain.SupportedTableWellFormed | src/lib/blockchain.ts:12-37 | the supported networks have distinct names and chain ids, and none is named "unknown" |
| Blockchain.SupportedNetworkRoundTrip | src/lib/blockchain.ts:73-80 | the name of a supported network's chain id is that network |
| Blockchain.HexChainIdSpec | src/lib/blockchain.ts:112-133 | the chain id sent is "0x" followed by lower-case hex digits, without leading zeros, denoting the chain id |
| Blockchain.AddNetworkCurrency | src/lib/blockchain.ts:127-143 | the add request names MATIC exactly for polygon and ETH otherwise, with 18 decimals and the hex chain id |
| Blockchain.InitOutcomeSpec | src/lib/blockchain.ts:82-97 | the contract is bound iff a signer is present, the network is in the table and has an address; a missing signer fails first, and the "unknown" network fails on the missing entry |
| Blockchain.BlockchainService.constructor | src/lib/blockchain.ts:40-43 | no provider, signer or contract; network "localhost" |
| Blockchain.BlockchainService.GetNetworkName | src/lib/blockchain.ts:73-80 | the loop returns NetworkNameOf the table |
| Blockchain.BlockchainService.InitializeContract | src/lib/blockchain.ts:82-97 | the contract is bound to InitOutcome's address, or the error is returned and the contract kept |
| Blockchain.BlockchainService.ConnectWallet | src/lib/blockchain.ts:45-71 | no MetaMask or a refused request leave provider, signer, contract and network unchanged; otherwise signer and network are set and the contract initialised, whose failure is the call's error |
| Blockchain.BlockchainService.SwitchNetwork | src/lib/blockchain.ts:99-124 | no MetaMask, then an unsupported name, fail before any request and leave provider, signer, contract and network unchanged; on success the network is recorded and the contract re-initialised; on code 4902 the chain is added and the network not recorded; other errors are rethrown |
| Blockchain.BlockchainService.CallContract | src/lib/blockchain.ts:146-149 | every registry operation fails with "Contract not initialized" when no contract is bound, and otherwise yields the contract's reply |
| WalletConnect.FormatAddressSpec | src/components/blockchain/WalletConnect.tsx:75-77 | an address of ten or more characters shows its first six, "...", and its last four: thirteen characters |
| WalletConnect.FormatAddressBound | src/components/blockchain/WalletConnect.tsx:75-77 | the shortened address is never longer than thirteen characters and starts with the address's first characters |
| WalletConnect.NetworkStatusSpec | src/components/blockchain/WalletConnect.tsx:79-88 | Unknown iff not in the table; Local for localhost; Testnet for sepolia, mumbai or a name containing "test"; Mainnet otherwise |
| WalletConnect.OnlyPolygonIsMainnet | src/components/blockchain/WalletConnect.tsx:79-88 | among the supported networks only polygon is a mainnet |
| WalletConnect.WalletConnectView.constructor | src/components/blockchain/WalletConnect.tsx:21-25 | not connected, no address, no network, no error |
| WalletConnect.WalletConnectView.CheckConnection | src/components/blockchain/WalletConnect.tsx:30-45 | with MetaMask and a connected service the flag and network are copied, and the address only if it can be read |
| WalletConnect.WalletConnectView.ConnectWallet | src/components/blockchain/WalletConnect.tsx:47-63 | success sets connected, address and network; failure sets the message or "Failed to connect wallet"; connecting is off either way |
| WalletConnect.WalletConnectView.SwitchNetwork | src/components/blockchain/WalletConnect.tsx:65-73 | the network changes only when the service succeeds; otherwise only the error is set |
| Auth.ValidateSpec | src/pages/Auth.tsx:47-57 | the checks pass iff the password is confirmed and has at least six characters; a mismatch is reported before the length |
| Auth.SignUpStatusSpec | src/pages/Auth.tsx:41-72 | loading ends on every path; success iff both checks pass and the backend reports no error; a failed check shows its message; a backend error shows its message or the default |
| Auth.FailedCheckIgnoresBackend | src/pages/Auth.tsx:47-57 | after a failed check nothing the backend could answer matters |
| Auth.SignInStatusSpec | src/pages/Auth.tsx:74-85 | loading ends; an error is shown iff the backend reports one (default "Invalid email or password"); success is left alone |
| Auth.InitialRoleOffered | src/pages/Auth.tsx:28-34 | the default role is patient, the first of the offered patient, doctor and admin |
| Auth.AuthView.constructor | src/pages/Auth.tsx:14-39 | not loading, no messages, the initial form data |
| Auth.AuthView.HandleSignUp | src/pages/Auth.tsx:41-72 | the messages become SignUpStatus of the form; signUp is called, with the form's fields, iff both checks pass |
| Auth.AuthView.HandleSignIn | src/pages/Auth.tsx:74-85 | the messages become SignInStatus of the old ones |
| UserMenu.FirstCharsSpec | src/components/auth/UserMenu.tsx:24-26 | one character per non-empty word, its first character |
| UserMenu.EmptyWordsIgnored | src/components/auth/UserMenu.tsx:24-26 | empty words from repeated, leading or trailing spaces contribute nothing |
| UserMenu.GetInitialsSpec | src/components/auth/UserMenu.tsx:22-29 | at most two characters, two unless the name has fewer non-empty words, each the upper-cased first character of a word in order |
| UserMenu.DisplayName | src/components/auth/UserMenu.tsx:46 | a present, non-empty full name is shown; otherwise the e-mail is; the e-mail is shown iff the full name is missing, empty or equal to it |
| UserMenu.RoleBadgeColorSpec | src/components/auth/UserMenu.tsx:31-38 | purple iff admin, green iff doctor, blue iff patient, slate for anything else |
| Analytics.ScoreColorSpec | src/components/admin/Analytics.tsx:80-84 | green iff score >= 95, yellow iff 85 <= score < 95, red iff score < 85 |
| Analytics.ScoreColorMonotone | src/components/admin/Analytics.tsx:80-84 | a higher score never gets a worse colour |
| Analytics.TrendSpec | src/components/admin/Analytics.tsx:68-78 | green with the rising icon iff the trend is "up"; red with the falling icon for every other value |
| Analytics.ActivityLevelSpec | src/components/admin/Analytics.tsx:258-259 | High iff above 2500 accesses, Medium iff in (2000, 2500], Low otherwise |
| Analytics.ActivityLevelMonotone | src/components/admin/Analytics.tsx:258-259 | more accesses never give a lower level |
| Analytics.TopAccessedDataSpec | src/components/admin/Analytics.tsx:37-43 | the percentages sum to 100, and each is its row's share of the 6924 accesses rounded to the nearest percent |
| Analytics.DepartmentLevels | src/components/admin/Analytics.tsx:45-51 | Emergency and Cardiology are High, Primary Care Medium, Radiology and Surgery Low |

## Left out

- JSX rendering, styling, icons and tab switches in every component; the dashboards, the landing page and the display-only components (health passport, record viewer, compliance hub).
- The authentication backend (Supabase), the `useEffect` redirect to `/` once signed in, sign-out, and the input handlers that copy typed values into the sign-up and sign-in forms: the backend's answer is a parameter.
- Timers: the delays of the mock biometric scan, patient search, payment processors and wallet calls. A delayed callback is its own method (`HandleBiometricScan`, `CompleteSearch`), called with what it captured.
- `Math.random` transaction ids: the random part is the `suffix` parameter of `PaymentIntegration.Pay`; the appointment id is part of the registry's reply.
- QRGenerator.GenerateQR: the clock readings are given as numbers of milliseconds; the ISO-8601 text of the stamps, and the RangeError `toISOString` raises for a date beyond its range, are not modelled.
- ethers.js and MetaMask internals and the registry contract (not in the repository): the wallet's and the contract's replies are parameters, a signer is its address and a contract its bound address; receipt event parsing in the registry operations is inside the reply `Blockchain.BlockchainService.CallContract` passes on.
- Blockchain.BlockchainService.ConnectWallet: only a refused account request is modelled as a wallet failure; a failure of `getSigner`, `getAddress` or `getNetwork` after the provider is set, which would leave the provider set and the signer unchanged, is not.
- The `onConnectionChange` callback of the wallet panel and the `console.error` logging.
- The user menu's `return null` when there is no user or no profile (UserMenu.tsx:20), a rendering guard with no state of its own.
- The imaging canvas, the auto-rotate animation, click-to-rotate, and the zoom and slice sliders, which set a value chosen on the slider.
- The Google Maps script, markers and `navigator.geolocation`; the booking screen's user location is only whether it is known.
- GoogleMaps.RadiusKm: reads the radius with `parseInt`-style whole-number parsing, which agrees with `parseFloat` on the offered values but not on fractional text.
- DoctorBooking.SortByDistance: states sortedness and permutation but not the stability of JavaScript's sort; equal distances may come out in another order.
- DoctorBooking.ScheduledTime: the date is the instant the calendar stores for the picked day (its local midnight, copied by `new Date(selectedDate)`), in milliseconds since the epoch, and the local zone has one fixed offset from UTC (the `zoneOffset` parameter of `BookAppointment`); daylight-saving changes of the offset are not modelled, nor the calendar widget itself.
- PatientLookup.DisplayedAgeVersusCompleted: dates of birth are given as year, month and day; parsing the date string is not modelled.
- Text.ParseInt: parses an optional sign and decimal digits after JavaScript white space; the "0x"/"0X" prefix, which `parseInt` with no radix reads as hexadecimal, is not modelled (no input of the modelled screens starts with it).
- Blockchain.Lookup: finds only the table's own entries; a lookup of an inherited property name such as "toString", which is truthy in JavaScript and makes `switchNetwork("toString")` fail with a TypeError instead of "Unsupported network: toString", is not modelled (no control of the screens offers such a name).
- Blockchain.UndefinedConfigError: the message of the TypeError on the missing table entry is the V8 engine's wording; other engines word it differently.
- Auth.Validate: counts characters, where JavaScript's `length` counts UTF-16 code units.
- Text.ToLowerCase and Text.ToUpperCase map ASCII letters only; JavaScript's full Unicode case mapping is not modelled.
- Scores and distances are exact reals; floating-point rounding is not modelled.
- The analytics time-range selector, which nothing reads, and the display of metric changes with `Math.abs`.
