/**
 * The administrator's crisis switch: activating and deactivating crisis mode,
 * the five emergency-protocol switches (two of which are locked outside a
 * crisis), and the statuses derived from the crisis flag.
 *
 * A disabled switch delivers no change event, so setting a locked protocol
 * outside a crisis leaves the state as it was.
 */
module CrisisMode {

  datatype Protocols = Protocols(
    massAccess: bool,
    auditBypass: bool,
    emergencyContacts: bool,
    dataBackup: bool,
    systemMonitoring: bool)

  const InitialProtocols := Protocols(false, false, true, true, true)

  datatype CrisisState = CrisisState(crisisActive: bool, protocols: Protocols)

  const Initial := CrisisState(false, InitialProtocols)

  datatype Protocol = MassAccess | AuditBypass | EmergencyContacts | DataBackup | SystemMonitoring

  /** activateCrisisMode */
  function Activate(st: CrisisState): CrisisState {
    st.(crisisActive := true)
  }

  /** deactivateCrisisMode */
  function Deactivate(st: CrisisState): CrisisState {
    CrisisState(false, InitialProtocols)
  }

  /** The master switch calls deactivate when crisis mode is on and activate otherwise. */
  function MasterSwitch(st: CrisisState): CrisisState {
    if st.crisisActive then Deactivate(st) else Activate(st)
  }

  /** Mass access and audit bypass are disabled outside a crisis; the other three never are. */
  predicate SwitchEnabled(st: CrisisState, p: Protocol) {
    (p == MassAccess || p == AuditBypass) ==> st.crisisActive
  }

  function WithProtocol(ps: Protocols, p: Protocol, checked: bool): Protocols {
    match p
    case MassAccess => ps.(massAccess := checked)
    case AuditBypass => ps.(auditBypass := checked)
    case EmergencyContacts => ps.(emergencyContacts := checked)
    case DataBackup => ps.(dataBackup := checked)
    case SystemMonitoring => ps.(systemMonitoring := checked)
  }

  function ProtocolValue(ps: Protocols, p: Protocol): bool {
    match p
    case MassAccess => ps.massAccess
    case AuditBypass => ps.auditBypass
    case EmergencyContacts => ps.emergencyContacts
    case DataBackup => ps.dataBackup
    case SystemMonitoring => ps.systemMonitoring
  }

  /** A protocol switch's change event, which only an enabled switch delivers. */
  function SetProtocol(st: CrisisState, p: Protocol, checked: bool): CrisisState {
    if SwitchEnabled(st, p) then st.(protocols := WithProtocol(st.protocols, p, checked)) else st
  }

  /** The "Emergency Access Portal" row of the system status list. */
  function PortalStatus(st: CrisisState): string {
    if st.crisisActive then "Active" else "Standby"
  }

  /** The "Mass Casualty Event" scenario's active flag. */
  predicate MassCasualtyActive(st: CrisisState) {
    st.crisisActive
  }

  /** getStatusColor */
  function StatusColor(status: string): string {
    if status in ["Operational", "Available", "Active"] then "bg-green-100 text-green-800"
    else if status in ["Degraded", "On-Call"] then "bg-yellow-100 text-yellow-800"
    else if status in ["Offline", "Unavailable"] then "bg-red-100 text-red-800"
    else if status in ["Standby", "Monitoring"] then "bg-blue-100 text-blue-800"
    else "bg-slate-100 text-slate-800"
  }

  /** Outside a crisis neither mass access nor audit bypass is on. */
  predicate Safe(st: CrisisState) {
    !st.crisisActive ==> !st.protocols.massAccess && !st.protocols.auditBypass
  }

  /** Activation turns crisis mode on and leaves every protocol as it was. */
  lemma ActivateKeepsProtocols(st: CrisisState)
    ensures Activate(st).crisisActive && Activate(st).protocols == st.protocols
  {
  }

  /** Deactivation turns crisis mode off and restores all five protocols. */
  lemma DeactivateRestores(st: CrisisState)
    ensures Deactivate(st) == Initial
    ensures !Deactivate(st).crisisActive && Deactivate(st).protocols == InitialProtocols
  {
  }

  /** Setting a protocol changes that protocol only, and only through an enabled switch. */
  lemma SetProtocolChangesOne(st: CrisisState, p: Protocol, checked: bool, q: Protocol)
    ensures SetProtocol(st, p, checked).crisisActive == st.crisisActive
    ensures q != p ==> ProtocolValue(SetProtocol(st, p, checked).protocols, q) == ProtocolValue(st.protocols, q)
    ensures ProtocolValue(SetProtocol(st, p, checked).protocols, p) ==
      (if SwitchEnabled(st, p) then checked else ProtocolValue(st.protocols, p))
  {
  }

  /** The three other switches are enabled whatever the crisis state. */
  lemma OtherSwitchesAlwaysEnabled(st: CrisisState, p: Protocol)
    requires p != MassAccess && p != AuditBypass
    ensures SwitchEnabled(st, p)
  {
  }

  /** Every event keeps the state safe, and the initial state is safe. */
  lemma SafePreserved(st: CrisisState, p: Protocol, checked: bool)
    requires Safe(st)
    ensures Safe(Activate(st)) && Safe(Deactivate(st)) && Safe(MasterSwitch(st))
    ensures Safe(SetProtocol(st, p, checked))
    ensures Safe(Initial)
  {
  }

  /** The master switch undoes any crisis: flipping it twice from a quiet state changes nothing. */
  lemma MasterSwitchTwice(st: CrisisState)
    requires !st.crisisActive && st.protocols == InitialProtocols
    ensures MasterSwitch(MasterSwitch(st)) == st
  {
  }

  /** The portal reads "Active" exactly in a crisis, shown green; otherwise "Standby", shown blue. */
  lemma PortalStatusSpec(st: CrisisState)
    ensures PortalStatus(st) == "Active" <==> st.crisisActive
    ensures PortalStatus(st) == "Standby" <==> !st.crisisActive
    ensures MassCasualtyActive(st) <==> PortalStatus(st) == "Active"
    ensures StatusColor(PortalStatus(st)) == (if st.crisisActive then "bg-green-100 text-green-800" else "bg-blue-100 text-blue-800")
  {
  }

  /** The component's state. */
  class CrisisModeView {
    var crisisActive: bool
    var emergencyProtocols: Protocols

    function State(): CrisisState
      reads this
    {
      CrisisState(crisisActive, emergencyProtocols)
    }

    constructor ()
      ensures State() == Initial && Safe(State())
    {
      crisisActive := false;
      emergencyProtocols := InitialProtocols;
    }

    method ActivateCrisisMode()
      modifies this
      ensures State() == Activate(old(State()))
      ensures old(Safe(State())) ==> Safe(State())
    {
      crisisActive := true;
    }

    method DeactivateCrisisMode()
      modifies this
      ensures State() == Deactivate(old(State()))
      ensures Safe(State())
    {
      crisisActive := false;
      emergencyProtocols := InitialProtocols;
    }

    /** The master switch's change handler. */
    method OnMasterSwitch()
      modifies this
      ensures State() == MasterSwitch(old(State()))
      ensures old(Safe(State())) ==> Safe(State())
    {
      if crisisActive {
        DeactivateCrisisMode();
      } else {
        ActivateCrisisMode();
      }
    }

    /** A protocol switch's change handler, reached only when the switch is enabled. */
    method OnProtocolSwitch(p: Protocol, checked: bool)
      modifies this
      ensures State() == SetProtocol(old(State()), p, checked)
      ensures old(Safe(State())) ==> Safe(State())
    {
      if SwitchEnabled(State(), p) {
        emergencyProtocols := WithProtocol(emergencyProtocols, p, checked);
      }
    }
  }
}
