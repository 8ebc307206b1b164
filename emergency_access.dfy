/**
 * The break-glass screen: a three-step verification counter (justification,
 * emergency code, biometric scan) that gates emergency mode.
 */
module EmergencyAccess {
  import Text

  /** The code hospital administration hands out. */
  const EmergencyCode: string := "EMERGENCY123"

  datatype EmergencyState = EmergencyState(
    emergencyMode: bool,
    accessCode: string,
    verificationStep: int,
    biometricVerified: bool)

  const Initial := EmergencyState(false, "", 1, false)

  /** The states the handlers can reach from Initial. */
  predicate Valid(st: EmergencyState) {
    1 <= st.verificationStep <= 3 && (st.emergencyMode ==> st.biometricVerified)
  }

  /** The action button's handler. */
  function Proceed(st: EmergencyState): EmergencyState {
    if st.verificationStep == 1 then st.(verificationStep := 2)
    else if st.verificationStep == 2 && st.accessCode == EmergencyCode then st.(verificationStep := 3)
    else if st.verificationStep == 3 && st.biometricVerified then st.(emergencyMode := true, verificationStep := 1)
    else st
  }

  /** The code field's change handler: the typed text is stored upper-cased. */
  function EnterCode(st: EmergencyState, typed: string): (r: EmergencyState)
    ensures r.accessCode == Text.ToUpperCase(typed)
  {
    st.(accessCode := Text.ToUpperCase(typed))
  }

  /** The mock scanner's timer firing. */
  function BiometricScanCompleted(st: EmergencyState): EmergencyState {
    st.(biometricVerified := true)
  }

  /** "End Emergency Session". */
  function EndSession(st: EmergencyState): EmergencyState {
    st.(emergencyMode := false)
  }

  /** The action button is disabled at step 3 until the scan completes. */
  predicate ActionDisabled(st: EmergencyState) {
    st.verificationStep == 3 && !st.biometricVerified
  }

  /** Every handler keeps the step in 1..3 and emergency mode only with a completed scan. */
  lemma ValidPreserved(st: EmergencyState, typed: string)
    requires Valid(st)
    ensures Valid(Proceed(st)) && Valid(EnterCode(st, typed))
    ensures Valid(BiometricScanCompleted(st)) && Valid(EndSession(st))
    ensures Valid(Initial)
  {
  }

  /** From step 1 the action always moves to step 2 and reads nothing else. */
  lemma ProceedFromStep1(st: EmergencyState)
    requires st.verificationStep == 1
    ensures Proceed(st) == st.(verificationStep := 2)
  {
  }

  /** At step 2 the step becomes 3 exactly when the code is right; otherwise nothing changes. */
  lemma ProceedAtStep2(st: EmergencyState)
    requires st.verificationStep == 2
    ensures Proceed(st).verificationStep == 3 <==> st.accessCode == EmergencyCode
    ensures st.accessCode != EmergencyCode ==> Proceed(st) == st
  {
  }

  /** Emergency mode is switched on only from step 3 with the scan completed, and the step goes back to 1. */
  lemma EmergencyOnlyFromStep3(st: EmergencyState)
    requires !st.emergencyMode && Proceed(st).emergencyMode
    ensures st.verificationStep == 3 && st.biometricVerified
    ensures Proceed(st).verificationStep == 1
  {
  }

  /** One action advances the step by at most one; it wraps to 1 only when emergency mode is entered. */
  lemma AtMostOneStep(st: EmergencyState)
    requires Valid(st)
    ensures Proceed(st).verificationStep == st.verificationStep
         || Proceed(st).verificationStep == st.verificationStep + 1
         || (st.verificationStep == 3 && Proceed(st).verificationStep == 1 && Proceed(st).emergencyMode)
    ensures st.verificationStep < 3 ==> Proceed(st).emergencyMode == st.emergencyMode
  {
  }

  /** Reaching emergency mode from the start takes the three steps in order: no
      sequence of fewer than three actions gets there. */
  lemma EmergencyNeedsThreeActions(st: EmergencyState)
    requires st.verificationStep == 1 && !st.emergencyMode
    ensures !Proceed(st).emergencyMode && !Proceed(Proceed(st)).emergencyMode
  {
  }

  /** Lower-case input of the right code is accepted, because it is stored upper-cased. */
  lemma CodeAcceptedInAnyCase(st: EmergencyState, typed: string)
    requires st.verificationStep == 2 && Text.ToUpperCase(typed) == EmergencyCode
    ensures Proceed(EnterCode(st, typed)).verificationStep == 3
  {
  }

  /** "emergency123", typed in lower case, upper-cases to the code. */
  lemma LowerCaseCodeUpperCases(typed: string)
    requires typed == "emergency123"
    ensures Text.ToUpperCase(typed) == EmergencyCode
  {
    var u := Text.ToUpperCase(typed);
    assert forall i :: 0 <= i < 12 ==> u[i] == EmergencyCode[i] by {
      assert u[0] == Text.UpperChar(typed[0]) == 'E';
      assert u[1] == Text.UpperChar(typed[1]) == 'M';
      assert u[2] == Text.UpperChar(typed[2]) == 'E';
      assert u[3] == Text.UpperChar(typed[3]) == 'R';
      assert u[4] == Text.UpperChar(typed[4]) == 'G';
      assert u[5] == Text.UpperChar(typed[5]) == 'E';
      assert u[6] == Text.UpperChar(typed[6]) == 'N';
      assert u[7] == Text.UpperChar(typed[7]) == 'C';
      assert u[8] == Text.UpperChar(typed[8]) == 'Y';
      assert u[9] == Text.UpperChar(typed[9]) == '1';
      assert u[10] == Text.UpperChar(typed[10]) == '2';
      assert u[11] == Text.UpperChar(typed[11]) == '3';
    }
  }

  /** Ending the session clears emergency mode and touches nothing else. */
  lemma EndSessionOnlyClearsMode(st: EmergencyState)
    ensures !EndSession(st).emergencyMode
    ensures EndSession(st).(emergencyMode := st.emergencyMode) == st
  {
  }

  /** No handler resets the completed scan. */
  lemma BiometricNeverReset(st: EmergencyState, typed: string)
    requires st.biometricVerified
    ensures Proceed(st).biometricVerified && EnterCode(st, typed).biometricVerified
    ensures BiometricScanCompleted(st).biometricVerified && EndSession(st).biometricVerified
  {
  }

  /** When the button is disabled its handler would change nothing either. */
  lemma DisabledActionIsNoOp(st: EmergencyState)
    requires ActionDisabled(st)
    ensures Proceed(st) == st
  {
  }

  /** The component, its four state fields and its handlers. */
  class EmergencyAccessView {
    var emergencyMode: bool
    var accessCode: string
    var verificationStep: int
    var biometricVerified: bool

    function State(): EmergencyState
      reads this
    {
      EmergencyState(emergencyMode, accessCode, verificationStep, biometricVerified)
    }

    constructor ()
      ensures State() == Initial && Valid(State())
    {
      emergencyMode := false;
      accessCode := "";
      verificationStep := 1;
      biometricVerified := false;
    }

    method HandleEmergencyAccess()
      modifies this
      ensures State() == Proceed(old(State()))
      ensures old(Valid(State())) ==> Valid(State())
    {
      if verificationStep == 1 {
        verificationStep := 2;
      } else if verificationStep == 2 && accessCode == EmergencyCode {
        verificationStep := 3;
      } else if verificationStep == 3 && biometricVerified {
        emergencyMode := true;
        verificationStep := 1;
      }
    }

    method HandleAccessCodeChange(typed: string)
      modifies this
      ensures State() == EnterCode(old(State()), typed)
    {
      accessCode := Text.ToUpperCase(typed);
    }

    /** The completion of the scan that handleBiometricScan schedules. */
    method HandleBiometricScan()
      modifies this
      ensures State() == BiometricScanCompleted(old(State()))
    {
      biometricVerified := true;
    }

    method HandleEndSession()
      modifies this
      ensures State() == EndSession(old(State()))
    {
      emergencyMode := false;
    }
  }
}
