/**
 * The payment form: the required-field guard of handlePayment, the dispatch
 * of the selected method to one of three processors, the status it ends in,
 * and "Make Another Payment".
 *
 * The processors are mock timers that set a random transaction id; here
 * `suffix` is the random part of that id and `failure` is the message of
 * the error a processor throws, if it throws.
 */
module PaymentIntegration {
  import opened Wrappers

  datatype PaymentStatus = Idle | Success | Error

  datatype PaymentDetails = PaymentDetails(
    amount: string,
    currency: string,
    description: string,
    recipient: string,
    paymentMethod: string)

  const InitialDetails := PaymentDetails("", "ETH", "", "", "")

  datatype PaymentState = PaymentState(
    selectedMethod: string,
    details: PaymentDetails,
    isProcessing: bool,
    status: PaymentStatus,
    transactionHash: string,
    error: string)

  const Initial := PaymentState("", InitialDetails, false, Idle, "", "")

  const MissingFieldsError := "Please fill in all required fields"
  const DefaultPaymentError := "Payment failed"

  /** The method cards' ids. */
  const MethodIds: seq<string> := ["ethereum", "polygon", "stripe", "bank"]

  datatype Processor = Crypto | Card | Bank

  /** The if/else-if chain of handlePayment; other ids run no processor. */
  function ProcessorFor(methodId: string): Option<Processor> {
    if methodId == "ethereum" || methodId == "polygon" then Some(Crypto)
    else if methodId == "stripe" then Some(Card)
    else if methodId == "bank" then Some(Bank)
    else None
  }

  /** The fixed start of the id each processor makes up. */
  function TxPrefix(p: Processor): string {
    match p
    case Crypto => "0x"
    case Card => "pi_"
    case Bank => "ACH_"
  }

  /** The guard: a method, an amount and a recipient must all be non-empty. */
  predicate RequiredFieldsPresent(st: PaymentState) {
    st.selectedMethod != "" && st.details.amount != "" && st.details.recipient != ""
  }

  /** handlePayment, up to the end of its finally block. */
  function Pay(st: PaymentState, suffix: string, failure: Option<string>): PaymentState {
    if !RequiredFieldsPresent(st) then st.(error := MissingFieldsError)
    else
      var started := st.(isProcessing := true, error := "", status := Idle);
      var settled :=
        match ProcessorFor(st.selectedMethod)
        case None => started
        case Some(p) =>
          if failure.Some? then
            started.(error := if failure.value != "" then failure.value else DefaultPaymentError, status := Error)
          else started.(transactionHash := TxPrefix(p) + suffix, status := Success);
      settled.(isProcessing := false)
  }

  /** "Make Another Payment". */
  function Reset(st: PaymentState): PaymentState {
    st.(status := Idle, details := InitialDetails, selectedMethod := "", transactionHash := "")
  }

  /** The pay button is disabled while processing or without an amount or a recipient. */
  predicate PayDisabled(st: PaymentState) {
    st.isProcessing || st.details.amount == "" || st.details.recipient == ""
  }

  /** The dispatch: crypto for ethereum and polygon, card for stripe, bank for bank. */
  lemma DispatchTable(methodId: string)
    ensures ProcessorFor(methodId) == Some(Crypto) <==> methodId == "ethereum" || methodId == "polygon"
    ensures ProcessorFor(methodId) == Some(Card) <==> methodId == "stripe"
    ensures ProcessorFor(methodId) == Some(Bank) <==> methodId == "bank"
    ensures ProcessorFor(methodId).None? <==> methodId !in MethodIds
  {
  }

  /** A missing field sets the message and nothing else: processing never starts. */
  lemma MissingFieldOnlySetsError(st: PaymentState, suffix: string, failure: Option<string>)
    requires !RequiredFieldsPresent(st)
    ensures Pay(st, suffix, failure) == st.(error := MissingFieldsError)
  {
  }

  /** Past the guard, processing is off at the end and the status says what happened. */
  lemma PastGuard(st: PaymentState, suffix: string, failure: Option<string>)
    requires RequiredFieldsPresent(st)
    ensures var r := Pay(st, suffix, failure);
      !r.isProcessing && r.selectedMethod == st.selectedMethod && r.details == st.details
      && (ProcessorFor(st.selectedMethod).None? ==> r.status == Idle && r.error == "" && r.transactionHash == st.transactionHash)
      && (ProcessorFor(st.selectedMethod).Some? && failure.Some? ==>
            r.status == Error && r.error == (if failure.value != "" then failure.value else DefaultPaymentError) && r.transactionHash == st.transactionHash)
  {
  }

  /** The status is "success" exactly when the guard passes and a processor runs and does not throw,
      and then the id carries that processor's prefix. */
  lemma SuccessOnlyFromProcessor(st: PaymentState, suffix: string, failure: Option<string>)
    ensures Pay(st, suffix, failure).status == Success <==>
      (st.status == Success && !RequiredFieldsPresent(st))
      || (RequiredFieldsPresent(st) && ProcessorFor(st.selectedMethod).Some? && failure.None?)
    ensures RequiredFieldsPresent(st) && Pay(st, suffix, failure).status == Success ==>
      Pay(st, suffix, failure).transactionHash == TxPrefix(ProcessorFor(st.selectedMethod).value) + suffix
  {
  }

  /** With the pay button enabled, only a missing method can trip the guard. */
  lemma EnabledButtonGuard(st: PaymentState)
    requires !PayDisabled(st)
    ensures RequiredFieldsPresent(st) <==> st.selectedMethod != ""
  {
  }

  /** Reset restores status, details, method and id to their initial values
      and keeps the error and the processing flag. */
  lemma ResetRestoresInitial(st: PaymentState)
    ensures Reset(st) == Initial.(isProcessing := st.isProcessing, error := st.error)
    ensures Reset(st).details.currency == "ETH"
  {
  }

  /** Processing is never left on once the handler returns. */
  lemma NeverLeftProcessing(st: PaymentState, suffix: string, failure: Option<string>)
    requires !st.isProcessing
    ensures !Pay(st, suffix, failure).isProcessing && !Reset(st).isProcessing
  {
  }

  /** The component's state. */
  class PaymentView {
    var selectedMethod: string
    var paymentDetails: PaymentDetails
    var isProcessing: bool
    var paymentStatus: PaymentStatus
    var transactionHash: string
    var error: string

    function State(): PaymentState
      reads this
    {
      PaymentState(selectedMethod, paymentDetails, isProcessing, paymentStatus, transactionHash, error)
    }

    constructor ()
      ensures State() == Initial
    {
      selectedMethod := "";
      paymentDetails := InitialDetails;
      isProcessing := false;
      paymentStatus := Idle;
      transactionHash := "";
      error := "";
    }

    method SelectMethod(methodId: string)
      modifies this
      ensures State() == old(State()).(selectedMethod := methodId)
    {
      selectedMethod := methodId;
    }

    method SetAmount(value: string)
      modifies this
      ensures State() == old(State()).(details := old(paymentDetails).(amount := value))
    {
      paymentDetails := paymentDetails.(amount := value);
    }

    method SetRecipient(value: string)
      modifies this
      ensures State() == old(State()).(details := old(paymentDetails).(recipient := value))
    {
      paymentDetails := paymentDetails.(recipient := value);
    }

    method HandlePayment(suffix: string, failure: Option<string>)
      modifies this
      ensures State() == Pay(old(State()), suffix, failure)
    {
      if selectedMethod == "" || paymentDetails.amount == "" || paymentDetails.recipient == "" {
        error := MissingFieldsError;
        return;
      }
      isProcessing := true;
      error := "";
      paymentStatus := Idle;
      var processor := ProcessorFor(selectedMethod);
      if processor.Some? {
        if failure.Some? {
          error := if failure.value != "" then failure.value else DefaultPaymentError;
          paymentStatus := Error;
        } else {
          transactionHash := TxPrefix(processor.value) + suffix;
          paymentStatus := Success;
        }
      }
      isProcessing := false;
    }

    /** "Make Another Payment". */
    method MakeAnotherPayment()
      modifies this
      ensures State() == Reset(old(State()))
    {
      paymentStatus := Idle;
      paymentDetails := InitialDetails;
      selectedMethod := "";
      transactionHash := "";
    }
  }
}
