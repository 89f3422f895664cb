/**
 * The payment-verification modal (`components/InstaPayModal.tsx`).
 *
 * The component's four state fields and its `pollIntervalRef` become the
 * fields of `PaymentModal`. The host's timers and the network are not
 * modelled as time: every asynchronous continuation is its own event method.
 *   - `RegistrationSettled`: the registration `fetch` resolved or rejected.
 *   - `IntervalFires`: a poll interval ticked and started a status `fetch`.
 *   - `PollSettled`: that status `fetch` resolved or failed.
 *   - `ConfirmationFires`: the 1000 ms timeout after a `paid` answer ran.
 * Each event method requires that the continuation is pending.
 */
module InstaPay {
  import opened Wrappers
  import opened Text
  import opened App

  const MinReferenceLength := 6

  /** The values the modal ever stores in `error`; `NoError` is the empty string. */
  datatype ErrorMessage = NoError | InvalidReference | ConnectionFailed

  /** The values the modal ever stores in `statusMessage`; `NoStatus` is the empty string. */
  datatype StatusMessage = NoStatus | Registering | WaitingForConfirmation | PaymentVerified

  /** The text shown for an error. */
  function ErrorText(e: ErrorMessage): string
  {
    match e
    case NoError => ""
    case InvalidReference => "Please enter a valid Reference Number."
    case ConnectionFailed => "Connection failed. Please check your internet."
  }

  /** The text shown for a status. */
  function StatusText(m: StatusMessage): string
  {
    match m
    case NoStatus => ""
    case Registering => "Registering transaction..."
    case WaitingForConfirmation => "Waiting for confirmation..."
    case PaymentVerified => "Payment Verified!"
  }

  /**
   * The error line is rendered (`{error && ...}`) exactly for a real error,
   * and different errors read differently.
   */
  lemma ErrorTextsAreDistinct(e: ErrorMessage, f: ErrorMessage)
    ensures ErrorText(e) != "" <==> e != NoError
    ensures ErrorText(e) == ErrorText(f) <==> e == f
  {
    // the two error texts have different lengths
    assert |ErrorText(InvalidReference)| == 38 && |ErrorText(ConnectionFailed)| == 46;
  }

  /** The status line is rendered exactly for a real status, and statuses read differently. */
  lemma StatusTextsAreDistinct(m: StatusMessage, n: StatusMessage)
    ensures StatusText(m) != "" <==> m != NoStatus
    ensures StatusText(m) == StatusText(n) <==> m == n
  {
    // the three status texts have different lengths
    assert |StatusText(Registering)| == 26 && |StatusText(WaitingForConfirmation)| == 27;
    assert |StatusText(PaymentVerified)| == 17;
  }
  const Paid := "paid"

  /** A status answer completes the payment exactly when its trim is `paid`. */
  predicate IsPaid(status: string)
  {
    Trim(status) == Paid
  }

  /** `status` is `paid` starting at position `i`, with only whitespace around it. */
  predicate PaidAt(status: string, i: int)
  {
    0 <= i <= |status| - |Paid| && IsBlank(status[..i])
    && status[i..i + |Paid|] == Paid && IsBlank(status[i + |Paid|..])
  }

  /** The answers that complete the payment are `paid` with whitespace around it, and no others. */
  lemma IsPaidIffPaddedPaid(status: string)
    ensures IsPaid(status) <==> exists i :: PaidAt(status, i)
  {
    if IsPaid(status) {
      TrimIsPadded(status);
      var i :| 0 <= i <= |status| - |Paid| && IsBlank(status[..i])
        && status[i..i + |Paid|] == Paid && IsBlank(status[i + |Paid|..]);
      assert PaidAt(status, i);
    }
    if exists i :: PaidAt(status, i) {
      var i :| PaidAt(status, i);
      assert status == status[..i] + Paid + status[i + |Paid|..];
      assert IsTrimmed(Paid);
      TrimOfPadded(status[..i], Paid, status[i + |Paid|..]);
    }
  }

  /** The parent's callbacks, in the order the modal calls them. */
  datatype Callback = OnVerify | OnClose

  class PaymentModal {
    /** The parent whose `handleVerifyPayment` and `onClose` the modal calls. */
    const app: AppState

    var refNumber: string
    var isVerifying: bool
    var error: ErrorMessage
    var statusMessage: StatusMessage
    /** `pollIntervalRef.current`: the last handle stored, live or already cleared. */
    var pollRef: Option<nat>

    /** The host's live intervals, each with the reference its callback polls. */
    var intervals: map<nat, string>
    var nextHandle: nat
    /** Registration `fetch`es not settled yet, by request number, with their reference. */
    var registrations: map<nat, string>
    /** Status `fetch`es not settled yet, by request number, with their reference. */
    var polls: map<nat, string>
    var nextRequest: nat
    /** Confirmation timeouts scheduled and not yet run. */
    var confirmations: nat

    /** The parent's callbacks called so far. */
    ghost var calls: seq<Callback>
    /** Some status answer was `paid`. */
    ghost var paidSeen: bool

    /**
     * At most one interval is live, and it is the one the ref holds; the
     * parent is only ever verified after a `paid` answer.
     */
    ghost predicate Valid()
      reads this, app
    {
      TimersValid() && RequestsValid() && GateValid()
    }

    /** The only live interval, if any, is the one the ref holds, and it was handed out. */
    predicate TimersValid()
      reads this
    {
      && (pollRef.None? ==> intervals == map[])
      && (pollRef.Some? ==> intervals.Keys <= {pollRef.value} && pollRef.value < nextHandle)
    }

    /** Every pending request carries a number already handed out. */
    predicate RequestsValid()
      reads this
    {
      && (forall r :: r in registrations ==> r < nextRequest)
      && (forall r :: r in polls ==> r < nextRequest)
    }

    /** The parent's download gate holds, and it is only opened after a `paid` answer. */
    ghost predicate GateValid()
      reads this, app
    {
      && app.Valid()
      && (confirmations > 0 ==> paidSeen)
      && (app.isVerified ==> paidSeen)
      && (OnVerify in calls ==> paidSeen)
    }

    /** Never more than one poll is running. */
    lemma AtMostOnePoll()
      requires Valid()
      ensures |intervals.Keys| <= 1
    {
      if pollRef.Some? {
        SubsetOfSingleton(intervals.Keys, pollRef.value);
      }
    }

    constructor (parent: AppState)
      requires parent.Valid() && !parent.isVerified
      ensures Valid()
      ensures app == parent
      ensures refNumber == "" && !isVerifying && error == NoError && statusMessage == NoStatus
      ensures pollRef == None && intervals == map[]
      ensures registrations == map[] && polls == map[] && confirmations == 0
      ensures calls == []
    {
      app := parent;
      refNumber, isVerifying, error, statusMessage := "", false, NoError, NoStatus;
      pollRef := None;
      intervals := map[];
      nextHandle := 0;
      registrations, polls, nextRequest, confirmations := map[], map[], 0, 0;
      calls := [];
      paidSeen := false;
    }

    /** The verify button is enabled: not verifying and a reference typed. */
    function VerifyEnabled(): (b: bool)
      reads this
      ensures b <==> !isVerifying && |refNumber| > 0
    {
      !(isVerifying || refNumber == "")
    }

    /** The reference input's `onChange`; the input is disabled while verifying. */
    method EditReference(value: string)
      requires Valid() && !isVerifying
      modifies this
      ensures Valid()
      ensures refNumber == value
      ensures isVerifying == old(isVerifying) && error == old(error) && statusMessage == old(statusMessage)
      ensures pollRef == old(pollRef) && intervals == old(intervals)
      ensures registrations == old(registrations) && polls == old(polls)
      ensures confirmations == old(confirmations) && calls == old(calls)
    {
      refNumber := value;
    }

    /**
     * `handleVerify` up to its first `await`: a reference shorter than six
     * characters only sets the error; otherwise the modal starts verifying and
     * sends the registration.
     */
    method HandleVerify()
      requires Valid()
      modifies this
      ensures Valid()
      ensures |old(refNumber)| < MinReferenceLength ==>
        && error == InvalidReference
        && isVerifying == old(isVerifying) && statusMessage == old(statusMessage)
        && registrations == old(registrations)
      ensures |old(refNumber)| >= MinReferenceLength ==>
        && isVerifying && error == NoError && statusMessage == Registering
        && registrations == old(registrations)[old(nextRequest) := refNumber]
        && old(nextRequest) !in old(registrations)
      ensures refNumber == old(refNumber) && pollRef == old(pollRef) && intervals == old(intervals)
      ensures polls == old(polls) && confirmations == old(confirmations) && calls == old(calls)
    {
      if |refNumber| < MinReferenceLength {
        error := InvalidReference;
        return;
      }
      isVerifying := true;
      error := NoError;
      statusMessage := Registering;
      registrations := registrations[nextRequest := refNumber];
      nextRequest := nextRequest + 1;
    }

    /**
     * `handleVerify` after the registration `fetch`: on success the old
     * interval is cleared before a new one polling this reference is
     * installed; on failure the connection error is shown and no poll starts.
     */
    method RegistrationSettled(request: nat, succeeded: bool)
      requires Valid() && request in registrations
      modifies this
      ensures Valid()
      ensures registrations == old(registrations) - {request}
      ensures succeeded ==>
        && statusMessage == WaitingForConfirmation && error == old(error)
        && isVerifying == old(isVerifying)
        && pollRef.Some? && pollRef.value !in old(intervals)
        && intervals == map[pollRef.value := old(registrations)[request]]
      ensures !succeeded ==>
        && error == ConnectionFailed && !isVerifying && statusMessage == old(statusMessage)
        && pollRef == old(pollRef) && intervals == old(intervals)
      ensures refNumber == old(refNumber) && polls == old(polls)
      ensures confirmations == old(confirmations) && calls == old(calls)
    {
      var reference := registrations[request];
      registrations := registrations - {request};
      if succeeded {
        statusMessage := WaitingForConfirmation;
        if pollRef.Some? {
          intervals := ClearInterval(intervals, pollRef.value);
        }
        assert intervals == map[];
        var handle := nextHandle;
        nextHandle := nextHandle + 1;
        intervals := intervals[handle := reference];
        pollRef := Some(handle);
      } else {
        error := ConnectionFailed;
        isVerifying := false;
      }
    }

    /** A live interval ticks: its callback asks for the status of its reference. */
    method IntervalFires(handle: nat)
      requires Valid() && handle in intervals
      modifies this
      ensures Valid()
      ensures polls == old(polls)[old(nextRequest) := old(intervals)[handle]]
      ensures old(nextRequest) !in old(polls)
      ensures refNumber == old(refNumber) && isVerifying == old(isVerifying)
      ensures error == old(error) && statusMessage == old(statusMessage)
      ensures pollRef == old(pollRef) && intervals == old(intervals)
      ensures registrations == old(registrations) && confirmations == old(confirmations)
      ensures calls == old(calls)
    {
      polls := polls[nextRequest := intervals[handle]];
      nextRequest := nextRequest + 1;
    }

    /**
     * The status `fetch` settled: `None` when it or reading its text failed.
     * Only an answer whose trim is `paid` stops the polling, shows the
     * success message and schedules the confirmation; anything else changes
     * nothing the user sees and keeps the interval running.
     */
    method PollSettled(request: nat, status: Option<string>)
      requires Valid() && request in polls
      modifies this
      ensures Valid()
      ensures polls == old(polls) - {request}
      ensures status.Some? && IsPaid(status.value) ==>
        && intervals == map[] && statusMessage == PaymentVerified
        && confirmations == old(confirmations) + 1
      ensures !(status.Some? && IsPaid(status.value)) ==>
        && intervals == old(intervals) && statusMessage == old(statusMessage)
        && confirmations == old(confirmations)
      ensures refNumber == old(refNumber) && isVerifying == old(isVerifying)
      ensures error == old(error) && pollRef == old(pollRef)
      ensures registrations == old(registrations) && calls == old(calls)
    {
      polls := polls - {request};
      if status.Some? && Trim(status.value) == Paid {
        if pollRef.Some? {
          intervals := ClearInterval(intervals, pollRef.value);
        }
        statusMessage := PaymentVerified;
        confirmations := confirmations + 1;
        paidSeen := true;
      }
    }

    /**
     * `handleClose`: the interval the ref holds is cleared, every field is
     * reset and the parent's `onClose` runs. No poll survives.
     */
    method HandleClose()
      requires Valid()
      modifies this, app
      ensures Valid()
      ensures refNumber == "" && !isVerifying && error == NoError && statusMessage == NoStatus
      ensures intervals == map[] && pollRef == old(pollRef)
      ensures !app.isPaymentModalOpen && app.isVerified == old(app.isVerified)
      ensures app.resumeData == old(app.resumeData) && app.printed == old(app.printed)
      ensures app.activeSection == old(app.activeSection)
      ensures calls == old(calls) + [OnClose]
      ensures registrations == old(registrations) && polls == old(polls)
      ensures confirmations == old(confirmations)
      ensures nextHandle == old(nextHandle) && nextRequest == old(nextRequest)
    {
      if pollRef.Some? {
        intervals := ClearInterval(intervals, pollRef.value);
      }
      isVerifying := false;
      refNumber := "";
      error := NoError;
      statusMessage := NoStatus;
      app.CloseModal();
      calls := calls + [OnClose];
    }

    /**
     * The confirmation timeout: the parent's `onVerify` runs, and then
     * `handleClose`.
     */
    method ConfirmationFires()
      requires Valid() && confirmations > 0
      modifies this, app
      ensures Valid()
      ensures app.isVerified && !app.isPaymentModalOpen
      ensures calls == old(calls) + [OnVerify, OnClose]
      ensures confirmations == old(confirmations) - 1
      ensures refNumber == "" && !isVerifying && error == NoError && statusMessage == NoStatus
      ensures intervals == map[] && pollRef == old(pollRef)
      ensures registrations == old(registrations) && polls == old(polls)
      ensures nextHandle == old(nextHandle) && nextRequest == old(nextRequest)
      ensures app.resumeData == old(app.resumeData) && app.printed == old(app.printed)
      ensures app.activeSection == old(app.activeSection)
    {
      confirmations := confirmations - 1;
      app.HandleVerifyPayment();
      calls := calls + [OnVerify];
      HandleClose();
    }

    /** The unmount cleanup: the interval the ref holds is cleared. */
    method Unmount()
      requires Valid()
      modifies this
      ensures Valid()
      ensures intervals == map[]
      ensures refNumber == old(refNumber) && isVerifying == old(isVerifying)
      ensures error == old(error) && statusMessage == old(statusMessage)
      ensures pollRef == old(pollRef) && registrations == old(registrations)
      ensures polls == old(polls) && confirmations == old(confirmations) && calls == old(calls)
    {
      if pollRef.Some? {
        intervals := ClearInterval(intervals, pollRef.value);
      }
    }
  }

  /**
   * Closing the modal while the registration is in flight does not cancel
   * it: when it succeeds afterwards, the closed modal stores the waiting
   * message again (nothing renders while it is closed) and a poll for the
   * old reference starts.
   */
  method CloseDuringRegistration(reference: string) returns (modal: PaymentModal)
    requires |reference| >= MinReferenceLength
    ensures modal.Valid()
    ensures !modal.app.isPaymentModalOpen && !modal.isVerifying && modal.refNumber == ""
    ensures modal.statusMessage == WaitingForConfirmation
    ensures modal.intervals.Values == {reference}
  {
    var app := new AppState();
    app.HandleDownload();
    modal := new PaymentModal(app);
    modal.EditReference(reference);
    var request := modal.nextRequest;
    modal.HandleVerify();
    modal.HandleClose();
    modal.RegistrationSettled(request, true);
    assert modal.intervals == map[modal.pollRef.value := reference];
  }

  /** `clearInterval(handle)`: that interval stops, the others are untouched. */
  function ClearInterval(intervals: map<nat, string>, handle: nat): (r: map<nat, string>)
    ensures r.Keys == intervals.Keys - {handle}
    ensures forall h :: h in r ==> r[h] == intervals[h]
    ensures intervals.Keys <= {handle} ==> r == map[]
  {
    var r := intervals - {handle};
    assert intervals.Keys <= {handle} ==> r.Keys == {};
    r
  }

  /** Helper: a subset of a singleton has at most one element. */
  lemma SubsetOfSingleton(s: set<nat>, x: nat)
    requires s <= {x}
    ensures |s| <= 1
  {
    if s != {} {
      assert s == {x};
    }
  }
}
