/**
 * The admin's amount forms: the deposit and withdrawal forms opened from a
 * conversation (platform, platform id, amount, amount again), and the
 * stand-alone two-field withdraw form. Each field edit normalises amounts and
 * clears that field's error; submitting validates every field, then calls the
 * ledger action (or the parent's callback) and shows success or an error;
 * closing is refused while a submission runs or after a success.
 *
 * Every awaited call is one step here, with its outcome as a parameter.
 */
module AmountForms {
  import opened Common
  import opened JsString
  import opened AmountFormat

  const MaxAmount: real := 1000000.0

  /** The forms: the two opened from a conversation and the stand-alone one. */
  datatype FormKind = DepositModal | WithdrawalModal | StandaloneWithdraw

  /** A field's error; `NoError` is the empty error text. */
  datatype FieldError =
    | NoError
    | PlatformMissing
    | IdRequired
    | IdTooShort
    | AmountRequired
    | AmountNotPositive
    | AmountTooLarge
    | VerifyRequired
    | VerifyNotNumber
    | AmountsDiffer

  /** The text each form shows for an error. */
  function ErrorText(kind: FormKind, e: FieldError): (r: string)
    ensures r == "" <==> e == NoError
  {
    match e
    case NoError => ""
    case PlatformMissing => "Please select a platform"
    case IdRequired => "Platform ID is required"
    case IdTooShort => "Platform ID must be at least 3 characters"
    case AmountRequired =>
      if kind == WithdrawalModal then "Withdraw amount is required" else "Deposit amount is required"
    case AmountNotPositive => "Please enter a valid amount greater than 0"
    case AmountTooLarge =>
      if kind == StandaloneWithdraw then "Amount cannot exceed $1,000,000" else "Amount cannot exceed \U{20B9}1,000,000"
    case VerifyRequired =>
      if kind == WithdrawalModal then "Please verify the withdraw amount" else "Please verify the deposit amount"
    case VerifyNotNumber => "Please enter a valid amount"
    case AmountsDiffer => "Amounts do not match"
  }

  /** The error of each field of a conversation form. */
  datatype FormErrors = FormErrors(platformName: FieldError, platformId: FieldError, amount: FieldError, verifyAmount: FieldError)

  const NoErrors := FormErrors(NoError, NoError, NoError, NoError)

  /** What the ledger action returned, or that it threw. */
  datatype ActionOutcome = Returned(status: int, message: Option<string>) | Threw(error: string)

  /** The ledger call: `addDepositToPlatform` or `addWithdrawToPlatform` with
      the platform, the platform id, the amount text (passed through
      `Number`) and the conversation. */
  datatype AmountRequest = AmountRequest(kind: FormKind, platformName: string, platformId: string, amount: string, chatId: string)

  function PlatformNameError(name: string): (r: FieldError)
    ensures r == NoError <==> Trim(name) != ""
  {
    if Trim(name) == "" then PlatformMissing else NoError
  }

  /** `platformId.trim().length < 3`, with the length in UTF-16 code units. */
  function PlatformIdError(id: string): (r: FieldError)
    ensures r == IdRequired <==> Trim(id) == ""
    ensures r == IdTooShort <==> 1 <= Utf16Length(Trim(id)) < 3
    ensures r == NoError <==> Utf16Length(Trim(id)) >= 3
  {
    if Trim(id) == "" then IdRequired
    else if Utf16Length(Trim(id)) < 3 then IdTooShort
    else NoError
  }

  /** An id of one character above U+FFFF and one letter is three code units
      long, so it passes. */
  lemma SurrogatePairIdPasses()
    ensures PlatformIdError("\U{1F600}a") == NoError
  {
    var id := "\U{1F600}a";
    TrimmedIff(id);
    assert Utf16Length(id) == 3;
  }

  /** The amount field's rule: present, a number above 0 and at most 1,000,000. */
  function AmountError(amount: string): FieldError {
    if Trim(amount) == "" then AmountRequired
    else if ParseFloat(amount).None? || ParseFloat(amount).value <= 0.0 then AmountNotPositive
    else if ParseFloat(amount).value > MaxAmount then AmountTooLarge
    else NoError
  }

  /** The repeated amount's rule: present, a number, and the same number as
      the amount (NaN never equals anything). */
  function VerifyError(amount: string, verify: string): FieldError {
    if Trim(verify) == "" then VerifyRequired
    else if ParseFloat(verify).None? then VerifyNotNumber
    else if ParseFloat(amount) != ParseFloat(verify) then AmountsDiffer
    else NoError
  }

  /** The amount passes exactly when it is a number in (0, 1,000,000]; a
      number above the cap is the one case reported as too large. */
  lemma AmountErrorIff(amount: string)
    ensures AmountError(amount) == NoError <==>
      Trim(amount) != "" && ParseFloat(amount).Some? && 0.0 < ParseFloat(amount).value <= MaxAmount
    ensures AmountError(amount) == AmountTooLarge <==>
      Trim(amount) != "" && ParseFloat(amount).Some? && ParseFloat(amount).value > MaxAmount
  {
  }

  /** The repeated amount passes exactly when it reads as the same number as
      the amount. */
  lemma VerifyErrorIff(amount: string, verify: string)
    ensures VerifyError(amount, verify) == NoError <==>
      Trim(verify) != "" && ParseFloat(verify).Some? && ParseFloat(amount) == ParseFloat(verify)
    ensures VerifyError(amount, verify) == AmountsDiffer <==>
      Trim(verify) != "" && ParseFloat(verify).Some? && ParseFloat(amount) != ParseFloat(verify)
  {
  }

  /** The errors `validateForm` sets for the four fields. */
  function ExpectedErrors(name: string, id: string, amount: string, verify: string): FormErrors {
    FormErrors(PlatformNameError(name), PlatformIdError(id), AmountError(amount), VerifyError(amount, verify))
  }

  /** A form passes validation exactly when a platform is chosen, its id has
      at least 3 characters after trimming, the amount is a number in
      (0, 1,000,000] and the repeated amount is the same number. */
  lemma ValidIff(name: string, id: string, amount: string, verify: string)
    ensures ExpectedErrors(name, id, amount, verify) == NoErrors <==>
      && Trim(name) != "" && Utf16Length(Trim(id)) >= 3
      && Trim(amount) != "" && ParseFloat(amount).Some? && 0.0 < ParseFloat(amount).value <= MaxAmount
      && Trim(verify) != "" && ParseFloat(verify) == ParseFloat(amount)
  {
    AmountErrorIff(amount);
    VerifyErrorIff(amount, verify);
    var e := ExpectedErrors(name, id, amount, verify);
    assert e == NoErrors <==> e.platformName == NoError && e.platformId == NoError && e.amount == NoError && e.verifyAmount == NoError;
  }

  /** `amountsMatch` of the withdrawal form's indicator: both texts are
      non-empty, both read as numbers, and the numbers are equal. */
  predicate AmountsMatch(amount: string, verify: string) {
    && amount != "" && verify != ""
    && ParseFloat(amount) == ParseFloat(verify)
    && ParseFloat(amount).Some? && ParseFloat(verify).Some?
  }

  /** The indicator reports a match exactly when the amount reads as a number
      and the repeated amount passes its own validation. */
  lemma AmountsMatchIffVerifyPasses(amount: string, verify: string)
    ensures AmountsMatch(amount, verify) <==> ParseFloat(amount).Some? && VerifyError(amount, verify) == NoError
  {
    ParsedIsNotBlank(amount);
    ParsedIsNotBlank(verify);
    VerifyErrorIff(amount, verify);
  }

  /** The withdrawal form's indicator line: shown when both amounts are filled
      in or a submission failed; a failure shows its message, otherwise the
      line says whether the amounts match. */
  function Indicator(amount: string, verify: string, hasSubmissionError: bool, message: string): (r: Option<string>)
    ensures r.Some? <==> (amount != "" && verify != "") || hasSubmissionError
    ensures hasSubmissionError ==> r == Some(message)
    ensures !hasSubmissionError && r.Some? ==>
      (r.value == "Amounts match" <==> AmountsMatch(amount, verify))
  {
    if (amount != "" && verify != "") || hasSubmissionError then
      Some(if hasSubmissionError then message
           else if AmountsMatch(amount, verify) then "Amounts match" else "Amounts do not match")
    else None
  }

  /** A form that passes validation never carries a negative amount, since
      the normaliser leaves no '-' to read. */
  lemma NormalisedAmountsArePositive(amount: string)
    requires NormalisedAmount(amount)
    ensures ParseFloat(amount).Some? ==> ParseFloat(amount).value >= 0.0
  {
    ParseFloatUnsigned(amount);
  }

  /** A deposit or withdrawal form opened from a conversation. */
  class AmountModal {
    const kind: FormKind
    var platformName: string
    var platformId: string
    var amount: string
    var verifyAmount: string
    var isSubmitting: bool
    var showSuccess: bool
    var hasSubmissionError: bool
    var errors: FormErrors
    var displayMessage: string
    var closeRequests: nat

    constructor(kind: FormKind)
      requires kind != StandaloneWithdraw
      ensures this.kind == kind && Valid()
      ensures platformName == "" && platformId == "" && amount == "" && verifyAmount == ""
      ensures !isSubmitting && !showSuccess && !hasSubmissionError && errors == NoErrors
      ensures displayMessage == "Try Again!" && closeRequests == 0
    {
      this.kind := kind;
      platformName, platformId, amount, verifyAmount := "", "", "", "";
      isSubmitting, showSuccess, hasSubmissionError := false, false, false;
      errors := NoErrors;
      displayMessage := "Try Again!";
      closeRequests := 0;
    }

    /** The amount fields only ever hold normalised text. */
    predicate Valid()
      reads this
    {
      NormalisedAmount(amount) && NormalisedAmount(verifyAmount)
    }

    /** Opening the form clears the fields, the errors and the flags; the
        withdrawal form also resets its message to "Try Again!". */
    method Open()
      modifies this`platformName, this`platformId, this`amount, this`verifyAmount, this`errors,
               this`showSuccess, this`isSubmitting, this`hasSubmissionError, this`displayMessage
      ensures Valid()
      ensures platformName == "" && platformId == "" && amount == "" && verifyAmount == ""
      ensures errors == NoErrors && !showSuccess && !isSubmitting && !hasSubmissionError
      ensures displayMessage == (if kind == WithdrawalModal then "Try Again!" else old(displayMessage))
    {
      platformName, platformId, amount, verifyAmount := "", "", "", "";
      errors := NoErrors;
      showSuccess, isSubmitting, hasSubmissionError := false, false, false;
      if kind == WithdrawalModal {
        displayMessage := "Try Again!";
      }
    }

    /** `validateForm`: the four errors are computed one field at a time, and
        the form is valid iff none was set. */
    method ValidateForm() returns (isValid: bool)
      modifies this`errors
      ensures errors == ExpectedErrors(platformName, platformId, amount, verifyAmount)
      ensures isValid <==> errors == NoErrors
    {
      var newErrors := NoErrors;
      isValid := true;
      if Trim(platformName) == "" {
        newErrors := newErrors.(platformName := PlatformMissing);
        isValid := false;
      }
      assert newErrors.platformName == PlatformNameError(platformName);
      if Trim(platformId) == "" {
        newErrors := newErrors.(platformId := IdRequired);
        isValid := false;
      } else if Utf16Length(Trim(platformId)) < 3 {
        newErrors := newErrors.(platformId := IdTooShort);
        isValid := false;
      }
      assert newErrors.platformId == PlatformIdError(platformId);
      var amountNum := ParseFloat(amount);
      if Trim(amount) == "" {
        newErrors := newErrors.(amount := AmountRequired);
        isValid := false;
      } else if amountNum.None? || amountNum.value <= 0.0 {
        newErrors := newErrors.(amount := AmountNotPositive);
        isValid := false;
      } else if amountNum.value > MaxAmount {
        newErrors := newErrors.(amount := AmountTooLarge);
        isValid := false;
      }
      assert newErrors.amount == AmountError(amount);
      var verifyNum := ParseFloat(verifyAmount);
      if Trim(verifyAmount) == "" {
        newErrors := newErrors.(verifyAmount := VerifyRequired);
        isValid := false;
      } else if verifyNum.None? {
        newErrors := newErrors.(verifyAmount := VerifyNotNumber);
        isValid := false;
      } else if amountNum != verifyNum {
        newErrors := newErrors.(verifyAmount := AmountsDiffer);
        isValid := false;
      }
      assert newErrors.verifyAmount == VerifyError(amount, verifyAmount);
      errors := newErrors;
    }

    /** `handleSubmit` as written: after a passing validation the form enters
        the submitting state, and only then returns when no conversation is
        given, so it stays submitting. */
    method HandleSubmit(chatId: Option<string>, outcome: ActionOutcome) returns (valid: bool, request: Option<AmountRequest>)
      modifies this`errors, this`isSubmitting, this`hasSubmissionError, this`showSuccess, this`displayMessage
      ensures errors == ExpectedErrors(platformName, platformId, amount, verifyAmount)
      ensures valid <==> errors == NoErrors
      ensures !valid ==>
        request.None? && isSubmitting == old(isSubmitting) && hasSubmissionError == old(hasSubmissionError)
        && showSuccess == old(showSuccess) && displayMessage == old(displayMessage)
      ensures valid && !Truthy(chatId) ==>
        request.None? && isSubmitting && !hasSubmissionError
        && showSuccess == old(showSuccess) && displayMessage == old(displayMessage)
      ensures valid && Truthy(chatId) ==>
        request == Some(AmountRequest(kind, platformName, platformId, amount, chatId.value))
        && SettledBy(outcome, old(showSuccess))
    {
      valid := ValidateForm();
      if !valid {
        return valid, None;
      }
      request := SubmitValidated(chatId, outcome);
    }

    /** The part of `handleSubmit` after validation, as written: submitting
        starts before the conversation is checked. */
    method SubmitValidated(chatId: Option<string>, outcome: ActionOutcome) returns (request: Option<AmountRequest>)
      modifies this`isSubmitting, this`hasSubmissionError, this`showSuccess, this`displayMessage
      ensures !Truthy(chatId) ==>
        request.None? && isSubmitting && !hasSubmissionError
        && showSuccess == old(showSuccess) && displayMessage == old(displayMessage)
      ensures Truthy(chatId) ==>
        request == Some(AmountRequest(kind, platformName, platformId, amount, chatId.value))
        && SettledBy(outcome, old(showSuccess))
    {
      isSubmitting := true;
      hasSubmissionError := false;
      if !Truthy(chatId) {
        return None;
      }
      request := Some(AmountRequest(kind, platformName, platformId, amount, chatId.value));
      Settle(outcome);
    }

    /** `handleSubmit` with the evidently intended order: without a
        conversation nothing is submitted and the form stays usable. */
    method HandleSubmitFixed(chatId: Option<string>, outcome: ActionOutcome) returns (valid: bool, request: Option<AmountRequest>)
      modifies this`errors, this`isSubmitting, this`hasSubmissionError, this`showSuccess, this`displayMessage
      ensures errors == ExpectedErrors(platformName, platformId, amount, verifyAmount)
      ensures valid <==> errors == NoErrors
      ensures !valid || !Truthy(chatId) ==>
        request.None? && isSubmitting == old(isSubmitting) && hasSubmissionError == old(hasSubmissionError)
        && showSuccess == old(showSuccess) && displayMessage == old(displayMessage)
      ensures valid && Truthy(chatId) ==>
        request == Some(AmountRequest(kind, platformName, platformId, amount, chatId.value))
        && SettledBy(outcome, old(showSuccess))
    {
      valid := ValidateForm();
      if !valid || !Truthy(chatId) {
        return valid, None;
      }
      request := SubmitValidated(chatId, outcome);
    }

    /** The state after the ledger call settled: the returned message (or ""),
        or the thrown error, is shown; status 200 means success, anything else
        or a throw means a submission error; submitting is over. */
    predicate SettledBy(outcome: ActionOutcome, successBefore: bool)
      reads this
    {
      && !isSubmitting
      && match outcome
         case Returned(status, message) =>
           && displayMessage == (if Truthy(message) then message.value else "")
           && showSuccess == (successBefore || status == 200)
           && hasSubmissionError == (status != 200)
         case Threw(error) =>
           displayMessage == error && hasSubmissionError && showSuccess == successBefore
    }

    method Settle(outcome: ActionOutcome)
      requires !hasSubmissionError
      modifies this`isSubmitting, this`hasSubmissionError, this`showSuccess, this`displayMessage
      ensures SettledBy(outcome, old(showSuccess))
    {
      match outcome {
        case Returned(status, message) =>
          displayMessage := if Truthy(message) then message.value else "";
          if status == 200 {
            showSuccess := true;
          } else {
            hasSubmissionError := true;
          }
        case Threw(error) =>
          displayMessage := error;
          hasSubmissionError := true;
      }
      isSubmitting := false;
    }

    /** `handleClose`: the parent is asked to close only when no submission
        runs and no success is shown. */
    method HandleClose() returns (closed: bool)
      modifies this`closeRequests
      ensures closed <==> !isSubmitting && !showSuccess
      ensures closeRequests == old(closeRequests) + (if closed then 1 else 0)
    {
      closed := !isSubmitting && !showSuccess;
      if closed {
        closeRequests := closeRequests + 1;
      }
    }

    /** The submission-error flag after an edit: the deposit form clears it on
        every edit; the withdrawal form clears it from an effect that runs only
        when a field's value actually changed. */
    predicate FlagAfterEdit(changed: bool, before: bool) {
      if kind == DepositModal || changed then false else before
    }

    /** The amount field's change handler; the text is normalised by
        `formatCurrency` as written. */
    method ChangeAmount(value: string)
      requires Valid()
      modifies this`amount, this`errors, this`hasSubmissionError
      ensures Valid()
      ensures amount == FormatCurrency(value)
      ensures errors == old(errors).(amount := NoError)
      ensures hasSubmissionError == FlagAfterEdit(amount != old(amount), old(hasSubmissionError))
    {
      var before := amount;
      amount := FormatCurrency(value);
      errors := errors.(amount := NoError);
      hasSubmissionError := FlagAfterEdit(amount != before, hasSubmissionError);
    }

    /** The repeated amount's change handler. */
    method ChangeVerifyAmount(value: string)
      requires Valid()
      modifies this`verifyAmount, this`errors, this`hasSubmissionError
      ensures Valid()
      ensures verifyAmount == FormatCurrency(value)
      ensures errors == old(errors).(verifyAmount := NoError)
      ensures hasSubmissionError == FlagAfterEdit(verifyAmount != old(verifyAmount), old(hasSubmissionError))
    {
      var before := verifyAmount;
      verifyAmount := FormatCurrency(value);
      errors := errors.(verifyAmount := NoError);
      hasSubmissionError := FlagAfterEdit(verifyAmount != before, hasSubmissionError);
    }

    /** The platform id's change handler: the text is kept as typed. */
    method ChangePlatformId(value: string)
      modifies this`platformId, this`errors, this`hasSubmissionError
      ensures platformId == value
      ensures errors == old(errors).(platformId := NoError)
      ensures hasSubmissionError == FlagAfterEdit(value != old(platformId), old(hasSubmissionError))
    {
      var before := platformId;
      platformId := value;
      errors := errors.(platformId := NoError);
      hasSubmissionError := FlagAfterEdit(value != before, hasSubmissionError);
    }

    /** The platform picker's change handler. */
    method ChangePlatformName(value: string)
      modifies this`platformName, this`errors, this`hasSubmissionError
      ensures platformName == value
      ensures errors == old(errors).(platformName := NoError)
      ensures hasSubmissionError == FlagAfterEdit(value != old(platformName), old(hasSubmissionError))
    {
      var before := platformName;
      platformName := value;
      errors := errors.(platformName := NoError);
      hasSubmissionError := FlagAfterEdit(value != before, hasSubmissionError);
    }
  }

  /** As written, a form that passes validation and is submitted without a
      conversation can no longer be closed. */
  method SubmitWithoutChatLocks(m: AmountModal) returns (valid: bool, closed: bool)
    modifies m
    ensures valid <==> ExpectedErrors(m.platformName, m.platformId, m.amount, m.verifyAmount) == NoErrors
    ensures valid ==> m.isSubmitting && !closed
  {
    var request;
    valid, request := m.HandleSubmit(None, Threw(""));
    ghost var submitting := m.isSubmitting;
    assert valid ==> submitting;
    closed := m.HandleClose();
    assert m.isSubmitting == submitting;
  }

  /** With the corrected order the same form still closes. */
  method SubmitWithoutChatStaysClosable(m: AmountModal) returns (closed: bool)
    requires !m.isSubmitting && !m.showSuccess
    modifies m
    ensures closed
  {
    var valid, request := m.HandleSubmitFixed(None, Threw(""));
    closed := m.HandleClose();
  }

  /** The errors of the stand-alone withdraw form's two fields. */
  datatype AmountErrors = AmountErrors(amount: FieldError, verifyAmount: FieldError)

  const NoAmountErrors := AmountErrors(NoError, NoError)

  function TwoFieldErrors(amount: string, verify: string): AmountErrors {
    AmountErrors(AmountError(amount), VerifyError(amount, verify))
  }

  /** The stand-alone form checks only the two amounts. */
  lemma TwoFieldValidIff(amount: string, verify: string)
    ensures TwoFieldErrors(amount, verify) == NoAmountErrors <==>
      && Trim(amount) != "" && ParseFloat(amount).Some? && 0.0 < ParseFloat(amount).value <= MaxAmount
      && Trim(verify) != "" && ParseFloat(verify) == ParseFloat(amount)
  {
    AmountErrorIff(amount);
    VerifyErrorIff(amount, verify);
    var e := TwoFieldErrors(amount, verify);
    assert e == NoAmountErrors <==> e.amount == NoError && e.verifyAmount == NoError;
  }

  /** The stand-alone withdraw form: two amounts and a callback. After a
      success the form closes itself two seconds later (`closeScheduled`). */
  class WithdrawForm {
    var amount: string
    var verifyAmount: string
    var isSubmitting: bool
    var showSuccess: bool
    var errors: AmountErrors
    var closeScheduled: bool
    var closeRequests: nat

    constructor()
      ensures amount == "" && verifyAmount == "" && !isSubmitting && !showSuccess
      ensures errors == NoAmountErrors && !closeScheduled && closeRequests == 0
    {
      amount, verifyAmount := "", "";
      isSubmitting, showSuccess := false, false;
      errors := NoAmountErrors;
      closeScheduled := false;
      closeRequests := 0;
    }

    predicate Valid()
      reads this
    {
      NormalisedAmount(amount) && NormalisedAmount(verifyAmount)
    }

    /** Opening the form clears the fields, the errors and the flags. */
    method Open()
      modifies this`amount, this`verifyAmount, this`errors, this`showSuccess, this`isSubmitting
      ensures Valid()
      ensures amount == "" && verifyAmount == "" && errors == NoAmountErrors && !showSuccess && !isSubmitting
    {
      amount, verifyAmount := "", "";
      errors := NoAmountErrors;
      showSuccess, isSubmitting := false, false;
    }

    /** `validateForm` over the two amounts. */
    method ValidateForm() returns (isValid: bool)
      modifies this`errors
      ensures errors == TwoFieldErrors(amount, verifyAmount)
      ensures isValid <==> errors == NoAmountErrors
    {
      var newErrors := NoAmountErrors;
      isValid := true;
      var amountNum := ParseFloat(amount);
      if Trim(amount) == "" {
        newErrors := newErrors.(amount := AmountRequired);
        isValid := false;
      } else if amountNum.None? || amountNum.value <= 0.0 {
        newErrors := newErrors.(amount := AmountNotPositive);
        isValid := false;
      } else if amountNum.value > MaxAmount {
        newErrors := newErrors.(amount := AmountTooLarge);
        isValid := false;
      }
      assert newErrors.amount == AmountError(amount);
      var verifyNum := ParseFloat(verifyAmount);
      if Trim(verifyAmount) == "" {
        newErrors := newErrors.(verifyAmount := VerifyRequired);
        isValid := false;
      } else if verifyNum.None? {
        newErrors := newErrors.(verifyAmount := VerifyNotNumber);
        isValid := false;
      } else if amountNum != verifyNum {
        newErrors := newErrors.(verifyAmount := AmountsDiffer);
        isValid := false;
      }
      assert newErrors.verifyAmount == VerifyError(amount, verifyAmount);
      errors := newErrors;
    }

    /** `handleSubmit`: after a passing validation the callback (when given)
        receives the parsed amount; when it throws, submitting ends without
        success; otherwise success is shown and closing is scheduled, and the
        form stays in the submitting state. */
    method HandleSubmit(hasCallback: bool, callbackThrows: bool) returns (valid: bool, submitted: Option<real>)
      modifies this`errors, this`isSubmitting, this`showSuccess, this`closeScheduled
      ensures errors == TwoFieldErrors(amount, verifyAmount)
      ensures valid <==> errors == NoAmountErrors
      ensures !valid ==>
        submitted.None? && isSubmitting == old(isSubmitting) && showSuccess == old(showSuccess)
        && closeScheduled == old(closeScheduled)
      ensures valid ==>
        && ParseFloat(amount).Some?
        && (submitted.Some? <==> hasCallback)
        && (submitted.Some? ==> submitted.value == ParseFloat(amount).value && 0.0 < submitted.value <= MaxAmount)
        && (hasCallback && callbackThrows ==>
              !isSubmitting && showSuccess == old(showSuccess) && closeScheduled == old(closeScheduled))
        && (!(hasCallback && callbackThrows) ==> isSubmitting && showSuccess && closeScheduled)
    {
      valid := ValidateForm();
      if !valid {
        return valid, None;
      }
      AmountErrorIff(amount);
      submitted := SubmitValidated(ParseFloat(amount).value, hasCallback, callbackThrows);
    }

    /** The part of `handleSubmit` after validation: the callback receives
        `value`, the parsed amount. */
    method SubmitValidated(value: real, hasCallback: bool, callbackThrows: bool) returns (submitted: Option<real>)
      modifies this`isSubmitting, this`showSuccess, this`closeScheduled
      ensures submitted == (if hasCallback then Some(value) else None)
      ensures hasCallback && callbackThrows ==>
        !isSubmitting && showSuccess == old(showSuccess) && closeScheduled == old(closeScheduled)
      ensures !(hasCallback && callbackThrows) ==> isSubmitting && showSuccess && closeScheduled
    {
      isSubmitting := true;
      submitted := None;
      if hasCallback {
        submitted := Some(value);
        if callbackThrows {
          isSubmitting := false;
          return;
        }
      }
      showSuccess := true;
      closeScheduled := true;
    }

    /** The scheduled close: the parent's `onClose` is called directly. */
    method CloseTimerFires()
      requires closeScheduled
      modifies this`closeRequests, this`closeScheduled
      ensures closeRequests == old(closeRequests) + 1 && !closeScheduled
    {
      closeRequests := closeRequests + 1;
      closeScheduled := false;
    }

    /** `handleClose`: refused while submitting or after a success. */
    method HandleClose() returns (closed: bool)
      modifies this`closeRequests
      ensures closed <==> !isSubmitting && !showSuccess
      ensures closeRequests == old(closeRequests) + (if closed then 1 else 0)
    {
      closed := !isSubmitting && !showSuccess;
      if closed {
        closeRequests := closeRequests + 1;
      }
    }

    method ChangeAmount(value: string)
      requires Valid()
      modifies this`amount, this`errors
      ensures Valid()
      ensures amount == FormatCurrency(value) && errors == old(errors).(amount := NoError)
    {
      amount := FormatCurrency(value);
      errors := errors.(amount := NoError);
    }

    method ChangeVerifyAmount(value: string)
      requires Valid()
      modifies this`verifyAmount, this`errors
      ensures Valid()
      ensures verifyAmount == FormatCurrency(value) && errors == old(errors).(verifyAmount := NoError)
    {
      verifyAmount := FormatCurrency(value);
      errors := errors.(verifyAmount := NoError);
    }
  }
}
