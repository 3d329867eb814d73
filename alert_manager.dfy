/**
 * `AlertManager`: the state behind the application's single error alert. An error set by
 * `showAlert(_:)` takes precedence over a message set by `showAlert(message:)`, and
 * `hideAlert()` forgets the error but not the message.
 */
module Alerts {
  import opened Wrappers

  /** A `LocalizedError`; its `errorDescription` may be nil. */
  datatype LocalizedError = LocalizedError(errorDescription: Option<string>)

  /** `error?.errorDescription ?? message ?? "Unknown error"`. */
  function AlertText(error: Option<LocalizedError>, message: Option<string>): (text: string)
    ensures error.Some? && error.value.errorDescription.Some? ==> text == error.value.errorDescription.value
    ensures (error.None? || error.value.errorDescription.None?) && message.Some? ==> text == message.value
    ensures (error.None? || error.value.errorDescription.None?) && message.None? ==> text == "Unknown error"
  {
    match error
    case Some(LocalizedError(Some(description))) => description
    case _ => message.GetOr("Unknown error")
  }

  class AlertManager {
    var isAlertPresented: bool
    var error: Option<LocalizedError>
    var message: Option<string>

    constructor ()
      ensures !isAlertPresented && error == None && message == None
    {
      isAlertPresented := false;
      error := None;
      message := None;
    }

    /** The alert's title never varies. */
    function AlertTitle(): (title: string)
      ensures title == "Error"
    {
      "Error"
    }

    /** The alert's text: the error's description when it has one, otherwise the
        message, otherwise "Unknown error". */
    function AlertMessage(): (m: string)
      reads this
      ensures error.Some? && error.value.errorDescription.Some? ==> m == error.value.errorDescription.value
      ensures (error.None? || error.value.errorDescription.None?) && message.Some? ==> m == message.value
      ensures (error.None? || error.value.errorDescription.None?) && message.None? ==> m == "Unknown error"
    {
      AlertText(error, message)
    }

    /** `showAlert(_ error:)`: records the error and presents the alert. */
    method ShowError(e: LocalizedError)
      modifies this
      ensures error == Some(e) && isAlertPresented
      ensures message == old(message)
    {
      error := Some(e);
      isAlertPresented := true;
    }

    /** `showAlert(message:)`: records the message and presents the alert. */
    method ShowMessage(m: string)
      modifies this
      ensures message == Some(m) && isAlertPresented
      ensures error == old(error)
    {
      message := Some(m);
      isAlertPresented := true;
    }

    /** `hideAlert()`: dismisses the alert and drops the error; the message stays. */
    method HideAlert()
      modifies this
      ensures !isAlertPresented && error == None
      ensures message == old(message)
    {
      isAlertPresented := false;
      error := None;
    }

    /** The getter of `isAlertPresentedBinding`. */
    function BindingValue(): bool
      reads this
    {
      isAlertPresented
    }

    /** The setter of `isAlertPresentedBinding`: writes `isAlertPresented` and nothing else. */
    method SetBinding(presented: bool)
      modifies this
      ensures isAlertPresented == presented && BindingValue() == presented
      ensures error == old(error) && message == old(message)
    {
      isAlertPresented := presented;
    }
  }

  /** A described error hides any message shown after it, until `hideAlert()`; after that
      the alert text falls back to the message, which `hideAlert()` kept. */
  method ErrorMasksLaterMessage(e: LocalizedError, m: string) returns (whileError: string, afterHide: string)
    requires e.errorDescription.Some?
    ensures whileError == e.errorDescription.value
    ensures afterHide == m
  {
    var alerts := new AlertManager();
    alerts.ShowError(e);
    alerts.ShowMessage(m);
    whileError := alerts.AlertMessage();
    alerts.HideAlert();
    afterHide := alerts.AlertMessage();
  }

  /** With nothing recorded, or only an error without a description and no message, the
      alert reads "Unknown error". */
  method UnknownErrorFallback() returns (initial: string, undescribed: string)
    ensures initial == "Unknown error" && undescribed == "Unknown error"
  {
    var alerts := new AlertManager();
    initial := alerts.AlertMessage();
    alerts.ShowError(LocalizedError(None));
    undescribed := alerts.AlertMessage();
  }
}
