/**
 * `useToast` (src/hooks/useToast.ts): one toast state value that every
 * setter replaces whole. Screens hold one hook object and call its setters.
 */
module UseToast {
  import opened Wrappers

  datatype ToastKind = SuccessToast | ErrorToast | InfoToast | WarningToast

  datatype ToastState = ToastState(visible: bool, message: string, kind: ToastKind)

  class ToastHook {
    var toast: ToastState

    /** The hook starts hidden, with an empty message of kind info. */
    constructor ()
      ensures toast == ToastState(false, "", InfoToast)
    {
      toast := ToastState(false, "", InfoToast);
    }

    /** `showToast(message, type = 'info')`: visible, with the message and the kind (info when none is given). */
    method ShowToast(message: string, kind: Option<ToastKind>)
      modifies this
      ensures toast == ToastState(true, message, kind.GetOr(InfoToast))
    {
      toast := ToastState(true, message, kind.GetOr(InfoToast));
    }

    /** `hideToast`: hidden, keeping the last message and kind. */
    method HideToast()
      modifies this
      ensures toast == old(toast).(visible := false)
      ensures toast.message == old(toast.message) && toast.kind == old(toast.kind)
    {
      toast := toast.(visible := false);
    }

    method Success(message: string)
      modifies this
      ensures toast == ToastState(true, message, SuccessToast)
    {
      ShowToast(message, Some(SuccessToast));
    }

    method Error(message: string)
      modifies this
      ensures toast == ToastState(true, message, ErrorToast)
    {
      ShowToast(message, Some(ErrorToast));
    }

    method Info(message: string)
      modifies this
      ensures toast == ToastState(true, message, InfoToast)
    {
      ShowToast(message, Some(InfoToast));
    }

    method Warning(message: string)
      modifies this
      ensures toast == ToastState(true, message, WarningToast)
    {
      ShowToast(message, Some(WarningToast));
    }
  }
}
