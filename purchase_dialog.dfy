/** The purchase-confirmation dialog store
    (src/sections/dashboard/Alerts/hooks/usePurchaseConfirmDialog.tsx) and the provider's
    continue handler (src/sections/dashboard/Alerts/PurchaseConfirmDialogProvider.tsx).
    A callback is known here only by its identity; running it is reported to the caller. */
module PurchaseDialog {
  import opened Js

  /** The identity of an `onContinue` callback. */
  type Callback = nat

  class DialogStore {
    var isOpen: bool
    var onContinueCallback: Option<Callback>

    /** The initial state: closed, no callback. */
    constructor()
      ensures !isOpen && onContinueCallback == None
    {
      isOpen, onContinueCallback := false, None;
    }

    /** `open(onContinue)`: show the dialog and keep the callback, or none when it is
        absent. */
    method Open(onContinue: Option<Callback>)
      modifies this
      ensures isOpen && onContinueCallback == onContinue
    {
      isOpen, onContinueCallback := true, onContinue;
    }

    /** `close`: hide the dialog and forget the callback, whatever the state was; so it
        is idempotent and after `Open` it restores the initial state. */
    method Close()
      modifies this
      ensures !isOpen && onContinueCallback == None
    {
      isOpen, onContinueCallback := false, None;
    }

    /** `handleContinue`: run the stored callback, exactly once and only if there is one,
        then close. `ran` is the callback that ran. */
    method HandleContinue() returns (ran: Option<Callback>)
      modifies this
      ensures ran == old(onContinueCallback)
      ensures !isOpen && onContinueCallback == None
    {
      ran := None;
      if onContinueCallback.Some? {
        ran := onContinueCallback;
      }
      Close();
    }
  }
}
