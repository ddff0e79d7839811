/**
 The gate in front of the privileged actions (editing or deleting a record,
 exporting the month). Requesting one stores it as the pending action and
 opens the PIN dialog; a successful PIN closes the dialog, runs the pending
 action once and forgets it. Closing the dialog by hand leaves the action
 pending, until another request replaces it.
 */
module AuthGate {
  import opened Wrappers
  import opened Forms
  import opened PinEntry

  /** The callbacks that are passed to requireAuth. */
  datatype Action =
    | StartEdit(kind: Kind, id: string)
    | Delete(kind: Kind, id: string)
    | ExportPdf
    | ExportSpreadsheet

  class Gate {
    var modalOpen: bool
    var authAction: Option<Action>

    constructor ()
      ensures !modalOpen && authAction == None
    {
      modalOpen := false;
      authAction := None;
    }

    /** requireAuth: remember the action and open the PIN dialog. */
    method RequireAuth(action: Action)
      modifies this
      ensures modalOpen && authAction == Some(action)
    {
      authAction := Some(action);
      modalOpen := true;
    }

    /** handleAuthSuccess: close the dialog; run the pending action, if any, and clear it. */
    method AuthSuccess() returns (ran: Option<Action>)
      modifies this
      ensures !modalOpen
      ensures ran == old(authAction)
      ensures authAction == None
    {
      modalOpen := false;
      ran := None;
      if authAction.Some? {
        ran := authAction;
        authAction := None;
      }
    }

    /** The dialog's close button: the pending action is kept. */
    method Close()
      modifies this`modalOpen
      ensures !modalOpen
    {
      modalOpen := false;
    }
  }

  /**
   A privileged action requested behind the inline PIN pad, whose onSuccess
   is handleAuthSuccess, followed by `keys` typed on the pad with no
   "Effacer" and no timer reset in between: the action runs exactly once
   when the first four keys are the fixed code, and otherwise it has not run
   and is still pending. (A reset after a wrong code empties the pad, and
   the fixed code typed after it does run the action.)
   */
  method RunBehindPin(action: Action, keys: seq<char>) returns (ran: seq<Action>, stillPending: Option<Action>)
    ensures ran == if |keys| >= 4 && keys[..4] == FixedPin then [action] else []
    ensures stillPending == if |keys| >= 4 && keys[..4] == FixedPin then None else Some(action)
  {
    var gate := new Gate();
    gate.RequireAuth(action);
    var pad := new PinPad();
    ran := [];
    var i := 0;
    while i < |keys|
      invariant 0 <= i <= |keys|
      invariant pad.Valid()
      invariant pad.pin == Held(keys[..i])
      invariant ran == if i >= 4 && keys[..4] == FixedPin then [action] else []
      invariant gate.authAction == if i >= 4 && keys[..4] == FixedPin then None else Some(action)
    {
      assert keys[..i + 1] == keys[..i] + [keys[i]];
      var ok := pad.Press(keys[i]);
      if ok {
        var r := gate.AuthSuccess();
        if r.Some? {
          ran := ran + [r.value];
        }
      }
      i := i + 1;
    }
    assert keys[..|keys|] == keys;
    stillPending := gate.authAction;
  }
}
