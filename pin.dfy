/**
 The PIN pad that guards the application and its privileged actions.
 Digits are appended to `pin` until it holds four; the fourth digit either
 completes the fixed code, and the success callback fires, or it sets the
 error message and schedules a reset 800 ms later. Digits pressed while
 four are held are ignored. The timer is not modelled as time: each
 scheduled reset is counted in `pendingResets`, and `ResetAfterDelay` is
 the step in which one of them fires.
 */
module PinEntry {
  const FixedPin: string := "1997"
  const InvalidPin: string := "Code PIN invalide"

  class PinPad {
    var pin: string
    var error: string
    /** Resets scheduled by a wrong code whose 800 ms have not yet elapsed. */
    var pendingResets: nat

    ghost predicate Valid()
      reads this
    {
      && |pin| <= 4
      && (error == "" || error == InvalidPin)
      && (error != "" ==> pendingResets > 0)
    }

    constructor ()
      ensures Valid()
      ensures pin == "" && error == "" && pendingResets == 0
    {
      pin := "";
      error := "";
      pendingResets := 0;
    }

    /** handlePin: a digit button. Returns whether onSuccess was called. */
    method Press(digit: char) returns (success: bool)
      requires Valid()
      modifies this
      ensures Valid()
      ensures success <==> |old(pin)| == 3 && old(pin) + [digit] == FixedPin
      ensures |old(pin)| == 4 ==> pin == old(pin)
      ensures |old(pin)| < 4 ==> pin == old(pin) + [digit]
      ensures |old(pin)| == 3 && old(pin) + [digit] != FixedPin
              ==> error == InvalidPin && pendingResets == old(pendingResets) + 1
      ensures !(|old(pin)| == 3 && old(pin) + [digit] != FixedPin)
              ==> error == old(error) && pendingResets == old(pendingResets)
    {
      success := false;
      if |pin| < 4 {
        var newPin := pin + [digit];
        pin := newPin;
        if |newPin| == 4 {
          if newPin == FixedPin {
            success := true;
          } else {
            error := InvalidPin;
            pendingResets := pendingResets + 1;
          }
        }
      }
    }

    /** handleFingerprint: the fingerprint button is a stub that always succeeds. */
    method Fingerprint() returns (success: bool)
      ensures success
    {
      success := true;
    }

    /** The "Effacer" button: empties the digits entered, leaves the error message. */
    method Clear()
      requires Valid()
      modifies this`pin
      ensures Valid()
      ensures pin == ""
    {
      pin := "";
    }

    /** A reset scheduled by a wrong code fires: both the digits and the error are emptied. */
    method ResetAfterDelay()
      requires Valid() && pendingResets > 0
      modifies this
      ensures Valid()
      ensures pin == "" && error == "" && pendingResets == old(pendingResets) - 1
    {
      pin := "";
      error := "";
      pendingResets := pendingResets - 1;
    }
  }

  /** The first four keys of `keys` (all of them when fewer): what a fresh pad holds after them. */
  function Held(keys: seq<char>): string {
    if |keys| <= 4 then keys else keys[..4]
  }

  /**
   The login screen: digits typed on a fresh pad, with no clear and no reset
   in between. onSuccess fires once if the first four digits are the fixed
   code and never otherwise; later digits are ignored.
   */
  method EnterCode(keys: seq<char>) returns (successes: nat, shown: string)
    ensures successes == if |keys| >= 4 && keys[..4] == FixedPin then 1 else 0
    ensures shown == Held(keys)
  {
    var pad := new PinPad();
    successes := 0;
    var i := 0;
    while i < |keys|
      invariant 0 <= i <= |keys|
      invariant pad.Valid()
      invariant pad.pin == Held(keys[..i])
      invariant successes == if i >= 4 && keys[..4] == FixedPin then 1 else 0
    {
      assert keys[..i + 1] == keys[..i] + [keys[i]];
      var ok := pad.Press(keys[i]);
      if ok {
        successes := successes + 1;
      }
      i := i + 1;
    }
    assert keys[..|keys|] == keys;
    shown := pad.pin;
  }
}
