/**
 * The PIN screen: setting a PIN and confirming it, entering the PIN to
 * decrypt the wallet, and changing the PIN.  The screen keeps its state, the
 * digits entered so far and (in its view model) the PIN stored by the last
 * step; the keyboard, the buttons and the wallet's answers drive it.
 */
module SetPinScreen {
  import opened Wrappers

  /** The length of a PIN outside the decrypt screen. */
  const PIN_LENGTH := 4

  datatype State = Decrypt | Decrypting | SetPin | ChangePin | ConfirmPin | InvalidPin | Encrypting | Locked

  /** What the screen holds: its state, the digits entered, the PIN stored in
      the view model and whether the PIN is being changed. */
  datatype Screen = Screen(state: State, pin: seq<int>, stored: seq<int>, changePin: bool)

  /** Calls out of the screen, in order. */
  datatype Effect =
    | EncryptKeys(changePin: bool)
    | DecryptKeys
    | DecryptWithPassword(password: string)
    | FailedAttempt(pin: seq<int>)
    | EncryptingErrorToast
    | Finish
    | InitWallet

  /** The status of the wallet's answer to an encrypt or decrypt call. */
  datatype Status = Error | Loading | Success

  datatype Outcome = Outcome(screen: Screen, effects: seq<Effect>)

  /** The screen when the activity starts: SET_PIN with nothing entered. */
  const Initial := Screen(SetPin, [], [], false)

  /** `setState`, its effect on the digits and the stored PIN: the entry
      screens clear both, CONFIRM_PIN clears the digits only, and the progress
      states keep both. */
  function Enter(sc: Screen, s: State): (r: Screen)
    ensures r.state == s && r.changePin == sc.changePin
    ensures r.pin == [] || r == sc.(state := s)
    ensures r.stored == [] || r.stored == sc.stored
  {
    match s
    case Decrypt | ChangePin | InvalidPin | SetPin | Locked => Screen(s, [], [], sc.changePin)
    case ConfirmPin => Screen(s, [], sc.stored, sc.changePin)
    case Encrypting | Decrypting => sc.(state := s)
  }

  /** `nextStep`. */
  function Next(sc: Screen): (r: Outcome)
    ensures r.screen.changePin == sc.changePin
    ensures r.effects == [] || r.effects == [EncryptKeys(sc.changePin)] || r.effects == [DecryptKeys]
    // either the wallet is called or the digits are cleared for another try
    ensures r.effects == [] ==> r.screen.pin == [] && r.screen.state == ConfirmPin
  {
    if sc.state == ConfirmPin then
      if sc.pin == sc.stored then Outcome(sc, [EncryptKeys(sc.changePin)])
      else Outcome(Enter(sc, ConfirmPin), [])
    else
      var withStored := sc.(stored := sc.pin);
      if sc.state == Decrypt || sc.state == ChangePin || sc.state == InvalidPin then Outcome(withStored, [DecryptKeys])
      else Outcome(Enter(withStored, ConfirmPin), [])
  }

  /** `onNumber`, with `locked` the retry controller's lock.  The second test
      under DECRYPT can never hold, as written. */
  function Digit(sc: Screen, number: int, locked: bool): (r: Outcome)
    ensures locked ==> r == Outcome(sc, [])
    ensures r.screen.changePin == sc.changePin
    ensures |r.effects| <= 1
  {
    if locked then Outcome(sc, [])
    else
      var sc1 := if |sc.pin| < PIN_LENGTH || sc.state == Decrypt then sc.(pin := sc.pin + [number]) else sc;
      if sc1.state == Decrypt then
        if |sc1.pin| == |sc1.stored| || (sc1.state == ConfirmPin && |sc1.pin| > |sc1.stored|) then Next(sc1)
        else Outcome(sc1, [])
      else if |sc1.pin| == PIN_LENGTH then Next(sc1)
      else Outcome(sc1, [])
  }

  /** `onBack` of the keyboard. */
  function Backspace(sc: Screen): (r: Screen)
    ensures |r.pin| == if |sc.pin| > 0 then |sc.pin| - 1 else 0
    ensures r.pin == sc.pin[..|r.pin|]
    ensures r.(pin := sc.pin) == sc
  {
    if |sc.pin| > 0 then sc.(pin := sc.pin[..|sc.pin| - 1]) else sc
  }

  /** The confirm button. */
  function Confirm(sc: Screen): (r: Outcome)
    ensures |sc.pin| == 0 ==> r == Outcome(sc, [])
    ensures r.screen.changePin == sc.changePin && |r.effects| <= 1
  {
    if |sc.pin| == 0 then Outcome(sc, []) else Next(sc)
  }

  /** `onBackPressed`. */
  function BackPressed(sc: Screen): (r: Outcome)
    ensures r.effects == [] || r.effects == [Finish]
    ensures Finish in r.effects ==> r.screen == sc && sc.pin == []
    ensures r.screen.changePin == sc.changePin
  {
    if |sc.pin| > 0 then Outcome(Enter(sc, sc.state), [])
    else if sc.state == ConfirmPin then Outcome(Enter(sc, SetPin), [])
    else if sc.state != Encrypting && sc.state != Decrypting then Outcome(sc, [Finish])
    else Outcome(sc, [])
  }

  /** The observer of the wallet's answer; `lockedNow` is the retry
      controller's lock once a failed attempt has been recorded. */
  function Answer(sc: Screen, status: Status, lockedNow: bool): (r: Outcome)
    ensures status == Error <==> r.effects != [] && r.effects[0] == FailedAttempt(sc.stored)
    ensures status == Loading ==> r.effects == [] && (r.screen.state == Encrypting || r.screen.state == Decrypting)
    ensures r.screen.changePin == sc.changePin
  {
    match status
    case Error =>
      var attempt := [FailedAttempt(sc.stored)];
      if lockedNow then Outcome(Enter(sc, Locked), attempt)
      else if sc.state == Decrypting then Outcome(Enter(sc, if sc.changePin then InvalidPin else Decrypt), attempt)
      else Outcome(Enter(sc, ConfirmPin), attempt + [EncryptingErrorToast])
    case Loading =>
      Outcome(Enter(sc, if sc.state == ConfirmPin then Encrypting else Decrypting), [])
    case Success =>
      if sc.state == Decrypting then Outcome(Enter(sc, SetPin), [])
      else if sc.changePin then Outcome(sc, [Finish])
      else Outcome(sc, [InitWallet])
  }

  /** `onCreate`: for an encrypted wallet, decrypts with the password passed
      in, or asks for the PIN; an unencrypted wallet stays in SET_PIN. */
  function Create(sc: Screen, encrypted: bool, password: Option<string>, changePinExtra: bool, locked: bool): (r: Outcome)
    ensures !encrypted ==> r == Outcome(sc, [])
    ensures encrypted ==> r.screen.changePin == changePinExtra
    ensures r.effects != [] <==> encrypted && password.Some?
    ensures r.effects != [] ==> r.effects == [DecryptWithPassword(password.value)]
  {
    if !encrypted then Outcome(sc, [])
    else
      var sc1 := sc.(changePin := changePinExtra);
      if password.Some? then Outcome(sc1, [DecryptWithPassword(password.value)])
      else if changePinExtra then Outcome(Enter(sc1, if locked then Locked else ChangePin), [])
      else Outcome(Enter(sc1, Decrypt), [])
  }

  /** Outside DECRYPT and DECRYPTING at most four digits are entered. */
  predicate PinCapped(sc: Screen)
  {
    sc.state != Decrypt && sc.state != Decrypting ==> |sc.pin| <= PIN_LENGTH
  }

  /** Feeding `digits` one after the other to a key handler. */
  function Run(press: (Screen, int) -> Outcome, sc: Screen, digits: seq<int>): Outcome
    decreases |digits|
  {
    if digits == [] then Outcome(sc, [])
    else
      var first := press(sc, digits[0]);
      var rest := Run(press, first.screen, digits[1..]);
      Outcome(rest.screen, first.effects + rest.effects)
  }

  /** Typing `digits` one after the other on the keyboard. */
  function Typed(sc: Screen, digits: seq<int>, locked: bool): Outcome
  {
    Run((s: Screen, n: int) => Digit(s, n, locked), sc, digits)
  }

  // Properties.

  /** Every handler keeps at most four digits outside DECRYPT and DECRYPTING. */
  lemma PinCapPreserved(sc: Screen, number: int, locked: bool, status: Status, encrypted: bool,
                        password: Option<string>, changePinExtra: bool)
    requires PinCapped(sc)
    ensures PinCapped(Digit(sc, number, locked).screen)
    ensures PinCapped(Backspace(sc))
    ensures PinCapped(Confirm(sc).screen)
    ensures PinCapped(BackPressed(sc).screen)
    ensures PinCapped(Answer(sc, status, locked).screen)
    ensures PinCapped(Create(sc, encrypted, password, changePinExtra, locked).screen)
  {
    DigitKeepsCap(sc, number, locked);
    AnswerKeepsCap(sc, status, locked);
    CreateKeepsCap(sc, encrypted, password, changePinExtra, locked);
  }

  lemma DigitKeepsCap(sc: Screen, number: int, locked: bool)
    requires PinCapped(sc)
    ensures PinCapped(Digit(sc, number, locked).screen)
  {
  }

  lemma AnswerKeepsCap(sc: Screen, status: Status, lockedNow: bool)
    requires PinCapped(sc)
    ensures PinCapped(Answer(sc, status, lockedNow).screen)
  {
  }

  lemma CreateKeepsCap(sc: Screen, encrypted: bool, password: Option<string>, changePinExtra: bool, locked: bool)
    requires PinCapped(sc)
    ensures PinCapped(Create(sc, encrypted, password, changePinExtra, locked).screen)
  {
  }

  /** While the retry controller is locked a digit changes nothing. */
  lemma LockedIgnoresDigits(sc: Screen, number: int)
    ensures Digit(sc, number, true) == Outcome(sc, [])
  {
  }

  /** Outside DECRYPT, a digit is appended while fewer than four are entered,
      and the fourth one takes the next step; a fifth is never appended. */
  lemma DigitOutsideDecrypt(sc: Screen, number: int)
    requires sc.state != Decrypt
    ensures |sc.pin| + 1 < PIN_LENGTH ==> Digit(sc, number, false) == Outcome(sc.(pin := sc.pin + [number]), [])
    ensures |sc.pin| + 1 == PIN_LENGTH ==> Digit(sc, number, false) == Next(sc.(pin := sc.pin + [number]))
    ensures |sc.pin| >= PIN_LENGTH ==> Digit(sc, number, false).screen.pin != sc.pin + [number]
  {
  }

  /** In DECRYPT digits are never capped, and one takes the next step only
      when as many digits are entered as the stored PIN has; right after
      entering DECRYPT, with nothing stored, only the confirm button does. */
  lemma DigitInDecrypt(sc: Screen, number: int)
    requires sc.state == Decrypt
    ensures |Digit(sc, number, false).screen.pin| > 0 || Digit(sc, number, false).effects != []
    ensures |sc.pin| + 1 != |sc.stored| ==> Digit(sc, number, false) == Outcome(sc.(pin := sc.pin + [number]), [])
    ensures |sc.pin| + 1 == |sc.stored| ==> Digit(sc, number, false) == Next(sc.(pin := sc.pin + [number]))
  {
  }

  /** The keyboard's back removes exactly the last digit, if there is one;
      confirming with no digit does nothing. */
  lemma BackAndConfirm(sc: Screen)
    ensures |sc.pin| > 0 ==> Backspace(sc).pin + [sc.pin[|sc.pin| - 1]] == sc.pin
    ensures Backspace(sc).state == sc.state && Backspace(sc).stored == sc.stored
    ensures |sc.pin| == 0 ==> Backspace(sc) == sc && Confirm(sc) == Outcome(sc, [])
  {
  }

  /** `nextStep` in CONFIRM_PIN encrypts when the PIN matches and otherwise
      stays in CONFIRM_PIN with the digits cleared; elsewhere it stores the
      digits and decrypts from the entry screens or asks for confirmation. */
  lemma NextStepCases(sc: Screen)
    ensures sc.state == ConfirmPin && sc.pin == sc.stored ==> Next(sc) == Outcome(sc, [EncryptKeys(sc.changePin)])
    ensures sc.state == ConfirmPin && sc.pin != sc.stored ==>
      Next(sc).screen == sc.(pin := []) && Next(sc).effects == []
    ensures sc.state != ConfirmPin ==> Next(sc).screen.stored == sc.pin
    ensures sc.state in {Decrypt, ChangePin, InvalidPin} ==>
      Next(sc).screen == sc.(stored := sc.pin) && Next(sc).effects == [DecryptKeys]
    ensures sc.state in {SetPin, Encrypting, Decrypting, Locked} ==>
      Next(sc).screen == Screen(ConfirmPin, [], sc.pin, sc.changePin) && Next(sc).effects == []
  {
  }

  /** After `setState` the state is the new one; the entry screens clear the
      digits and the stored PIN, CONFIRM_PIN only the digits. */
  lemma EnterClears(sc: Screen, s: State)
    ensures Enter(sc, s).state == s && Enter(sc, s).changePin == sc.changePin
    ensures s in {Decrypt, ChangePin, InvalidPin, SetPin, Locked} ==> Enter(sc, s).pin == [] && Enter(sc, s).stored == []
    ensures s == ConfirmPin ==> Enter(sc, s).pin == [] && Enter(sc, s).stored == sc.stored
    ensures s in {Encrypting, Decrypting} ==> Enter(sc, s) == sc.(state := s)
  {
  }

  /** The system back button re-enters the state when digits are entered,
      leaves CONFIRM_PIN for SET_PIN, and never finishes while encrypting or
      decrypting. */
  lemma BackPressedCases(sc: Screen)
    ensures |sc.pin| > 0 ==> BackPressed(sc) == Outcome(Enter(sc, sc.state), [])
    ensures |sc.pin| == 0 && sc.state == ConfirmPin ==> BackPressed(sc).screen.state == SetPin
    ensures sc.state in {Encrypting, Decrypting} ==> Finish !in BackPressed(sc).effects
    ensures |sc.pin| == 0 && sc.state !in {ConfirmPin, Encrypting, Decrypting} ==> BackPressed(sc) == Outcome(sc, [Finish])
  {
  }

  /** The wallet's answers: an error records a failed attempt and locks the
      screen when the controller is now locked, otherwise returns from
      DECRYPTING to INVALID_PIN or DECRYPT; loading shows ENCRYPTING from
      CONFIRM_PIN and DECRYPTING otherwise; success after decrypting asks for
      a new PIN. */
  lemma ResultCases(sc: Screen)
    ensures Answer(sc, Error, true).screen.state == Locked
    ensures Answer(sc, Error, true).effects[0] == FailedAttempt(sc.stored)
    ensures sc.state == Decrypting ==>
      Answer(sc, Error, false).screen.state == (if sc.changePin then InvalidPin else Decrypt)
    ensures sc.state != Decrypting ==>
      Answer(sc, Error, false) == Outcome(Enter(sc, ConfirmPin), [FailedAttempt(sc.stored), EncryptingErrorToast])
    ensures Answer(sc, Loading, false).screen.state == if sc.state == ConfirmPin then Encrypting else Decrypting
    ensures sc.state == Decrypting ==> Answer(sc, Success, false).screen == Screen(SetPin, [], [], sc.changePin)
    ensures sc.state != Decrypting ==>
      Answer(sc, Success, false).effects == if sc.changePin then [Finish] else [InitWallet]
  {
  }

  /** Feeding `a + b` ends where feeding `b` after `a` ends, and emits the
      effects of `a` followed by those of `b`. */
  lemma {:induction false} RunConcat(press: (Screen, int) -> Outcome, sc: Screen, a: seq<int>, b: seq<int>)
    ensures Run(press, sc, a + b).screen == Run(press, Run(press, sc, a).screen, b).screen
    ensures Run(press, sc, a + b).effects == Run(press, sc, a).effects + Run(press, Run(press, sc, a).screen, b).effects
    decreases |a|
  {
    if a == [] {
      assert a + b == b;
    } else {
      assert (a + b)[0] == a[0] && (a + b)[1..] == a[1..] + b;
      RunConcat(press, press(sc, a[0]).screen, a[1..], b);
    }
  }

  /** Typing `a + b` is typing `a`, then `b`. */
  lemma TypedConcat(sc: Screen, a: seq<int>, b: seq<int>, locked: bool)
    ensures Typed(sc, a + b, locked).screen == Typed(Typed(sc, a, locked).screen, b, locked).screen
    ensures Typed(sc, a + b, locked).effects == Typed(sc, a, locked).effects + Typed(Typed(sc, a, locked).screen, b, locked).effects
  {
    RunConcat((s: Screen, n: int) => Digit(s, n, locked), sc, a, b);
  }

  /** Typing a digit, then the rest. */
  lemma TypedStep(sc: Screen, digits: seq<int>, locked: bool)
    requires digits != []
    ensures Typed(sc, digits, locked) ==
      var first := Digit(sc, digits[0], locked);
      var rest := Typed(first.screen, digits[1..], locked);
      Outcome(rest.screen, first.effects + rest.effects)
  {
  }

  /** Typing three digits where fewer than three are entered, outside
      DECRYPT, only appends them. */
  lemma TypeThree(sc: Screen, p: seq<int>)
    requires sc.state != Decrypt && sc.pin == [] && |p| == 3
    ensures Typed(sc, p, false) == Outcome(sc.(pin := p), [])
  {
    var s1 := Digit(sc, p[0], false).screen;
    assert s1 == sc.(pin := [p[0]]);
    var s2 := Digit(s1, p[1], false).screen;
    assert s2 == sc.(pin := [p[0], p[1]]);
    var s3 := Digit(s2, p[2], false).screen;
    assert s3 == sc.(pin := [p[0], p[1], p[2]]);
    assert p[1..][1..] == [p[2]] && p[1..][0] == p[1] && [p[2]][1..] == [];
    TypedStep(s2, [p[2]], false);
    assert Typed(s2, [p[2]], false) == Outcome(s3, []);
    TypedStep(s1, p[1..], false);
    assert Typed(s1, p[1..], false) == Outcome(s3, []);
    TypedStep(sc, p, false);
    assert [p[0], p[1], p[2]] == p;
  }

  /** Four digits typed from an empty entry outside DECRYPT end in `nextStep`
      with those four digits entered. */
  lemma TypeFour(sc: Screen, p: seq<int>)
    requires sc.state != Decrypt && sc.pin == [] && |p| == PIN_LENGTH
    ensures Typed(sc, p, false) == Next(sc.(pin := p))
  {
    TypeThree(sc, p[..3]);
    TypedConcat(sc, p[..3], [p[3]], false);
    assert p[..3] + [p[3]] == p;
    var s3 := sc.(pin := p[..3]);
    assert Digit(s3, p[3], false) == Next(sc.(pin := p));
    assert [p[3]][1..] == [];
    TypedStep(s3, [p[3]], false);
    assert Typed(s3, [p[3]], false).effects == Next(sc.(pin := p)).effects;
  }

  /** Setting a PIN and confirming it: four digits in SET_PIN move to
      CONFIRM_PIN with those digits stored and none entered; the same four
      digits then ask the wallet to encrypt its keys, and four different ones
      keep CONFIRM_PIN with the first PIN still stored and no digit entered. */
  lemma SetThenConfirm(changePin: bool, p: seq<int>, q: seq<int>)
    requires |p| == PIN_LENGTH && |q| == PIN_LENGTH
    ensures Typed(Screen(SetPin, [], [], changePin), p, false).screen == Screen(ConfirmPin, [], p, changePin)
    ensures Typed(Screen(ConfirmPin, [], p, changePin), p, false).effects == [EncryptKeys(changePin)]
    ensures q != p ==> Typed(Screen(ConfirmPin, [], p, changePin), q, false) == Outcome(Screen(ConfirmPin, [], p, changePin), [])
  {
    TypeFour(Screen(SetPin, [], [], changePin), p);
    TypeFour(Screen(ConfirmPin, [], p, changePin), p);
    TypeFour(Screen(ConfirmPin, [], p, changePin), q);
  }

  /** The activity's state.  `stored` is the view model's PIN; it is taken to
      keep its own copy of the digits passed to `setPin`. */
  class PinActivity {
    var state: State
    var pin: seq<int>
    var stored: seq<int>
    var changePin: bool

    function Snapshot(): Screen
      reads this
    {
      Screen(state, pin, stored, changePin)
    }

    constructor ()
      ensures Snapshot() == Initial
    {
      state := SetPin;
      pin := [];
      stored := [];
      changePin := false;
    }

    method SetState(newState: State)
      modifies this
      ensures Snapshot() == Enter(old(Snapshot()), newState)
    {
      match newState {
        case Decrypt | ChangePin | InvalidPin | SetPin | Locked =>
          stored := [];
          pin := [];
        case ConfirmPin =>
          pin := [];
        case Encrypting | Decrypting =>
      }
      state := newState;
    }

    method NextStep() returns (effects: seq<Effect>)
      modifies this
      ensures Outcome(Snapshot(), effects) == Next(old(Snapshot()))
    {
      effects := [];
      if state == ConfirmPin {
        if pin == stored {
          effects := [EncryptKeys(changePin)];
        } else {
          SetState(ConfirmPin);
        }
      } else {
        stored := pin;
        if state == Decrypt || state == ChangePin || state == InvalidPin {
          effects := [DecryptKeys];
        } else {
          SetState(ConfirmPin);
        }
      }
    }

    method OnNumber(number: int, locked: bool) returns (effects: seq<Effect>)
      requires PinCapped(Snapshot())
      modifies this
      ensures PinCapped(Snapshot())
      ensures Outcome(Snapshot(), effects) == Digit(old(Snapshot()), number, locked)
    {
      effects := [];
      if locked {
        return;
      }
      if |pin| < PIN_LENGTH || state == Decrypt {
        pin := pin + [number];
      }
      if state == Decrypt {
        if |pin| == |stored| || (state == ConfirmPin && |pin| > |stored|) {
          effects := NextStep();
        }
      } else {
        if |pin| == PIN_LENGTH {
          effects := NextStep();
        }
      }
    }

    method OnBack()
      requires PinCapped(Snapshot())
      modifies this
      ensures PinCapped(Snapshot())
      ensures Snapshot() == Backspace(old(Snapshot()))
    {
      if |pin| > 0 {
        pin := pin[..|pin| - 1];
      }
    }

    method OnConfirm() returns (effects: seq<Effect>)
      requires PinCapped(Snapshot())
      modifies this
      ensures PinCapped(Snapshot())
      ensures Outcome(Snapshot(), effects) == Confirm(old(Snapshot()))
    {
      effects := [];
      if |pin| != 0 {
        effects := NextStep();
      }
    }

    method OnBackPressed() returns (effects: seq<Effect>)
      requires PinCapped(Snapshot())
      modifies this
      ensures PinCapped(Snapshot())
      ensures Outcome(Snapshot(), effects) == BackPressed(old(Snapshot()))
    {
      effects := [];
      if |pin| > 0 {
        SetState(state);
      } else if state == ConfirmPin {
        SetState(SetPin);
      } else if state != Encrypting && state != Decrypting {
        effects := [Finish];
      }
    }

    method OnResult(status: Status, lockedNow: bool) returns (effects: seq<Effect>)
      requires PinCapped(Snapshot())
      modifies this
      ensures PinCapped(Snapshot())
      ensures Outcome(Snapshot(), effects) == Answer(old(Snapshot()), status, lockedNow)
    {
      effects := [];
      match status
      case Error =>
        effects := [FailedAttempt(stored)];
        if lockedNow {
          SetState(Locked);
        } else if state == Decrypting {
          SetState(if changePin then InvalidPin else Decrypt);
        } else {
          effects := effects + [EncryptingErrorToast];
          SetState(ConfirmPin);
        }
      case Loading =>
        SetState(if state == ConfirmPin then Encrypting else Decrypting);
      case Success =>
        if state == Decrypting {
          SetState(SetPin);
        } else if changePin {
          effects := [Finish];
        } else {
          effects := [InitWallet];
        }
    }

    method OnCreate(encrypted: bool, password: Option<string>, changePinExtra: bool, locked: bool) returns (effects: seq<Effect>)
      requires PinCapped(Snapshot())
      modifies this
      ensures PinCapped(Snapshot())
      ensures Outcome(Snapshot(), effects) == Create(old(Snapshot()), encrypted, password, changePinExtra, locked)
    {
      effects := [];
      if encrypted {
        changePin := changePinExtra;
        if password.Some? {
          effects := [DecryptWithPassword(password.value)];
        } else if changePin {
          if locked {
            SetState(Locked);
          } else {
            SetState(ChangePin);
          }
        } else {
          SetState(Decrypt);
        }
      }
    }
  }
}
