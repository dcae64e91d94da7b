/**
 * The sign-in screen (`components/Auth.tsx`): a choice of four methods,
 * the PIN pad, the password form, the pattern lock and the fingerprint
 * request. The answer of the fingerprint request is a parameter; the
 * 800 ms pause before the signed-in user is reported is not modelled, the
 * report is made at once.
 */
module Auth {
  import opened Wrappers
  import opened Types
  import Strings

  datatype Mode = Selection | Biometric | PinMode | Gesture | PasswordMode | Emergency

  /** A key of the PIN pad: a digit, 'C' or 'OK'. */
  datatype Key = Digit(c: char) | Clear | Ok

  /** What the platform authenticator answered. */
  datatype BiometricOutcome = Assertion | NoAssertion | Failed(errorName: string)

  const PinCode: string := "0000"
  const AdminPassword: string := "admin"
  const PinLength: nat := 4

  /** The one user every successful method reports. */
  const OwnerUser: AuthUser := AuthUser("owner_1", "Patron", Owner)

  const WrongPin: string := "Code PIN incorrect"
  const WrongPassword: string := "Mot de passe incorrect"
  const UsePin: string := "Veuillez utiliser votre code PIN pour l'authentification."
  const NoBiometric: string := "Accès biométrique non disponible."

  /** A digit key: appended while fewer than four digits are shown, ignored after. */
  function NextPin(pin: string, c: char): (r: string)
    ensures |pin| < PinLength ==> r == pin + [c]
    ensures |pin| >= PinLength ==> r == pin
  {
    if |pin| < PinLength then pin + [c] else pin
  }

  /** Pressing the digit keys `cs` in turn. */
  function TypeDigits(pin: string, cs: string): string
    decreases |cs|
  {
    if cs == [] then pin else TypeDigits(NextPin(pin, cs[0]), cs[1..])
  }

  function Min(a: nat, b: nat): nat
  {
    if a < b then a else b
  }

  /** From an empty pad, the PIN shown is the first four digits pressed. */
  lemma {:induction false} TypeDigitsKeepsFirstFour(pin: string, cs: string)
    requires |pin| <= PinLength
    ensures TypeDigits(pin, cs) == (pin + cs)[..Min(PinLength, |pin| + |cs|)]
    decreases |cs|
  {
    if cs != [] {
      TypeDigitsKeepsFirstFour(NextPin(pin, cs[0]), cs[1..]);
      if |pin| < PinLength {
        assert NextPin(pin, cs[0]) + cs[1..] == pin + cs;
      } else {
        assert (pin + cs[1..])[..PinLength] == pin == (pin + cs)[..PinLength];
      }
    }
  }

  /** The only PIN that opens the screen can be typed from an empty pad. */
  lemma PinReachable()
    ensures TypeDigits("", PinCode) == PinCode
  {
    TypeDigitsKeepsFirstFour("", PinCode);
  }

  /** The message shown when the fingerprint request fails with the given error name. */
  function BiometricError(name: string): (msg: string)
    ensures msg == UsePin <==> name == "NotAllowedError" || name == "SecurityError"
    ensures msg == UsePin || msg == NoBiometric
  {
    if name == "NotAllowedError" || name == "SecurityError" then UsePin else NoBiometric
  }

  /** Everything the screen holds; `reported` is the user handed to `onAuthSuccess`. */
  datatype Screen = Screen(
    mode: Mode, isLoading: bool, error: Option<string>, pin: string, password: string,
    reported: Option<AuthUser>)

  /** The pad shows at most four digits, and only the owner is ever reported. */
  predicate Sane(s: Screen)
  {
    |s.pin| <= PinLength && (s.reported.None? || s.reported == Some(OwnerUser))
  }

  /** `handleSuccess`: the loading screen, no error, and the owner reported. */
  function Succeeded(s: Screen): (r: Screen)
    ensures r.reported == Some(OwnerUser) && r.isLoading && r.error.None?
    ensures r.mode == s.mode && r.pin == s.pin && r.password == s.password
  {
    s.(isLoading := true, error := None, reported := Some(OwnerUser))
  }

  /** `handlePinSubmit`: "0000" signs in; any other PIN is refused and the pad cleared. */
  function AfterPin(s: Screen): (r: Screen)
    ensures r.reported.Some? <==> s.pin == PinCode || s.reported.Some?
    ensures s.pin == PinCode ==> r == Succeeded(s)
    ensures s.pin != PinCode ==> r == s.(error := Some(WrongPin), pin := "")
  {
    if s.pin == PinCode then Succeeded(s) else s.(error := Some(WrongPin), pin := "")
  }

  /** A key of the PIN pad. */
  function AfterKey(s: Screen, k: Key): (r: Screen)
    ensures k.Digit? ==> r == s.(pin := NextPin(s.pin, k.c))
    ensures k.Clear? ==> r == s.(pin := "")
    ensures k.Ok? ==> r == AfterPin(s)
  {
    match k
    case Clear => s.(pin := "")
    case Ok => AfterPin(s)
    case Digit(c) => s.(pin := NextPin(s.pin, c))
  }

  /** `handlePasswordSubmit`: "admin" signs in; anything else is refused and left in the field. */
  function AfterPassword(s: Screen): (r: Screen)
    ensures r.reported.Some? <==> s.password == AdminPassword || s.reported.Some?
    ensures s.password == AdminPassword ==> r == Succeeded(s)
    ensures s.password != AdminPassword ==> r == s.(error := Some(WrongPassword))
  {
    if s.password == AdminPassword then Succeeded(s) else s.(error := Some(WrongPassword))
  }

  /**
   * The fingerprint button: the request starts on the loading screen; an
   * assertion signs in; a failure shows its message and falls back to the
   * PIN pad; an empty answer leaves the loading screen up.
   */
  function AfterBiometric(s: Screen, outcome: BiometricOutcome): (r: Screen)
    ensures r.pin == s.pin && r.password == s.password
    ensures outcome.Assertion? ==> r.mode == Biometric && r.isLoading && r.error.None? && r.reported == Some(OwnerUser)
    ensures outcome.NoAssertion? ==> r.mode == Biometric && r.isLoading && r.error.None? && r.reported == s.reported
    ensures outcome.Failed? ==>
      r.mode == PinMode && !r.isLoading && r.error == Some(BiometricError(outcome.errorName)) && r.reported == s.reported
  {
    var loading := s.(mode := Biometric, isLoading := true, error := None);
    match outcome
    case Assertion => Succeeded(loading)
    case NoAssertion => loading
    case Failed(name) => loading.(error := Some(BiometricError(name)), isLoading := false, mode := PinMode)
  }

  /** Every step of the screen keeps it sane: four digits at most, and only the owner reported. */
  lemma StepsKeepSane(s: Screen, k: Key, o: BiometricOutcome, m: Mode, text: string)
    requires Sane(s)
    ensures Sane(AfterKey(s, k)) && Sane(AfterPassword(s)) && Sane(AfterBiometric(s, o))
    ensures Sane(s.(mode := m)) && Sane(s.(password := text)) && Sane(Succeeded(s))
  {
  }

  /** After a refused PIN, a second OK without typing is refused too. */
  lemma RefusedPinStaysRefused(s: Screen)
    requires s.pin != PinCode && s.reported.None?
    ensures AfterPin(AfterPin(s)).reported.None?
  {
  }

  class AuthScreen {
    var mode: Mode
    var isLoading: bool
    var error: Option<string>
    var pin: string
    var password: string
    var reported: Option<AuthUser>

    function State(): Screen
      reads this
    {
      Screen(mode, isLoading, error, pin, password, reported)
    }

    constructor()
      ensures State() == Screen(Selection, false, None, "", "", None) && Sane(State())
    {
      mode := Selection;
      isLoading := false;
      error := None;
      pin := "";
      password := "";
      reported := None;
    }

    method SetState(s: Screen)
      modifies this
      ensures State() == s
    {
      mode, isLoading, error, pin, password, reported := s.mode, s.isLoading, s.error, s.pin, s.password, s.reported;
    }

    /** The method buttons, the back arrows and the pattern lock's cancel. */
    method Navigate(m: Mode)
      modifies this
      ensures State() == old(State()).(mode := m)
    {
      mode := m;
    }

    method TriggerBiometric(outcome: BiometricOutcome)
      modifies this
      ensures State() == AfterBiometric(old(State()), outcome)
    {
      SetState(AfterBiometric(State(), outcome));
    }

    method Press(k: Key)
      modifies this
      ensures State() == AfterKey(old(State()), k)
    {
      match k
      case Clear =>
        pin := "";
      case Ok =>
        SetState(AfterPin(State()));
      case Digit(c) =>
        pin := NextPin(pin, c);
    }

    /** Typing in the password field. */
    method TypePassword(text: string)
      modifies this
      ensures State() == old(State()).(password := text)
    {
      password := text;
    }

    method SubmitPassword()
      modifies this
      ensures State() == AfterPassword(old(State()))
    {
      if password == AdminPassword {
        SetState(Succeeded(State()));
      } else {
        error := Some(WrongPassword);
      }
    }

    /** The pattern lock's `onComplete`: every completed pattern signs in, whatever it is. */
    method CompleteGesture(pattern: string)
      modifies this
      ensures State() == Succeeded(old(State()))
    {
      SetState(Succeeded(State()));
    }
  }
}
