/**
  The e-mail step of the sign-in screen: the sanitiser that keeps the
  verification code to at most six digits, the rule that enables the verify
  button, the six digit boxes, and what the back button does at each stage.
  The authentication calls themselves are not modelled; their outcome is a
  parameter.
 */
module SignIn {
  import opened Wrappers
  import opened Text

  const CodeLength: nat := 6

  /** `filter { $0.isNumber }`, with `isNumber` approximated by the ASCII digits. */
  function Digits(s: string): (r: string)
    ensures |r| <= |s|
    ensures forall i :: 0 <= i < |r| ==> IsDigit(r[i])
    ensures (forall i :: 0 <= i < |s| ==> IsDigit(s[i])) ==> r == s
  {
    if s == [] then []
    else (if IsDigit(s[0]) then [s[0]] else []) + Digits(s[1..])
  }

  /** Digits of a concatenation are the concatenation of the digits. */
  lemma {:induction false} DigitsAppend(a: string, b: string)
    ensures Digits(a + b) == Digits(a) + Digits(b)
  {
    if a == [] {
      assert a + b == b;
    } else {
      assert (a + b)[1..] == a[1..] + b;
      DigitsAppend(a[1..], b);
    }
  }

  /**
    The `onChange(of: verificationCode)` sanitiser: keep the digits; more than
    six are cut to the first six; otherwise the digits replace the text when
    anything was dropped and the text stays as it is when nothing was.
   */
  function Sanitize(code: string): (r: string)
    ensures |r| <= CodeLength
    ensures forall i :: 0 <= i < |r| ==> IsDigit(r[i])
    ensures HasPrefix(Digits(code), r)
    ensures |Digits(code)| >= CodeLength ==> |r| == CodeLength
    ensures |Digits(code)| <= CodeLength ==> r == Digits(code)
  {
    var filtered := Digits(code);
    if |filtered| > CodeLength then Prefix(filtered, CodeLength)
    else if filtered != code then filtered
    else code
  }

  /** Assigning the sanitised code fires the sanitiser again, which then leaves it alone. */
  lemma SanitizeIdempotent(code: string)
    ensures Sanitize(Sanitize(code)) == Sanitize(code)
  {
  }

  /** A code of at most six digits is kept exactly as typed. */
  lemma SanitizeKeepsShortCodes(code: string)
    requires |code| <= CodeLength && forall i :: 0 <= i < |code| ==> IsDigit(code[i])
    ensures Sanitize(code) == code
  {
  }

  /** Typing a character after six digits changes nothing: the code is full. */
  lemma FullCodeIgnoresTyping(code: string, c: char)
    requires |code| == CodeLength && forall i :: 0 <= i < |code| ==> IsDigit(code[i])
    ensures Sanitize(code + [c]) == code
  {
    DigitsAppend(code, [c]);
    assert Digits([c]) == (if IsDigit(c) then [c] else []);
    assert Prefix(code + [c], CodeLength) == code by {
      if IsDigit(c) {
        assert (code + [c])[..CodeLength] == code;
      }
    }
  }

  /** The verify button is enabled only for a code of exactly six characters. */
  function VerifyEnabled(code: string): (enabled: bool)
    ensures enabled <==> |code| == CodeLength
  {
    |code| == CodeLength
  }

  /** What digit box `index` of the six shows: the code's character there, if it has one. */
  function DigitBox(code: string, index: nat): (shown: Option<char>)
    requires index < CodeLength
    ensures shown.Some? <==> index < |code|
    ensures shown.Some? ==> shown.value == code[index]
  {
    if index < |code| then Some(code[index]) else None
  }

  /** The six boxes show a sanitised code in full and leave the rest empty; all six are filled exactly when verify is enabled. */
  lemma BoxesShowSanitizedCode(typed: string)
    ensures var code := Sanitize(typed);
            (forall i :: 0 <= i < |code| ==> DigitBox(code, i) == Some(code[i]))
            && (forall i :: |code| <= i < CodeLength ==> DigitBox(code, i) == None)
            && (VerifyEnabled(code) <==> forall i :: 0 <= i < CodeLength ==> DigitBox(code, i).Some?)
  {
    var code := Sanitize(typed);
    if !VerifyEnabled(code) {
      assert DigitBox(code, |code|) == None;
    }
  }

  // ---------------------------------------------------------------------------
  // The back button
  // ---------------------------------------------------------------------------

  /** The e-mail flow's state; `isVerifying` is the code-entry step. */
  datatype EmailFlow = EmailFlow(showEmailFlow: bool, isVerifying: bool, email: string, verificationCode: string)

  /** `showEmailView`: the e-mail form appears, at whatever step it was left. */
  function ShowEmailView(s: EmailFlow): (t: EmailFlow)
    ensures t.showEmailFlow && t.(showEmailFlow := s.showEmailFlow) == s
  {
    s.(showEmailFlow := true)
  }

  /** `signInWithEmail`: a code was sent (`sent`) and the code step opens, or an error leaves the state as it was. */
  function SignInWithEmail(s: EmailFlow, sent: bool): (t: EmailFlow)
    ensures t.isVerifying <==> sent || s.isVerifying
    ensures t.(isVerifying := s.isVerifying) == s
  {
    if sent then s.(isVerifying := true) else s
  }

  /**
    The back button: at the code step it first clears a typed code, then
    returns to e-mail entry; at e-mail entry it closes the flow and forgets the
    e-mail and the code (after the closing animation).
   */
  function Back(s: EmailFlow): (t: EmailFlow)
    ensures s.isVerifying && s.verificationCode != [] ==> t == s.(verificationCode := [])
    ensures s.isVerifying && s.verificationCode == [] ==> t == s.(isVerifying := false)
    ensures !s.isVerifying ==> t == EmailFlow(false, false, [], [])
  {
    if s.isVerifying then
      if s.verificationCode != [] then s.(verificationCode := "")
      else s.(isVerifying := false)
    else
      s.(showEmailFlow := false, isVerifying := false, email := "", verificationCode := "")
  }

  /** How many presses of back are left before the flow is closed and empty. */
  function StepsToClose(s: EmailFlow): nat
  {
    if s.isVerifying then (if s.verificationCode != [] then 3 else 2)
    else if s == EmailFlow(false, false, [], []) then 0
    else 1
  }

  /** The code step is only ever shown inside the open e-mail flow. */
  predicate Coherent(s: EmailFlow)
  {
    s.isVerifying ==> s.showEmailFlow
  }

  /** Opening the form, sending a code from it and going back all keep the code step inside the flow. */
  lemma CoherenceKept(s: EmailFlow, sent: bool)
    requires Coherent(s)
    ensures Coherent(Back(s)) && Coherent(ShowEmailView(s))
    ensures s.showEmailFlow ==> Coherent(SignInWithEmail(s, sent))
  {
  }

  /** Every press of back moves one step closer to the closed, empty flow, and the e-mail survives until the last one. */
  lemma BackRetreats(s: EmailFlow)
    requires Coherent(s) && StepsToClose(s) > 0
    ensures StepsToClose(Back(s)) == StepsToClose(s) - 1
    ensures StepsToClose(s) > 1 ==> Back(s).email == s.email && Back(s).showEmailFlow == s.showEmailFlow
  {
  }

  /** Once closed, back changes nothing. */
  lemma BackAtClosedIsIdle()
    ensures Back(EmailFlow(false, false, [], [])) == EmailFlow(false, false, [], [])
  {
  }
}
