/** The signup form: the password-strength meter, the password confirmation check and
    the guarded submit with its double-submission lock. */
module Signup {
  import opened Results
  import opened Text

  predicate HasLower(p: string) { exists i :: 0 <= i < |p| && IsLowerAscii(p[i]) }
  predicate HasUpper(p: string) { exists i :: 0 <= i < |p| && IsUpperAscii(p[i]) }
  predicate HasDigit(p: string) { exists i :: 0 <= i < |p| && IsDigit(p[i]) }

  /** `/[^a-zA-Z0-9]/`: some character that is not an ASCII letter or digit. */
  predicate HasSymbol(p: string) {
    exists i :: 0 <= i < |p| && !IsLowerAscii(p[i]) && !IsUpperAscii(p[i]) && !IsDigit(p[i])
  }

  /** The four criteria of the meter. */
  predicate LongEnough(p: string) { |p| >= 8 }
  predicate MixedCase(p: string) { HasLower(p) && HasUpper(p) }

  function Indicator(b: bool): nat { if b then 1 else 0 }

  /** How many of the four criteria `p` meets. */
  function CriteriaMet(p: string): (n: nat)
    ensures n <= 4
    ensures n == 0 <==> !LongEnough(p) && !MixedCase(p) && !HasDigit(p) && !HasSymbol(p)
  {
    Indicator(LongEnough(p)) + Indicator(MixedCase(p)) + Indicator(HasDigit(p)) + Indicator(HasSymbol(p))
  }

  /** The meter's reading: `{ strength, text, color }`. */
  datatype Strength = Strength(strength: nat, text: string, color: string)

  /** `levels[strength - 1] || { strength: 0, text: '', color: '' }` */
  function Level(strength: nat): (r: Strength)
    ensures r.strength == (if 1 <= strength <= 4 then strength else 0)
    ensures r.text == "" <==> !(1 <= strength <= 4)
    ensures strength == 1 ==> r.text == "Weak" && r.color == "bg-red-500"
    ensures strength == 2 ==> r.text == "Fair" && r.color == "bg-orange-500"
    ensures strength == 3 ==> r.text == "Good" && r.color == "bg-yellow-500"
    ensures strength == 4 ==> r.text == "Strong" && r.color == "bg-green-500"
    ensures !(1 <= strength <= 4) ==> r == Strength(0, "", "")
  {
    if strength == 1 then Strength(1, "Weak", "bg-red-500")
    else if strength == 2 then Strength(2, "Fair", "bg-orange-500")
    else if strength == 3 then Strength(3, "Good", "bg-yellow-500")
    else if strength == 4 then Strength(4, "Strong", "bg-green-500")
    else Strength(0, "", "")
  }

  /** `getPasswordStrength(password)`, counting the criteria one by one. */
  method GetPasswordStrength(password: string) returns (s: Strength)
    ensures password == [] ==> s == Strength(0, "", "")
    ensures password != [] ==> s == Level(CriteriaMet(password))
    ensures s.strength <= 4
  {
    if password == [] {
      return Strength(0, "", "");
    }
    var strength: nat := 0;
    if |password| >= 8 {
      strength := strength + 1;
    }
    if HasLower(password) && HasUpper(password) {
      strength := strength + 1;
    }
    if HasDigit(password) {
      strength := strength + 1;
    }
    if HasSymbol(password) {
      strength := strength + 1;
    }
    s := Level(strength);
  }

  /** The meter is full exactly when all four criteria hold. */
  lemma StrongIffAllCriteria(p: string)
    ensures CriteriaMet(p) == 4 <==>
      LongEnough(p) && MixedCase(p) && HasDigit(p) && HasSymbol(p)
  {
  }

  /** Examples of each reading; a short password of letters in one case meets no
      criterion and shows an empty reading. */
  lemma LevelExamples()
    ensures CriteriaMet("abc") == 0
    ensures CriteriaMet("abcdefgh") == 1
    ensures CriteriaMet("Abcdefgh") == 2
    ensures CriteriaMet("Abcdefg1") == 3
    ensures CriteriaMet("Abcdef1!") == 4
  {
    LettersOnly("abc");
    LettersOnly("abcdefgh");
    LettersOnly("Abcdefgh");
    assert !HasUpper("abc") && !HasUpper("abcdefgh");
    assert IsUpperAscii("Abcdefgh"[0]) && IsLowerAscii("Abcdefgh"[1]);
    var p := "Abcdefg1";
    assert IsUpperAscii(p[0]) && IsLowerAscii(p[1]) && IsDigit(p[7]);
    assert forall i :: 0 <= i < |p| ==> IsLowerAscii(p[i]) || IsUpperAscii(p[i]) || IsDigit(p[i]);
    var q := "Abcdef1!";
    assert IsUpperAscii(q[0]) && IsLowerAscii(q[1]) && IsDigit(q[6]);
    assert !IsLowerAscii(q[7]) && !IsUpperAscii(q[7]) && !IsDigit(q[7]);
  }

  /** A password of letters only has no digit and no symbol. */
  lemma LettersOnly(p: string)
    requires forall i :: 0 <= i < |p| ==> IsLowerAscii(p[i]) || IsUpperAscii(p[i])
    ensures !HasDigit(p) && !HasSymbol(p)
  {
  }

  /** `password && confirmPassword && password === confirmPassword` */
  predicate PasswordsMatch(password: string, confirm: string)
    ensures PasswordsMatch(password, confirm) <==> password != [] && password == confirm
  {
    password != [] && confirm != [] && password == confirm
  }

  /** The fields sent to the server. */
  datatype Payload = Payload(name: string, email: string, password: string)

  /** What pressing submit does before the request returns. */
  datatype SubmitStart = Ignored | Mismatch | Sent(payload: Payload)

  /** How the request ends: created, or refused with the server's message if any. */
  datatype Response = Created | Refused(serverMessage: Option<string>)

  const MismatchAlert: string := "Passwords do not match!"
  const CreatedAlert: string := "Account created successfully! \U{1F389}"

  /** The alert after a refused request: the server's message when it is a non-empty
      string, a generic one otherwise. */
  function RefusedAlert(serverMessage: Option<string>): (r: string)
    ensures serverMessage.Some? && serverMessage.value != [] ==> r == "Error: " + serverMessage.value
    ensures !(serverMessage.Some? && serverMessage.value != []) ==>
      r == "Error: Signup failed. Please try again."
  {
    if serverMessage.Some? && serverMessage.value != [] then "Error: " + serverMessage.value
    else "Error: Signup failed. Please try again."
  }

  class SignupForm {
    var name: string
    var email: string
    var password: string
    var confirmPassword: string
    var agreeToTerms: bool
    var isLoading: bool
    var isSubmitting: bool

    /** A request in flight holds the lock. */
    predicate Valid()
      reads this
    {
      isLoading ==> isSubmitting
    }

    predicate IsEmpty()
      reads this
    {
      name == "" && email == "" && password == "" && confirmPassword == "" && !agreeToTerms
    }

    constructor ()
      ensures Valid() && IsEmpty() && !isLoading && !isSubmitting
    {
      name := "";
      email := "";
      password := "";
      confirmPassword := "";
      agreeToTerms := false;
      isLoading := false;
      isSubmitting := false;
    }

    /** The fields as the user typed them. */
    method Edit(newName: string, newEmail: string, newPassword: string, newConfirm: string, agree: bool)
      modifies this
      ensures name == newName && email == newEmail && password == newPassword
      ensures confirmPassword == newConfirm && agreeToTerms == agree
      ensures isLoading == old(isLoading) && isSubmitting == old(isSubmitting)
    {
      name, email, password, confirmPassword, agreeToTerms := newName, newEmail, newPassword, newConfirm, agree;
    }

    /** The submit button is enabled. */
    predicate CanSubmit()
      reads this
      ensures CanSubmit() ==> password == confirmPassword && password != [] && agreeToTerms
      ensures CanSubmit() ==> !isLoading
    {
      agreeToTerms && PasswordsMatch(password, confirmPassword) && !isLoading
    }

    /** `handleSubmit` up to the request: a second submit while locked is ignored, a
      mismatch alerts and stops, otherwise the lock is taken and the payload sent. */
    method BeginSubmit() returns (r: SubmitStart)
      requires Valid()
      modifies this
      ensures Valid()
      ensures old(isSubmitting) ==> r == Ignored
      ensures !old(isSubmitting) && old(password) != old(confirmPassword) ==> r == Mismatch
      ensures r.Sent? <==> !old(isSubmitting) && old(password) == old(confirmPassword)
      ensures old(CanSubmit()) && !old(isSubmitting) ==> r.Sent?
      ensures !r.Sent? ==> isLoading == old(isLoading) && isSubmitting == old(isSubmitting)
      ensures !old(isSubmitting) && old(password) == old(confirmPassword) ==>
        r == Sent(Payload(old(name), old(email), old(password))) && isLoading && isSubmitting
      ensures name == old(name) && email == old(email) && password == old(password)
      ensures confirmPassword == old(confirmPassword) && agreeToTerms == old(agreeToTerms)
    {
      if isSubmitting {
        return Ignored;
      }
      if password != confirmPassword {
        return Mismatch;
      }
      isLoading := true;
      isSubmitting := true;
      return Sent(Payload(name, email, password));
    }

    /** The rest of `handleSubmit` once the request returns: success clears the form;
      either way loading stops while the lock stays until its timer fires. */
    method FinishSubmit(response: Response) returns (alert: string)
      requires Valid()
      modifies this
      ensures Valid() && !isLoading && isSubmitting == old(isSubmitting)
      ensures response.Created? ==> alert == CreatedAlert && IsEmpty()
      ensures response.Refused? ==> alert == RefusedAlert(response.serverMessage)
      ensures response.Refused? ==>
        name == old(name) && email == old(email) && password == old(password)
        && confirmPassword == old(confirmPassword) && agreeToTerms == old(agreeToTerms)
    {
      if response.Created? {
        alert := CreatedAlert;
        name, email, password, confirmPassword, agreeToTerms := "", "", "", "", false;
      } else {
        alert := RefusedAlert(response.serverMessage);
      }
      isLoading := false;
    }

    /** The one-second timer after a request: the lock is released. */
    method ReleaseLock()
      requires Valid() && !isLoading
      modifies this
      ensures Valid() && !isSubmitting && isLoading == old(isLoading)
      ensures name == old(name) && email == old(email) && password == old(password)
      ensures confirmPassword == old(confirmPassword) && agreeToTerms == old(agreeToTerms)
    {
      isSubmitting := false;
    }
  }
}
