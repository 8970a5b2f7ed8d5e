/** The change-password form
    (fontend/src/components/User/UserProfile/ChangePassword/ChangePassword.tsx):
    the five password requirements and their score, the strength label, and
    the validation that decides whether the form is submitted. */
module ChangePassword {

  /** The five requirements, in the order the form lists them. */
  datatype Requirement = MinLength | Upper | Lower | Digit | Special

  const Requirements: seq<Requirement> := [MinLength, Upper, Lower, Digit, Special]

  /** The characters the regular expression `.` does not match. */
  predicate IsLineTerminator(c: char)
  {
    c == '\n' || c == '\r' || c as int == 0x2028 || c as int == 0x2029
  }

  /** Eight characters from position i on, none a line terminator. */
  predicate RunAt(password: string, i: int)
    requires 0 <= i <= |password| - 8
  {
    forall k | i <= k < i + 8 :: !IsLineTerminator(password[k])
  }

  /** /.{8,}/: somewhere eight characters in a row with no line terminator. */
  predicate HasEightInARow(password: string)
  {
    exists i | 0 <= i <= |password| - 8 :: RunAt(password, i)
  }

  /** The special characters of /[!@#$%^&*(),.?":{}|<>]/. */
  predicate IsSpecial(c: char)
  {
    c in "!@#$%^&*(),.?\":{}|<>"
  }

  /** Whether the password passes one requirement's test. */
  predicate Passes(req: Requirement, password: string)
  {
    match req
    case MinLength => HasEightInARow(password)
    case Upper => exists c | c in password :: 'A' <= c <= 'Z'
    case Lower => exists c | c in password :: 'a' <= c <= 'z'
    case Digit => exists c | c in password :: '0' <= c <= '9'
    case Special => exists c | c in password :: IsSpecial(c)
  }

  /** The test of each requirement against one password. */
  function Test(password: string): Requirement -> bool
  {
    q => Passes(q, password)
  }

  /** requirements.filter(req => req.test.test(password)): the requirements
      of `reqs` that pass, in order. */
  function PassedOf(reqs: seq<Requirement>, pass: Requirement -> bool): (r: seq<Requirement>)
    ensures |r| <= |reqs|
  {
    if reqs == [] then []
    else (if pass(reqs[0]) then [reqs[0]] else []) + PassedOf(reqs[1..], pass)
  }

  /** getPasswordStrength(password).score. */
  function Score(password: string): nat
  {
    |PassedOf(Requirements, Test(password))|
  }

  /** The filter keeps exactly the requirements that pass. */
  lemma {:induction false} PassedMembers(reqs: seq<Requirement>, pass: Requirement -> bool)
    ensures forall q :: q in PassedOf(reqs, pass) <==> q in reqs && pass(q)
  {
    if reqs != [] {
      PassedMembers(reqs[1..], pass);
      assert reqs == [reqs[0]] + reqs[1..];
    }
  }

  /** One step of the filter. */
  lemma PassedOfStep(q: Requirement, rest: seq<Requirement>, pass: Requirement -> bool)
    ensures |PassedOf([q] + rest, pass)| == (if pass(q) then 1 else 0) + |PassedOf(rest, pass)|
  {
    assert ([q] + rest)[1..] == rest;
  }

  /** Filtering the five requirements counts those that pass. */
  lemma {:induction false} CountOfFive(pass: Requirement -> bool)
    ensures |PassedOf(Requirements, pass)| ==
      (if pass(MinLength) then 1 else 0) + (if pass(Upper) then 1 else 0) + (if pass(Lower) then 1 else 0)
      + (if pass(Digit) then 1 else 0) + (if pass(Special) then 1 else 0)
  {
    var e := |PassedOf([Special], pass)|;
    assert e == if pass(Special) then 1 else 0 by {
      PassedOfStep(Special, [], pass);
      assert [Special] == [Special] + [];
    }
    var d := |PassedOf([Digit, Special], pass)|;
    assert d == (if pass(Digit) then 1 else 0) + e by {
      PassedOfStep(Digit, [Special], pass);
      assert [Digit, Special] == [Digit] + [Special];
    }
    var c := |PassedOf([Lower, Digit, Special], pass)|;
    assert c == (if pass(Lower) then 1 else 0) + d by {
      PassedOfStep(Lower, [Digit, Special], pass);
      assert [Lower, Digit, Special] == [Lower] + [Digit, Special];
    }
    var b := |PassedOf([Upper, Lower, Digit, Special], pass)|;
    assert b == (if pass(Upper) then 1 else 0) + c by {
      PassedOfStep(Upper, [Lower, Digit, Special], pass);
      assert [Upper, Lower, Digit, Special] == [Upper] + [Lower, Digit, Special];
    }
    assert |PassedOf(Requirements, pass)| == (if pass(MinLength) then 1 else 0) + b by {
      PassedOfStep(MinLength, [Upper, Lower, Digit, Special], pass);
      assert Requirements == [MinLength] + [Upper, Lower, Digit, Special];
    }
  }

  /** The score counts the passing requirements one by one. */
  lemma ScoreIsCount(password: string)
    ensures Score(password) ==
      (if Passes(MinLength, password) then 1 else 0) + (if Passes(Upper, password) then 1 else 0)
      + (if Passes(Lower, password) then 1 else 0) + (if Passes(Digit, password) then 1 else 0)
      + (if Passes(Special, password) then 1 else 0)
  {
    CountOfFive(Test(password));
  }

  /** The score is between 0 and 5; it is 5 exactly when every requirement
      passes and 0 exactly when none does. */
  lemma ScoreBounds(password: string)
    ensures 0 <= Score(password) <= 5
    ensures Score(password) == 5 <==> forall q :: Passes(q, password)
    ensures Score(password) == 0 <==> forall q :: !Passes(q, password)
  {
    ScoreIsCount(password);
    if Score(password) == 5 {
      forall q ensures Passes(q, password) {
        match q
        case MinLength =>
        case Upper =>
        case Lower =>
        case Digit =>
        case Special =>
      }
    }
    if Score(password) == 0 {
      forall q ensures !Passes(q, password) {
        match q
        case MinLength =>
        case Upper =>
        case Lower =>
        case Digit =>
        case Special =>
      }
    }
  }

  /** The empty password passes nothing. */
  lemma EmptyScoresZero()
    ensures Score("") == 0
  {
    ScoreIsCount("");
  }

  /** The length requirement needs at least eight characters, and for a
      password without line breaks that is all it needs. */
  lemma MinLengthIsLength(password: string)
    ensures Passes(MinLength, password) ==> |password| >= 8
    ensures (forall k | 0 <= k < |password| :: !IsLineTerminator(password[k])) ==>
      (Passes(MinLength, password) <==> |password| >= 8)
  {
    if |password| >= 8 && forall k | 0 <= k < |password| :: !IsLineTerminator(password[k]) {
      assert RunAt(password, 0);
    }
  }

  /** Nine characters with a line break in the middle fail the length test. */
  lemma LineBreakSplitsLength()
    ensures !Passes(MinLength, "abcd\nefgh") && |"abcd\nefgh"| == 9
  {
    var s := "abcd\nefgh";
    forall i | 0 <= i <= |s| - 8 ensures !RunAt(s, i) {
      assert IsLineTerminator(s[4]);
    }
  }

  /** The strength text under the bar. */
  function StrengthLabel(score: nat): (text: string)
    ensures score <= 2 ==> text == "Yếu"
    ensures score == 3 ==> text == "Trung bình"
    ensures score >= 4 ==> text == "Mạnh"
  {
    if score <= 2 then "Yếu" else if score <= 3 then "Trung bình" else "Mạnh"
  }

  /** The three password fields of the form. */
  datatype Form = Form(currentPassword: string, newPassword: string, confirmPassword: string)

  /** The keys of the error map. */
  datatype Field = Current | New | Confirm

  const CurrentRequired := "Vui lòng nhập mật khẩu hiện tại"
  const NewRequired := "Vui lòng nhập mật khẩu mới"
  const TooWeak := "Mật khẩu chưa đủ mạnh"
  const ConfirmRequired := "Vui lòng xác nhận mật khẩu mới"
  const Mismatch := "Mật khẩu xác nhận không khớp"
  const SameAsCurrent := "Mật khẩu mới phải khác mật khẩu hiện tại"

  /** validateForm: the rules run in order and a later one overwrites the
      entry of an earlier one for the same field. */
  function ValidateForm(form: Form): (errors: map<Field, string>)
    ensures Current in errors <==> form.currentPassword == ""
    ensures New in errors <==>
      form.newPassword == "" || Score(form.newPassword) < 4 || form.currentPassword == form.newPassword
    ensures Confirm in errors <==> form.confirmPassword == "" || form.newPassword != form.confirmPassword
    ensures form.currentPassword == form.newPassword ==> errors[New] == SameAsCurrent
    ensures form.currentPassword != form.newPassword && form.newPassword != "" && Score(form.newPassword) < 4 ==>
      errors[New] == TooWeak
  {
    var e0: map<Field, string> := map[];
    var e1 := if form.currentPassword == "" then e0[Current := CurrentRequired] else e0;
    var e2 := if form.newPassword == "" then e1[New := NewRequired]
              else if Score(form.newPassword) < 4 then e1[New := TooWeak] else e1;
    var e3 := if form.confirmPassword == "" then e2[Confirm := ConfirmRequired]
              else if form.newPassword != form.confirmPassword then e2[Confirm := Mismatch] else e2;
    if form.currentPassword == form.newPassword then e3[New := SameAsCurrent] else e3
  }

  /** handleSubmit goes on to the request only when there is no error. */
  predicate Submits(form: Form)
  {
    ValidateForm(form) == map[]
  }

  /** A submitted form has a current password, a new password that differs
      from it and scores at least 4, and a matching confirmation; and every
      such form is submitted. */
  lemma SubmitsExactly(form: Form)
    ensures Submits(form) <==>
      form.currentPassword != "" && form.newPassword != form.currentPassword &&
      Score(form.newPassword) >= 4 && form.confirmPassword == form.newPassword
  {
    var e := ValidateForm(form);
    if Submits(form) {
      assert Current !in e && New !in e && Confirm !in e;
    }
    if form.currentPassword != "" && form.newPassword != form.currentPassword &&
       Score(form.newPassword) >= 4 && form.confirmPassword == form.newPassword {
      EmptyScoresZero();
      forall f ensures f !in e {
        match f
        case Current =>
        case New =>
        case Confirm =>
      }
      assert e == map[];
    }
  }
}
