/** The login and signup form schemas: which inputs they accept and which
    issues they report. Whether a string is an e-mail address is decided by
    the validation library; here it is the parameter `isEmail`. */
module AuthService {

  /** One reported problem: the field it belongs to and its message. */
  datatype Issue = Issue(path: string, message: string)

  const BadEmail := "Please enter a valid email address"
  const ShortPassword := "Password must be at least 6 characters"
  const Mismatch := "Passwords don't match"

  /** The length JavaScript reports for a string: characters outside the
      Basic Multilingual Plane take two UTF-16 code units. */
  function Utf16Length(s: string): (n: nat)
    ensures |s| <= n <= 2 * |s|
  {
    if s == [] then 0
    else (if s[0] as int >= 0x1_0000 then 2 else 1) + Utf16Length(s[1..])
  }

  /** The issues of the e-mail and password fields, in field order. */
  function FieldIssues(email: string, password: string, isEmail: string -> bool): (r: seq<Issue>)
    ensures |r| <= 2
    ensures Issue("email", BadEmail) in r <==> !isEmail(email)
    ensures Issue("password", ShortPassword) in r <==> Utf16Length(password) < 6
    ensures forall i :: 0 <= i < |r| ==> r[i].path == "email" || r[i].path == "password"
  {
    (if isEmail(email) then [] else [Issue("email", BadEmail)])
    + (if Utf16Length(password) >= 6 then [] else [Issue("password", ShortPassword)])
  }

  /** `loginSchema`: e-mail and password checks. */
  function LoginIssues(email: string, password: string, isEmail: string -> bool): (r: seq<Issue>)
    ensures r == [] <==> isEmail(email) && Utf16Length(password) >= 6
  {
    FieldIssues(email, password, isEmail)
  }

  /** `signupSchema`: the same field checks, then the refinement that the
      confirmation repeats the password; the refinement runs even when a
      field check has failed, as the library only marks such a result dirty. */
  function SignupIssues(email: string, password: string, confirmPassword: string,
                        isEmail: string -> bool): (r: seq<Issue>)
    ensures r == [] <==> isEmail(email) && Utf16Length(password) >= 6 && password == confirmPassword
    ensures Issue("confirmPassword", Mismatch) in r <==> password != confirmPassword
  {
    var fields := FieldIssues(email, password, isEmail);
    assert Issue("confirmPassword", Mismatch) !in fields by {
      assert "confirmPassword" != "email" && "confirmPassword" != "password";
    }
    fields + (if password == confirmPassword then [] else [Issue("confirmPassword", Mismatch)])
  }

  /** The confirmation has no rule of its own: every issue on its path is the
      mismatch, so a short confirmation equal to the password is accepted
      as far as that field goes. */
  lemma ConfirmationOnlyMatched(email: string, password: string, confirmPassword: string,
                                isEmail: string -> bool)
    ensures forall e :: (e in SignupIssues(email, password, confirmPassword, isEmail)
                         && e.path == "confirmPassword") ==> e.message == Mismatch
    ensures password == confirmPassword ==>
              forall e :: e in SignupIssues(email, password, confirmPassword, isEmail)
                ==> e.path != "confirmPassword"
  {
    var fields := FieldIssues(email, password, isEmail);
    assert "confirmPassword" != "email" && "confirmPassword" != "password";
    assert forall e :: e in fields ==> e.path != "confirmPassword";
  }

  /** Whoever can sign up can log in with the same e-mail and password. */
  lemma SignupImpliesLogin(email: string, password: string, confirmPassword: string,
                           isEmail: string -> bool)
    requires SignupIssues(email, password, confirmPassword, isEmail) == []
    ensures LoginIssues(email, password, isEmail) == []
  {
  }

  /** Signup reports exactly the login issues, plus the mismatch when the
      confirmation differs. */
  lemma SignupExtendsLogin(email: string, password: string, confirmPassword: string,
                           isEmail: string -> bool)
    ensures var login := LoginIssues(email, password, isEmail);
            SignupIssues(email, password, confirmPassword, isEmail)
              == if password == confirmPassword then login
                 else login + [Issue("confirmPassword", Mismatch)]
  {
  }

  /** The minimum counts UTF-16 code units: three characters from outside
      the Basic Multilingual Plane make a long enough password. */
  lemma ThreeAstralCharactersSuffice()
    ensures Utf16Length("\U{1F600}\U{1F600}\U{1F600}") == 6
  {
    var s := "\U{1F600}\U{1F600}\U{1F600}";
    assert s[1..] == "\U{1F600}\U{1F600}";
    assert s[1..][1..] == "\U{1F600}";
  }

  /** With characters from the Basic Multilingual Plane only, the minimum is
      six characters. */
  lemma {:induction false} BmpLength(s: string)
    requires forall i :: 0 <= i < |s| ==> (s[i] as int) < 0x1_0000
    ensures Utf16Length(s) == |s|
  {
    if s != [] {
      BmpLength(s[1..]);
    }
  }
}
