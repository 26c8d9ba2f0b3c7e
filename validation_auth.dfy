/** `loginSchema` and `registerSchema` (src/lib/validations/auth.ts). */
module AuthSchema {
  import opened Wrappers
  import opened Domain
  import opened Zod

  const EmailMessage: string := "Invalid email address."
  const PasswordRequiredMessage: string := "Password is required."
  const NameMessage: string := "Name must be at least 2 characters."
  const PasswordLengthMessage: string := "Password must be at least 6 characters."
  const PhoneMessage: string := "Phone number must be at least 10 digits."

  predicate LoginAcceptable(v: LoginValues, isEmail: string -> bool) {
    isEmail(v.email) && |v.password| >= 1
  }

  function LoginIssues(v: LoginValues, isEmail: string -> bool): seq<Issue> {
    Recognised("email", v.email, isEmail, EmailMessage) + MinLength("password", v.password, 1, PasswordRequiredMessage)
  }

  /** `loginSchema.safeParse`. */
  function ValidateLogin(v: LoginValues, isEmail: string -> bool): (r: Result<LoginValues, seq<Issue>>)
    ensures r.Success? <==> LoginAcceptable(v, isEmail)
    ensures r.Success? ==> r.value == v
    ensures r.Failure? ==> r.error != [] && Fields(r.error) <= {"email", "password"}
  {
    var issues := LoginIssues(v, isEmail);
    if issues == [] then Success(v) else Failure(issues)
  }

  predicate RegisterAcceptable(v: RegisterValues, isEmail: string -> bool, isUrl: string -> bool) {
    && |v.name| >= 2
    && isEmail(v.email)
    && |v.password| >= 6
    && |v.phone| >= 10
    && (v.profileImage.None? || v.profileImage.value == "" || isUrl(v.profileImage.value))
  }

  /** Issues in declaration order: name, email, password, phone, profile image;
      `location` is an optional string and never fails. */
  function RegisterIssues(v: RegisterValues, isEmail: string -> bool, isUrl: string -> bool): seq<Issue> {
    MinLength("name", v.name, 2, NameMessage)
    + Recognised("email", v.email, isEmail, EmailMessage)
    + MinLength("password", v.password, 6, PasswordLengthMessage)
    + MinLength("phone", v.phone, 10, PhoneMessage)
    + UrlOrEmpty("profileImage", v.profileImage, isUrl)
  }

  /** `registerSchema.safeParse`. */
  function ValidateRegister(v: RegisterValues, isEmail: string -> bool, isUrl: string -> bool)
    : (r: Result<RegisterValues, seq<Issue>>)
    ensures r.Success? <==> RegisterAcceptable(v, isEmail, isUrl)
    ensures r.Success? ==> r.value == v
    ensures r.Failure? ==> r.error != []
  {
    var issues := RegisterIssues(v, isEmail, isUrl);
    if issues == [] then Success(v) else Failure(issues)
  }

  /** The phone rule counts characters only: any ten characters pass, digits or not. */
  lemma PhoneIsNotCheckedForDigits(v: RegisterValues, isEmail: string -> bool, isUrl: string -> bool)
    requires RegisterAcceptable(v, isEmail, isUrl)
    ensures ValidateRegister(v.(phone := "abcdefghij"), isEmail, isUrl).Success?
  {
  }

  /** The location never affects acceptance. */
  lemma LocationIsOptional(v: RegisterValues, loc: Option<string>, isEmail: string -> bool, isUrl: string -> bool)
    ensures ValidateRegister(v.(location := loc), isEmail, isUrl).Success?
         == ValidateRegister(v, isEmail, isUrl).Success?
  {
  }

  /** A register form whose only fault is a short password reports exactly the
      password-length message. */
  lemma {:induction false} ShortPasswordMessage(v: RegisterValues, isEmail: string -> bool, isUrl: string -> bool)
    requires RegisterAcceptable(v, isEmail, isUrl)
    ensures ValidateRegister(v.(password := "abc"), isEmail, isUrl)
         == Failure([Issue("password", None, PasswordLengthMessage)])
  {
    var w := v.(password := "abc");
    var short := [Issue("password", None, PasswordLengthMessage)];
    assert MinLength("name", w.name, 2, NameMessage) == [];
    assert Recognised("email", w.email, isEmail, EmailMessage) == [];
    assert MinLength("password", w.password, 6, PasswordLengthMessage) == short;
    assert MinLength("phone", w.phone, 10, PhoneMessage) == [];
    assert UrlOrEmpty("profileImage", w.profileImage, isUrl) == [];
    assert RegisterIssues(w, isEmail, isUrl) == [] + [] + short + [] + [] == short;
  }
}
