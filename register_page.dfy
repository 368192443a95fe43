/** The registration page: a form checked by a first-failure-wins
    chain before sign-up, the mapping of sign-up and OTP errors to
    messages, the digits-only OTP field, resending the code, and going
    back to the form. */
module RegisterPage {
  import opened Types
  import Seqs
  import Text

  /** The form; `role` is `Customer` or `Provider`, the two values the role select offers. */
  datatype RegisterForm = RegisterForm(name: string, email: string, phone: string, password: string,
                                       confirmPassword: string, role: Role, location: string, profession: string)

  const InitialForm := RegisterForm("", "", "", "", "", Customer, "", "")

  /** The checks of `handleSubmit`, in the order they run. */
  datatype Problem = PasswordMismatch | PasswordTooShort | NameMissing | EmailMissing | PhoneMissing
                   | LocationMissing | ProfessionMissing

  /** Position of a check in the chain. */
  function Rank(p: Problem): nat
  {
    match p
    case PasswordMismatch => 0
    case PasswordTooShort => 1
    case NameMissing => 2
    case EmailMissing => 3
    case PhoneMissing => 4
    case LocationMissing => 5
    case ProfessionMissing => 6
  }

  /** Whether the form fails one check taken on its own. */
  predicate Fails(f: RegisterForm, p: Problem)
  {
    match p
    case PasswordMismatch => f.password != f.confirmPassword
    case PasswordTooShort => |f.password| < 6
    case NameMissing => Text.IsBlank(f.name)
    case EmailMissing => Text.IsBlank(f.email)
    case PhoneMissing => Text.IsBlank(f.phone)
    case LocationMissing => Text.IsBlank(f.location)
    case ProfessionMissing => f.role == Provider && Text.IsBlank(f.profession)
  }

  /** The chain: the first failing check in order, or none. */
  function Validate(f: RegisterForm): (r: Option<Problem>)
    ensures r.None? <==> forall p :: !Fails(f, p)
    ensures r.Some? ==> Fails(f, r.value) && forall q :: Rank(q) < Rank(r.value) ==> !Fails(f, q)
  {
    if Fails(f, PasswordMismatch) then Some(PasswordMismatch)
    else if Fails(f, PasswordTooShort) then Some(PasswordTooShort)
    else if Fails(f, NameMissing) then Some(NameMissing)
    else if Fails(f, EmailMissing) then Some(EmailMissing)
    else if Fails(f, PhoneMissing) then Some(PhoneMissing)
    else if Fails(f, LocationMissing) then Some(LocationMissing)
    else if Fails(f, ProfessionMissing) then Some(ProfessionMissing)
    else None
  }

  /** A customer is never asked for a profession, and a provider is asked only after every other check passed. */
  lemma ProfessionOnlyForProviders(f: RegisterForm)
    ensures Validate(f) == Some(ProfessionMissing) <==>
      f.role == Provider && Text.IsBlank(f.profession) && forall q :: q != ProfessionMissing ==> !Fails(f, q)
  {
  }

  function ProblemMessage(p: Problem): string
  {
    match p
    case PasswordMismatch => "পাসওয়ার্ড মিলছে না"
    case PasswordTooShort => "পাসওয়ার্ড কমপক্ষে ৬ অক্ষরের হতে হবে"
    case NameMissing => "নাম লিখুন"
    case EmailMissing => "ইমেইল লিখুন"
    case PhoneMissing => "ফোন নম্বর লিখুন"
    case LocationMissing => "এলাকা লিখুন"
    case ProfessionMissing => "পেশা/দক্ষতা লিখুন"
  }

  /** The profile data sent with sign-up. */
  datatype SignUpData = SignUpData(name: string, phone: string, role: Role, location: string, profession: Option<string>)

  /** A sign-up call: email, password and profile data. */
  datatype SignUpRequest = SignUpRequest(email: string, password: string, data: SignUpData)

  /** The profession goes along only for a provider; otherwise it is left undefined. */
  function SignUpPayload(f: RegisterForm): (d: SignUpData)
    ensures d.profession.Some? <==> f.role == Provider
    ensures d.profession.Some? ==> d.profession.value == f.profession
    ensures d.name == f.name && d.phone == f.phone && d.role == f.role && d.location == f.location
  {
    SignUpData(f.name, f.phone, f.role, f.location, if f.role == Provider then Some(f.profession) else None)
  }

  /** How a sign-up error is reported, decided by its message, checked in this order. */
  datatype SignUpErrorKind = AlreadyRegistered | InvalidEmail | WeakPassword | OtherSignUpError

  function ClassifySignUpError(message: string): (k: SignUpErrorKind)
    ensures k == AlreadyRegistered <==>
      Text.Contains(message, "already registered") || Text.Contains(message, "already been registered")
    ensures k == InvalidEmail ==> Text.Contains(message, "Invalid email")
    ensures k == WeakPassword ==> Text.Contains(message, "Password") && !Text.Contains(message, "Invalid email")
    ensures k == OtherSignUpError <==>
      !Text.Contains(message, "already registered") && !Text.Contains(message, "already been registered")
      && !Text.Contains(message, "Invalid email") && !Text.Contains(message, "Password")
  {
    if Text.Contains(message, "already registered") || Text.Contains(message, "already been registered") then AlreadyRegistered
    else if Text.Contains(message, "Invalid email") then InvalidEmail
    else if Text.Contains(message, "Password") then WeakPassword
    else OtherSignUpError
  }

  function SignUpErrorMessage(k: SignUpErrorKind): string
  {
    match k
    case AlreadyRegistered => "এই ইমেইল দিয়ে ইতিমধ্যে অ্যাকাউন্ট আছে"
    case InvalidEmail => "সঠিক ইমেইল ঠিকানা দিন"
    case WeakPassword => "পাসওয়ার্ড কমপক্ষে ৬ অক্ষরের হতে হবে"
    case OtherSignUpError => "রেজিস্ট্রেশনে সমস্যা হয়েছে। আবার চেষ্টা করুন।"
  }

  /** A rejected password from the provider reads the same as the page's own length check. */
  lemma WeakPasswordReadsAsTooShort(message: string)
    requires ClassifySignUpError(message) == WeakPassword
    ensures SignUpErrorMessage(ClassifySignUpError(message)) == ProblemMessage(PasswordTooShort)
  {
  }

  /** The branches of the OTP error mapping, in source order. */
  datatype OtpBranch = ExpiredBranch | InvalidBranch | TokenExpiredBranch | OtherOtpBranch

  function ClassifyOtpError(message: string): (b: OtpBranch)
    ensures b == ExpiredBranch <==> Text.Contains(message, "expired")
    ensures b == InvalidBranch <==>
      !Text.Contains(message, "expired") && (Text.Contains(message, "invalid") || Text.Contains(message, "Invalid"))
  {
    if Text.Contains(message, "expired") then ExpiredBranch
    else if Text.Contains(message, "invalid") || Text.Contains(message, "Invalid") then InvalidBranch
    else if Text.Contains(message, "Token has expired") then TokenExpiredBranch
    else OtherOtpBranch
  }

  /** 'Token has expired' contains 'expired', so the third branch can never be taken. */
  lemma TokenExpiredBranchUnreachable(message: string)
    ensures ClassifyOtpError(message) != TokenExpiredBranch
  {
    if Text.Contains(message, "Token has expired") {
      assert "Token has expired"[10..17] == "expired";
      Text.ContainsAt("Token has expired", "expired", 10);
      Text.ContainsTransitive(message, "Token has expired", "expired");
    }
  }

  function OtpErrorMessage(b: OtpBranch): string
  {
    match b
    case ExpiredBranch => "OTP কোডের মেয়াদ শেষ। নতুন কোড চান।"
    case InvalidBranch => "OTP কোড ভুল। আবার চেষ্টা করুন।"
    case TokenExpiredBranch => "OTP কোডের মেয়াদ শেষ। নতুন কোড চান।"
    case OtherOtpBranch => "OTP যাচাইয়ে সমস্যা হয়েছে। আবার চেষ্টা করুন।"
  }

  /** The OTP field: at most six characters are taken in (`maxLength`), then every non-digit is dropped. */
  function OtpInput(raw: string): (r: string)
    ensures |r| <= 6 && |r| <= |raw|
    ensures forall i | 0 <= i < |r| :: Text.IsDigit(r[i])
    ensures forall c :: multiset(r)[c] == if Text.IsDigit(c) then multiset(raw[..Seqs.Min(6, |raw|)])[c] else 0
  {
    assert raw[..Seqs.Min(6, |raw|)] == if |raw| <= 6 then raw else raw[..6];
    Text.KeepDigits(if |raw| <= 6 then raw else raw[..6])
  }

  /** Filtering what the field already holds changes nothing. */
  lemma OtpInputIdempotent(raw: string)
    ensures OtpInput(OtpInput(raw)) == OtpInput(raw)
  {
    Text.KeepDigitsOfDigits(OtpInput(raw));
  }

  /** Six typed digits are kept whole. */
  lemma OtpInputKeepsSixDigits(raw: string)
    requires |raw| == 6 && forall i | 0 <= i < 6 :: Text.IsDigit(raw[i])
    ensures OtpInput(raw) == raw
  {
    Text.KeepDigitsOfDigits(raw);
  }

  const OtpLengthMessage := "৬ সংখ্যার OTP কোড লিখুন"

  /** The page's state. */
  class RegisterFlow {
    var form: RegisterForm
    var showOtpForm: bool
    var otp: string
    var loading: bool
    var error: string
    var success: string
    var registrationEmail: string
    /** Pending navigation after a verified code (taken after a two-second delay). */
    var navigateTo: Option<string>
    /** Calls made to the auth provider, oldest first. */
    var signUps: seq<SignUpRequest>
    var verifications: seq<(string, string)>
    var resends: seq<string>

    /** The OTP field only ever holds up to six digits. */
    ghost predicate Valid()
      reads this`otp
    {
      |otp| <= 6 && forall i | 0 <= i < |otp| :: Text.IsDigit(otp[i])
    }

    constructor ()
      ensures Valid()
      ensures form == InitialForm && !showOtpForm && otp == "" && !loading
      ensures error == "" && success == "" && registrationEmail == "" && navigateTo == None
      ensures signUps == [] && verifications == [] && resends == []
    {
      form, showOtpForm, otp, loading := InitialForm, false, "", false;
      error, success, registrationEmail, navigateTo := "", "", "", None;
      signUps, verifications, resends := [], [], [];
    }

    /** The registration inputs, which only the registration view renders and which are disabled while loading. */
    method EditForm(f: RegisterForm)
      requires !showOtpForm && !loading && (f.role == Customer || f.role == Provider)
      modifies this`form
      ensures form == f
    {
      form := f;
    }

    /** `handleSubmit` up to the sign-up call: a failed check sets its message and asks nothing. */
    method SubmitStart() returns (problem: Option<Problem>)
      requires !loading
      modifies this`error, this`success, this`loading, this`signUps
      ensures problem == Validate(form)
      ensures problem.Some? ==>
        error == ProblemMessage(problem.value) && success == old(success) && !loading && signUps == old(signUps)
      ensures problem.None? ==>
        error == "" && success == "" && loading && signUps == old(signUps) + [SignUpRequest(form.email, form.password, SignUpPayload(form))]
    {
      problem := Validate(form);
      if problem.Some? {
        error := ProblemMessage(problem.value);
        return;
      }
      loading, error, success := true, "", "";
      signUps := signUps + [SignUpRequest(form.email, form.password, SignUpPayload(form))];
    }

    /** The sign-up reply: on success the email is kept and the OTP form shown; `loading` ends false. */
    method SubmitSettled(reply: AuthReply)
      modifies this`error, this`success, this`loading, this`registrationEmail, this`showOtpForm
      ensures !loading
      ensures reply.AuthOk? ==>
        registrationEmail == form.email && showOtpForm && error == old(error)
        && success == "রেজিস্ট্রেশন সফল! আপনার ইমেইলে OTP কোড পাঠানো হয়েছে।"
      ensures reply.AuthFailed? ==>
        error == SignUpErrorMessage(ClassifySignUpError(reply.message))
        && showOtpForm == old(showOtpForm) && registrationEmail == old(registrationEmail) && success == old(success)
      ensures reply.AuthThrew? ==>
        error == "রেজিস্ট্রেশনে সমস্যা হয়েছে"
        && showOtpForm == old(showOtpForm) && registrationEmail == old(registrationEmail) && success == old(success)
    {
      match reply {
        case AuthOk =>
          registrationEmail := form.email;
          success := "রেজিস্ট্রেশন সফল! আপনার ইমেইলে OTP কোড পাঠানো হয়েছে।";
          showOtpForm := true;
        case AuthFailed(message) =>
          error := SignUpErrorMessage(ClassifySignUpError(message));
        case AuthThrew =>
          error := "রেজিস্ট্রেশনে সমস্যা হয়েছে";
      }
      loading := false;
    }

    /** Typing or pasting into the OTP field. */
    method EnterOtp(raw: string)
      requires showOtpForm && !loading
      modifies this`otp
      ensures Valid()
      ensures otp == OtpInput(raw)
    {
      otp := OtpInput(raw);
    }

    /** `handleOTPSubmit` up to the verify call: only a six-digit code is sent. */
    method OtpStart() returns (sent: bool)
      requires Valid() && !loading
      modifies this`error, this`loading, this`verifications
      ensures Valid()
      ensures sent <==> |otp| == 6
      ensures !sent ==> error == OtpLengthMessage && !loading && verifications == old(verifications)
      ensures sent ==> error == "" && loading && verifications == old(verifications) + [(registrationEmail, otp)]
    {
      if |otp| != 6 {
        error := OtpLengthMessage;
        return false;
      }
      loading, error := true, "";
      verifications := verifications + [(registrationEmail, otp)];
      return true;
    }

    /** The verify reply: success schedules the move to the login page; `loading` ends false. */
    method OtpSettled(reply: AuthReply)
      modifies this`error, this`success, this`loading, this`navigateTo
      ensures !loading
      ensures reply.AuthOk? ==>
        success == "OTP যাচাই সফল! আপনার অ্যাকাউন্ট সক্রিয় হয়েছে।" && navigateTo == Some("/login") && error == old(error)
      ensures reply.AuthFailed? ==>
        error == OtpErrorMessage(ClassifyOtpError(reply.message)) && success == old(success) && navigateTo == old(navigateTo)
      ensures reply.AuthThrew? ==>
        error == "OTP যাচাইয়ে সমস্যা হয়েছে" && success == old(success) && navigateTo == old(navigateTo)
    {
      match reply {
        case AuthOk =>
          success := "OTP যাচাই সফল! আপনার অ্যাকাউন্ট সক্রিয় হয়েছে।";
          navigateTo := Some("/login");
        case AuthFailed(message) =>
          error := OtpErrorMessage(ClassifyOtpError(message));
        case AuthThrew =>
          error := "OTP যাচাইয়ে সমস্যা হয়েছে";
      }
      loading := false;
    }

    /** `handleResendOTP` up to the resend call. */
    method ResendStart()
      requires !loading
      modifies this`error, this`loading, this`resends
      ensures loading && error == "" && resends == old(resends) + [registrationEmail]
    {
      loading, error := true, "";
      resends := resends + [registrationEmail];
    }

    /** The resend reply: success clears the entered code. */
    method ResendSettled(reply: AuthReply)
      requires Valid()
      modifies this`error, this`success, this`loading, this`otp
      ensures Valid()
      ensures !loading
      ensures reply.AuthOk? ==> success == "নতুন OTP কোড আপনার ইমেইলে পাঠানো হয়েছে" && otp == "" && error == old(error)
      ensures !reply.AuthOk? ==> error == "OTP পুনরায় পাঠাতে সমস্যা হয়েছে" && otp == old(otp) && success == old(success)
    {
      if reply.AuthOk? {
        success := "নতুন OTP কোড আপনার ইমেইলে পাঠানো হয়েছে";
        otp := "";
      } else {
        error := "OTP পুনরায় পাঠাতে সমস্যা হয়েছে";
      }
      loading := false;
    }

    /** `handleBackToRegistration`: leaves the OTP form and forgets the code, the messages and the email. */
    method BackToRegistration()
      requires !loading
      modifies this`showOtpForm, this`otp, this`error, this`success, this`registrationEmail
      ensures Valid()
      ensures !showOtpForm && otp == "" && error == "" && success == "" && registrationEmail == ""
    {
      showOtpForm, otp, error, success, registrationEmail := false, "", "", "", "";
    }
  }

  /** A form that fails a check never reaches the auth provider. */
  method RejectedFormSendsNothing(flow: RegisterFlow) returns (problem: Option<Problem>)
    requires !flow.loading && Validate(flow.form).Some?
    modifies flow
    ensures problem.Some? && flow.signUps == old(flow.signUps) && flow.error == ProblemMessage(problem.value)
    ensures forall q :: Rank(q) < Rank(problem.value) ==> !Fails(flow.form, q)
  {
    problem := flow.SubmitStart();
  }
}
