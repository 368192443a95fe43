/** The login page: sign in, report a failure by the kind of message
    the auth provider returns, and go home on success. */
module LoginPage {
  import opened Types
  import Text

  /** How a sign-in error is reported, decided by its message, checked in this order. */
  datatype LoginErrorKind = WrongCredentials | EmailNotConfirmed | OtherLoginError

  function ClassifyLoginError(message: string): (k: LoginErrorKind)
    ensures k == WrongCredentials <==> Text.Contains(message, "Invalid login credentials")
    ensures k == EmailNotConfirmed <==>
      !Text.Contains(message, "Invalid login credentials") && Text.Contains(message, "Email not confirmed")
  {
    if Text.Contains(message, "Invalid login credentials") then WrongCredentials
    else if Text.Contains(message, "Email not confirmed") then EmailNotConfirmed
    else OtherLoginError
  }

  function LoginErrorMessage(k: LoginErrorKind): string
  {
    match k
    case WrongCredentials => "ইমেইল বা পাসওয়ার্ড ভুল"
    case EmailNotConfirmed => "আপনার ইমেইল যাচাই করুন"
    case OtherLoginError => "লগইনে সমস্যা হয়েছে। আবার চেষ্টা করুন।"
  }

  /** Three different kinds give three different messages. */
  lemma LoginErrorMessagesDistinct(a: LoginErrorKind, b: LoginErrorKind)
    ensures LoginErrorMessage(a) == LoginErrorMessage(b) <==> a == b
  {
  }

  class LoginFlow {
    var email: string
    var password: string
    var loading: bool
    var error: string
    /** Pending navigation after a successful sign-in (taken after a short delay). */
    var navigateTo: Option<string>
    /** Sign-in calls made, oldest first. */
    var signIns: seq<(string, string)>

    constructor ()
      ensures email == "" && password == "" && !loading && error == "" && navigateTo == None && signIns == []
    {
      email, password, loading, error, navigateTo, signIns := "", "", false, "", None, [];
    }

    /** The two inputs, disabled while loading. */
    method Edit(e: string, p: string)
      requires !loading
      modifies this`email, this`password
      ensures email == e && password == p
    {
      email, password := e, p;
    }

    /** `handleSubmit` up to the sign-in call: the old error is cleared first. */
    method SubmitStart()
      requires !loading
      modifies this`loading, this`error, this`signIns
      ensures loading && error == "" && signIns == old(signIns) + [(email, password)]
    {
      loading, error := true, "";
      signIns := signIns + [(email, password)];
    }

    /** The sign-in reply: home on success, a classified message on failure; `loading` ends false. */
    method SubmitSettled(reply: AuthReply)
      modifies this`loading, this`error, this`navigateTo
      ensures !loading
      ensures reply.AuthOk? ==> navigateTo == Some("/") && error == old(error)
      ensures reply.AuthFailed? ==> error == LoginErrorMessage(ClassifyLoginError(reply.message)) && navigateTo == old(navigateTo)
      ensures reply.AuthThrew? ==> error == "লগইনে সমস্যা হয়েছে" && navigateTo == old(navigateTo)
    {
      match reply {
        case AuthOk => navigateTo := Some("/");
        case AuthFailed(message) => error := LoginErrorMessage(ClassifyLoginError(message));
        case AuthThrew => error := "লগইনে সমস্যা হয়েছে";
      }
      loading := false;
    }
  }

  /** A whole attempt: the error seen at the end is only ever the one the reply produced. */
  method Attempt(flow: LoginFlow, reply: AuthReply)
    requires !flow.loading
    modifies flow
    ensures !flow.loading && |flow.signIns| == |old(flow.signIns)| + 1
    ensures reply.AuthOk? ==> flow.error == "" && flow.navigateTo == Some("/")
  {
    flow.SubmitStart();
    flow.SubmitSettled(reply);
  }
}
