/** The sign-up page (`RegisterUser`): password checks, the registration
    request, the form reset after success, and account activation with the
    emailed code. Replies from the backend are parameters; the messages the
    page shows are named by what they say. */
module Register {
  import opened Common

  const UsersUrl: string := "http://localhost:8080/users"
  const VerifyBase: string := "http://localhost:8080/users/verify/"
  const LoginPage: string := "/login"
  const MinPasswordLength: int := 6

  /** `validatePassword`: at least six characters. */
  predicate PasswordValid(pw: string) {
    |pw| >= MinPasswordLength
  }

  /** `validatePasswordConfirm`: the same text as the password. */
  predicate ConfirmValid(confirm: string, pw: string) {
    confirm == pw
  }

  /** The body of the registration request. */
  datatype Registration = Registration(userName: string, email: string, password: string,
                                       lastName: string, firstName: string, address: string)

  /** `thongBao`, the message under the form. */
  datatype Notice = NoNotice | Registered | RegisterFailed(errText: string) | ConnectionFailed

  /** `activationMessage`, the message in the activation dialog. */
  datatype ActivationNotice = NoActivationNotice | NoUserToActivate | Activated
    | ActivationFailed(errText: string) | ActivationConnectionFailed

  /** `data.result` of a successful registration: the new user, whose id may
      be missing. */
  datatype NewUser = NewUser(id: Option<int>)

  /** The reply to the registration request: a thrown error, a non-OK status
      with its text, or an OK body whose `result` may be missing (reading it
      then throws). */
  datatype RegisterReply = RegisterThrew | RegisterNotOk(errText: string) | RegisterOk(result: Option<NewUser>)

  /** The reply to the activation request. */
  datatype ActivateReply = ActivateThrew | ActivateNotOk(errText: string) | ActivateOk

  /** The registration request: the POST's URL and the form it carries. */
  datatype RegisterPost = RegisterPost(url: string, body: Registration)

  /** The activation request: the user's path and the code sent as `accountNumber`. */
  datatype Activation = Activation(url: string, accountNumber: string)

  datatype RegisterState = RegisterState(
    form: Registration, passwordConfirm: string, userId: Option<int>, notice: Notice,
    errorPassword: bool, errorPasswordConfirm: bool, showActivationModal: bool,
    activationCode: string, activationNotice: ActivationNotice,
    posts: seq<RegisterPost>, activations: seq<Activation>, navigations: seq<string>)

  const EmptyForm: Registration := Registration("", "", "", "", "", "")

  /** The page after the form in `st` is posted and `reply` comes back: an
      OK reply with a `result` records the new id, announces success, opens
      the activation dialog and empties all seven inputs; a non-OK reply
      shows its text; a thrown error (or a missing `result`) shows the
      connection message. */
  function AfterRegister(st: RegisterState, reply: RegisterReply): RegisterState {
    var sent := st.(posts := st.posts + [RegisterPost(UsersUrl, st.form)]);
    match reply
    case RegisterOk(Some(newUser)) =>
      sent.(userId := newUser.id, notice := Registered, showActivationModal := true,
            form := EmptyForm, passwordConfirm := "")
    case RegisterNotOk(errText) => sent.(notice := RegisterFailed(errText))
    case _ => sent.(notice := ConnectionFailed)
  }

  /** Posting sends exactly the form that was checked, to the users URL,
      and a successful registration leaves a form that the password check rejects, so an
      immediate second submit sends nothing; any other reply leaves every
      input as typed. */
  lemma RegistrationOutcome(st: RegisterState, reply: RegisterReply)
    ensures AfterRegister(st, reply).posts == st.posts + [RegisterPost(UsersUrl, st.form)]
    ensures reply.RegisterOk? && reply.result.Some? ==>
      !PasswordValid(AfterRegister(st, reply).form.password) && AfterRegister(st, reply).showActivationModal
    ensures !(reply.RegisterOk? && reply.result.Some?) ==>
      AfterRegister(st, reply).form == st.form && AfterRegister(st, reply).passwordConfirm == st.passwordConfirm
      && AfterRegister(st, reply).userId == st.userId
  {
  }

  class RegisterPage {
    /** The six inputs sent on registration. */
    var form: Registration
    var passwordConfirm: string
    var userId: Option<int>
    var notice: Notice
    /** Whether each validation message is shown. */
    var errorPassword: bool
    var errorPasswordConfirm: bool
    var showActivationModal: bool
    var activationCode: string
    var activationNotice: ActivationNotice
    var posts: seq<RegisterPost>
    var activations: seq<Activation>
    var navigations: seq<string>

    function State(): RegisterState
      reads this
    {
      RegisterState(form, passwordConfirm, userId, notice, errorPassword, errorPasswordConfirm,
                    showActivationModal, activationCode, activationNotice, posts, activations, navigations)
    }

    constructor ()
      ensures State() == RegisterState(EmptyForm, "", None, NoNotice, false, false, false, "",
                                       NoActivationNotice, [], [], [])
    {
      form, passwordConfirm, userId, notice := EmptyForm, "", None, NoNotice;
      errorPassword, errorPasswordConfirm, showActivationModal := false, false, false;
      activationCode, activationNotice := "", NoActivationNotice;
      posts, activations, navigations := [], [], [];
    }

    method TypeForm(f: Registration, confirm: string, code: string)
      modifies this
      ensures State() == old(State()).(form := f, passwordConfirm := confirm, activationCode := code)
    {
      form, passwordConfirm, activationCode := f, confirm, code;
    }

    /** The part of `handleSubmit` after both checks pass: the form is
      posted and the reply is shown, as `AfterRegister` states. */
    method Send(reply: RegisterReply)
      modifies this
      ensures State() == AfterRegister(old(State()), reply)
    {
      posts := posts + [RegisterPost(UsersUrl, form)];
      match reply
      case RegisterOk(Some(newUser)) =>
        userId := newUser.id;
        notice := Registered;
        showActivationModal := true;
        form := EmptyForm;
        passwordConfirm := "";
      case RegisterNotOk(errText) =>
        notice := RegisterFailed(errText);
      case _ =>
        notice := ConnectionFailed;
    }

    /** `handleSubmit`: every message is cleared, then both checks run and
      show their message when they fail; the form is posted only when both
      pass, and the reply is then shown as `AfterRegister` states. */
    method HandleSubmit(reply: RegisterReply)
      modifies this
      ensures var checked := old(State()).(
          errorPassword := !PasswordValid(old(form.password)),
          errorPasswordConfirm := !ConfirmValid(old(passwordConfirm), old(form.password)),
          notice := NoNotice, activationNotice := NoActivationNotice);
        State() == if PasswordValid(old(form.password)) && ConfirmValid(old(passwordConfirm), old(form.password))
                   then AfterRegister(checked, reply) else checked
    {
      errorPassword, errorPasswordConfirm := false, false;
      notice, activationNotice := NoNotice, NoActivationNotice;
      var isPasswordValid := PasswordValid(form.password);
      errorPassword := !isPasswordValid;
      var isPasswordConfirmValid := ConfirmValid(passwordConfirm, form.password);
      errorPasswordConfirm := !isPasswordConfirmValid;
      if isPasswordValid && isPasswordConfirmValid {
        Send(reply);
      }
    }

    /** `handleActivate`: without a (truthy) user id it shows that there is
      no user and sends nothing; otherwise it clears the message and sends
      the code to that user's verify URL. An OK reply closes the dialog and
      goes to the login page. */
    method HandleActivate(reply: ActivateReply)
      modifies this
      ensures old(userId).None? || old(userId).value == 0 ==>
        State() == old(State()).(activationNotice := NoUserToActivate)
      ensures old(userId).Some? && old(userId).value != 0 ==>
        var sent := old(activations) + [Activation(VerifyBase + IntToString(old(userId).value), old(activationCode))];
        State() == match reply
          case ActivateOk => old(State()).(activations := sent, activationNotice := Activated,
                                           showActivationModal := false, navigations := old(navigations) + [LoginPage])
          case ActivateNotOk(errText) => old(State()).(activations := sent, activationNotice := ActivationFailed(errText))
          case ActivateThrew => old(State()).(activations := sent, activationNotice := ActivationConnectionFailed)
    {
      if userId.None? || userId.value == 0 {
        activationNotice := NoUserToActivate;
        return;
      }
      activationNotice := NoActivationNotice;
      activations := activations + [Activation(VerifyBase + IntToString(userId.value), activationCode)];
      match reply
      case ActivateOk =>
        activationNotice := Activated;
        showActivationModal := false;
        navigations := navigations + [LoginPage];
      case ActivateNotOk(errText) =>
        activationNotice := ActivationFailed(errText);
      case ActivateThrew =>
        activationNotice := ActivationConnectionFailed;
    }
  }
}
