/** The administrators' sign-in page (`Auth`): its schema, the login and
    register modes, the submission and the messages its errors show. */
module SignIn {
  import opened Wrappers
  import opened Text
  import opened Zod
  import opened Platform

  /** The two inputs, as typed. */
  datatype Credentials = Credentials(email: string, password: string)

  // ---- authSchema ----

  const InvalidEmail := "Email inválido"
  const ShortPassword := "Senha deve ter no mínimo 6 caracteres"

  /** The email is trimmed before its checks; the password is not. */
  function CredentialIssues(c: Credentials, isEmail: string -> bool): seq<Message> {
    StringIssues(Trim(c.email), [Email(isEmail, Text(InvalidEmail)), MaxLength(255, TooBig(255))])
    + StringIssues(c.password, [MinLength(6, Text(ShortPassword)), MaxLength(100, TooBig(100))])
  }

  /** The conditions of `authSchema`, stated directly. */
  predicate AcceptableCredentials(c: Credentials, isEmail: string -> bool) {
    && isEmail(Trim(c.email)) && |Trim(c.email)| <= 255
    && 6 <= |c.password| <= 100
  }

  lemma CredentialIssuesIff(c: Credentials, isEmail: string -> bool)
    ensures CredentialIssues(c, isEmail) == [] <==> AcceptableCredentials(c, isEmail)
  {
    var email := StringIssues(Trim(c.email), [Email(isEmail, Text(InvalidEmail)), MaxLength(255, TooBig(255))]);
    var password := StringIssues(c.password, [MinLength(6, Text(ShortPassword)), MaxLength(100, TooBig(100))]);
    EmailAtMost(Trim(c.email), isEmail, 255, Text(InvalidEmail), TooBig(255));
    LengthBetween(c.password, 6, 100, Text(ShortPassword), TooBig(100));
    assert |email + password| == |email| + |password|;
  }

  /** `authSchema.parse({ email, password })`: accepts exactly the
      credentials meeting the schema and returns them with the email
      trimmed. */
  function ParseCredentials(c: Credentials, isEmail: string -> bool): (r: Parsed<Credentials>)
    ensures r.Valid? <==> AcceptableCredentials(c, isEmail)
    ensures r.Valid? ==> r.value == c.(email := Trim(c.email))
  {
    CredentialIssuesIff(c, isEmail);
    FirstIssue(CredentialIssues(c, isEmail), c.(email := Trim(c.email)))
  }

  /** Keys are checked in order: a password of four characters next to an
      acceptable email reports the password's message. */
  lemma ShortPasswordMessage(c: Credentials, isEmail: string -> bool)
    requires isEmail(Trim(c.email)) && |Trim(c.email)| <= 255
    requires |c.password| == 4
    ensures ParseCredentials(c, isEmail) == Invalid(Text(ShortPassword))
  {
    var email := StringIssues(Trim(c.email), [Email(isEmail, Text(InvalidEmail)), MaxLength(255, TooBig(255))]);
    var password := StringIssues(c.password, [MinLength(6, Text(ShortPassword)), MaxLength(100, TooBig(100))]);
    EmailAtMost(Trim(c.email), isEmail, 255, Text(InvalidEmail), TooBig(255));
    StringIssuesOfTwo(c.password, MinLength(6, Text(ShortPassword)), MaxLength(100, TooBig(100)));
    assert CredentialIssues(c, isEmail) == email + password;
    assert (email + password)[0] == password[0];
  }

  // ---- the error shown ----

  /** What `handleSubmit` catches: the schema's error, or the backend's. */
  datatype Failure = SchemaError(issue: Message) | ServiceError(message: string)

  const WrongCredentials := "Email ou senha incorretos"
  const AlreadyRegistered := "Este email já está cadastrado"
  const Generic := "Erro ao processar. Tente novamente."

  /** The `catch` block's cascade: the schema's first message, else a
      message picked by what the backend's message contains, in order. */
  function ErrorMessage(f: Failure): (m: Message)
    ensures f.SchemaError? ==> m == f.issue
    ensures f.ServiceError? ==> m in {Text(WrongCredentials), Text(AlreadyRegistered), Text(Generic)}
    ensures f.ServiceError? ==>
      (m == Text(WrongCredentials) <==> Contains(f.message, "Invalid login credentials"))
    ensures f.ServiceError? ==>
      (m == Text(AlreadyRegistered) <==>
         !Contains(f.message, "Invalid login credentials") && Contains(f.message, "User already registered"))
  {
    match f
    case SchemaError(issue) => issue
    case ServiceError(message) =>
      if Contains(message, "Invalid login credentials") then Text(WrongCredentials)
      else if Contains(message, "User already registered") then Text(AlreadyRegistered)
      else Text(Generic)
  }

  /** A backend message naming both errors gets the first one's text. */
  lemma BothErrorsNamed()
    ensures ErrorMessage(ServiceError("Invalid login credentials; User already registered"))
      == Text(WrongCredentials)
  {
    var message := "Invalid login credentials; User already registered";
    assert OccursAt(message, "Invalid login credentials", 0);
    ContainsIff(message, "Invalid login credentials");
  }

  // ---- the submission ----

  /** The page's state: the mode and the two inputs. */
  datatype Form = Form(isLogin: bool, email: string, password: string)

  /** What one submission does: its calls, the mode afterwards, the toast,
      where it navigates to, and the values `loading` takes in turn. */
  datatype SubmitRun = SubmitRun(
    calls: seq<Exchange<()>>, isLogin: bool, toast: Toast, navigateTo: Option<string>,
    loading: seq<bool>)

  const AdminPath := "/admin"

  /** `handleSubmit`, starting as the `n`-th call of the page; `origin` is
      `window.location.origin`. */
  function SubmitSpec(s: Form, isEmail: string -> bool, origin: string, env: Environment<()>, n: nat): SubmitRun {
    SubmitParsed(s, ParseCredentials(Credentials(s.email, s.password), isEmail), origin, env, n)
  }

  /** The rest of the submission once `parsed` is known. */
  function SubmitParsed(s: Form, parsed: Parsed<Credentials>, origin: string, env: Environment<()>, n: nat): SubmitRun {
    match parsed
    case Invalid(m) => SubmitRun([], s.isLogin, ErrorToast(ErrorMessage(SchemaError(m))), None, [false])
    case Valid(c) =>
      var request := if s.isLogin then SignInWithPassword(c.email, c.password)
                     else SignUp(c.email, c.password, origin + AdminPath);
      var call := Answer(env, n, request);
      if call.reply.Failed? then
        SubmitRun([call], s.isLogin, ErrorToast(ErrorMessage(ServiceError(call.reply.message))), None, [true, false])
      else if s.isLogin then
        SubmitRun([call], true, SuccessToast("Login realizado com sucesso!"), Some(AdminPath), [true, false])
      else
        SubmitRun([call], true, SuccessToast("Conta criada! Faça login para continuar."), None, [true, false])
  }

  /** Validation comes first: a rejected form makes no call, never sets
      `loading`, keeps the mode and shows the schema's first message. */
  lemma SubmitValidatesFirst(s: Form, parsed: Parsed<Credentials>, origin: string, env: Environment<()>, n: nat)
    ensures var run := SubmitParsed(s, parsed, origin, env, n);
      && (run.calls == [] <==> parsed.Invalid?)
      && (true in run.loading <==> parsed.Valid?)
      && (parsed.Invalid? ==>
            run.isLogin == s.isLogin && run.navigateTo == None
            && run.toast == ErrorToast(parsed.message))
  {
  }

  /** Registering with a four-character password makes no call and never
      sets `loading`. */
  lemma ShortPasswordMakesNoCall(s: Form, isEmail: string -> bool, origin: string, env: Environment<()>, n: nat)
    requires !s.isLogin && |s.password| == 4
    ensures SubmitSpec(s, isEmail, origin, env, n).calls == []
    ensures true !in SubmitSpec(s, isEmail, origin, env, n).loading
  {
    var parsed := ParseCredentials(Credentials(s.email, s.password), isEmail);
    assert parsed.Invalid?;
    SubmitValidatesFirst(s, parsed, origin, env, n);
  }

  /** An accepted form makes exactly one call: a sign-in in login mode, a
      sign-up redirecting to the admin page in register mode, each with the
      trimmed email and the password as typed. */
  lemma SubmitCallsMatchMode(s: Form, isEmail: string -> bool, origin: string, env: Environment<()>, n: nat)
    requires AcceptableCredentials(Credentials(s.email, s.password), isEmail)
    ensures var run := SubmitSpec(s, isEmail, origin, env, n);
      && |run.calls| == 1
      && var r := run.calls[0].request;
      && (s.isLogin ==> r == SignInWithPassword(Trim(s.email), s.password))
      && (!s.isLogin ==> r == SignUp(Trim(s.email), s.password, origin + "/admin"))
  {
  }

  /** How a submission ends: `loading` is false, a success in login mode
      goes to the admin page, a success in register mode switches to login
      mode, and a failure keeps the mode and shows the cascade's message. */
  lemma SubmitOutcome(s: Form, parsed: Parsed<Credentials>, origin: string, env: Environment<()>, n: nat)
    ensures var run := SubmitParsed(s, parsed, origin, env, n);
      var succeeded := run.calls != [] && run.calls[0].reply.Done?;
      && run.loading != [] && !run.loading[|run.loading| - 1]
      && (succeeded ==> run.isLogin && !run.toast.destructive)
      && (succeeded && s.isLogin <==> run.navigateTo == Some("/admin"))
      && (!succeeded ==> run.isLogin == s.isLogin && run.toast.destructive && run.navigateTo == None)
      && (run.calls != [] && run.calls[0].reply.Failed? ==>
            run.toast == ErrorToast(ErrorMessage(ServiceError(run.calls[0].reply.message))))
  {
  }

  /** The page's controller. */
  class AuthPage {
    var isLogin: bool
    var email: string
    var password: string
    var loading: bool
    var toasts: seq<Toast>
    var navigations: seq<string>
    /** Every value `setLoading` has given `loading`, in order. */
    ghost var loadingHistory: seq<bool>
    const service: Service<()>

    function State(): Form
      reads this
    {
      Form(isLogin, email, password)
    }

    /** The page opens in login mode with empty inputs. */
    constructor (service: Service<()>)
      ensures this.service == service
      ensures State() == Form(true, "", "") && !loading
      ensures toasts == [] && navigations == [] && loadingHistory == []
    {
      this.service := service;
      isLogin, email, password, loading := true, "", "", false;
      toasts, navigations, loadingHistory := [], [], [];
    }

    /** "Criar nova conta" / "Já tenho uma conta": flips the mode, so two
        clicks restore it. */
    method ToggleMode()
      modifies this
      ensures isLogin == !old(isLogin)
      ensures email == old(email) && password == old(password) && loading == old(loading)
      ensures toasts == old(toasts) && navigations == old(navigations)
      ensures loadingHistory == old(loadingHistory)
    {
      isLogin := !isLogin;
    }

    /** The inputs' `onChange`. */
    method SetInputs(email: string, password: string)
      modifies this
      ensures State() == old(State()).(email := email, password := password)
      ensures loading == old(loading) && toasts == old(toasts) && navigations == old(navigations)
      ensures loadingHistory == old(loadingHistory)
    {
      this.email, this.password := email, password;
    }

    method SetLoading(value: bool)
      modifies this
      ensures loading == value && loadingHistory == old(loadingHistory) + [value]
      ensures State() == old(State()) && toasts == old(toasts) && navigations == old(navigations)
    {
      loading := value;
      loadingHistory := loadingHistory + [value];
    }

    /** `handleSubmit`; `isEmail` is Zod's email pattern and `origin` the
        page's origin. */
    method Submit(isEmail: string -> bool, origin: string)
      modifies this, service
      ensures var run := SubmitSpec(old(State()), isEmail, origin, service.env, |old(service.log)|);
        && service.log == old(service.log) + run.calls
        && State() == old(State()).(isLogin := run.isLogin)
        && toasts == old(toasts) + [run.toast]
        && navigations == old(navigations) + (if run.navigateTo.Some? then [run.navigateTo.value] else [])
        && loadingHistory == old(loadingHistory) + run.loading
        && !loading
    {
      var parsed := ParseCredentials(Credentials(email, password), isEmail);
      SubmitWith(parsed, origin);
    }

    /** The body of the `try` once `authSchema.parse` has run, with its
        `catch` and `finally`. */
    method SubmitWith(parsed: Parsed<Credentials>, origin: string)
      modifies this, service
      ensures var run := SubmitParsed(old(State()), parsed, origin, service.env, |old(service.log)|);
        && service.log == old(service.log) + run.calls
        && State() == old(State()).(isLogin := run.isLogin)
        && toasts == old(toasts) + [run.toast]
        && navigations == old(navigations) + (if run.navigateTo.Some? then [run.navigateTo.value] else [])
        && loadingHistory == old(loadingHistory) + run.loading
        && !loading
    {
      if parsed.Invalid? {
        toasts := toasts + [ErrorToast(ErrorMessage(SchemaError(parsed.message)))];
        SetLoading(false);
        return;
      }
      SetLoading(true);
      var c := parsed.value;
      var reply: Reply;
      if isLogin {
        reply := service.Call(SignInWithPassword(c.email, c.password));
      } else {
        reply := service.Call(SignUp(c.email, c.password, origin + AdminPath));
      }
      if reply.Failed? {
        toasts := toasts + [ErrorToast(ErrorMessage(ServiceError(reply.message)))];
      } else if isLogin {
        toasts := toasts + [SuccessToast("Login realizado com sucesso!")];
        navigations := navigations + [AdminPath];
      } else {
        toasts := toasts + [SuccessToast("Conta criada! Faça login para continuar.")];
        isLogin := true;
      }
      SetLoading(false);
    }
  }
}
