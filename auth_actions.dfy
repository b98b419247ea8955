/** The sign-up and sign-in server actions and the status messages the
    login and sign-up pages show for the codes those actions put in the
    redirect URL. The identity provider's answer is a parameter: a
    predicate saying which calls it rejects. */
module AuthActions {
  import opened Wrappers

  const LoginPath: string := "/login"
  const SignupPath: string := "/cadastro"
  const FormPath: string := "/form"

  const InvalidCredentials: string := "invalid-credentials"
  const PasswordMismatch: string := "password-mismatch"
  const SignupError: string := "signup-error"
  const CheckEmail: string := "check-email"

  const InvalidCredentialsText: string := "Credenciais inválidas. Tente novamente."
  const CheckEmailText: string := "Cadastro realizado! Verifique seu e-mail para confirmar a conta."
  const PasswordMismatchText: string := "As senhas não conferem."
  const SignupErrorText: string := "Erro ao criar conta. Tente novamente."

  /** A redirect: the target path and the `message` query parameter. */
  datatype Redirect = Redirect(path: string, message: Option<string>)

  /** A form field read with `formData.get(...) as string` and placed in a
      template literal: a missing field prints as "null". */
  function Interpolate(field: Option<string>): (s: string)
    ensures field.Some? ==> s == field.value
    ensures field.None? ==> s == "null"
  {
    match field
    case None => "null"
    case Some(v) => v
  }

  /** The phone stored with the account: area code, then number. */
  function Phone(ddd: Option<string>, numero: Option<string>): string {
    Interpolate(ddd) + Interpolate(numero)
  }

  /** The phone splits back into the two fields it was built from, so
      nothing is inserted between or around them. */
  lemma PhoneSplitsBack(ddd: string, numero: string)
    ensures |Phone(Some(ddd), Some(numero))| == |ddd| + |numero|
    ensures Phone(Some(ddd), Some(numero))[..|ddd|] == ddd
    ensures Phone(Some(ddd), Some(numero))[|ddd|..] == numero
  {
    var phone := Phone(Some(ddd), Some(numero));
    assert phone == ddd + numero;
  }

  /** The sign-up request handed to the identity provider. */
  datatype SignUpCall = SignUpCall(email: Option<string>, password: Option<string>, phone: string)

  /** What `signup` did: the call it made, if any, and where it redirects. */
  datatype SignupResult = SignupResult(call: Option<SignUpCall>, redirect: Redirect)

  /** `signup`: mismatching passwords redirect back at once without any
      call; otherwise the account is requested with the built phone, and a
      rejection or a success decides the redirect. The comparison is the
      strict one, so two missing fields count as matching. */
  function Signup(email: Option<string>, password: Option<string>, confirmPassword: Option<string>,
                  ddd: Option<string>, numero: Option<string>, rejects: SignUpCall -> bool): (r: SignupResult)
    ensures r.call.None? <==> password != confirmPassword
    ensures r.call.None? ==> r.redirect == Redirect(SignupPath, Some(PasswordMismatch))
    ensures r.call.Some? ==> r.call.value == SignUpCall(email, password, Phone(ddd, numero))
    ensures r.call.Some? && rejects(r.call.value) ==> r.redirect == Redirect(SignupPath, Some(SignupError))
    ensures r.call.Some? && !rejects(r.call.value) ==> r.redirect == Redirect(LoginPath, Some(CheckEmail))
  {
    if password != confirmPassword then
      SignupResult(None, Redirect(SignupPath, Some(PasswordMismatch)))
    else
      var call := SignUpCall(email, password, Phone(ddd, numero));
      if rejects(call) then SignupResult(Some(call), Redirect(SignupPath, Some(SignupError)))
      else SignupResult(Some(call), Redirect(LoginPath, Some(CheckEmail)))
  }

  /** The sign-in request handed to the identity provider. */
  datatype SignInCall = SignInCall(email: Option<string>, password: Option<string>)

  /** `login`: a rejected sign-in goes back to the login page with a
      message; an accepted one goes to the wizard. */
  function Login(email: Option<string>, password: Option<string>, rejects: SignInCall -> bool): (r: Redirect)
    ensures r.path == FormPath <==> !rejects(SignInCall(email, password))
    ensures r.message.Some? <==> rejects(SignInCall(email, password))
    ensures r.message.Some? ==> r == Redirect(LoginPath, Some(InvalidCredentials))
  {
    if rejects(SignInCall(email, password)) then Redirect(LoginPath, Some(InvalidCredentials))
    else Redirect(FormPath, None)
  }

  /** The login page's message box: absent unless `message` is a non-empty
      string; inside, the text of the code it names (an unknown code gives
      an empty box). The page tests each code on its own, and the codes are
      distinct, so at most one text appears. */
  function LoginPageMessage(message: Option<string>): (box: Option<string>)
    ensures box.Some? <==> message.Some? && message.value != ""
    ensures box == Some(InvalidCredentialsText) <==> message == Some(InvalidCredentials)
    ensures box == Some(CheckEmailText) <==> message == Some(CheckEmail)
  {
    if message.None? || message.value == "" then None
    else
      Some(if message.value == InvalidCredentials then InvalidCredentialsText
           else if message.value == CheckEmail then CheckEmailText
           else "")
  }

  /** The sign-up page's message box, the same way with its two codes. */
  function SignupPageMessage(message: Option<string>): (box: Option<string>)
    ensures box.Some? <==> message.Some? && message.value != ""
    ensures box == Some(PasswordMismatchText) <==> message == Some(PasswordMismatch)
    ensures box == Some(SignupErrorText) <==> message == Some(SignupError)
  {
    if message.None? || message.value == "" then None
    else
      Some(if message.value == PasswordMismatch then PasswordMismatchText
           else if message.value == SignupError then SignupErrorText
           else "")
  }

  /** The message box a redirect's target page shows. */
  function MessageShown(r: Redirect): Option<string> {
    if r.path == LoginPath then LoginPageMessage(r.message)
    else if r.path == SignupPath then SignupPageMessage(r.message)
    else None
  }

  /** Every redirect the two actions produce with a message lands on a page
      that shows a non-empty text for it; the success redirect of `login`
      carries no message. */
  lemma EveryMessageIsShown(email: Option<string>, password: Option<string>, confirmPassword: Option<string>,
                            ddd: Option<string>, numero: Option<string>,
                            signUpRejects: SignUpCall -> bool, signInRejects: SignInCall -> bool)
    ensures MessageShown(Signup(email, password, confirmPassword, ddd, numero, signUpRejects).redirect).Some?
    ensures MessageShown(Signup(email, password, confirmPassword, ddd, numero, signUpRejects).redirect).value != ""
    ensures Login(email, password, signInRejects).message.Some? ==>
      MessageShown(Login(email, password, signInRejects)).Some? &&
      MessageShown(Login(email, password, signInRejects)).value != ""
    ensures Login(email, password, signInRejects).message.None? ==> Login(email, password, signInRejects).path == FormPath
  {
  }
}
