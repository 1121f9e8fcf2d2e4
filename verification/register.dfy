/** The registration form: a four-field record edited one field at a time,
    and a submit handler that refuses mismatched passwords locally, posts the
    record otherwise, and turns an error answer into one message. */
module RegisterForm {
  import opened Wrappers

  const UsersPath: string := "/auth/users/"
  const LoginRoute: string := "/login"
  const MismatchMessage: string := "Пароли не совпадают"
  const GenericMessage: string := "Ошибка регистрации"
  const ConnectionMessage: string := "Ошибка соединения с сервером"
  const WelcomeMessage: string := "Регистрация прошла успешно! Теперь вы можете войти."

  datatype RegisterData = RegisterData(username: string, email: string, password: string, rePassword: string)

  /** The form's input names. */
  datatype Field = Username | Email | Password | RePassword

  function Get(d: RegisterData, f: Field): string {
    match f
    case Username => d.username
    case Email => d.email
    case Password => d.password
    case RePassword => d.rePassword
  }

  /** `handleChange`: the named input takes the typed value, the other three
      keep theirs. */
  function Change(d: RegisterData, f: Field, value: string): (r: RegisterData)
    ensures Get(r, f) == value
    ensures forall g: Field :: g != f ==> Get(r, g) == Get(d, g)
  {
    match f
    case Username => d.(username := value)
    case Email => d.(email := value)
    case Password => d.(password := value)
    case RePassword => d.(rePassword := value)
  }

  /** A value under one key of an error body: a list of messages, as the
      user endpoint sends per field, or anything else. */
  datatype ErrorValue = Messages(items: seq<string>) | Scalar(text: string)

  /** An error answer's body: an object with its keys in enumeration order,
      or plain text. */
  datatype ErrorBody = Fields(entries: seq<(string, ErrorValue)>) | Text(content: string)

  /** How the post failed: no answer at all, or an answer with a body (none
      when the body is missing). */
  datatype Failure = NoAnswer | Answer(body: Option<ErrorBody>)

  /** JavaScript truthiness of `err.response?.data`: any object is truthy,
      a string only when it is not empty. */
  predicate HasBody(f: Failure) {
    f.Answer? && f.body.Some? && (f.body.value.Fields? || f.body.value.content != "")
  }

  /** `Object.values(data)[0]`, then its first element when it is an array.
      None stands for `undefined`, which an empty first list yields. */
  function FirstErrorMessage(body: ErrorBody): (m: Option<string>)
    ensures body.Fields? && |body.entries| > 0 && body.entries[0].1.Messages? ==>
      m == (if |body.entries[0].1.items| > 0 then Some(body.entries[0].1.items[0]) else None)
    ensures !(body.Fields? && |body.entries| > 0 && body.entries[0].1.Messages?) ==> m == Some(GenericMessage)
  {
    match body
    case Fields(entries) =>
      if |entries| > 0 && entries[0].1.Messages? then
        var items := entries[0].1.items;
        if |items| > 0 then Some(items[0]) else None
      else Some(GenericMessage)
    case Text(_) => Some(GenericMessage)
  }

  /** The message shown after a failed post. */
  function FailureMessage(f: Failure): (m: Option<string>)
    ensures !HasBody(f) ==> m == Some(ConnectionMessage)
    ensures HasBody(f) ==> m == FirstErrorMessage(f.body.value)
  {
    if HasBody(f) then FirstErrorMessage(f.body.value) else Some(ConnectionMessage)
  }

  datatype Navigation = Navigation(route: string, message: string)

  /** The form after a submit: the error shown (None for `undefined`), the
      loading flag, the body posted if any, and the navigation made if any. */
  datatype Submitted = Submitted(error: Option<string>, loading: bool, posted: Option<RegisterData>, navigation: Option<Navigation>)

  /** `handleSubmit`, with the post's result as a parameter (None for
      success). */
  function Submit(d: RegisterData, result: Option<Failure>): (r: Submitted)
    ensures !r.loading
    ensures r.posted.Some? <==> d.password == d.rePassword
    ensures r.posted.Some? ==> r.posted.value == d
    ensures r.navigation.Some? <==> d.password == d.rePassword && result.None?
    ensures r.navigation.Some? ==> r.navigation.value == Navigation(LoginRoute, WelcomeMessage) && r.error == Some("")
  {
    if d.password != d.rePassword then Submitted(Some(MismatchMessage), false, None, None)
    else match result
      case None => Submitted(Some(""), false, Some(d), Some(Navigation(LoginRoute, WelcomeMessage)))
      case Some(f) => Submitted(FailureMessage(f), false, Some(d), None)
  }

  /** Mismatched passwords: the mismatch message and nothing sent, whatever
      the server would have answered. */
  lemma MismatchSendsNothing(d: RegisterData, result: Option<Failure>)
    requires d.password != d.rePassword
    ensures Submit(d, result) == Submitted(Some(MismatchMessage), false, None, None)
  {
  }

  /** The first message of the first field of a field-keyed error body is
      shown, whatever the other fields hold. */
  lemma FieldErrorShown(d: RegisterData, key: string, message: string, more: seq<string>, rest: seq<(string, ErrorValue)>)
    requires d.password == d.rePassword
    ensures Submit(d, Some(Answer(Some(Fields([(key, Messages([message] + more))] + rest))))).error == Some(message)
  {
    var entries := [(key, Messages([message] + more))] + rest;
    assert entries[0].1.items[0] == message;
  }

  /** Editing one field changes the mismatch verdict only through the two
      password inputs. */
  lemma ChangeKeepsMatch(d: RegisterData, f: Field, value: string)
    requires f == Username || f == Email
    ensures var e := Change(d, f, value); (e.password == e.rePassword) <==> (d.password == d.rePassword)
  {
    assert Get(Change(d, f, value), Password) == d.password;
    assert Get(Change(d, f, value), RePassword) == d.rePassword;
  }
}
