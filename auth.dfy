/**
 * The login and registration page: the registration form's validation, the
 * request it sends, which login failures it keeps, and how it reads the
 * reason, date and duration out of a ban message.
 */
module Auth {

  import opened Wrappers
  import opened Roles
  import opened Text

  /** `String.prototype.length`: UTF-16 code units, two for a code point beyond the Basic Multilingual Plane. */
  function JsLength(s: string): (n: nat)
    ensures |s| <= n <= 2 * |s|
    ensures (forall i :: 0 <= i < |s| ==> s[i] as int <= 0xFFFF) ==> n == |s|
  {
    if s == [] then 0 else (if s[0] as int > 0xFFFF then 2 else 1) + JsLength(s[1..])
  }

  /** Lengths add up over a concatenation: one unit per character, two for an astral one. */
  lemma {:induction false} JsLengthAppend(a: string, b: string)
    ensures JsLength(a + b) == JsLength(a) + JsLength(b)
    ensures JsLength([]) == 0
    ensures forall c: char :: JsLength([c]) == if c as int > 0xFFFF then 2 else 1
  {
    if a != [] {
      assert (a + b)[1..] == a[1..] + b;
      JsLengthAppend(a[1..], b);
    } else {
      assert a + b == b;
    }
    forall c: char ensures JsLength([c]) == if c as int > 0xFFFF then 2 else 1 {
      assert [c][1..] == [];
    }
  }

  /** The registration form's four fields. */
  datatype Field = Username | DisplayName | Password | ConfirmPassword

  datatype RegisterForm = RegisterForm(username: string, displayName: string, password: string, confirmPassword: string)

  /** A validation issue: the field it is reported on and its message. */
  datatype Issue = Issue(field: Field, message: string)

  const UsernameTooShort := "Логин должен содержать минимум 3 символа"
  const DisplayNameTooShort := "Имя должно содержать минимум 2 символа"
  const PasswordTooShort := "Пароль должен содержать минимум 6 символов"
  const PasswordsDiffer := "Пароли не совпадают"

  /**
   * `extendedRegisterSchema`: the length minimums in field order, then the
   * refinement, which still runs when a minimum failed (those issues do not
   * abort the object), reported on `confirmPassword`.
   */
  function Validate(form: RegisterForm): (issues: seq<Issue>)
  {
    (if JsLength(form.username) < 3 then [Issue(Username, UsernameTooShort)] else [])
    + (if JsLength(form.displayName) < 2 then [Issue(DisplayName, DisplayNameTooShort)] else [])
    + (if JsLength(form.password) < 6 then [Issue(Password, PasswordTooShort)] else [])
    + (if JsLength(form.confirmPassword) < 6 then [Issue(ConfirmPassword, PasswordTooShort)] else [])
    + (if form.password != form.confirmPassword then [Issue(ConfirmPassword, PasswordsDiffer)] else [])
  }

  /** The form passes exactly when every minimum is met and the two passwords agree. */
  lemma ValidIff(form: RegisterForm)
    ensures Validate(form) == [] <==>
      JsLength(form.username) >= 3 && JsLength(form.displayName) >= 2 &&
      JsLength(form.password) >= 6 && JsLength(form.confirmPassword) >= 6 &&
      form.password == form.confirmPassword
    ensures Issue(ConfirmPassword, PasswordsDiffer) in Validate(form) <==> form.password != form.confirmPassword
    ensures forall i :: 0 <= i < |Validate(form)| ==>
      (Validate(form)[i].message != PasswordsDiffer || Validate(form)[i].field == ConfirmPassword)
  {
  }

  /** The message the form shows under a field: the first issue reported on it. */
  function FieldError(issues: seq<Issue>, field: Field): (r: Option<string>)
    ensures r.None? <==> forall i :: 0 <= i < |issues| ==> issues[i].field != field
    ensures r.Some? ==> Issue(field, r.value) in issues
  {
    if issues == [] then None
    else if issues[0].field == field then Some(issues[0].message)
    else FieldError(issues[1..], field)
  }

  /**
   * Under `confirmPassword` a too-short confirmation is reported before a
   * mismatch; a long enough confirmation that differs shows the mismatch.
   */
  lemma ConfirmFieldError(form: RegisterForm)
    ensures JsLength(form.confirmPassword) < 6 ==>
      FieldError(Validate(form), ConfirmPassword) == Some(PasswordTooShort)
    ensures JsLength(form.confirmPassword) >= 6 && form.password != form.confirmPassword ==>
      FieldError(Validate(form), ConfirmPassword) == Some(PasswordsDiffer)
    ensures JsLength(form.confirmPassword) >= 6 && form.password == form.confirmPassword ==>
      FieldError(Validate(form), ConfirmPassword) == None
  {
    var a := (if JsLength(form.username) < 3 then [Issue(Username, UsernameTooShort)] else [])
      + (if JsLength(form.displayName) < 2 then [Issue(DisplayName, DisplayNameTooShort)] else [])
      + (if JsLength(form.password) < 6 then [Issue(Password, PasswordTooShort)] else []);
    var b := (if JsLength(form.confirmPassword) < 6 then [Issue(ConfirmPassword, PasswordTooShort)] else [])
      + (if form.password != form.confirmPassword then [Issue(ConfirmPassword, PasswordsDiffer)] else []);
    assert Validate(form) == a + b;
    FieldErrorSkip(a, b, ConfirmPassword);
  }

  /** Issues on other fields in front do not change a field's first issue. */
  lemma {:induction false} FieldErrorSkip(a: seq<Issue>, b: seq<Issue>, field: Field)
    requires forall i :: 0 <= i < |a| ==> a[i].field != field
    ensures FieldError(a + b, field) == FieldError(b, field)
  {
    if a != [] {
      assert (a + b)[0] == a[0];
      assert (a + b)[1..] == a[1..] + b;
      FieldErrorSkip(a[1..], b, field);
    } else {
      assert a + b == b;
    }
  }

  /** What `handleRegister` sends: the form without `confirmPassword`. */
  datatype RegisterRequest = RegisterRequest(username: string, displayName: string, password: string)

  /** The form is submitted only once it validates; the request then carries the three kept fields. */
  function SubmitRegister(form: RegisterForm): (r: Option<RegisterRequest>)
    ensures r.Some? <==> Validate(form) == []
  {
    if Validate(form) == [] then Some(RegisterRequest(form.username, form.displayName, form.password)) else None
  }

  /** A submitted request's password is the confirmed one and meets the minimum; the other fields are the form's. */
  lemma SubmittedRequest(form: RegisterForm)
    ensures SubmitRegister(form).Some? ==>
      SubmitRegister(form).value.password == form.confirmPassword &&
      JsLength(SubmitRegister(form).value.password) >= 6 &&
      JsLength(SubmitRegister(form).value.username) >= 3 &&
      SubmitRegister(form).value.username == form.username &&
      SubmitRegister(form).value.displayName == form.displayName
  {
    ValidIff(form);
  }

  /**
   * `loginError` once `handleLogin` settles: cleared first, then set to the
   * failure's message only when that message mentions "blocked". `failure`
   * is `None` when the login succeeds.
   */
  function LoginError(failure: Option<string>): (r: Option<string>)
    ensures r.Some? <==> failure.Some? && Includes(failure.value, "blocked")
    ensures r.Some? ==> r == failure
  {
    match failure
    case None => None
    case Some(message) => if Includes(message, "blocked") then Some(message) else None
  }

  /** `registerError` once `handleRegister` settles: every failure's message is kept. */
  function RegisterError(failure: Option<string>): (r: Option<string>)
    ensures r == failure
  {
    match failure
    case None => None
    case Some(message) => Some(message)
  }

  /** `s.split(key)[1].split(",")[0].trim()`, the text after the first `key` up to the next comma. */
  function CommaField(s: string, key: string): (r: string)
    requires |key| > 0 && Includes(s, key)
    ensures Trimmed(r)
  {
    var after := SplitSecond(s, key).value;
    TrimShape(SplitHead(after, ","));
    Trim(SplitHead(after, ","))
  }

  /** The reason shown for a ban. */
  function BanReason(message: string): (r: string)
    ensures !Includes(message, "Reason:") ==> r == "Нарушение правил сайта"
  {
    if Includes(message, "Reason:") then CommaField(message, "Reason:") else "Нарушение правил сайта"
  }

  /** The ban date shown; without one the page shows today's date, given here as `today`. */
  function BanDate(message: string, today: string): (r: string)
    ensures !Includes(message, "Date:") ==> r == today
  {
    if Includes(message, "Date:") then CommaField(message, "Date:") else today
  }

  /** The ban duration shown: everything after the key, commas included, trimmed. */
  function BanDuration(message: string): (r: string)
    ensures !Includes(message, "Duration:") ==> r == "Бессрочно"
    ensures Includes(message, "Duration:") ==> Trimmed(r)
  {
    if Includes(message, "Duration:") then
      var after := SplitSecond(message, "Duration:").value;
      TrimShape(after);
      Trim(after)
    else "Бессрочно"
  }

  /**
   * A field written as `key`, padding, a value, padding and a comma reads
   * back as the value, whatever follows, when no earlier text holds the key,
   * the padded value holds neither the key nor a comma, and the rest holds
   * no further key.
   */
  lemma CommaFieldRoundTrip(pre: string, key: string, a: string, v: string, b: string, rest: string)
    requires LastCharUnique(key) && ',' !in key
    requires !Includes(pre, key) && !Includes(a + v + b, key) && !Includes(rest, key)
    requires AllSpace(a) && AllSpace(b) && Trimmed(v) && !Includes(a + v + b, ",")
    ensures Includes(pre + key + (a + v + b + "," + rest), key)
    ensures CommaField(pre + key + (a + v + b + "," + rest), key) == v
  {
    var tail := a + v + b + "," + rest;
    assert a + v + b + "," + rest == (a + v + b) + [','] + rest;
    FirstOccurrence(pre, key, tail);
    IncludesInfix(pre, key, tail);
    NoOccurrenceAcross(a + v + b, ',', rest, key);
    assert SplitHead(tail, key) == tail;
    assert "," == [','];
    FirstOccurrence(a + v + b, ",", rest);
    TrimPadded(a, v, b);
  }

  /** The reason written after "Reason:" and before the next comma reads back as written. */
  lemma BanReasonRoundTrip(pre: string, a: string, reason: string, b: string, rest: string)
    requires !Includes(pre, "Reason:") && !Includes(a + reason + b, "Reason:") && !Includes(rest, "Reason:")
    requires AllSpace(a) && AllSpace(b) && Trimmed(reason) && !Includes(a + reason + b, ",")
    ensures BanReason(pre + "Reason:" + (a + reason + b + "," + rest)) == reason
  {
    CommaFieldRoundTrip(pre, "Reason:", a, reason, b, rest);
  }

  /** The date written after "Date:" and before the next comma reads back as written. */
  lemma BanDateRoundTrip(pre: string, a: string, date: string, b: string, rest: string, today: string)
    requires !Includes(pre, "Date:") && !Includes(a + date + b, "Date:") && !Includes(rest, "Date:")
    requires AllSpace(a) && AllSpace(b) && Trimmed(date) && !Includes(a + date + b, ",")
    ensures BanDate(pre + "Date:" + (a + date + b + "," + rest), today) == date
  {
    CommaFieldRoundTrip(pre, "Date:", a, date, b, rest);
  }

  /** The duration written after "Duration:" reads back whole, commas and all. */
  lemma BanDurationRoundTrip(pre: string, a: string, duration: string, b: string)
    requires !Includes(pre, "Duration:") && !Includes(a + duration + b, "Duration:")
    requires AllSpace(a) && AllSpace(b) && Trimmed(duration)
    ensures BanDuration(pre + "Duration:" + (a + duration + b)) == duration
  {
    var tail := a + duration + b;
    FirstOccurrence(pre, "Duration:", tail);
    IncludesInfix(pre, "Duration:", tail);
    TrimPadded(a, duration, b);
  }

  /** The ban panel's three lines. */
  datatype BanPanel = BanPanel(reason: string, date: string, duration: string)

  /**
   * What the page shows: nothing but a redirect home for a signed-in user,
   * else the forms, maybe the ban panel over the login form, and maybe the
   * register tab's error box.
   */
  datatype AuthView = GoHome | Forms(panel: Option<BanPanel>, registerNotice: Option<string>)

  /** `{text && ...}`: a present, non-empty text. */
  predicate Shown(text: Option<string>)
  {
    text.Some? && text.value != ""
  }

  function View(user: Option<User>, loginError: Option<string>, registerError: Option<string>, today: string)
    : (v: AuthView)
    ensures user.Some? <==> v == GoHome
    ensures v.Forms? ==> (v.panel.Some? <==> Shown(loginError))
    ensures v.Forms? ==> v.registerNotice == if Shown(registerError) then registerError else None
  {
    if user.Some? then GoHome
    else
      var panel := if Shown(loginError)
        then Some(BanPanel(BanReason(loginError.value), BanDate(loginError.value, today), BanDuration(loginError.value)))
        else None;
      Forms(panel, if Shown(registerError) then registerError else None)
  }

  /** The ban panel appears after a login failure exactly when its message mentions "blocked". */
  lemma PanelOnlyWhenBlocked(failure: Option<string>, registerError: Option<string>, today: string)
    ensures View(None, LoginError(failure), registerError, today).panel.Some? <==>
      failure.Some? && Includes(failure.value, "blocked")
  {
    if failure.Some? && Includes(failure.value, "blocked") {
      var m := failure.value;
      assert |m| > 0 by {
        var i := IndexOf(m, "blocked");
      }
    }
  }

  /**
   * Unlike a login failure, every registration failure with a message is
   * shown, word for word, in the register tab, whatever the login side holds;
   * a successful registration shows no error box.
   */
  lemma RegisterFailureShown(failure: Option<string>, loginError: Option<string>, today: string)
    ensures failure.Some? && failure.value != "" ==>
      View(None, loginError, RegisterError(failure), today).registerNotice == failure
    ensures failure.None? ==> View(None, loginError, RegisterError(failure), today).registerNotice.None?
  {
  }
}
