/** The sign-in and registration page: the validators of both forms, the
    error text of a control, the birth-date bounds, the login and register
    handlers and the panel switch. */
module AuthComponent {
  import opened Common
  import opened Text
  import opened Forms
  import opened HttpErrors
  import opened Storage
  import opened Auth

  /** A letter of the name pattern: `[a-zA-ZÀ-ÿñÑ]`. The range À-ÿ
      (U+00C0 to U+00FF) already holds ñ and Ñ, and also × and ÷. */
  predicate NameChar(c: char) {
    'a' <= c <= 'z' || 'A' <= c <= 'Z' || '\U{C0}' <= c <= '\U{FF}'
  }

  /** The automaton of `^L+( L+)*$` with L a name letter: `inWord` says the
      last character read was a letter. */
  predicate NombreScan(s: string, inWord: bool) {
    if s == [] then inWord
    else if NameChar(s[0]) then NombreScan(s[1..], true)
    else if s[0] == ' ' && inWord then NombreScan(s[1..], false)
    else false
  }

  /** Letters and single spaces, not at either end. */
  predicate Words(s: string) {
    && s != []
    && (forall i :: 0 <= i < |s| ==> NameChar(s[i]) || s[i] == ' ')
    && s[0] != ' ' && s[|s| - 1] != ' '
    && (forall i :: 0 <= i < |s| - 1 ==> !(s[i] == ' ' && s[i + 1] == ' '))
  }

  lemma {:induction false} NombreScanIff(s: string, inWord: bool)
    ensures NombreScan(s, inWord) <==>
              && (s == [] ==> inWord)
              && (forall i :: 0 <= i < |s| ==> NameChar(s[i]) || s[i] == ' ')
              && (s != [] ==> s[|s| - 1] != ' ')
              && (s != [] && !inWord ==> s[0] != ' ')
              && (forall i :: 0 <= i < |s| - 1 ==> !(s[i] == ' ' && s[i + 1] == ' '))
  {
    if s != [] {
      var t := s[1..];
      NombreScanIff(t, NameChar(s[0]));
      assert forall i :: 0 <= i < |t| ==> t[i] == s[i + 1];
      if t != [] {
        assert s[|s| - 1] == t[|t| - 1];
      }
    }
  }

  /** The name pattern accepts exactly the words of letters separated by
      single spaces. */
  function NombreMatches(s: string): (b: bool)
    ensures b <==> Words(s)
  {
    NombreScanIff(s, false);
    NombreScan(s, false)
  }

  /** `^[0-9]{6,15}$`. */
  predicate TelefonoMatches(s: string) {
    6 <= |s| <= 15 && AllDigits(s)
  }

  predicate HasChar(s: string, p: char -> bool) {
    exists i :: 0 <= i < |s| && p(s[i])
  }

  predicate PasswordSymbol(c: char) {
    c in "!\U{A1}*@$%^&+=._-"
  }

  /** `^(?=.*[0-9])(?=.*[a-z])(?=.*[A-Z])(?=.*[!¡*@$%^&+=._-])(?=\S+$).{8,}$`:
      eight UTF-16 code units or more (the expression has no `u` flag, so `.`
      reads code units and a character above U+FFFF counts twice), none of
      them white space, with a digit, a lower-case letter, an upper-case
      letter and a symbol of the list. */
  predicate PasswordMatches(s: string) {
    && Utf16Length(s) >= 8
    && (forall i :: 0 <= i < |s| ==> !IsJsWhitespace(s[i]))
    && HasChar(s, IsDigit)
    && HasChar(s, c => 'a' <= c <= 'z')
    && HasChar(s, c => 'A' <= c <= 'Z')
    && HasChar(s, PasswordSymbol)
  }

  /** The errors a control can carry. */
  datatype Errors = Errors(required: bool, pattern: bool, minlength: bool, email: bool)

  const NoErrors := Errors(false, false, false, false)

  function NombreErrors(v: string): Errors {
    Errors(RequiredError(v), PatternError(v, NombreMatches(v)), MinLengthError(v, 2), false)
  }

  function TelefonoErrors(v: string): Errors {
    Errors(RequiredError(v), PatternError(v, TelefonoMatches(v)), false, false)
  }

  function PasswordErrors(v: string): Errors {
    Errors(RequiredError(v), PatternError(v, PasswordMatches(v)), false, false)
  }

  /** `isAddress` is the verdict of Angular's address expression on `v`. */
  function EmailErrors(v: string, isAddress: bool): Errors {
    Errors(RequiredError(v), false, false, EmailError(v, isAddress))
  }

  function RequiredOnly(v: string): Errors {
    Errors(RequiredError(v), false, false, false)
  }

  /** `getErrorMessage(control)`: each later test overwrites the message, so
      the priority is email, then minimum length, then pattern, then required. */
  function ErrorMessage(e: Errors): (message: string)
    ensures e.email ==> message == "introduzca un email válido"
    ensures !e.email && e.minlength ==> message == "Demasiado corto"
    ensures !e.email && !e.minlength && e.pattern ==> message == "Formato incorrecto"
    ensures !e.email && !e.minlength && !e.pattern && e.required ==> message == "Este campo es obligatorio"
    ensures message == "" <==> e == NoErrors
  {
    var m1 := if e.required then "Este campo es obligatorio" else "";
    var m2 := if e.pattern then "Formato incorrecto" else m1;
    var m3 := if e.minlength then "Demasiado corto" else m2;
    if e.email then "introduzca un email válido" else m3
  }

  /** On the name control: empty asks for a value, a single code unit is too
      short, and a longer value is checked against the pattern. */
  lemma NombreMessage(v: string)
    ensures ErrorMessage(NombreErrors(v)) ==
              if v == "" then "Este campo es obligatorio"
              else if Utf16Length(v) < 2 then "Demasiado corto"
              else if !Words(v) then "Formato incorrecto"
              else ""
  {
  }

  /** A character above U+FFFF counts as two code units: two of them bring a
      six-character password to the required length, and one alone is long
      enough for the name control, which then reports the format. */
  lemma AstralCharactersCountTwice()
    ensures PasswordMatches("Aa1!\U{1F600}\U{1F600}")
    ensures ErrorMessage(NombreErrors("\U{1F600}")) == "Formato incorrecto"
  {
    var p := "Aa1!\U{1F600}\U{1F600}";
    assert IsDigit(p[2]) && 'a' <= p[1] <= 'z' && 'A' <= p[0] <= 'Z' && PasswordSymbol(p[3]);
    assert !InBmp(p[4]) && !InBmp(p[5]);
    assert !NameChar("\U{1F600}"[0]);
  }

  datatype RegisterForm = RegisterForm(
    nombre: string,
    apellidos: string,
    fechanacimiento: string,
    telefono: string,
    email: string,
    password: string,
    bailerol: string)

  datatype LoginForm = LoginForm(email: string, password: string)

  /** The registration form is valid when no control has an error. */
  function RegisterValid(f: RegisterForm, isAddress: bool): (b: bool)
    ensures b <==>
              && |f.nombre| >= 2 && Words(f.nombre)
              && f.apellidos != "" && f.fechanacimiento != "" && f.bailerol != ""
              && TelefonoMatches(f.telefono)
              && f.email != "" && isAddress
              && PasswordMatches(f.password)
  {
    && NombreErrors(f.nombre) == NoErrors
    && RequiredOnly(f.apellidos) == NoErrors
    && RequiredOnly(f.fechanacimiento) == NoErrors
    && TelefonoErrors(f.telefono) == NoErrors
    && EmailErrors(f.email, isAddress) == NoErrors
    && PasswordErrors(f.password) == NoErrors
    && RequiredOnly(f.bailerol) == NoErrors
  }

  /** The login form is valid when both fields are filled and the address is
      well formed. */
  function LoginValid(f: LoginForm, isAddress: bool): (b: bool)
    ensures b <==> f.email != "" && isAddress && f.password != ""
  {
    EmailErrors(f.email, isAddress) == NoErrors && RequiredOnly(f.password) == NoErrors
  }

  /** Once the country code is put in front, the phone control no longer
      matches its own pattern: the code starts with '+'. */
  lemma PrefixedPhoneFailsPattern(code: string, digits: string)
    requires code != [] && code[0] == '+'
    ensures !TelefonoMatches(code + digits)
  {
    assert (code + digits)[0] == '+';
  }

  /** A calendar day as `new Date(year, monthIndex, day)` builds it; month 0
      is January. */
  datatype CalendarDate = CalendarDate(year: int, monthIndex: nat, day: nat)

  predicate Before(a: CalendarDate, b: CalendarDate) {
    a.year < b.year
    || (a.year == b.year && a.monthIndex < b.monthIndex)
    || (a.year == b.year && a.monthIndex == b.monthIndex && a.day < b.day)
  }

  /** `new Date(y, ...)` reads a year from 0 to 99 as 1900 + y. */
  function JsYear(y: int): (r: int)
    ensures 0 <= y <= 99 ==> r == 1900 + y
    ensures (y < 0 || y > 99) ==> r == y
  {
    if 0 <= y <= 99 then 1900 + y else y
  }

  /** The earliest birth date: 1 January, seventy years back. */
  function MinDate(currentYear: int): CalendarDate {
    CalendarDate(JsYear(currentYear - 70), 0, 1)
  }

  /** The latest birth date: 31 December, thirteen years back. */
  function MaxDate(currentYear: int): CalendarDate {
    CalendarDate(JsYear(currentYear - 13), 11, 31)
  }

  /** For any current year from 170 on the earliest date comes first. Below
      that, the two-digit year rule can push the earliest year past the
      latest. */
  lemma MinBeforeMax(currentYear: int)
    ensures currentYear >= 170 ==>
              && MinDate(currentYear) == CalendarDate(currentYear - 70, 0, 1)
              && MaxDate(currentYear) == CalendarDate(currentYear - 13, 11, 31)
              && Before(MinDate(currentYear), MaxDate(currentYear))
    ensures !Before(MinDate(120), MaxDate(120))
  {
  }

  /** The registration form as `handleRegister` sends it, or None when
      `toISOString` throws on the adjusted birth date (`adjust` returns None):
      the date, when there is one, is shifted to local time and cut to
      YYYY-MM-DD, and the country code goes in front of the phone. */
  function PreparedRegistration(f: RegisterForm, code: string, adjust: string -> Option<string>)
    : (r: Option<RegisterForm>)
    ensures r.None? <==> f.fechanacimiento != "" && adjust(f.fechanacimiento).None?
    ensures r.Some? ==>
              && r.value.telefono == code + f.telefono
              && r.value.fechanacimiento
                 == (if f.fechanacimiento == "" then "" else adjust(f.fechanacimiento).value)
              && r.value.(telefono := f.telefono, fechanacimiento := f.fechanacimiento) == f
  {
    if f.fechanacimiento == "" then
      Some(f.(telefono := code + f.telefono))
    else
      match adjust(f.fechanacimiento)
      case None => None
      case Some(d) => Some(f.(fechanacimiento := d, telefono := code + f.telefono))
  }

  /** Every field of the sign-in and registration page. */
  datatype AuthPageState = AuthPageState(
    isRegister: bool,
    isLoading: bool,
    hidePassword: bool,
    selectedCountryCode: string,
    registerForm: RegisterForm,
    loginForm: LoginForm)

  class AuthPage {
    var isRegister: bool
    var isLoading: bool
    var hidePassword: bool
    var selectedCountryCode: string
    var registerForm: RegisterForm
    var loginForm: LoginForm
    const authService: AuthService

    function State(): AuthPageState
      reads this
    {
      AuthPageState(isRegister, isLoading, hidePassword, selectedCountryCode, registerForm, loginForm)
    }

    constructor (authService: AuthService)
      ensures this.authService == authService
      ensures State() == AuthPageState(false, false, true, "+34",
                                       RegisterForm("", "", "", "", "", "", ""), LoginForm("", ""))
    {
      this.authService := authService;
      isRegister, isLoading, hidePassword := false, false, true;
      selectedCountryCode := "+34";
      registerForm := RegisterForm("", "", "", "", "", "", "");
      loginForm := LoginForm("", "");
    }

    /** `togglePanel()`. */
    method TogglePanel()
      modifies this
      ensures State() == old(State()).(isRegister := !old(isRegister))
    {
      isRegister := !isRegister;
    }

    /** `handleLogin()`: with a valid form the credentials are sent; the token
        of a successful answer is stored, the profile is requested and the
        user is taken to the private area (`navigated`). Either answer stops
        the spinner. */
    method HandleLogin(isAddress: bool, outcome: Outcome<string>, profile: Outcome<Profile>)
      returns (sent: Option<LoginForm>, reply: Option<Reply<string>>, navigated: bool)
      modifies this, authService, authService.storage
      ensures !LoginValid(old(loginForm), isAddress) ==>
                && sent.None? && reply.None? && !navigated
                && State() == old(State())
                && authService.State() == old(authService.State())
                && authService.storage.items == old(authService.storage.items)
      ensures LoginValid(old(loginForm), isAddress) ==>
                && sent == Some(old(loginForm)) && reply == Some(Handled(outcome))
                && State() == old(State()).(isLoading := false)
                && (navigated <==> outcome.Success?)
      ensures LoginValid(old(loginForm), isAddress) && outcome.Success? ==>
                && authService.storage.items == old(authService.storage.items)["token" := outcome.value]
                && (profile.Success? ==>
                      authService.State() == ProfileLoaded(old(authService.State()), profile.value))
                && (profile.Failure? ==> authService.State() == old(authService.State()))
      ensures LoginValid(old(loginForm), isAddress) && outcome.Failure? ==>
                && authService.storage.items == old(authService.storage.items)
                && authService.State() == old(authService.State())
    {
      sent, reply, navigated := None, None, false;
      if LoginValid(loginForm, isAddress) {
        isLoading := true;
        sent := Some(loginForm);
        var r := authService.Request(outcome);
        reply := Some(r);
        if r.Ok? {
          authService.storage.SetItem("token", r.value);
          var _ := authService.GetUserProfile(profile);
          navigated := true;
          isLoading := false;
        } else {
          isLoading := false;
        }
      }
    }

    /** `handleRegister()`; `adjust` stands for the shift to local time and
        the cut to YYYY-MM-DD, None when `toISOString` throws on an invalid
        date: then nothing is sent, the form keeps its values and the spinner
        stays on. Otherwise the prepared form is kept and sent without a
        validity test, and either answer stops the spinner. */
    method HandleRegister(adjust: string -> Option<string>, outcome: Outcome<string>)
      returns (sent: Option<RegisterForm>, reply: Option<Reply<string>>)
      modifies this
      ensures var prepared := PreparedRegistration(old(registerForm), old(selectedCountryCode), adjust);
              && (prepared.None? ==>
                    && sent.None? && reply.None?
                    && State() == old(State()).(isLoading := true))
              && (prepared.Some? ==>
                    && sent == prepared && reply == Some(Handled(outcome))
                    && State() == old(State()).(registerForm := prepared.value, isLoading := false))
    {
      isLoading := true;
      sent, reply := None, None;
      var fecha := registerForm.fechanacimiento;
      if fecha != "" {
        var adjusted := adjust(fecha);
        if adjusted.None? {
          return;
        }
        registerForm := registerForm.(fechanacimiento := adjusted.value);
      }
      registerForm := registerForm.(telefono := selectedCountryCode + registerForm.telefono);
      sent := Some(registerForm);
      var r := authService.Request(outcome);
      reply := Some(r);
      isLoading := false;
    }
  }
}
