/**
 * The login/registration form. Its state is a seven-field record (six
 * text fields and the terms checkbox), an error map, the mode flag
 * `isLogin`, the `isLoading` flag and the detected region. Validation is
 * total: each run rebuilds the whole error map from the rules below.
 */
module Auth {
  import opened Forms
  import EmailPattern

  datatype Field = Email | Password | ConfirmPassword | FirstName | LastName | CompanyName | AgreeToTerms

  /** What an input hands to the change handler: a text box's value or the checkbox's state. */
  datatype InputValue = Text(text: string) | Checked(on: bool)

  /** The checkbox sends a boolean, every other input a string. */
  predicate Fits(f: Field, v: InputValue)
  {
    v.Checked? <==> f == AgreeToTerms
  }

  /** `formData` */
  datatype AuthData = AuthData(
    email: string, password: string, confirmPassword: string,
    firstName: string, lastName: string, companyName: string, agreeToTerms: bool)
  {
    /** `formData[f]` */
    function Get(f: Field): (v: InputValue)
      ensures Fits(f, v)
    {
      match f
      case Email => Text(email)
      case Password => Text(password)
      case ConfirmPassword => Text(confirmPassword)
      case FirstName => Text(firstName)
      case LastName => Text(lastName)
      case CompanyName => Text(companyName)
      case AgreeToTerms => Checked(agreeToTerms)
    }

    /** `{ ...prev, [f]: v }`: field f becomes v, every other field keeps its value. */
    function Set(f: Field, v: InputValue): (d: AuthData)
      requires Fits(f, v)
      ensures d.Get(f) == v
      ensures forall g :: g != f ==> d.Get(g) == Get(g)
    {
      match f
      case Email => this.(email := v.text)
      case Password => this.(password := v.text)
      case ConfirmPassword => this.(confirmPassword := v.text)
      case FirstName => this.(firstName := v.text)
      case LastName => this.(lastName := v.text)
      case CompanyName => this.(companyName := v.text)
      case AgreeToTerms => this.(agreeToTerms := v.on)
    }
  }

  /** Every text field '' and the checkbox unticked: the initial value and the value after a mode switch. */
  const EmptyData := AuthData("", "", "", "", "", "", false)

  const MinPasswordLength := 6

  const EmailRequired := "Email обязателен"
  const EmailInvalid := "Введите корректный email"
  const PasswordRequired := "Пароль обязателен"
  const PasswordTooShort := "Пароль должен содержать минимум 6 символов"
  const FirstNameRequired := "Имя обязательно"
  const LastNameRequired := "Фамилия обязательна"
  const PasswordsDiffer := "Пароли не совпадают"
  const TermsRequired := "Необходимо согласие с условиями"

  /** The rule for one field: the message it gets, if any, in the given mode. */
  function FieldError(d: AuthData, isLogin: bool, f: Field): Option<string>
  {
    match f
    case Email =>
      if d.email == "" then Some(EmailRequired)
      else if !EmailPattern.Test(d.email) then Some(EmailInvalid)
      else None
    case Password =>
      if d.password == "" then Some(PasswordRequired)
      else if |d.password| < MinPasswordLength then Some(PasswordTooShort)
      else None
    case FirstName => if !isLogin && d.firstName == "" then Some(FirstNameRequired) else None
    case LastName => if !isLogin && d.lastName == "" then Some(LastNameRequired) else None
    case ConfirmPassword => if !isLogin && d.password != d.confirmPassword then Some(PasswordsDiffer) else None
    case AgreeToTerms => if !isLogin && !d.agreeToTerms then Some(TermsRequired) else None
    case CompanyName => None
  }

  /** m with field f's rule applied: its message is added when the rule fails. */
  function WithRule(m: map<Field, string>, d: AuthData, isLogin: bool, f: Field): map<Field, string>
  {
    if FieldError(d, isLogin, f).Some? then m[f := FieldError(d, isLogin, f).value] else m
  }

  /**
   * The error map a validation produces: the email and password rules, and
   * in register mode the two names, the confirmation and the checkbox.
   */
  function FormErrors(d: AuthData, isLogin: bool): map<Field, string>
  {
    var credentials := WithRule(WithRule(map[], d, isLogin, Email), d, isLogin, Password);
    if isLogin then credentials
    else
      var names := WithRule(WithRule(credentials, d, isLogin, FirstName), d, isLogin, LastName);
      WithRule(WithRule(names, d, isLogin, ConfirmPassword), d, isLogin, AgreeToTerms)
  }

  /**
   * When the form may be submitted, stated on its own: an email containing
   * a match of the pattern, a password of at least six characters, and in
   * register mode both names, a matching confirmation and the ticked box.
   */
  ghost predicate Acceptable(d: AuthData, isLogin: bool)
  {
    && EmailPattern.ContainsMatch(d.email)
    && |d.password| >= MinPasswordLength
    && (!isLogin ==> d.firstName != "" && d.lastName != "" && d.confirmPassword == d.password && d.agreeToTerms)
  }

  /** A validation reports exactly the fields whose rule fails, each with its rule's message. */
  lemma FormErrorsExact(d: AuthData, isLogin: bool)
    ensures forall f :: f in FormErrors(d, isLogin) <==> FieldError(d, isLogin, f).Some?
    ensures forall f :: f in FormErrors(d, isLogin) ==> FormErrors(d, isLogin)[f] == FieldError(d, isLogin, f).value
  {
  }

  /** Validation passes (the map is empty) iff the form is acceptable. */
  lemma FormValidIff(d: AuthData, isLogin: bool)
    ensures FormErrors(d, isLogin) == map[] <==> Acceptable(d, isLogin)
  {
    FormErrorsExact(d, isLogin);
    if FormErrors(d, isLogin) == map[] {
      assert Email !in FormErrors(d, isLogin);
      assert Password !in FormErrors(d, isLogin);
      if !isLogin {
        assert FirstName !in FormErrors(d, isLogin);
        assert LastName !in FormErrors(d, isLogin);
        assert ConfirmPassword !in FormErrors(d, isLogin);
        assert AgreeToTerms !in FormErrors(d, isLogin);
      }
    } else {
      var f :| f in FormErrors(d, isLogin);
    }
  }

  /** The email rule: '' is "required"; a non-empty address with no match of the pattern is "incorrect". */
  lemma EmailRule(d: AuthData, isLogin: bool)
    ensures Email in FormErrors(d, isLogin) <==> !EmailPattern.ContainsMatch(d.email)
    ensures d.email == "" ==> FormErrors(d, isLogin)[Email] == EmailRequired
    ensures d.email != "" && !EmailPattern.ContainsMatch(d.email) ==> FormErrors(d, isLogin)[Email] == EmailInvalid
  {
    FormErrorsExact(d, isLogin);
  }

  /** The password rule: '' is "required"; one to five characters is "at least 6". */
  lemma PasswordRule(d: AuthData, isLogin: bool)
    ensures Password in FormErrors(d, isLogin) <==> |d.password| < MinPasswordLength
    ensures d.password == "" ==> FormErrors(d, isLogin)[Password] == PasswordRequired
    ensures 0 < |d.password| < MinPasswordLength ==> FormErrors(d, isLogin)[Password] == PasswordTooShort
  {
    FormErrorsExact(d, isLogin);
  }

  /** In login mode only the email and the password are checked: every other field is ignored. */
  lemma LoginChecksOnlyCredentials(d: AuthData, d': AuthData)
    requires d.email == d'.email && d.password == d'.password
    ensures FormErrors(d, true).Keys <= {Email, Password}
    ensures FormErrors(d, true) == FormErrors(d', true)
  {
    FormErrorsExact(d, true);
    FormErrorsExact(d', true);
    assert FormErrors(d, true).Keys == FormErrors(d', true).Keys;
  }

  /** In register mode the names, the confirmation and the checkbox are each required. */
  lemma RegisterRules(d: AuthData)
    ensures FirstName in FormErrors(d, false) <==> d.firstName == ""
    ensures LastName in FormErrors(d, false) <==> d.lastName == ""
    ensures ConfirmPassword in FormErrors(d, false) <==> d.confirmPassword != d.password
    ensures AgreeToTerms in FormErrors(d, false) <==> !d.agreeToTerms
  {
    FormErrorsExact(d, false);
  }

  /** The company name is never validated, in either mode. */
  lemma CompanyNameNeverValidated(d: AuthData, isLogin: bool)
    ensures CompanyName !in FormErrors(d, isLogin)
  {
  }

  /** Registration with a@b.com / abcdef / abcdef / A / B and the box ticked is valid. */
  lemma RegistrationExampleValid()
    ensures FormErrors(AuthData("a@b.com", "abcdef", "abcdef", "A", "B", "", true), false) == map[]
  {
    var d := AuthData("a@b.com", "abcdef", "abcdef", "A", "B", "", true);
    EmailPattern.AcceptsPlainAddress();
    FormValidIff(d, false);
  }

  /** The same registration with password and confirmation "abc" fails on the password length. */
  lemma ShortPasswordRejected()
    ensures FormErrors(AuthData("a@b.com", "abc", "abc", "A", "B", "", true), false)[Password] == PasswordTooShort
  {
    PasswordRule(AuthData("a@b.com", "abc", "abc", "A", "B", "", true), false);
  }

  // ---------------------------------------------------------------------
  // Payloads, region and provider
  // ---------------------------------------------------------------------

  /** The user record handed to the session on success. */
  datatype UserData = UserData(
    id: string, email: string, firstName: string, lastName: string,
    companyName: Option<string>, isNewUser: bool, socialProvider: Option<string>)

  /** The record a form submit sends: the typed email, names and company, and whether this was a registration. */
  function FormPayload(d: AuthData, isLogin: bool, id: string): UserData
  {
    UserData(id, d.email, d.firstName, d.lastName, Some(d.companyName), !isLogin, None)
  }

  datatype Region = RU | INT

  /** Browser languages starting with "ru" belong to the Russian region, all others to the international one. */
  function RegionOf(browserLang: string): (r: Region)
    ensures r == RU <==> |browserLang| >= 2 && browserLang[0] == 'r' && browserLang[1] == 'u'
  {
    if "ru" <= browserLang then RU else INT
  }

  datatype Provider = Yandex | Google
  {
    function Name(): string
    {
      match this
      case Yandex => "yandex"
      case Google => "google"
    }
  }

  /** The social sign-in button offers Yandex in the Russian region and Google elsewhere. */
  function ProviderFor(r: Region): Provider
  {
    if r == RU then Yandex else Google
  }

  /** The record a social sign-in sends. */
  function SocialPayload(p: Provider, id: string): UserData
  {
    UserData(id, "user_" + p.Name() + "@example.com", "Пользователь",
             if p.Name() == "google" then "Google" else "Яндекс", None, true, Some(p.Name()))
  }

  /** From the browser language to the social sign-in record. */
  lemma SocialSignInByLanguage(browserLang: string, id: string)
    ensures ProviderFor(RegionOf(browserLang)) == Yandex <==> |browserLang| >= 2 && browserLang[..2] == "ru"
    ensures var p := ProviderFor(RegionOf(browserLang));
      && SocialPayload(p, id).firstName == "Пользователь"
      && SocialPayload(p, id).lastName == (if p == Google then "Google" else "Яндекс")
      && SocialPayload(p, id).email == "user_" + p.Name() + "@example.com"
      && SocialPayload(p, id).isNewUser
      && SocialPayload(p, id).socialProvider == Some(p.Name())
  {
  }

  // ---------------------------------------------------------------------
  // The component
  // ---------------------------------------------------------------------

  class AuthForm {
    var isLogin: bool
    var isLoading: bool
    var userRegion: Region
    var formData: AuthData
    var errors: map<Field, string>

    constructor ()
      ensures isLogin && !isLoading && userRegion == RU
      ensures formData == EmptyData && errors == map[]
    {
      isLogin := true;
      isLoading := false;
      userRegion := RU;
      formData := EmptyData;
      errors := map[];
    }

    /** The mount-time effect, with the browser language as input. */
    method DetectRegion(browserLang: string)
      modifies this`userRegion
      ensures userRegion == RegionOf(browserLang)
    {
      userRegion := RegionOf(browserLang);
    }

    method HandleInputChange(field: Field, value: InputValue)
      requires Fits(field, value)
      modifies this`formData, this`errors
      ensures formData == old(formData).Set(field, value)
      ensures errors == ClearOnEdit(old(errors), field)
    {
      formData := formData.Set(field, value);
      if field in errors && errors[field] != "" {
        errors := errors[field := ""];
      }
    }

    /** Rebuilds the whole error map; true iff it is empty. */
    method ValidateForm() returns (valid: bool)
      modifies this`errors
      ensures errors == FormErrors(formData, isLogin)
      ensures valid <==> errors == map[]
      ensures valid <==> Acceptable(formData, isLogin)
    {
      ghost var d := formData;
      var newErrors: map<Field, string> := map[];
      if formData.email == "" {
        newErrors := newErrors[Email := EmailRequired];
      } else if !EmailPattern.Test(formData.email) {
        newErrors := newErrors[Email := EmailInvalid];
      }
      ghost var afterEmail := newErrors;
      assert afterEmail == WithRule(map[], d, isLogin, Email);
      if formData.password == "" {
        newErrors := newErrors[Password := PasswordRequired];
      } else if |formData.password| < MinPasswordLength {
        newErrors := newErrors[Password := PasswordTooShort];
      }
      ghost var credentials := newErrors;
      assert credentials == WithRule(afterEmail, d, isLogin, Password);
      if !isLogin {
        if formData.firstName == "" {
          newErrors := newErrors[FirstName := FirstNameRequired];
        }
        ghost var m1 := newErrors;
        assert m1 == WithRule(credentials, d, isLogin, FirstName);
        if formData.lastName == "" {
          newErrors := newErrors[LastName := LastNameRequired];
        }
        ghost var names := newErrors;
        assert names == WithRule(m1, d, isLogin, LastName);
        if formData.password != formData.confirmPassword {
          newErrors := newErrors[ConfirmPassword := PasswordsDiffer];
        }
        ghost var m3 := newErrors;
        assert m3 == WithRule(names, d, isLogin, ConfirmPassword);
        if !formData.agreeToTerms {
          newErrors := newErrors[AgreeToTerms := TermsRequired];
        }
        assert newErrors == WithRule(m3, d, isLogin, AgreeToTerms);
        assert newErrors == FormErrors(d, isLogin);
      } else {
        assert newErrors == FormErrors(d, isLogin);
      }
      FormValidIff(d, isLogin);
      errors := newErrors;
      valid := |newErrors| == 0;
    }

    /**
     * Form submit with the mock sign-in resolving at once: nothing happens
     * past validation when it fails; otherwise the user record is produced
     * and the loading flag ends cleared.
     */
    method HandleSubmit(id: string) returns (payload: Option<UserData>)
      modifies this`errors, this`isLoading
      ensures errors == FormErrors(formData, isLogin)
      ensures !Acceptable(formData, isLogin) ==> payload == None && isLoading == old(isLoading)
      ensures Acceptable(formData, isLogin) ==> !isLoading && payload.Some?
      ensures payload.Some? ==>
        && payload.value.email == formData.email
        && payload.value.firstName == formData.firstName
        && payload.value.lastName == formData.lastName
        && payload.value.companyName == Some(formData.companyName)
        && payload.value.isNewUser == !isLogin
        && payload.value.id == id
        && payload.value.socialProvider == None
    {
      var valid := ValidateForm();
      if !valid {
        return None;
      }
      isLoading := true;
      payload := Some(FormPayload(formData, isLogin, id));
      isLoading := false;
    }

    /** Social sign-in with the mock provider resolving at once. */
    method HandleSocialAuth(provider: Provider, id: string) returns (payload: UserData)
      modifies this`isLoading
      ensures !isLoading
      ensures payload == SocialPayload(provider, id)
    {
      isLoading := true;
      payload := SocialPayload(provider, id);
      isLoading := false;
    }

    /** The social button: the provider follows the detected region. */
    method ClickSocialButton(id: string) returns (payload: UserData)
      modifies this`isLoading
      ensures !isLoading
      ensures payload == SocialPayload(ProviderFor(userRegion), id)
    {
      payload := HandleSocialAuth(ProviderFor(userRegion), id);
    }

    /** Switching between login and registration flips the mode and resets every field and error. */
    method ToggleMode()
      modifies this`isLogin, this`formData, this`errors
      ensures isLogin == !old(isLogin)
      ensures formData == EmptyData
      ensures errors == map[]
    {
      isLogin := !isLogin;
      formData := EmptyData;
      errors := map[];
    }
  }
}
