# Onboarding form state, modelled in Dafny

This project models the state logic behind a two-screen onboarding flow in a
React application:

- a login/registration form (`AuthForm`);
- a three-step company-profile wizard (`CompanyForm`);
- the application shell (`App`), which remembers the signed-in user and routes
  between the two screens.

Everything else in those components is markup and styling, and is not modelled.

The model has five modules:

- `Forms` (`forms.dfy`) holds an `Option` type and one shared rule, `ClearOnEdit`.
  Both forms apply it to their error map when a field is edited: a shown error
  for that field becomes `''` and its key stays.
- `EmailPattern` (`email_pattern.dfy`) gives the meaning of the unanchored regular
  expression `\S+@\S+\.\S+`: some substring is made of non-blanks, `@`,
  non-blanks, `.`, non-blanks. `ContainsMatch` states this over substring
  positions. `Test` is the executable check, proved equivalent to it. The blank
  set is JavaScript's `\s`, written out character by character.
- `Company` (`company_form.dfy`) models the wizard's state:
  - the record of eleven company fields;
  - one error map shared by all steps;
  - the current step;
  - the `isLoading` and `isCompleted` flags;
  - the record captured by a submit whose save is still pending.

  Its transitions (`Edit`, `Next`, `Prev`, `BeginSubmit`, `ResolveSave`,
  `Restart`) are functions on a `Wizard` value. `Run` applies a sequence of events. The class `CompanyForm`
  has the component's handlers as methods, and each is proved to follow its
  transition. `ValidateStep` builds the error map field by field, as the source
  does. It is proved equal to `StepErrors`, which lists exactly the empty
  required fields of the step.
- `Auth` (`auth_form.dfy`) models the seven-field record and the per-field rules
  (`FieldError`). `FormErrors` applies those rules in the source's order.
  `Acceptable` states, on its own terms, when the form may be submitted. The
  module also covers the submit and social sign-in payloads, the region taken
  from the browser language, and the provider chosen from the region. The class
  `AuthForm` has the handlers and the mode toggle as methods.
- `Session` (`app.dfy`) models the two session fields, login and logout, and
  the route table for `/` and `/company-setup`. The client method `SignInFlow`
  shows a registration that leads to the wizard route, followed by a logout.

The wizard's save is two events: the submit that validates and starts the
save, and the save resolving 1.5 seconds later. The inputs stay editable in
between. The sign-in form's submits are each one atomic step. Random ids, the
creation timestamp and the browser language are parameters.

Behaviour of the code that the model keeps:

- Restart does not clear the data or the errors. It only sets step 1 and
  clears the completion flag (`Company.RestartKeepsData`).
- There is one error map for all wizard steps.
- A cleared error is set to `''` and its key stays in the error map.
- The only lifecycle flags are `isLoading` and `isCompleted`.
- The wizard's submit handler validates whichever step is current. Only the
  markup limits it to the last step.
- The handlers do not refuse a second submit while one is in flight. Only a
  disabled button prevents it.
- The sign-in form derives the region from the browser language itself.

## Model

| member | source | states |
|---|---|---|
| `Forms.ClearOnEdit` | src/components/CompanyForm.jsx:81-83 | after an edit of field f, f shows no error; the key set is unchanged; every other entry is unchanged; nothing changes when f showed no error (same rule in src/components/AuthForm.jsx:47-49) |
| `EmailPattern.Test` | src/components/AuthForm.jsx:57 | the email check passes iff some substring of the address matches `\S+@\S+\.\S+`, with JavaScript's blank set |
| `EmailPattern.TestCorrect` | src/components/AuthForm.jsx:57 | a match exists iff there is an `@` with a non-blank before it and a later `.` with a non-blank after it, and only non-blanks (at least one) lie between them |
| `EmailPattern.AcceptsPlainAddress` | src/components/AuthForm.jsx:57 | "a@b.com" passes the email check |
| `EmailPattern.RejectsWithoutDotAfterAt` | src/components/AuthForm.jsx:57 | a string with no `.` after any `@` never passes |
| `EmailPattern.RejectsBlankBeforeAt` | src/components/AuthForm.jsx:57 | "a @b.com" does not pass: a blank before the `@` breaks the match |
| `Company.CompanyData.Set` | src/components/CompanyForm.jsx:80 | a field edit sets exactly that field and leaves the other ten unchanged |
| `Company.StepErrorsExact` | src/components/CompanyForm.jsx:86-118 | validating a step flags exactly its empty required fields (step 1: name, type, industry; step 2: employees, revenue; step 3: description; other steps: none), each with its message; it passes iff the step is complete |
| `Company.StepErrorsUnique` | src/components/CompanyForm.jsx:86-118 | any map with exactly those keys and messages is the validation result, so the error map is replaced wholesale |
| `Company.OptionalFieldsNeverFlagged` | src/components/CompanyForm.jsx:89-114 | website, phone, address, city and country never get an error at any step |
| `Company.EditFrame` | src/components/CompanyForm.jsx:79-84 | an edit changes one field; a shown error for it becomes '' and otherwise the errors stay; other keys and the step are untouched |
| `Company.NextGate` | src/components/CompanyForm.jsx:120-124 | Next moves to min(step+1, 3) iff the current step is complete, else stays; it always replaces the errors with that step's validation and keeps the data |
| `Company.RepeatedNextStaysPut` | src/components/CompanyForm.jsx:120-124 | any number of Next presses on an incomplete step leave the step and the data unchanged |
| `Company.PrevFrame` | src/components/CompanyForm.jsx:126-128 | Back goes to max(step-1, 1) without validating; data, errors and flags are unchanged |
| `Company.PrevThenNextReturns` | src/components/CompanyForm.jsx:120-128 | from step 2 or 3, Back then Next returns to the same step with the data intact when the previous step is still complete |
| `Company.RunKeepsStepInRange` | src/components/CompanyForm.jsx:120-128 | starting in 1..3, every sequence of events keeps the current step in 1..3 |
| `Company.SubmitGate` | src/components/CompanyForm.jsx:130-153 | submit starts loading and captures the current data iff the current step is complete, otherwise the flags and any pending save stay as they were; once the save resolves the wizard is completed and not loading; step and data are unchanged by either |
| `Company.RestartKeepsData` | src/components/CompanyForm.jsx:439-442 | Start over sets step 1 and clears isCompleted, and keeps the data and the errors |
| `Company.NextWithoutCompanyName` | src/components/CompanyForm.jsx:90-93 | Next on step 1 with no company name stays on step 1 and shows the company-name message |
| `Company.FilledWizardCompletes` | src/components/CompanyForm.jsx:120-153 | with every required field filled, Next, Next, Submit and the save resolving complete the wizard on step 3; Start over then gives step 1, not completed, not loading, the data kept |
| `Company.RequiredFieldsOnTheirScreen` | src/components/CompanyForm.jsx:155-402 | every field a step requires has its input on that step's screen |
| `Company.OfferedEventKeepsProgressSound` | src/components/CompanyForm.jsx:552-579 | any event the screen offers (Back disabled on step 1, Next and Finish disabled while loading, inputs always enabled, only Start over once completed) keeps the step in 1..3, the steps behind it complete, a save pending exactly while loading, and a pending save's record complete on every step |
| `Company.OfferedRunKeepsProgressSound` | src/components/CompanyForm.jsx:552-579 | the same holds for every sequence of offered events |
| `Company.EverySaveComplete` | src/components/CompanyForm.jsx:130-153 | driven from the initial state through its screens, every save that resolves stores a record with every required field of every step filled in |
| `Company.DescriptionEmptiedDuringSave` | src/components/CompanyForm.jsx:130-153 | on a complete last step, Finish, emptying the description during the save, then the save resolving is an offered run that ends completed with the live data's last step incomplete |
| `Company.CompanyForm.constructor` | src/components/CompanyForm.jsx:22-40 | step 1, both flags false, all fields empty except country "RU", no errors |
| `Company.CompanyForm.HandleInputChange` | src/components/CompanyForm.jsx:79-84 | the new state is the `Edit` transition of the old one; the step stays in 1..3 |
| `Company.CompanyForm.ValidateStep` | src/components/CompanyForm.jsx:86-118 | the field-by-field build leaves exactly `StepErrors` in the error map and returns true iff it is empty, i.e. iff the step is complete |
| `Company.CompanyForm.HandleNext` | src/components/CompanyForm.jsx:120-124 | the new state is the `Next` transition of the old one; the step stays in 1..3 |
| `Company.CompanyForm.HandlePrev` | src/components/CompanyForm.jsx:126-128 | the new state is the `Prev` transition of the old one; the step stays in 1..3 |
| `Company.CompanyForm.HandleSubmit` | src/components/CompanyForm.jsx:130-133 | the new state is the `BeginSubmit` transition; it reports a save started iff the current step is complete |
| `Company.CompanyForm.FinishSave` | src/components/CompanyForm.jsx:135-152 | the new state is the `ResolveSave` transition; the stored record is the data captured at submit plus the user's id and timestamp when a save was pending, else nothing is stored |
| `Company.CompanyForm.StartOver` | src/components/CompanyForm.jsx:439-442 | the new state is the `Restart` transition of the old one |
| `Auth.AuthData.Set` | src/components/AuthForm.jsx:45 | an edit sets exactly the named field (text or checkbox) and leaves the others unchanged |
| `Auth.FormErrorsExact` | src/components/AuthForm.jsx:52-84 | validation reports exactly the fields whose rule fails, each with that rule's message |
| `Auth.FormValidIff` | src/components/AuthForm.jsx:52-84 | the error map is empty iff the email contains a match, the password has at least 6 characters, and in register mode both names are non-empty, the confirmation equals the password and the terms box is ticked |
| `Auth.EmailRule` | src/components/AuthForm.jsx:55-59 | email has an error iff it contains no match; '' gives "Email обязателен"; a non-empty address without a match gives "Введите корректный email" |
| `Auth.PasswordRule` | src/components/AuthForm.jsx:61-65 | password has an error iff it is shorter than 6; '' gives the required message; 1 to 5 characters give the minimum-6 message |
| `Auth.LoginChecksOnlyCredentials` | src/components/AuthForm.jsx:67-80 | in login mode only email and password can be in the error map, and the other fields do not affect it |
| `Auth.RegisterRules` | src/components/AuthForm.jsx:67-80 | in register mode first and last name are required, the confirmation must equal the password, and the terms box must be ticked, each iff |
| `Auth.CompanyNameNeverValidated` | src/components/AuthForm.jsx:52-84 | the company name never gets an error |
| `Auth.RegistrationExampleValid` | src/components/AuthForm.jsx:52-84 | register with a@b.com / abcdef / abcdef / A / B / ticked gives no errors |
| `Auth.ShortPasswordRejected` | src/components/AuthForm.jsx:61-65 | the same registration with password "abc" gets the minimum-6 message |
| `Auth.RegionOf` | src/components/AuthForm.jsx:37-41 | the region is RU iff the browser language starts with "ru", else INT |
| `Auth.SocialSignInByLanguage` | src/components/AuthForm.jsx:121-128 | the provider is Yandex iff the language starts with "ru"; the social record's first name is "Пользователь" and its last name "Google" for Google, "Яндекс" for Yandex; its email is user_<provider>@example.com; it is a new user tagged with the provider |
| `Auth.AuthForm.constructor` | src/components/AuthForm.jsx:16-31 | login mode, not loading, region RU, all fields empty and unticked, no errors |
| `Auth.AuthForm.DetectRegion` | src/components/AuthForm.jsx:34-42 | the region becomes the one the browser language decides |
| `Auth.AuthForm.HandleInputChange` | src/components/AuthForm.jsx:44-50 | one field is set; the error map follows `ClearOnEdit` |
| `Auth.AuthForm.ValidateForm` | src/components/AuthForm.jsx:52-84 | the error map is replaced by `FormErrors`; the result is true iff it is empty, iff the form is acceptable |
| `Auth.AuthForm.HandleSubmit` | src/components/AuthForm.jsx:86-112 | an unacceptable form yields no record and leaves isLoading as it was; an acceptable one yields the record (typed email, names, company name, isNewUser = not login mode, no social provider) and ends not loading |
| `Auth.AuthForm.HandleSocialAuth` | src/components/AuthForm.jsx:114-136 | yields the social record for the provider and ends not loading |
| `Auth.AuthForm.ClickSocialButton` | src/components/AuthForm.jsx:175-178 | the provider used is the one the current region selects |
| `Auth.AuthForm.ToggleMode` | src/components/AuthForm.jsx:344-356 | the mode flips; all seven fields are reset to ''/unticked; the error map becomes empty |
| `Session.RouteDecision` | src/App.jsx:27-46 | "/" renders the sign-in form iff signed out; "/company-setup" renders the wizard iff signed in; a redirect always goes to the other path: "/" to "/company-setup" when signed in, "/company-setup" to "/" when signed out |
| `Session.AtMostOneRedirect` | src/App.jsx:27-46 | from either path, at most one redirect reaches a rendered form, which is the wizard iff signed in; the wizard is never rendered while signed out |
| `Session.App.constructor` | src/App.jsx:9-10 | the session starts signed out with no user record |
| `Session.App.HandleAuthSuccess` | src/App.jsx:12-15 | the session is signed in with the given record |
| `Session.App.HandleLogout` | src/App.jsx:17-20 | the session is signed out with no user record |
| `Session.App.Render` | src/App.jsx:27-46 | renders the route table's element for the path; the wizard only when signed in with a user record |

## Left out

- Markup, styling, the component library, icons and images are presentation only.
- Timing of the sign-in form's asynchronous submits is not modelled. Each
  submit and social sign-in resolves as one atomic step, so its brief
  `isLoading = true` window is not a distinct state. The wizard's save is
  modelled as a start and a resolution, with no clock.
- The `catch` branches only log, and the mock operations cannot reject, so they
  are not modelled. The `console.log` of the saved record is not modelled either.
- Company.BeginSubmit: a second submit while a save is pending replaces the
  pending record, whereas the code would run both saves. Only the disabled
  Finish button prevents this, and `Company.Offered` keeps that guard.
- The sign-in form's closure capture is not modelled, because its submits are
  atomic.
- `Math.random()` ids and `new Date().toISOString()` are parameters (`id`,
  `createdAt`).
- The browser language is a parameter. The fallback to `navigator.userLanguage`,
  and the crash when both are missing, are not modelled.
- The progress percentage is floating-point display, so it is left out.
- Disabled buttons are not guards in the handlers, because the handlers do
  not check them. `Company.Offered` states them as the events the wizard's
  screens offer. The sign-in form's disabled-while-loading buttons are not
  modelled, because its submits are atomic.
- The password visibility toggle is presentation only.
- React Router internals are not modelled: history replacement and unmatched
  paths. Only the two declared routes are modelled.
- A select box that is emptied passes `undefined` to the change handler. The
  model writes it as `''`; both are falsy to the validation.
- Handlers are called only with the declared field names. `Auth.AuthForm.HandleInputChange`
  requires a text value for text inputs and a boolean for the checkbox, as the
  markup passes them.
- Auth.PasswordRule: lengths count Unicode code points. JavaScript counts
  UTF-16 code units, so a password containing characters outside the Basic
  Multilingual Plane is longer in JavaScript than in the model.
