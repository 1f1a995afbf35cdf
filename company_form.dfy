/**
 * The three-step company-profile wizard shown after sign-in. Its state is
 * one record of eleven text fields, ONE error map shared by all steps, the
 * current step (1..3) and two flags, `isLoading` and `isCompleted`.
 *
 * The transitions are first given as functions on a `Wizard` value (the
 * specification), then the component itself is a class whose handlers
 * update its fields and are proved to follow those functions.
 */
module Company {
  import opened Forms

  const TotalSteps := 3

  datatype Field =
    | CompanyName | CompanyType | Industry | EmployeeCount | AnnualRevenue | Description
    | Website | Phone | Address | City | Country

  /** The fields no step requires. */
  const OptionalFields: set<Field> := {Website, Phone, Address, City, Country}

  /** `companyData`. An emptied selection (`undefined` in the source) is written as "". */
  datatype CompanyData = CompanyData(
    companyName: string, companyType: string, industry: string,
    employeeCount: string, annualRevenue: string, description: string,
    website: string, phone: string, address: string, city: string, country: string)
  {
    /** `companyData[f]` */
    function Get(f: Field): string
    {
      match f
      case CompanyName => companyName
      case CompanyType => companyType
      case Industry => industry
      case EmployeeCount => employeeCount
      case AnnualRevenue => annualRevenue
      case Description => description
      case Website => website
      case Phone => phone
      case Address => address
      case City => city
      case Country => country
    }

    /** `{ ...prev, [f]: v }`: field f becomes v, every other field keeps its value. */
    function Set(f: Field, v: string): (d: CompanyData)
      ensures d.Get(f) == v
      ensures forall g :: g != f ==> d.Get(g) == Get(g)
    {
      match f
      case CompanyName => this.(companyName := v)
      case CompanyType => this.(companyType := v)
      case Industry => this.(industry := v)
      case EmployeeCount => this.(employeeCount := v)
      case AnnualRevenue => this.(annualRevenue := v)
      case Description => this.(description := v)
      case Website => this.(website := v)
      case Phone => this.(phone := v)
      case Address => this.(address := v)
      case City => this.(city := v)
      case Country => this.(country := v)
    }
  }

  /** Every field empty except the country, which starts as "RU". */
  const InitialData := CompanyData("", "", "", "", "", "", "", "", "", "", "RU")

  /** The fields step `step` requires; a step outside 1..3 requires none. */
  function RequiredFields(step: int): set<Field>
  {
    if step == 1 then {CompanyName, CompanyType, Industry}
    else if step == 2 then {EmployeeCount, AnnualRevenue}
    else if step == 3 then {Description}
    else {}
  }

  /** The message shown under an empty required field (optional fields have none). */
  function MissingMessage(f: Field): string
  {
    match f
    case CompanyName => "Название компании обязательно"
    case CompanyType => "Выберите тип компании"
    case Industry => "Выберите отрасль"
    case EmployeeCount => "Укажите количество сотрудников"
    case AnnualRevenue => "Укажите годовой оборот"
    case Description => "Добавьте описание компании"
    case _ => ""
  }

  /** Every field step `step` requires is filled in. */
  predicate StepComplete(d: CompanyData, step: int)
  {
    forall f :: f in RequiredFields(step) ==> d.Get(f) != ""
  }

  /** The error map a validation of step `step` produces: one entry per empty required field. */
  function StepErrors(d: CompanyData, step: int): map<Field, string>
  {
    map f | f in RequiredFields(step) && d.Get(f) == "" :: MissingMessage(f)
  }

  /** Validation flags exactly the empty required fields, and passes iff the step is complete. */
  lemma StepErrorsExact(d: CompanyData, step: int)
    ensures forall f :: f in StepErrors(d, step) <==> f in RequiredFields(step) && d.Get(f) == ""
    ensures forall f :: f in StepErrors(d, step) ==> StepErrors(d, step)[f] == MissingMessage(f) != ""
    ensures StepErrors(d, step) == map[] <==> StepComplete(d, step)
  {
  }

  /** Any map that flags exactly the empty required fields of `step`, with their messages, is the validation result. */
  lemma StepErrorsUnique(d: CompanyData, step: int, m: map<Field, string>)
    requires forall f :: f in m <==> f in RequiredFields(step) && d.Get(f) == ""
    requires forall f :: f in m ==> m[f] == MissingMessage(f)
    ensures m == StepErrors(d, step)
  {
  }

  /** No step ever reports an error for website, phone, address, city or country. */
  lemma OptionalFieldsNeverFlagged(d: CompanyData, step: int)
    ensures forall f :: f in OptionalFields ==> f !in StepErrors(d, step)
  {
  }

  // ---------------------------------------------------------------------
  // The wizard as a value, and its transitions
  // ---------------------------------------------------------------------

  /**
   * The component's state. `saving` is the record captured by a submit
   * whose save has not resolved yet: the submit handler keeps the data of
   * the moment it was pressed, whatever the user edits during the save.
   */
  datatype Wizard = Wizard(
    currentStep: int, isLoading: bool, isCompleted: bool,
    data: CompanyData, errors: map<Field, string>, saving: Option<CompanyData>)

  const Initial := Wizard(1, false, false, InitialData, map[], None)

  /** What the component saves on a successful submit: the record plus the user and a timestamp. */
  datatype SavedCompany = SavedCompany(data: CompanyData, userId: string, createdAt: string)

  function Min(a: int, b: int): int { if a <= b then a else b }
  function Max(a: int, b: int): int { if a >= b then a else b }

  /** The user types or selects `v` in field `f`. */
  function Edit(w: Wizard, f: Field, v: string): Wizard
  {
    w.(data := w.data.Set(f, v), errors := ClearOnEdit(w.errors, f))
  }

  /** "Next": validate the current step; move on (at most to the last step) only if it passed. */
  function Next(w: Wizard): Wizard
  {
    var e := StepErrors(w.data, w.currentStep);
    w.(errors := e, currentStep := if e == map[] then Min(w.currentStep + 1, TotalSteps) else w.currentStep)
  }

  /** "Back": one step back, never below the first; no validation. */
  function Prev(w: Wizard): Wizard
  {
    w.(currentStep := Max(w.currentStep - 1, 1))
  }

  /** Final submit pressed: validate the current step; when it passes, start saving the current data. */
  function BeginSubmit(w: Wizard): Wizard
  {
    var e := StepErrors(w.data, w.currentStep);
    if e == map[] then w.(errors := e, isLoading := true, saving := Some(w.data))
    else w.(errors := e)
  }

  /** The mock save resolves: the wizard is completed and no longer loading (nothing happens with no save in flight). */
  function ResolveSave(w: Wizard): Wizard
  {
    if w.saving.Some? then w.(isCompleted := true, isLoading := false, saving := None) else w
  }

  /** "Start over" on the completion screen: back to step 1; data and errors stay. */
  function Restart(w: Wizard): Wizard
  {
    w.(isCompleted := false, currentStep := 1)
  }

  datatype Event = EditField(field: Field, value: string) | GoNext | GoPrev | SubmitForm | SaveResolved | StartOver

  function Apply(w: Wizard, e: Event): Wizard
  {
    match e
    case EditField(f, v) => Edit(w, f, v)
    case GoNext => Next(w)
    case GoPrev => Prev(w)
    case SubmitForm => BeginSubmit(w)
    case SaveResolved => ResolveSave(w)
    case StartOver => Restart(w)
  }

  /** The wizard after the events `es`, in order. */
  function Run(w: Wizard, es: seq<Event>): Wizard
    decreases |es|
  {
    if es == [] then w else Run(Apply(w, es[0]), es[1..])
  }

  function Repeat(e: Event, n: nat): (es: seq<Event>)
    ensures |es| == n
    ensures forall i :: 0 <= i < n ==> es[i] == e
  {
    if n == 0 then [] else [e] + Repeat(e, n - 1)
  }

  // ---------------------------------------------------------------------
  // Properties of the transitions
  // ---------------------------------------------------------------------

  /** Editing changes that one field, blanks its shown error, and touches nothing else. */
  lemma EditFrame(w: Wizard, f: Field, v: string)
    ensures Edit(w, f, v).data.Get(f) == v
    ensures forall g :: g != f ==> Edit(w, f, v).data.Get(g) == w.data.Get(g)
    ensures Edit(w, f, v).errors.Keys == w.errors.Keys
    ensures Shows(w.errors, f) ==> Edit(w, f, v).errors[f] == ""
    ensures !Shows(w.errors, f) ==> Edit(w, f, v).errors == w.errors
    ensures forall g :: g in w.errors && g != f ==> Edit(w, f, v).errors[g] == w.errors[g]
    ensures Edit(w, f, v).currentStep == w.currentStep
  {
  }

  /** Next advances (clamped to the last step) iff the current step is complete. */
  lemma NextGate(w: Wizard)
    ensures StepComplete(w.data, w.currentStep) ==> Next(w).currentStep == Min(w.currentStep + 1, TotalSteps)
    ensures !StepComplete(w.data, w.currentStep) ==> Next(w).currentStep == w.currentStep
    ensures Next(w).errors == StepErrors(w.data, w.currentStep)
    ensures Next(w).data == w.data
  {
    StepErrorsExact(w.data, w.currentStep);
  }

  /**
   * Submit starts a save of the current data iff the current step is
   * complete; otherwise the flags and any pending save stay as they were.
   * Once the save resolves the wizard is completed and not loading.
   */
  lemma SubmitGate(w: Wizard)
    ensures StepComplete(w.data, w.currentStep) ==>
              BeginSubmit(w).isLoading && BeginSubmit(w).saving == Some(w.data)
    ensures StepComplete(w.data, w.currentStep) ==>
              ResolveSave(BeginSubmit(w)).isCompleted && !ResolveSave(BeginSubmit(w)).isLoading
    ensures !StepComplete(w.data, w.currentStep) ==>
              && BeginSubmit(w).isCompleted == w.isCompleted && BeginSubmit(w).isLoading == w.isLoading
              && BeginSubmit(w).saving == w.saving
    ensures BeginSubmit(w).currentStep == w.currentStep && BeginSubmit(w).data == w.data
    ensures ResolveSave(w).currentStep == w.currentStep && ResolveSave(w).data == w.data
  {
    StepErrorsExact(w.data, w.currentStep);
  }

  /** Every event keeps the current step within 1..3. */
  lemma {:induction false} RunKeepsStepInRange(w: Wizard, es: seq<Event>)
    requires 1 <= w.currentStep <= TotalSteps
    ensures 1 <= Run(w, es).currentStep <= TotalSteps
    decreases |es|
  {
    if es != [] {
      RunKeepsStepInRange(Apply(w, es[0]), es[1..]);
    }
  }

  /** Pressing Next any number of times on an incomplete step never moves and never changes the data. */
  lemma {:induction false} RepeatedNextStaysPut(w: Wizard, n: nat)
    requires !StepComplete(w.data, w.currentStep)
    decreases n
    ensures Run(w, Repeat(GoNext, n)).currentStep == w.currentStep
    ensures Run(w, Repeat(GoNext, n)).data == w.data
    ensures n > 0 ==> Run(w, Repeat(GoNext, n)).errors == StepErrors(w.data, w.currentStep)
  {
    if n > 0 {
      NextGate(w);
      var es := Repeat(GoNext, n);
      assert es[1..] == Repeat(GoNext, n - 1);
      RepeatedNextStaysPut(Next(w), n - 1);
    }
  }

  /** Back then Next from step 2 or 3, with the previous step still complete, returns to the same step with the data intact. */
  lemma PrevThenNextReturns(w: Wizard)
    requires 2 <= w.currentStep <= TotalSteps
    requires StepComplete(w.data, w.currentStep - 1)
    ensures Next(Prev(w)).currentStep == w.currentStep
    ensures Next(Prev(w)).data == w.data
  {
    NextGate(Prev(w));
  }

  /** Back never validates and never changes data or errors. */
  lemma PrevFrame(w: Wizard)
    requires 1 <= w.currentStep <= TotalSteps
    ensures Prev(w).currentStep == if w.currentStep == 1 then 1 else w.currentStep - 1
    ensures Prev(w).data == w.data && Prev(w).errors == w.errors
    ensures Prev(w).isLoading == w.isLoading && Prev(w).isCompleted == w.isCompleted
  {
  }

  /** Start over returns to step 1 and clears the completion flag, but keeps the data and the errors. */
  lemma RestartKeepsData(w: Wizard)
    ensures Restart(w).currentStep == 1 && !Restart(w).isCompleted
    ensures Restart(w).data == w.data && Restart(w).errors == w.errors
  {
  }

  /** Next on step 1 with no company name stays on step 1 and shows the name error. */
  lemma NextWithoutCompanyName(w: Wizard)
    requires w.currentStep == 1 && w.data.companyName == ""
    ensures Next(w).currentStep == 1
    ensures CompanyName in Next(w).errors && Next(w).errors[CompanyName] == "Название компании обязательно"
  {
    assert CompanyName in StepErrors(w.data, 1);
  }

  /**
   * With every required field filled: Next, Next, Finish and the save
   * resolving complete the wizard on step 3; Start over then shows step 1
   * with the data kept.
   */
  lemma FilledWizardCompletes(d: CompanyData)
    requires forall step :: 1 <= step <= TotalSteps ==> StepComplete(d, step)
    ensures Run(Initial.(data := d), [GoNext, GoNext, SubmitForm, SaveResolved]).currentStep == 3
    ensures Run(Initial.(data := d), [GoNext, GoNext, SubmitForm, SaveResolved]).isCompleted
    ensures Run(Initial.(data := d), [GoNext, GoNext, SubmitForm, SaveResolved, StartOver])
            == Wizard(1, false, false, d, map[], None)
  {
    var w0 := Initial.(data := d);
    assert StepComplete(d, 1) && StepComplete(d, 2) && StepComplete(d, 3);
    NextGate(w0);
    var w1 := Next(w0);
    NextGate(w1);
    var w2 := Next(w1);
    SubmitGate(w2);
    StepErrorsExact(d, 3);
    var w4 := ResolveSave(BeginSubmit(w2));
    var es := [GoNext, GoNext, SubmitForm, SaveResolved];
    assert es[1..] == [GoNext, SubmitForm, SaveResolved];
    assert es[1..][1..] == [SubmitForm, SaveResolved];
    assert es[1..][1..][1..] == [SaveResolved];
    assert Run(w0, es) == w4;
    RunAppend(w0, es, [StartOver]);
  }

  /** Running a + b is running a, then b. */
  lemma {:induction false} RunAppend(w: Wizard, a: seq<Event>, b: seq<Event>)
    ensures Run(w, a + b) == Run(Run(w, a), b)
    decreases |a|
  {
    if a != [] {
      assert (a + b)[0] == a[0] && (a + b)[1..] == a[1..] + b;
      RunAppend(Apply(w, a[0]), a[1..], b);
    } else {
      assert a + b == b;
    }
  }

  // ---------------------------------------------------------------------
  // What the screens let the user do
  // ---------------------------------------------------------------------

  /** The step whose screen has an input for f; the country has no input anywhere (0). */
  function ScreenOf(f: Field): int
  {
    match f
    case CompanyName | CompanyType | Industry => 1
    case EmployeeCount | AnnualRevenue | Website => 2
    case Description | Phone | City | Address => 3
    case Country => 0
  }

  /**
   * The events the rendered screens offer. The inputs of the current step
   * stay enabled during a save; "Back" is disabled on step 1; "Next" (before
   * the last step) and "Finish" (on it) are disabled while loading; once
   * completed only "Start over" is shown. A pending save resolves whatever
   * screen is shown.
   */
  predicate Offered(w: Wizard, e: Event)
  {
    match e
    case EditField(f, _) => !w.isCompleted && ScreenOf(f) == w.currentStep
    case GoNext => !w.isCompleted && w.currentStep < TotalSteps && !w.isLoading
    case GoPrev => !w.isCompleted && w.currentStep != 1
    case SubmitForm => !w.isCompleted && w.currentStep == TotalSteps && !w.isLoading
    case SaveResolved => w.saving.Some?
    case StartOver => w.isCompleted
  }

  /** Every event of es is offered by the screen it is applied to. */
  predicate OfferedRun(w: Wizard, es: seq<Event>)
    decreases |es|
  {
    es == [] || (Offered(w, es[0]) && OfferedRun(Apply(w, es[0]), es[1..]))
  }

  /** A run is offered iff its first part is, and its second part is from where the first leaves off. */
  lemma {:induction false} OfferedRunAppend(w: Wizard, a: seq<Event>, b: seq<Event>)
    ensures OfferedRun(w, a + b) <==> OfferedRun(w, a) && OfferedRun(Run(w, a), b)
    decreases |a|
  {
    if a != [] {
      assert (a + b)[0] == a[0] && (a + b)[1..] == a[1..] + b;
      OfferedRunAppend(Apply(w, a[0]), a[1..], b);
    } else {
      assert a + b == b;
    }
  }

  /**
   * The steps behind the current one are complete, a save is pending
   * exactly while loading, and a pending save holds a record with every
   * step complete.
   */
  ghost predicate ProgressSound(w: Wizard)
  {
    && 1 <= w.currentStep <= TotalSteps
    && (forall s :: 1 <= s < w.currentStep ==> StepComplete(w.data, s))
    && (w.isLoading <==> w.saving.Some?)
    && (w.saving.Some? ==> forall s :: 1 <= s <= TotalSteps ==> StepComplete(w.saving.value, s))
  }

  /** Each step's screen holds the inputs of the fields that step requires. */
  lemma RequiredFieldsOnTheirScreen(f: Field, step: int)
    requires f in RequiredFields(step)
    ensures ScreenOf(f) == step
  {
  }

  lemma OfferedEventKeepsProgressSound(w: Wizard, e: Event)
    requires ProgressSound(w) && Offered(w, e)
    ensures ProgressSound(Apply(w, e))
  {
    match e
    case EditField(f, v) =>
      var w' := Edit(w, f, v);
      forall s | 1 <= s < w'.currentStep
        ensures StepComplete(w'.data, s)
      {
        forall g | g in RequiredFields(s)
          ensures w'.data.Get(g) != ""
        {
          RequiredFieldsOnTheirScreen(g, s);
          assert g != f;
          assert StepComplete(w.data, s);
        }
      }
    case GoNext =>
      NextGate(w);
    case GoPrev =>
    case SubmitForm =>
      SubmitGate(w);
    case SaveResolved =>
    case StartOver =>
  }

  /** Driven through its screens, the wizard keeps `ProgressSound`. */
  lemma {:induction false} OfferedRunKeepsProgressSound(w: Wizard, es: seq<Event>)
    requires ProgressSound(w) && OfferedRun(w, es)
    ensures ProgressSound(Run(w, es))
    decreases |es|
  {
    if es != [] {
      OfferedEventKeepsProgressSound(w, es[0]);
      OfferedRunKeepsProgressSound(Apply(w, es[0]), es[1..]);
    }
  }

  /**
   * From the initial wizard, whatever the user does through the screens,
   * every save that resolves stores a record with every required field of
   * every step filled in.
   */
  lemma EverySaveComplete(es: seq<Event>, k: int)
    requires OfferedRun(Initial, es)
    requires 0 <= k < |es| && es[k] == SaveResolved
    ensures Run(Initial, es[..k]).saving.Some?
    ensures forall s :: 1 <= s <= TotalSteps ==> StepComplete(Run(Initial, es[..k]).saving.value, s)
  {
    assert es == es[..k] + es[k..];
    OfferedRunAppend(Initial, es[..k], es[k..]);
    OfferedRunKeepsProgressSound(Initial, es[..k]);
    assert es[k..][0] == SaveResolved;
  }

  /**
   * The completion flag does not say the live data is complete: the
   * description can be emptied while the save is pending, and the wizard
   * still completes.
   */
  lemma DescriptionEmptiedDuringSave(w: Wizard)
    requires w.currentStep == TotalSteps && !w.isCompleted && !w.isLoading
    requires StepComplete(w.data, TotalSteps)
    ensures OfferedRun(w, [SubmitForm, EditField(Description, ""), SaveResolved])
    ensures Run(w, [SubmitForm, EditField(Description, ""), SaveResolved]).isCompleted
    ensures !StepComplete(Run(w, [SubmitForm, EditField(Description, ""), SaveResolved]).data, TotalSteps)
  {
  }

  // ---------------------------------------------------------------------
  // The component
  // ---------------------------------------------------------------------

  class CompanyForm {
    var currentStep: int
    var isLoading: bool
    var isCompleted: bool
    var companyData: CompanyData
    var errors: map<Field, string>
    var saving: Option<CompanyData>

    ghost predicate Valid()
      reads this
    {
      1 <= currentStep <= TotalSteps
    }

    function State(): Wizard
      reads this
    {
      Wizard(currentStep, isLoading, isCompleted, companyData, errors, saving)
    }

    constructor ()
      ensures Valid() && State() == Initial
    {
      currentStep := 1;
      isLoading := false;
      isCompleted := false;
      companyData := InitialData;
      errors := map[];
      saving := None;
    }

    method HandleInputChange(field: Field, value: string)
      requires Valid()
      modifies this
      ensures Valid() && State() == Edit(old(State()), field, value)
    {
      companyData := companyData.Set(field, value);
      if field in errors && errors[field] != "" {
        errors := errors[field := ""];
      }
    }

    /** Rebuilds the whole error map from the required fields of `step`; true iff none is empty. */
    method ValidateStep(step: int) returns (valid: bool)
      modifies this`errors
      ensures errors == StepErrors(companyData, step)
      ensures valid <==> errors == map[]
      ensures valid <==> StepComplete(companyData, step)
    {
      var newErrors: map<Field, string> := map[];
      if step == 1 {
        if companyData.companyName == "" {
          newErrors := newErrors[CompanyName := "Название компании обязательно"];
        }
        if companyData.companyType == "" {
          newErrors := newErrors[CompanyType := "Выберите тип компании"];
        }
        if companyData.industry == "" {
          newErrors := newErrors[Industry := "Выберите отрасль"];
        }
      } else if step == 2 {
        if companyData.employeeCount == "" {
          newErrors := newErrors[EmployeeCount := "Укажите количество сотрудников"];
        }
        if companyData.annualRevenue == "" {
          newErrors := newErrors[AnnualRevenue := "Укажите годовой оборот"];
        }
      } else if step == 3 {
        if companyData.description == "" {
          newErrors := newErrors[Description := "Добавьте описание компании"];
        }
      }
      StepErrorsUnique(companyData, step, newErrors);
      errors := newErrors;
      valid := |newErrors| == 0;
      StepErrorsExact(companyData, step);
    }

    method HandleNext()
      requires Valid()
      modifies this
      ensures Valid() && State() == Next(old(State()))
    {
      var valid := ValidateStep(currentStep);
      if valid {
        currentStep := Min(currentStep + 1, TotalSteps);
      }
    }

    method HandlePrev()
      requires Valid()
      modifies this
      ensures Valid() && State() == Prev(old(State()))
    {
      currentStep := Max(currentStep - 1, 1);
    }

    /** Final submit: validates the current step; when it passes, starts saving the data as it is now. */
    method HandleSubmit() returns (started: bool)
      requires Valid()
      modifies this
      ensures Valid() && State() == BeginSubmit(old(State()))
      ensures started <==> StepComplete(old(companyData), old(currentStep))
    {
      started := ValidateStep(currentStep);
      if !started {
        return;
      }
      isLoading := true;
      saving := Some(companyData);
    }

    /**
     * The save resolves: the record captured at submit is stored with the
     * signed-in user's id and the timestamp, and the wizard is completed.
     */
    method FinishSave(userId: string, createdAt: string) returns (saved: Option<SavedCompany>)
      requires Valid()
      modifies this
      ensures Valid() && State() == ResolveSave(old(State()))
      ensures saved == if old(saving).Some? then Some(SavedCompany(old(saving).value, userId, createdAt)) else None
    {
      if saving.None? {
        return None;
      }
      saved := Some(SavedCompany(saving.value, userId, createdAt));
      isCompleted := true;
      isLoading := false;
      saving := None;
    }

    method StartOver()
      requires Valid()
      modifies this
      ensures Valid() && State() == Restart(old(State()))
    {
      isCompleted := false;
      currentStep := 1;
    }
  }
}
