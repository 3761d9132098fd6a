/** The three-step registration wizard: step 1 picks a category, step 2 a
    pass from that category's catalog, step 3 collects the attendee's details
    and submits. The wizard is a state machine over
    `(step, category, selectedPass, formData, loading, message)`; its events
    are the clicks and edits the page renders on each step. Submitting does
    not call the backend: after a short wait it navigates to the e-mail
    verification page carrying the e-mail, category and pass. */
module RegisterWizard {
  import opened Common

  datatype Category = Student | Professional

  datatype PassId = Day1 | Day2 | Full | Vip

  datatype PassOption = PassOption(
    id: PassId,
    name: string,
    price: nat,
    description: string,
    features: seq<string>,
    recommended: bool)

  /** `PASS_OPTIONS`: the static catalog, per category, in display order. */
  function PassOptions(c: Category): seq<PassOption> {
    match c
    case Student => [
      PassOption(Day1, "Day 1 Pass", 499, "Access to Day 1 keynotes and expo.",
                 ["Keynote Sessions", "Innovation Expo", "Standard Swag Bag"], false),
      PassOption(Full, "Conclave Pass", 899, "Complete 2-day experience.",
                 ["All Keynotes & Panels", "Innovation Expo", "Workshop Access", "Premium Swag Bag", "Certificate"], true)
    ]
    case Professional => [
      PassOption(Day1, "Day 1 Pass", 1499, "Networking and keynotes for Day 1.",
                 ["Keynote Sessions", "Innovation Expo", "Networking Lunch"], false),
      PassOption(Full, "Pro Delegate", 2499, "Full access + VIP networking.",
                 ["All Access", "VIP Lounge Entry", "Gala Dinner Invite", "Networking Lunch", "Priority Seating"], true)
    ]
  }

  /** The catalog of `c` has an entry with id `p`. */
  predicate Offers(c: Category, p: PassId) {
    exists i :: 0 <= i < |PassOptions(c)| && PassOptions(c)[i].id == p
  }

  /** Both catalogs offer exactly `day1` and `full`, so a pass chosen under one
      category names an entry of the other one too. */
  lemma CatalogsOfferSameIds(c: Category, p: PassId)
    ensures Offers(c, p) <==> p == Day1 || p == Full
  {
    if p == Day1 {
      assert PassOptions(c)[0].id == Day1;
    } else if p == Full {
      assert PassOptions(c)[1].id == Full;
    }
  }

  /** How many entries are marked recommended. */
  function CountRecommended(options: seq<PassOption>): (n: nat)
    ensures n <= |options|
    ensures n == 0 <==> forall i :: 0 <= i < |options| ==> !options[i].recommended
    ensures n == |options| <==> forall i :: 0 <= i < |options| ==> options[i].recommended
  {
    if options == [] then 0
    else (if options[0].recommended then 1 else 0) + CountRecommended(options[1..])
  }

  /** Each catalog lists every id once and marks exactly one entry as
      recommended. */
  lemma CatalogShape(c: Category)
    ensures forall i, j :: 0 <= i < j < |PassOptions(c)| ==> PassOptions(c)[i].id != PassOptions(c)[j].id
    ensures CountRecommended(PassOptions(c)) == 1
  {
  }

  /** `options.find(p => p.id === id)`: the first entry with that id. */
  function FindPass(options: seq<PassOption>, id: PassId): (r: Option<PassOption>)
    ensures r.Some? <==> exists i :: 0 <= i < |options| && options[i].id == id
    ensures r.Some? ==> exists i :: 0 <= i < |options| && options[i] == r.value && r.value.id == id &&
                          forall j :: 0 <= j < i ==> options[j].id != id
  {
    if options == [] then None
    else if options[0].id == id then Some(options[0])
    else
      var r := FindPass(options[1..], id);
      if r.Some? then
        var i :| 0 <= i < |options[1..]| && options[1..][i] == r.value && r.value.id == id &&
                 forall j :: 0 <= j < i ==> options[1..][j].id != id;
        assert options[i + 1] == r.value;
        r
      else
        assert forall i :: 1 <= i < |options| ==> options[i] == options[1..][i - 1];
        r
  }

  /** `currentPassDetails`: the catalog entry of the selected pass, if both
      a category and a pass are chosen. */
  function CurrentPassDetails(category: Option<Category>, selectedPass: Option<PassId>): (r: Option<PassOption>)
    ensures r.Some? <==> category.Some? && selectedPass.Some? && Offers(category.value, selectedPass.value)
    ensures r.Some? ==> r.value in PassOptions(category.value) && r.value.id == selectedPass.value
  {
    if category.Some? && selectedPass.Some? then FindPass(PassOptions(category.value), selectedPass.value)
    else None
  }

  // ---------------------------------------------------------------------
  // Countries and states

  const Countries: seq<string> := ["India", "USA", "UK"]

  const Genders: seq<string> := ["male", "female", "other"]

  /** `statesByCountry`. */
  function StatesByCountry(country: string): (r: Option<seq<string>>)
    ensures r.Some? <==> country in Countries
    ensures r.Some? ==> |r.value| > 0 && forall i, j :: 0 <= i < j < |r.value| ==> r.value[i] != r.value[j]
  {
    if country == "India" then
      Some(["Andhra Pradesh", "Karnataka", "Maharashtra", "Tamil Nadu", "Telangana",
            "Delhi", "Gujarat", "Kerala", "West Bengal", "Uttar Pradesh"])
    else if country == "USA" then
      Some(["California", "Texas", "New York", "Florida", "Illinois",
            "Pennsylvania", "Ohio", "Georgia", "North Carolina", "Michigan"])
    else if country == "UK" then
      Some(["England", "Scotland", "Wales", "Northern Ireland"])
    else None
  }

  // ---------------------------------------------------------------------
  // Form data

  datatype Field =
    | FullName | PhoneNumber | Email | Password | ConfirmPassword | Gender
    | DateOfBirth | Country | State | Pincode | CollegeName | CompanyName

  datatype FormData = FormData(
    fullName: string,
    phoneNumber: string,
    email: string,
    password: string,
    confirmPassword: string,
    gender: string,
    dateOfBirth: string,
    country: string,
    state: string,
    pincode: string,
    collegeName: string,
    companyName: string)

  const EmptyForm: FormData := FormData("", "", "", "", "", "", "", "", "", "", "", "")

  /** `formData[name]`. */
  function FieldValue(f: FormData, n: Field): string {
    match n
    case FullName => f.fullName
    case PhoneNumber => f.phoneNumber
    case Email => f.email
    case Password => f.password
    case ConfirmPassword => f.confirmPassword
    case Gender => f.gender
    case DateOfBirth => f.dateOfBirth
    case Country => f.country
    case State => f.state
    case Pincode => f.pincode
    case CollegeName => f.collegeName
    case CompanyName => f.companyName
  }

  /** `{ ...f, [name]: v }`. */
  function WithField(f: FormData, n: Field, v: string): FormData {
    match n
    case FullName => f.(fullName := v)
    case PhoneNumber => f.(phoneNumber := v)
    case Email => f.(email := v)
    case Password => f.(password := v)
    case ConfirmPassword => f.(confirmPassword := v)
    case Gender => f.(gender := v)
    case DateOfBirth => f.(dateOfBirth := v)
    case Country => f.(country := v)
    case State => f.(state := v)
    case Pincode => f.(pincode := v)
    case CollegeName => f.(collegeName := v)
    case CompanyName => f.(companyName := v)
  }

  /** `handleChange` and `handleSelectChange` (the two are the same update):
      the named field takes the value, and choosing a country also empties
      the state. */
  function HandleChange(f: FormData, n: Field, v: string): (r: FormData)
    ensures n != Country ==> FieldValue(r, n) == v
    ensures n == Country ==> r.country == v && r.state == ""
    ensures forall m: Field :: m != n && !(n == Country && m == State) ==> FieldValue(r, m) == FieldValue(f, m)
  {
    var g := WithField(f, n, v);
    if n == Country then g.(state := "") else g
  }

  /** The items of the state selector: the chosen country's states, or none
      while no (known) country is chosen. */
  function StateOptions(f: FormData): seq<string> {
    if f.country != "" && StatesByCountry(f.country).Some? then StatesByCountry(f.country).value else []
  }

  /** The keys a selector offers. */
  function SelectKeys(n: Field, f: FormData): seq<string> {
    match n
    case Gender => Genders
    case Country => Countries
    case State => if f.country == "" then [] else StateOptions(f)
    case _ => []
  }

  /** The free-text inputs rendered on step 3: the college input for
      students, the company input otherwise. */
  predicate IsTextInput(category: Option<Category>, n: Field) {
    match n
    case Gender => false
    case Country => false
    case State => false
    case CollegeName => category == Some(Student)
    case CompanyName => category != Some(Student)
    case _ => true
  }

  /** The chosen state is empty or one of the chosen country's states. */
  predicate StateConsistent(f: FormData) {
    f.state == "" || f.state in StateOptions(f)
  }

  // ---------------------------------------------------------------------
  // The wizard

  datatype Wizard = Wizard(
    step: int,
    category: Option<Category>,
    selectedPass: Option<PassId>,
    form: FormData,
    loading: bool,
    message: Option<Notice>)

  const Initial: Wizard := Wizard(1, None, None, EmptyForm, false, None)

  /** What the user can do on the page. */
  datatype Event =
    | ChooseCategory(c: Category)      // a category card on step 1
    | ClickPassCard(index: nat)         // the body of a pass card on step 2
    | SelectPassButton(index: nat)      // the Select button of a pass card on step 2
    | Back                              // "Change Category" (step 2) or "Change Pass" (step 3)
    | Edit(field: Field, value: string) // a text input on step 3
    | Pick(field: Field, key: string)   // a selector item on step 3
    | Submit                            // the details form on step 3

  /** The route state handed to `/verify-email`. */
  datatype Navigation = VerifyEmail(email: string, category: Option<Category>, passType: Option<PassId>)

  datatype Outcome = Outcome(state: Wizard, navigation: Option<Navigation>)

  /** The step-2 block is rendered only with a category chosen. */
  predicate ShowsPasses(s: Wizard) {
    s.step == 2 && s.category.Some?
  }

  /** The pass cards on screen. */
  function ShownPasses(s: Wizard): seq<PassOption> {
    if ShowsPasses(s) then PassOptions(s.category.value) else []
  }

  /** `handleSubmit`, run to completion: a password mismatch stops it with an
      error before the wait; otherwise, after the wait, it navigates. */
  function HandleSubmit(s: Wizard): (o: Outcome)
    ensures !o.state.loading
    ensures o.state.step == s.step && o.state.category == s.category
    ensures o.state.selectedPass == s.selectedPass && o.state.form == s.form
    ensures o.navigation.None? <==> s.form.password != s.form.confirmPassword
    ensures o.navigation.None? ==> o.state.message == Some(Notice(ErrorNotice, "Passwords do not match!"))
    ensures o.navigation.Some? ==>
              o.navigation.value == VerifyEmail(s.form.email, s.category, s.selectedPass) && o.state.message.None?
  {
    if s.form.password != s.form.confirmPassword then
      Outcome(s.(loading := false, message := Some(Notice(ErrorNotice, "Passwords do not match!"))), None)
    else
      Outcome(s.(loading := false, message := None), Some(VerifyEmail(s.form.email, s.category, s.selectedPass)))
  }

  /** The control an event comes from is on screen (and enabled) in `s`. */
  predicate ControlShown(s: Wizard, e: Event) {
    match e
    case ChooseCategory(_) => s.step == 1
    case ClickPassCard(i) => i < |ShownPasses(s)|
    case SelectPassButton(i) => i < |ShownPasses(s)|
    case Back => ShowsPasses(s) || s.step == 3
    case Edit(n, _) => s.step == 3 && IsTextInput(s.category, n)
    case Pick(n, k) => s.step == 3 && k in SelectKeys(n, s.form)
    case Submit => s.step == 3
  }

  /** One event. An event whose control is not on screen changes nothing. */
  function Step(s: Wizard, e: Event): (o: Outcome)
    ensures !ControlShown(s, e) ==> o == Outcome(s, None)
    ensures e != Submit ==> o.navigation.None?
    ensures e.ChooseCategory? && s.step == 1 ==>
              o.state == s.(step := 2, category := Some(e.c))
    ensures e.ClickPassCard? && e.index < |ShownPasses(s)| ==>
              o.state == s.(selectedPass := Some(ShownPasses(s)[e.index].id))
    ensures e.SelectPassButton? && e.index < |ShownPasses(s)| ==>
              o.state == s.(selectedPass := Some(ShownPasses(s)[e.index].id), step := 3)
    ensures e == Back && ControlShown(s, e) ==> o.state == s.(step := s.step - 1)
    ensures e == Back && s.step == 1 ==> o.state == s
    ensures e.Edit? && ControlShown(s, e) ==> o.state == s.(form := HandleChange(s.form, e.field, e.value))
    ensures e.Pick? && ControlShown(s, e) ==> o.state == s.(form := HandleChange(s.form, e.field, e.key))
    ensures e.Edit? ==> o.state.form.country == s.form.country && o.state.form.state == s.form.state
    ensures e == Submit && s.step == 3 ==> o == HandleSubmit(s)
  {
    if !ControlShown(s, e) then Outcome(s, None)
    else
      match e
      case ChooseCategory(c) => Outcome(s.(category := Some(c), step := s.step + 1), None)
      case ClickPassCard(i) => Outcome(s.(selectedPass := Some(ShownPasses(s)[i].id)), None)
      case SelectPassButton(i) => Outcome(s.(selectedPass := Some(ShownPasses(s)[i].id), step := s.step + 1), None)
      case Back => Outcome(s.(step := s.step - 1), None)
      case Edit(n, v) => Outcome(s.(form := HandleChange(s.form, n, v)), None)
      case Pick(n, k) => Outcome(s.(form := HandleChange(s.form, n, k)), None)
      case Submit => HandleSubmit(s)
  }

  /** The wizard's invariant: the step stays within 1..3, a category is
      chosen before step 2, a pass before step 3, the chosen pass is in the
      chosen category's catalog, and the state matches the country. */
  predicate Valid(s: Wizard) {
    && 1 <= s.step <= 3
    && (s.step >= 2 ==> s.category.Some?)
    && (s.step == 3 ==> s.selectedPass.Some?)
    && (s.selectedPass.Some? ==> s.category.Some? && Offers(s.category.value, s.selectedPass.value))
    && StateConsistent(s.form)
  }

  lemma InitialValid()
    ensures Valid(Initial)
  {
  }

  lemma {:induction false} StepPreservesValid(s: Wizard, e: Event)
    requires Valid(s)
    ensures Valid(Step(s, e).state)
  {
    var t := Step(s, e).state;
    match e
    case ChooseCategory(c) =>
      if s.step == 1 && s.selectedPass.Some? {
        CatalogsOfferSameIds(s.category.value, s.selectedPass.value);
        CatalogsOfferSameIds(c, s.selectedPass.value);
      }
    case ClickPassCard(i) =>
      if i < |ShownPasses(s)| {
        assert Offers(t.category.value, t.selectedPass.value);
      }
    case SelectPassButton(i) =>
      if i < |ShownPasses(s)| {
        assert Offers(t.category.value, t.selectedPass.value);
      }
    case Back =>
    case Edit(n, v) =>
      assert t.form.country == s.form.country && t.form.state == s.form.state;
      assert StateOptions(t.form) == StateOptions(s.form);
    case Pick(n, k) =>
      if s.step == 3 && k in SelectKeys(n, s.form) {
        if n == State {
          assert t.form.country == s.form.country;
        } else if n == Country {
          assert t.form.state == "";
        } else {
          assert t.form.country == s.form.country && t.form.state == s.form.state;
        }
      }
    case Submit =>
  }

  /** The states after a sequence of events. */
  function Run(s: Wizard, events: seq<Event>): Wizard
    decreases |events|
  {
    if events == [] then s else Run(Step(s, events[0]).state, events[1..])
  }

  /** Every state the page can reach from its initial state is valid. */
  lemma {:induction false} RunPreservesValid(s: Wizard, events: seq<Event>)
    requires Valid(s)
    ensures Valid(Run(s, events))
    decreases |events|
  {
    if events != [] {
      StepPreservesValid(s, events[0]);
      RunPreservesValid(Step(s, events[0]).state, events[1..]);
    }
  }

  /** In a reachable state on step 3 the booking summary always finds the
      pass, and a submit with matching passwords navigates with a category
      and a pass present. */
  lemma ReachableSummaryAndNavigation(events: seq<Event>)
    ensures Run(Initial, events).step == 3 ==>
              CurrentPassDetails(Run(Initial, events).category, Run(Initial, events).selectedPass).Some?
    ensures var o := Step(Run(Initial, events), Submit);
            o.navigation.Some? ==> o.navigation.value.category.Some? && o.navigation.value.passType.Some?
  {
    InitialValid();
    RunPreservesValid(Initial, events);
  }

  /** Re-choosing the category keeps the chosen pass: a professional `full`
      pass becomes the student `full` entry after going back and choosing
      student. */
  lemma CategoryChangeKeepsPass()
    ensures var s := Run(Initial, [ChooseCategory(Professional), SelectPassButton(1), Back, Back, ChooseCategory(Student)]);
            && s.step == 2 && s.category == Some(Student) && s.selectedPass == Some(Full)
            && CurrentPassDetails(s.category, s.selectedPass) == Some(PassOptions(Student)[1])
  {
    var s1 := Step(Initial, ChooseCategory(Professional)).state;
    assert ShownPasses(s1) == PassOptions(Professional);
    var s2 := Step(s1, SelectPassButton(1)).state;
    assert s2.step == 3 && s2.selectedPass == Some(Full);
    var s5 := Run(s2, [Back, Back, ChooseCategory(Student)]);
    assert s5.step == 2 && s5.selectedPass == Some(Full);
    var es := [ChooseCategory(Professional), SelectPassButton(1), Back, Back, ChooseCategory(Student)];
    assert es[1..] == [SelectPassButton(1), Back, Back, ChooseCategory(Student)];
    assert es[1..][1..] == [Back, Back, ChooseCategory(Student)];
  }

  // ---------------------------------------------------------------------
  // Progress header

  const StepLabels: seq<string> := ["Category", "Pass Selection", "Details"]

  datatype ProgressMark = ProgressMark(caption: string, number: nat, active: bool, current: bool)

  /** The progress header: one mark per step label. */
  function Progress(step: int): (r: seq<ProgressMark>)
    ensures |r| == |StepLabels|
    ensures forall k :: 0 <= k < |r| ==> r[k].caption == StepLabels[k] && r[k].number == k + 1
    ensures forall k :: 0 <= k < |r| && r[k].current ==> r[k].active
    ensures forall i, j :: 0 <= i <= j < |r| && r[j].active ==> r[i].active
  {
    seq(|StepLabels|, k requires 0 <= k < |StepLabels| => ProgressMark(StepLabels[k], k + 1, step >= k + 1, step == k + 1))
  }

  /** How many marks satisfy `p`. */
  function CountMarks(marks: seq<ProgressMark>, p: ProgressMark -> bool): (n: nat)
    ensures n <= |marks|
  {
    if marks == [] then 0 else (if p(marks[0]) then 1 else 0) + CountMarks(marks[1..], p)
  }

  /** The header lights up as many marks as the step number, clamped to the
      three labels, and one mark is current exactly on a valid step. */
  lemma {:induction false} ProgressCounts(step: int)
    ensures CountMarks(Progress(step), (m: ProgressMark) => m.active) == if step < 0 then 0 else if step > 3 then 3 else step
    ensures CountMarks(Progress(step), (m: ProgressMark) => m.current) == if 1 <= step <= 3 then 1 else 0
  {
    var r := Progress(step);
    assert r == [ProgressMark(StepLabels[0], 1, step >= 1, step == 1),
                 ProgressMark(StepLabels[1], 2, step >= 2, step == 2),
                 ProgressMark(StepLabels[2], 3, step >= 3, step == 3)];
    assert r[1..][1..][1..] == [];
    var active := (m: ProgressMark) => m.active;
    var current := (m: ProgressMark) => m.current;
    assert CountMarks(r[1..][1..], active) == (if step >= 3 then 1 else 0);
    assert CountMarks(r[1..], active) == (if step >= 2 then 1 else 0) + (if step >= 3 then 1 else 0);
    assert CountMarks(r[1..][1..], current) == (if step == 3 then 1 else 0);
    assert CountMarks(r[1..], current) == (if step == 2 then 1 else 0) + (if step == 3 then 1 else 0);
  }
}
