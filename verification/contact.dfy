/** The contact section: a contact form whose submit shows "sending", then
    after a delay "success" with the fields cleared, then idle again; and a
    newsletter form that posts the e-mail to `/send-email` and shows
    "subscribing", then "success" (clearing the e-mail) or idle again.
    Timers and the fetch are explicit events: a timer event only fires when
    one is pending, a fetch settles only when one is in flight. */
module Contact {
  import opened Common
  import Server

  // ---------------------------------------------------------------------
  // Contact form

  datatype Entry = NameEntry | EmailEntry | PhoneEntry | SubjectEntry | MessageEntry

  /** The form field name each entry is posted under. */
  function EntryKey(e: Entry): string {
    match e
    case NameEntry => "entry.1331908454"
    case EmailEntry => "entry.299383262"
    case PhoneEntry => "entry.1599555423"
    case SubjectEntry => "entry.1708222522"
    case MessageEntry => "entry.1480851550"
  }

  lemma EntryKeysDistinct(a: Entry, b: Entry)
    ensures EntryKey(a) == EntryKey(b) ==> a == b
  {
  }

  datatype ContactForm = ContactForm(name: string, email: string, phone: string, subject: string, message: string)

  const EmptyContactForm: ContactForm := ContactForm("", "", "", "", "")

  function EntryValue(f: ContactForm, e: Entry): string {
    match e
    case NameEntry => f.name
    case EmailEntry => f.email
    case PhoneEntry => f.phone
    case SubjectEntry => f.subject
    case MessageEntry => f.message
  }

  /** `handleContactChange`: only the named entry changes. */
  function HandleContactChange(f: ContactForm, e: Entry, v: string): (r: ContactForm)
    ensures EntryValue(r, e) == v
    ensures forall o: Entry :: o != e ==> EntryValue(r, o) == EntryValue(f, o)
  {
    match e
    case NameEntry => f.(name := v)
    case EmailEntry => f.(email := v)
    case PhoneEntry => f.(phone := v)
    case SubjectEntry => f.(subject := v)
    case MessageEntry => f.(message := v)
  }

  datatype ContactStatus = ContactIdle | Sending | ContactSuccess

  /** The form, its status, and the timers not yet fired: the 1.5 s send
      timers and the 3 s reset timers. */
  datatype ContactState = ContactState(form: ContactForm, status: ContactStatus, sendTimers: nat, resetTimers: nat)

  const InitialContact: ContactState := ContactState(EmptyContactForm, ContactIdle, 0, 0)

  datatype ContactEvent = EditEntry(entry: Entry, value: string) | SubmitContact | SendTimerFires | ResetTimerFires

  /** The submit button is disabled exactly while sending. */
  predicate ContactSubmitDisabled(s: ContactState) {
    s.status == Sending
  }

  /** The state after an event, and the entries posted to the form target
      when the event is a submit that went through. */
  datatype ContactStep = ContactStep(state: ContactState, posted: Option<ContactForm>)

  function ContactDispatch(s: ContactState, ev: ContactEvent): (r: ContactStep)
    ensures ev.EditEntry? ==> r.state == s.(form := HandleContactChange(s.form, ev.entry, ev.value))
    ensures ev == SubmitContact ==> (r.posted.Some? <==> !ContactSubmitDisabled(s))
    ensures ev == SubmitContact && !ContactSubmitDisabled(s) ==>
              r.posted == Some(s.form) && r.state.status == Sending && r.state.form == s.form
              && r.state.sendTimers == s.sendTimers + 1 && r.state.resetTimers == s.resetTimers
    ensures ev == SendTimerFires && s.sendTimers > 0 ==>
              r.state.status == ContactSuccess && r.state.form == EmptyContactForm
              && r.state.sendTimers == s.sendTimers - 1 && r.state.resetTimers == s.resetTimers + 1
    ensures ev == ResetTimerFires && s.resetTimers > 0 ==>
              r.state.status == ContactIdle && r.state.form == s.form
              && r.state.sendTimers == s.sendTimers && r.state.resetTimers == s.resetTimers - 1
    ensures ev != SubmitContact ==> r.posted.None?
    ensures ((ev == SubmitContact && ContactSubmitDisabled(s)) || (ev == SendTimerFires && s.sendTimers == 0)
             || (ev == ResetTimerFires && s.resetTimers == 0)) ==> r.state == s
  {
    match ev
    case EditEntry(e, v) => ContactStep(s.(form := HandleContactChange(s.form, e, v)), None)
    case SubmitContact =>
      if ContactSubmitDisabled(s) then ContactStep(s, None)
      else ContactStep(s.(status := Sending, sendTimers := s.sendTimers + 1), Some(s.form))
    case SendTimerFires =>
      if s.sendTimers == 0 then ContactStep(s, None)
      else ContactStep(ContactState(EmptyContactForm, ContactSuccess, s.sendTimers - 1, s.resetTimers + 1), None)
    case ResetTimerFires =>
      if s.resetTimers == 0 then ContactStep(s, None)
      else ContactStep(s.(status := ContactIdle, resetTimers := s.resetTimers - 1), None)
  }

  /** A non-idle status always has a pending timer that will move it on. */
  predicate ContactSettles(s: ContactState) {
    && (s.status == Sending ==> s.sendTimers > 0)
    && (s.status == ContactSuccess ==> s.resetTimers > 0)
  }

  function RunContact(s: ContactState, evs: seq<ContactEvent>): ContactState
    decreases |evs|
  {
    if evs == [] then s else RunContact(ContactDispatch(s, evs[0]).state, evs[1..])
  }

  lemma {:induction false} ContactAlwaysSettles(s: ContactState, evs: seq<ContactEvent>)
    requires ContactSettles(s)
    ensures ContactSettles(RunContact(s, evs))
    decreases |evs|
  {
    if evs != [] {
      var t := ContactDispatch(s, evs[0]).state;
      assert ContactSettles(t);
      ContactAlwaysSettles(t, evs[1..]);
    }
  }

  /** From the initial form, every run keeps a pending timer behind a
      non-idle status. */
  lemma InitialContactSettles(evs: seq<ContactEvent>)
    ensures ContactSettles(RunContact(InitialContact, evs))
  {
    ContactAlwaysSettles(InitialContact, evs);
  }

  /** A submit, its send timer and its reset timer, with no other event in
      between, end idle with all five entries empty. */
  lemma ContactRoundTrip(s: ContactState)
    requires s.status == ContactIdle && s.sendTimers == 0
    ensures var t := RunContact(s, [SubmitContact, SendTimerFires, ResetTimerFires]);
            t.status == ContactIdle && t.form == EmptyContactForm && t.resetTimers == s.resetTimers
  {
    var evs := [SubmitContact, SendTimerFires, ResetTimerFires];
    assert evs[1..] == [SendTimerFires, ResetTimerFires];
    assert evs[1..][1..] == [ResetTimerFires];
  }

  // ---------------------------------------------------------------------
  // Newsletter form

  datatype NewsletterStatus = NewsletterIdle | Subscribing | Subscribed

  /** The typed e-mail, the status, the fetches in flight and the 5 s reset
      timers not yet fired. */
  datatype Newsletter = Newsletter(email: string, status: NewsletterStatus, inFlight: nat, resetTimers: nat)

  const InitialNewsletter: Newsletter := Newsletter("", NewsletterIdle, 0, 0)

  /** How a fetch settles: a response with `ok`, one without, or a thrown
      error (server unreachable). */
  datatype FetchResult = ResponseOk | ResponseNotOk | NetworkError

  datatype NewsletterEvent = TypeEmail(value: string) | SubmitNewsletter | FetchSettles(result: FetchResult) | NewsletterResetFires

  predicate NewsletterSubmitDisabled(s: Newsletter) {
    s.status == Subscribing
  }

  /** The state after an event, and the body of the `/send-email` request
      when the event is a submit that went through. */
  datatype NewsletterStep = NewsletterStep(state: Newsletter, request: Option<Object>)

  function NewsletterDispatch(s: Newsletter, ev: NewsletterEvent): (r: NewsletterStep)
    ensures ev.TypeEmail? ==> r.state == s.(email := ev.value)
    ensures ev == SubmitNewsletter ==> (r.request.Some? <==> !NewsletterSubmitDisabled(s))
    ensures ev == SubmitNewsletter && !NewsletterSubmitDisabled(s) ==>
              r.request == Some(map["email" := Str(s.email)]) && r.state.status == Subscribing
              && r.state.email == s.email && r.state.inFlight == s.inFlight + 1
              && r.state.resetTimers == s.resetTimers
    ensures ev == FetchSettles(ResponseOk) && s.inFlight > 0 ==>
              r.state.status == Subscribed && r.state.email == ""
              && r.state.inFlight == s.inFlight - 1 && r.state.resetTimers == s.resetTimers + 1
    ensures ev.FetchSettles? && ev.result != ResponseOk && s.inFlight > 0 ==>
              r.state.status == NewsletterIdle && r.state.email == s.email
              && r.state.inFlight == s.inFlight - 1 && r.state.resetTimers == s.resetTimers
    ensures ev == NewsletterResetFires && s.resetTimers > 0 ==>
              r.state.status == NewsletterIdle && r.state.email == s.email
              && r.state.inFlight == s.inFlight && r.state.resetTimers == s.resetTimers - 1
    ensures ev != SubmitNewsletter ==> r.request.None?
    ensures ((ev == SubmitNewsletter && NewsletterSubmitDisabled(s)) || (ev.FetchSettles? && s.inFlight == 0)
             || (ev == NewsletterResetFires && s.resetTimers == 0)) ==> r.state == s
  {
    match ev
    case TypeEmail(v) => NewsletterStep(s.(email := v), None)
    case SubmitNewsletter =>
      if NewsletterSubmitDisabled(s) then NewsletterStep(s, None)
      else NewsletterStep(s.(status := Subscribing, inFlight := s.inFlight + 1), Some(map["email" := Str(s.email)]))
    case FetchSettles(res) =>
      if s.inFlight == 0 then NewsletterStep(s, None)
      else if res == ResponseOk then
        NewsletterStep(Newsletter("", Subscribed, s.inFlight - 1, s.resetTimers + 1), None)
      else
        NewsletterStep(s.(status := NewsletterIdle, inFlight := s.inFlight - 1), None)
    case NewsletterResetFires =>
      if s.resetTimers == 0 then NewsletterStep(s, None)
      else NewsletterStep(s.(status := NewsletterIdle, resetTimers := s.resetTimers - 1), None)
  }

  predicate NewsletterSettles(s: Newsletter) {
    && (s.status == Subscribing ==> s.inFlight > 0)
    && (s.status == Subscribed ==> s.resetTimers > 0)
  }

  function RunNewsletter(s: Newsletter, evs: seq<NewsletterEvent>): Newsletter
    decreases |evs|
  {
    if evs == [] then s else RunNewsletter(NewsletterDispatch(s, evs[0]).state, evs[1..])
  }

  lemma {:induction false} NewsletterAlwaysSettles(s: Newsletter, evs: seq<NewsletterEvent>)
    requires NewsletterSettles(s)
    ensures NewsletterSettles(RunNewsletter(s, evs))
    decreases |evs|
  {
    if evs != [] {
      var t := NewsletterDispatch(s, evs[0]).state;
      assert NewsletterSettles(t);
      NewsletterAlwaysSettles(t, evs[1..]);
    }
  }

  /** From the initial form, every run keeps a pending request or timer
      behind a non-idle status. */
  lemma InitialNewsletterSettles(evs: seq<NewsletterEvent>)
    ensures NewsletterSettles(RunNewsletter(InitialNewsletter, evs))
  {
    NewsletterAlwaysSettles(InitialNewsletter, evs);
  }

  /** How `fetch` reports a backend response: `ok` means a 2xx status. */
  function FetchResultOf(resp: Server.Response): (res: FetchResult)
    ensures res != NetworkError
    ensures res == ResponseOk <==> 200 <= resp.status < 300
  {
    if 200 <= resp.status < 300 then ResponseOk else ResponseNotOk
  }

  /** Against the `/send-email` handler, a newsletter request succeeds exactly
      when the typed e-mail is non-empty and the mail goes out. */
  lemma NewsletterAgainstServer(s: Newsletter, mail: Server.MailOutcome)
    requires !NewsletterSubmitDisabled(s)
    ensures var req := NewsletterDispatch(s, SubmitNewsletter).request.value;
            FetchResultOf(Server.SendEmail(req, mail)) == ResponseOk <==> s.email != "" && mail == Server.MailSent
  {
    var req := NewsletterDispatch(s, SubmitNewsletter).request.value;
    assert Get(req, "email") == Str(s.email);
  }

  /** A reset timer is never cancelled: one left over from an earlier success
      can return the status to idle, re-enabling the button, while a later
      request is still in flight. */
  lemma StaleResetTimerReenablesSubmit()
    ensures var s := RunNewsletter(InitialNewsletter,
                       [TypeEmail("a@b.c"), SubmitNewsletter, FetchSettles(ResponseOk),
                        TypeEmail("d@e.f"), SubmitNewsletter, NewsletterResetFires]);
            s.status == NewsletterIdle && s.inFlight == 1 && !NewsletterSubmitDisabled(s)
  {
    var evs := [TypeEmail("a@b.c"), SubmitNewsletter, FetchSettles(ResponseOk),
                TypeEmail("d@e.f"), SubmitNewsletter, NewsletterResetFires];
    var s1 := NewsletterDispatch(InitialNewsletter, evs[0]).state;
    assert evs[1..] == [SubmitNewsletter, FetchSettles(ResponseOk), TypeEmail("d@e.f"), SubmitNewsletter, NewsletterResetFires];
    var s2 := NewsletterDispatch(s1, SubmitNewsletter).state;
    assert evs[1..][1..] == [FetchSettles(ResponseOk), TypeEmail("d@e.f"), SubmitNewsletter, NewsletterResetFires];
    var s3 := NewsletterDispatch(s2, FetchSettles(ResponseOk)).state;
    assert s3 == Newsletter("", Subscribed, 0, 1);
    assert evs[1..][1..][1..] == [TypeEmail("d@e.f"), SubmitNewsletter, NewsletterResetFires];
    assert evs[1..][1..][1..][1..] == [SubmitNewsletter, NewsletterResetFires];
    assert evs[1..][1..][1..][1..][1..] == [NewsletterResetFires];
  }
}
