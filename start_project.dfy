/** The start-project page: a three-step wizard (services, details, done)
    and, when the link names one service, a single-page form that ends in a
    `submitted` flag. Both send `{name, email, message}` to the contact-form
    function after the page's own name and email checks; the outcome of that
    call is a parameter of the submit. */
module StartProject {
  import opened Wrappers
  import opened Text
  import opened Toasts
  import ContactForm

  // ---------------------------------------------------------------------
  // Option lists
  // ---------------------------------------------------------------------

  /** An entry of one of the page's option lists. */
  datatype Choice = Choice(id: string, title: string)

  const SERVICES: seq<Choice> := [
    Choice("website", "Website"), Choice("seo", "SEO"), Choice("ads", "Meta / Google Ads"),
    Choice("social", "Social Media"), Choice("video", "Video"), Choice("notsure", "Not sure")]

  const GOALS: seq<Choice> := [
    Choice("leads", "Get more leads"), Choice("sales", "Increase sales"),
    Choice("brand", "Build brand"), Choice("presence", "Grow online presence")]

  const BUDGETS: seq<Choice> := [
    Choice("under500", "Under ₹2,999"), Choice("500-1k", "₹2,999 – ₹5,000"),
    Choice("1k+", "₹5,000+"), Choice("notsure", "Not sure")]

  const WEBSITE_GOALS: seq<Choice> := [
    Choice("leads", "Leads"), Choice("sales", "Sales"), Choice("branding", "Branding")]

  const TIMELINES: seq<Choice> := [Choice("asap", "ASAP"), Choice("flexible", "Flexible")]

  /** The services a link may name, with the label of their form. */
  const SERVICE_DETAILS: map<string, string> := map[
    "website" := "Website Development", "social" := "Social Media Management",
    "video" := "Video Editing & Reels", "content" := "Content & Scripting",
    "ads" := "Meta & Google Ads", "email" := "Email Marketing",
    "whatsapp" := "WhatsApp Marketing", "brand" := "Brand Identity"]

  const NOT_SPECIFIED := "Not specified"

  /** The index of the first entry with that id, or the length of the list. */
  function FirstWith(options: seq<Choice>, id: string): (k: nat)
    ensures k <= |options| && forall j :: 0 <= j < k ==> options[j].id != id
    ensures k < |options| ==> options[k].id == id
    decreases |options|
  {
    if options == [] || options[0].id == id then 0
    else
      var k := FirstWith(options[1..], id);
      assert forall j :: 1 <= j < k + 1 ==> options[j] == options[1..][j - 1];
      k + 1
  }

  /** `options.find(o => o.id === id)?.label`: the label of the first entry
      with that id. */
  function FindLabel(options: seq<Choice>, id: string): (r: Option<string>)
    ensures r.None? <==> forall k :: 0 <= k < |options| ==> options[k].id != id
    ensures r.Some? ==> exists k :: 0 <= k < |options| && options[k].id == id && options[k].title == r.value
                                    && forall j :: 0 <= j < k ==> options[j].id != id
  {
    var k := FirstWith(options, id);
    if k < |options| then Some(options[k].title) else None
  }

  /** `…?.label || "Not specified"`. */
  function LabelOr(options: seq<Choice>, id: string): string {
    match FindLabel(options, id)
    case Some(l) => if l != "" then l else NOT_SPECIFIED
    case None => NOT_SPECIFIED
  }

  /** `…?.label` inside `join`, which prints a missing label as nothing. */
  function ServiceLabel(id: string): string {
    FindLabel(SERVICES, id).GetOr("")
  }

  // ---------------------------------------------------------------------
  // Form state and the service toggle
  // ---------------------------------------------------------------------

  datatype FormData = FormData(services: seq<string>, goal: string, budget: string, name: string,
                               email: string, countryCode: string, phone: string, business: string,
                               timeline: string)

  const INITIAL_FORM := FormData([], "", "", "", "", "+1", "", "", "")

  /** `services.filter(s => s !== id)`. */
  function Without(services: seq<string>, id: string): (r: seq<string>)
    ensures id !in r && |r| <= |services|
    ensures forall x :: x != id ==> (x in r <==> x in services)
    ensures id !in services ==> r == services
    decreases |services|
  {
    if services == [] then []
    else
      var rest := Without(services[1..], id);
      assert services == [services[0]] + services[1..];
      if services[0] == id then rest else [services[0]] + rest
  }

  /** `handleServiceToggle`: removes every occurrence of a selected service,
      appends one that is not selected. */
  function Toggled(services: seq<string>, id: string): seq<string> {
    if id in services then Without(services, id) else services + [id]
  }

  /** Toggling flips the membership of that service and of no other. */
  lemma ToggleFlips(services: seq<string>, id: string)
    ensures id in Toggled(services, id) <==> id !in services
    ensures forall x :: x != id ==> (x in Toggled(services, id) <==> x in services)
  {
  }

  /** Toggling an unselected service twice gives back the list. */
  lemma ToggleTwice(services: seq<string>, id: string)
    requires id !in services
    ensures Toggled(Toggled(services, id), id) == services
  {
    WithoutAppended(services, id);
  }

  lemma {:induction false} WithoutAppended(services: seq<string>, id: string)
    requires id !in services
    ensures Without(services + [id], id) == services
    decreases |services|
  {
    if services == [] {
      assert [] + [id] == [id];
    } else {
      assert (services + [id])[1..] == services[1..] + [id];
      WithoutAppended(services[1..], id);
    }
  }

  predicate NoDuplicates(s: seq<string>) {
    forall i, j :: 0 <= i < j < |s| ==> s[i] != s[j]
  }

  /** A list built by toggles alone never holds a service twice. */
  lemma {:induction false} ToggleKeepsDistinct(services: seq<string>, id: string)
    requires NoDuplicates(services)
    ensures NoDuplicates(Toggled(services, id))
  {
    if id in services {
      WithoutDistinct(services, id);
    }
  }

  lemma {:induction false} WithoutDistinct(services: seq<string>, id: string)
    requires NoDuplicates(services)
    ensures NoDuplicates(Without(services, id))
    decreases |services|
  {
    if services != [] {
      WithoutDistinct(services[1..], id);
      var rest := Without(services[1..], id);
      if services[0] != id {
        assert services[0] !in services[1..];
        assert services[0] !in rest;
        var r := [services[0]] + rest;
        forall i, j | 0 <= i < j < |r| ensures r[i] != r[j] {
          if i == 0 { assert r[j] == rest[j - 1]; assert rest[j - 1] in rest; }
          else { assert r[i] == rest[i - 1] && r[j] == rest[j - 1]; }
        }
      }
    }
  }

  // ---------------------------------------------------------------------
  // Direct-service links
  // ---------------------------------------------------------------------

  /** The properties every plain object inherits from `Object.prototype`
      (ECMA-262, section 20.1.3, and the accessors of its Annex B). */
  const OBJECT_PROTOTYPE_KEYS: set<string> := {
    "constructor", "hasOwnProperty", "isPrototypeOf", "propertyIsEnumerable", "toLocaleString",
    "toString", "valueOf", "__proto__", "__defineGetter__", "__defineSetter__", "__lookupGetter__",
    "__lookupSetter__"}

  /** `serviceParam && serviceDetails[serviceParam]` as evaluated: a plain
      object literal also answers the keys it inherits, so any of those turns
      the page into a direct-service form. */
  predicate IsDirectServiceAsWritten(param: Option<string>) {
    param.Some? && param.value != "" && (param.value in SERVICE_DETAILS || param.value in OBJECT_PROTOTYPE_KEYS)
  }

  /** What the check is for: the link names one of the listed services. */
  predicate IsDirectService(param: Option<string>) {
    param.Some? && param.value in SERVICE_DETAILS
  }

  /** The two checks differ exactly on the inherited keys: `?service=toString`
      opens the single-page form for a service that does not exist, whose
      label is `undefined`. */
  lemma DirectServiceChecksDiffer(param: Option<string>)
    ensures IsDirectService(param) ==> IsDirectServiceAsWritten(param)
    ensures IsDirectServiceAsWritten(param) && !IsDirectService(param) <==>
              param.Some? && param.value in OBJECT_PROTOTYPE_KEYS
  {
    if param.Some? && param.value in OBJECT_PROTOTYPE_KEYS {
      assert param.value !in SERVICE_DETAILS;
    }
  }

  lemma InheritedKeyOpensDirectForm()
    ensures IsDirectServiceAsWritten(Some("toString")) && !IsDirectService(Some("toString"))
  {
    DirectServiceChecksDiffer(Some("toString"));
  }

  /** The form a page starts with: a direct-service link preselects its service. */
  function InitialForm(param: Option<string>): (f: FormData)
    ensures IsDirectService(param) ==> f.services == [param.value]
    ensures !IsDirectService(param) ==> f.services == []
    ensures f.(services := []) == INITIAL_FORM
  {
    if IsDirectService(param) then INITIAL_FORM.(services := [param.value]) else INITIAL_FORM
  }

  // ---------------------------------------------------------------------
  // The page's checks
  // ---------------------------------------------------------------------

  /** `!name.trim() || name.length < 2` refuses: a name passes when it has
      two characters and one of them is not whitespace (`NameAcceptedIff`). */
  predicate NameAccepted(name: string) {
    !AllSpace(name) && |name| >= 2
  }

  /** `!email.trim() || !emailRegex.test(email)` refuses; the regular
      expression is the one the contact-form function uses. */
  predicate EmailAccepted(email: string) {
    !AllSpace(email) && ContactForm.IsEmailAddress(email)
  }

  /** The name check is the page's own condition. */
  lemma NameAcceptedIff(name: string)
    ensures NameAccepted(name) <==> Trim(name) != "" && |name| >= 2
  {
    TrimEmptyIffAllSpace(name);
  }

  /** An address the pattern matches has a printed character at each end. */
  lemma PatternTrimmed(email: string)
    requires ContactForm.MatchesEmailPattern(email)
    ensures email != [] && IsTrimmed(email)
  {
    var i, j :| 0 < i && i + 1 < j && j + 1 < |email| && email[i] == '@' && email[j] == '.'
                && ContactForm.Plain(email[..i]) && ContactForm.Plain(email[i + 1..j]) && ContactForm.Plain(email[j + 1..]);
    assert email[0] == email[..i][0];
    assert email[|email| - 1] == email[j + 1..][|email| - 2 - j];
  }

  /** The email check is the page's own condition, and only the pattern
      decides it: the pattern admits no whitespace. */
  lemma EmailAcceptedIff(email: string)
    ensures EmailAccepted(email) <==> Trim(email) != "" && ContactForm.IsEmailAddress(email)
    ensures EmailAccepted(email) <==> ContactForm.MatchesEmailPattern(email)
  {
    TrimEmptyIffAllSpace(email);
    ContactForm.EmailPatternIff(email);
    if ContactForm.MatchesEmailPattern(email) {
      PatternTrimmed(email);
    }
  }

  /** Every name the contact-form function accepts passes the page's check. */
  lemma NameCheckLooserThanServer(name: string)
    ensures ContactForm.NameError(Some(name)).None? ==> NameAccepted(name)
  {
    TrimResult(name);
    TrimEmptyIffAllSpace(name);
  }

  /** The converse fails: the page counts the whitespace the function trims
      away, so ` a` is sent and then refused. */
  lemma SpacedNameSlipsThrough()
    ensures NameAccepted(" a") && ContactForm.NameError(Some(" a")) == Some(ContactForm.NameShort)
  {
    assert " a" == [' '] + "a";
    TrimPadded([' '], "a");
    assert !IsSpace(" a"[1]);
  }

  /** An address the page accepts is accepted by the contact-form function
      unless it is longer than 255 characters, which the page does not check. */
  lemma EmailCheckAgreesWithServer(email: string)
    requires EmailAccepted(email)
    ensures ContactForm.EmailError(Some(email)).None? <==> |email| <= 255
  {
    EmailAcceptedIff(email);
    PatternTrimmed(email);
    TrimOfTrimmed(email);
  }

  // ---------------------------------------------------------------------
  // The message
  // ---------------------------------------------------------------------

  /** The lines of a template literal that opens with a line break and
      closes with a line break and the indentation before `.trim()`. */
  function Template(lines: seq<string>): string {
    "\n" + Join(lines, "\n") + "\n        "
  }

  /** `message` for a direct-service link. */
  function DirectMessage(serviceLabel: string, form: FormData): string {
    Trim(Template(DirectLines(serviceLabel, form)))
  }

  function DirectLines(serviceLabel: string, form: FormData): seq<string> {
    ["Service: " + serviceLabel, "Goal: " + LabelOr(WEBSITE_GOALS, form.goal),
     "Timeline: " + LabelOr(TIMELINES, form.timeline)]
  }

  /** `fullPhone`: the country code, a space and the number, or "Not
      specified" when there is no number. */
  function FullPhone(countryCode: string, phone: string): (r: string)
    ensures phone == "" ==> r == NOT_SPECIFIED
    ensures phone != "" ==> |r| == |countryCode| + 1 + |phone| && r[..|countryCode|] == countryCode
                            && r[|countryCode|] == ' ' && r[|countryCode| + 1..] == phone
  {
    if phone != "" then countryCode + " " + phone else NOT_SPECIFIED
  }

  /** `message` for the wizard. */
  function WizardMessage(form: FormData): string {
    Trim(Template(WizardLines(form)))
  }

  function WizardLines(form: FormData): seq<string> {
    ["Services: " + Join(seq(|form.services|, k requires 0 <= k < |form.services| => ServiceLabel(form.services[k])), ", "),
     "Goal: " + LabelOr(GOALS, form.goal),
     "Budget: " + LabelOr(BUDGETS, form.budget),
     "Phone: " + FullPhone(form.countryCode, form.phone),
     "Business: " + (if form.business != "" then form.business else NOT_SPECIFIED)]
  }

  /** What the submit sends as `message`. */
  function SubmissionMessage(form: FormData, param: Option<string>): string {
    if IsDirectService(param) then DirectMessage(SERVICE_DETAILS[param.value], form) else WizardMessage(form)
  }

  /** Labels that can be printed as they are: non-empty, no whitespace at
      either end. */
  predicate PrintableLabels(options: seq<Choice>) {
    forall k :: 0 <= k < |options| ==> options[k].title != "" && IsTrimmed(options[k].title)
  }

  lemma LabelOrPrintable(options: seq<Choice>, id: string)
    requires PrintableLabels(options)
    ensures LabelOr(options, id) != "" && IsTrimmed(LabelOr(options, id))
  {
  }

  lemma TimelineLabelsPrintable()
    ensures PrintableLabels(TIMELINES)
  {
    assert TIMELINES[0].title == "ASAP" && TIMELINES[1].title == "Flexible";
  }

  /** The first character of joined lines is that of the first line. */
  lemma JoinHead(lines: seq<string>, sep: string)
    requires |lines| >= 1 && lines[0] != ""
    ensures Join(lines, sep) != [] && Join(lines, sep)[0] == lines[0][0]
  {
  }

  /** The last character of joined lines is that of the last line. */
  lemma {:induction false} JoinLast(lines: seq<string>, sep: string)
    requires |lines| >= 1 && lines[|lines| - 1] != ""
    ensures Join(lines, sep) != [] && Join(lines, sep)[|Join(lines, sep)| - 1] == lines[|lines| - 1][|lines[|lines| - 1]| - 1]
    decreases |lines|
  {
    if |lines| > 1 {
      JoinLast(lines[1..], sep);
    }
  }

  /** The message is its lines joined by line breaks, the framing of the
      template gone, when its last line ends in a printed character. */
  lemma TemplateTrimmed(lines: seq<string>)
    requires |lines| >= 1 && lines[0] != "" && !IsSpace(lines[0][0])
    requires lines[|lines| - 1] != "" && !IsSpace(lines[|lines| - 1][|lines[|lines| - 1]| - 1])
    ensures Trim(Template(lines)) == Join(lines, "\n")
  {
    JoinHead(lines, "\n");
    JoinLast(lines, "\n");
    TrimFramed("\n", Join(lines, "\n"), "\n        ");
  }

  /** A direct-service message is its three lines, service, goal and
      timeline, joined by line breaks: trimming removes only the template's
      framing. */
  lemma DirectMessageText(serviceLabel: string, form: FormData)
    ensures DirectMessage(serviceLabel, form) == Join(DirectLines(serviceLabel, form), "\n")
  {
    var lines := DirectLines(serviceLabel, form);
    var t := LabelOr(TIMELINES, form.timeline);
    TimelineLabelsPrintable();
    LabelOrPrintable(TIMELINES, form.timeline);
    assert lines[2][|lines[2]| - 1] == t[|t| - 1];
    assert lines[0][0] == 'S';
    TemplateTrimmed(lines);
  }

  /** A message whose first line starts with a printed character and whose
      second line is a goal keeps at least its first line and the goal's
      heading once trimmed. */
  lemma TemplateKeepsHead(lines: seq<string>, goal: string)
    requires |lines| >= 3 && |lines[0]| >= 5 && lines[0][0] == 'S'
    requires lines[1] == "Goal: " + goal
    ensures |Trim(Template(lines))| >= 11
  {
    var tail := Join(lines[2..], "\n");
    assert lines[1..][1..] == lines[2..];
    assert Join(lines[1..], "\n") == lines[1] + "\n" + tail;
    var s := lines[0] + "\nGoal:";
    var rest := " " + goal + "\n" + tail + "\n        ";
    assert Template(lines) == "\n" + s + rest;
    assert s[|s| - 1] == ':';
    TrimKeepsPrefix("\n", s, rest);
  }

  /** Whatever the form holds, the message the page sends is never refused
      by the contact form as too short. */
  lemma MessageNeverShort(form: FormData, param: Option<string>)
    ensures ContactForm.MessageError(Some(SubmissionMessage(form, param))) != Some(ContactForm.MessageShort)
  {
    var lines := if IsDirectService(param) then DirectLines(SERVICE_DETAILS[param.value], form) else WizardLines(form);
    if IsDirectService(param) {
      TemplateKeepsHead(lines, LabelOr(WEBSITE_GOALS, form.goal));
    } else {
      TemplateKeepsHead(lines, LabelOr(GOALS, form.goal));
    }
    var msg := SubmissionMessage(form, param);
    assert msg == Trim(Template(lines));
    TrimResult(Template(lines));
    TrimOfTrimmed(msg);
  }

  // ---------------------------------------------------------------------
  // The page
  // ---------------------------------------------------------------------

  /** The toasts the page raises, all of them destructive. */
  datatype Notice = NoService | NoName | NoEmail | Failed

  function NoticeToast(n: Notice): (t: Toast)
    ensures t.destructive && t.title != ""
  {
    match n
    case NoService => Toast("Please select at least one service", "", true)
    case NoName => Toast("Please enter your name", "", true)
    case NoEmail => Toast("Please enter a valid email or phone", "", true)
    case Failed => Toast("Something went wrong", "Please try again or contact us directly.", true)
  }

  /** The body the page sends to the contact-form function. */
  function Request(form: FormData, param: Option<string>): ContactForm.Body {
    ContactForm.Fields(Some(form.name), Some(form.email), Some(SubmissionMessage(form, param)))
  }

  class StartProjectPage {
    var step: int
    var isSubmitting: bool
    var submitted: bool
    var form: FormData
    /** The toasts raised, oldest first, as the notices `NoticeToast` words. */
    var toasts: seq<Notice>
    /** The bodies passed to the contact-form function, oldest first. */
    var sent: seq<ContactForm.Body>
    /** The `service` search parameter of the page's address. */
    const serviceParam: Option<string>

    /** The wizard is on one of its three steps; only a direct-service page
        is ever marked submitted, and only the wizard reaches its last step. */
    predicate Valid()
      reads this
    {
      1 <= step <= 3
      && (submitted ==> IsDirectService(serviceParam))
      && (step == 3 ==> !IsDirectService(serviceParam))
    }

    /** The first render together with the mount effect, which pre-selects
        a service named by the link. */
    constructor (serviceParam: Option<string>)
      ensures Valid()
      ensures step == 1 && !isSubmitting && !submitted && toasts == [] && sent == []
      ensures form == InitialForm(serviceParam) && this.serviceParam == serviceParam
    {
      step, isSubmitting, submitted := 1, false, false;
      form := InitialForm(serviceParam);
      toasts, sent := [], [];
      this.serviceParam := serviceParam;
    }

    /** `handleServiceToggle`. */
    method ToggleService(id: string)
      requires Valid()
      modifies this`form
      ensures Valid()
      ensures form == old(form).(services := Toggled(old(form).services, id))
      ensures id in form.services <==> id !in old(form.services)
    {
      ToggleFlips(form.services, id);
      form := form.(services := Toggled(form.services, id));
    }

    /** `handleNext`: refuses to leave the first step with no service
        selected. */
    method Next()
      requires Valid()
      modifies this`step, this`toasts
      ensures Valid()
      ensures old(step) == 1 && form.services == [] ==> step == old(step) && toasts == old(toasts) + [NoService]
      ensures !(old(step) == 1 && form.services == []) ==> step == 2 && toasts == old(toasts)
    {
      if step == 1 && |form.services| == 0 {
        toasts := toasts + [NoService];
        return;
      }
      step := 2;
    }

    /** `handleBack`. */
    method Back()
      requires Valid()
      modifies this`step
      ensures Valid() && step == 1
    {
      step := 1;
    }

    /** `handleSubmit`: the page's name and email checks, then one call of
        the contact-form function, which fails when `fails` holds. */
    method HandleSubmit(fails: bool)
      requires Valid()
      modifies this`step, this`isSubmitting, this`submitted, this`toasts, this`sent
      ensures Valid()
      ensures !NameAccepted(form.name) ==>
        toasts == old(toasts) + [NoName] && sent == old(sent)
        && step == old(step) && submitted == old(submitted) && isSubmitting == old(isSubmitting)
      ensures NameAccepted(form.name) && !EmailAccepted(form.email) ==>
        toasts == old(toasts) + [NoEmail] && sent == old(sent)
        && step == old(step) && submitted == old(submitted) && isSubmitting == old(isSubmitting)
      ensures NameAccepted(form.name) && EmailAccepted(form.email) ==>
        Sent(old(step), old(submitted), old(toasts), old(sent), Request(form, serviceParam), fails)
    {
      if !NameAccepted(form.name) {
        toasts := toasts + [NoName];
        return;
      }
      if !EmailAccepted(form.email) {
        toasts := toasts + [NoEmail];
        return;
      }
      Send(Request(form, serviceParam), fails);
    }

    /** The state after the submit sent `body` to the contact-form
        function, from the state before it: the body is recorded and, on
        failure, a toast raised; on success the direct form is marked
        submitted and the wizard moves to its last step. */
    predicate Sent(step0: int, submitted0: bool, toasts0: seq<Notice>, sent0: seq<ContactForm.Body>,
                   body: ContactForm.Body, fails: bool)
      reads this
    {
      sent == sent0 + [body] && !isSubmitting
      && (fails ==> toasts == toasts0 + [Failed] && step == step0 && submitted == submitted0)
      && (!fails && IsDirectService(serviceParam) ==> submitted && step == step0 && toasts == toasts0)
      && (!fails && !IsDirectService(serviceParam) ==> step == 3 && submitted == submitted0 && toasts == toasts0)
    }

    /** The part of `handleSubmit` after the checks: `body` goes to the
        contact-form function, which fails when `fails` holds. */
    method Send(body: ContactForm.Body, fails: bool)
      requires Valid()
      modifies this`step, this`isSubmitting, this`submitted, this`toasts, this`sent
      ensures Valid() && Sent(old(step), old(submitted), old(toasts), old(sent), body, fails)
    {
      isSubmitting := true;
      sent := sent + [body];
      if fails {
        toasts := toasts + [Failed];
      } else if IsDirectService(serviceParam) {
        submitted := true;
      } else {
        step := 3;
      }
      isSubmitting := false;
    }
  }

  /** A body the page sends always carries a name, an address and a message
      that is never too short for the contact-form function, and an address
      it accepts whenever it is no longer than 255 characters. */
  lemma SentBodyChecks(form: FormData, param: Option<string>)
    requires NameAccepted(form.name) && EmailAccepted(form.email)
    ensures Request(form, param).Fields?
    ensures ContactForm.MessageError(Request(form, param).message) != Some(ContactForm.MessageShort)
    ensures ContactForm.EmailError(Request(form, param).email).None? <==> |form.email| <= 255
  {
    MessageNeverShort(form, param);
    EmailCheckAgreesWithServer(form.email);
  }
}
