/** The admin login page: the lockout message, the credential check, the
    submit flow that consults and feeds the rate limiter, and the warnings
    shown above the form. `signIn` is foreign: its outcome and the time it
    returns are parameters of the submit. */
module Auth {
  import opened Wrappers
  import opened Text
  import opened RateLimiter
  import opened Toasts

  // ---------------------------------------------------------------------
  // formatLockoutTime
  // ---------------------------------------------------------------------

  /** `Math.ceil(a / b)` for a positive divisor: the least `q` with
      `a <= q * b`. */
  function CeilDiv(a: int, b: int): (q: int)
    requires b >= 1
    ensures (q - 1) * b < a <= q * b
  {
    -((-a) / b)
  }

  /** The ceiling is the only integer with that property. */
  lemma CeilDivUnique(a: int, m: int, q: int)
    requires m >= 1 && (q - 1) * m < a <= q * m
    ensures q == CeilDiv(a, m)
  {
    var p := CeilDiv(a, m);
    if p < q {
      MulMonotone(p, q - 1, m);
      assert false;
    } else if q < p {
      MulMonotone(q, p - 1, m);
      assert false;
    }
  }

  /** Rounding up to seconds and then to minutes is rounding up to minutes. */
  lemma CeilDivNested(a: int, b: int, c: int)
    requires b >= 1 && c >= 1
    ensures CeilDiv(CeilDiv(a, b), c) == CeilDiv(a, b * c)
  {
    var q1 := CeilDiv(a, b);
    var q2 := CeilDiv(q1, c);
    MulMonotone(q1, q2 * c, b);
    assert q2 * c * b == q2 * (b * c);
    MulMonotone((q2 - 1) * c, q1 - 1, b);
    assert (q2 - 1) * c * b == (q2 - 1) * (b * c);
    CeilDivUnique(a, b * c, q2);
  }

  /** `formatLockoutTime(ms)`. */
  function FormatLockoutTime(ms: int): string {
    var seconds := CeilDiv(ms, 1000);
    if seconds < 60 then IntToString(seconds) + " seconds"
    else
      var minutes := CeilDiv(seconds, 60);
      IntToString(minutes) + " minute" + (if minutes > 1 then "s" else "")
  }

  /** Up to 59 s the wait is given in whole seconds, rounded up. */
  lemma LockoutTimeSeconds(ms: int)
    requires 0 <= ms <= 59000
    ensures var s := CeilDiv(ms, 1000);
      0 <= s < 60 && s * 1000 - 1000 < ms <= s * 1000
      && FormatLockoutTime(ms) == NatToString(s) + " seconds"
  {
    var s := CeilDiv(ms, 1000);
    if s >= 60 {
      MulMonotone(59, s - 1, 1000);
      assert false;
    }
    if s < 0 {
      MulMonotone(s, -1, 1000);
      assert false;
    }
  }

  /** Above 59 s the wait is given in whole minutes, rounded up from the
      milliseconds, singular for exactly one minute. */
  lemma LockoutTimeMinutes(ms: int)
    requires ms > 59000
    ensures var m := CeilDiv(ms, 60000);
      m >= 1 && m * 60000 - 60000 < ms <= m * 60000
      && FormatLockoutTime(ms) == NatToString(m) + " minute" + (if m > 1 then "s" else "")
  {
    var s := CeilDiv(ms, 1000);
    if s < 60 {
      MulMonotone(s, 59, 1000);
      assert false;
    }
    CeilDivNested(ms, 1000, 60);
    var m := CeilDiv(ms, 60000);
    if m < 1 {
      MulMonotone(m, 0, 60000);
      assert false;
    }
  }

  /** The default lockout durations read as 30 seconds, 1 minute, 5 minutes
      and 15 minutes. */
  lemma DefaultDurationsFormatted()
    ensures FormatLockoutTime(30000) == "30 seconds"
    ensures FormatLockoutTime(60000) == "1 minute"
    ensures FormatLockoutTime(300000) == "5 minutes"
    ensures FormatLockoutTime(900000) == "15 minutes"
  {
    ThirtySeconds();
    OneMinute();
    FiveMinutes();
    FifteenMinutes();
  }

  lemma ThirtySeconds()
    ensures FormatLockoutTime(30000) == "30 seconds"
  {
    assert CeilDiv(30000, 1000) == 30;
    assert NatToString(30) == NatToString(3) + [DigitChar(0)] == "30";
  }

  lemma OneMinute()
    ensures FormatLockoutTime(60000) == "1 minute"
  {
    assert CeilDiv(60000, 1000) == 60 && CeilDiv(60, 60) == 1;
    assert NatToString(1) == "1";
  }

  lemma FiveMinutes()
    ensures FormatLockoutTime(300000) == "5 minutes"
  {
    assert CeilDiv(300000, 1000) == 300 && CeilDiv(300, 60) == 5;
    assert NatToString(5) == "5";
  }

  lemma FifteenMinutes()
    ensures FormatLockoutTime(900000) == "15 minutes"
  {
    assert CeilDiv(900000, 1000) == 900 && CeilDiv(900, 60) == 15;
    assert NatToString(15) == NatToString(1) + [DigitChar(5)] == "15";
  }

  // ---------------------------------------------------------------------
  // The credential schema
  // ---------------------------------------------------------------------

  datatype Field = EmailField | PasswordField

  /** One zod issue: the field it is about and its message. */
  datatype Issue = Issue(path: Field, message: string)

  /** The email checks in schema order: `min(1)`, `email()`, `max(255)`;
      zod reports every failing check. `isEmail` is zod's email test. */
  function EmailIssues(email: string, isEmail: string -> bool): seq<Issue> {
    (if |email| < 1 then [Issue(EmailField, "Email is required")] else [])
    + (if !isEmail(email) then [Issue(EmailField, "Invalid email format")] else [])
    + (if |email| > 255 then [Issue(EmailField, "Email too long")] else [])
  }

  /** The password checks: `min(1)`, `max(100)`. */
  function PasswordIssues(password: string): seq<Issue> {
    (if |password| < 1 then [Issue(PasswordField, "Password is required")] else [])
    + (if |password| > 100 then [Issue(PasswordField, "Password too long")] else [])
  }

  /** `authSchema.safeParse({ email, password })`: the issues, email first. */
  function AuthIssues(email: string, password: string, isEmail: string -> bool): seq<Issue> {
    EmailIssues(email, isEmail) + PasswordIssues(password)
  }

  /** The credentials pass exactly when both fields meet every check. */
  lemma AuthIssuesEmptyIff(email: string, password: string, isEmail: string -> bool)
    ensures AuthIssues(email, password, isEmail) == [] <==>
      1 <= |email| <= 255 && isEmail(email) && 1 <= |password| <= 100
  {
  }

  datatype FieldErrors = FieldErrors(email: Option<string>, password: Option<string>)

  const NO_ERRORS: FieldErrors := FieldErrors(None, None)

  /** The message of the last issue about `f`, if any. */
  function LastMessage(issues: seq<Issue>, f: Field): Option<string>
    decreases |issues|
  {
    if issues == [] then None
    else if issues[|issues| - 1].path == f then Some(issues[|issues| - 1].message)
    else LastMessage(issues[..|issues| - 1], f)
  }

  /** The `forEach` that fills the field errors: a later issue about a field
      overwrites an earlier one. */
  method CollectFieldErrors(issues: seq<Issue>) returns (fe: FieldErrors)
    ensures fe == FieldErrors(LastMessage(issues, EmailField), LastMessage(issues, PasswordField))
  {
    fe := NO_ERRORS;
    var i := 0;
    while i < |issues|
      invariant 0 <= i <= |issues|
      invariant fe == FieldErrors(LastMessage(issues[..i], EmailField), LastMessage(issues[..i], PasswordField))
    {
      var err := issues[i];
      assert issues[..i + 1][..i] == issues[..i];
      if err.path == EmailField {
        fe := fe.(email := Some(err.message));
      }
      if err.path == PasswordField {
        fe := fe.(password := Some(err.message));
      }
      i := i + 1;
    }
    assert issues[..|issues|] == issues;
  }

  /** The message shown under each field: the last failing check wins, so an
      over-long address is "Email too long" and a malformed one "Invalid email
      format" even when it is also empty. */
  lemma FieldMessages(email: string, password: string, isEmail: string -> bool)
    ensures var issues := AuthIssues(email, password, isEmail);
      LastMessage(issues, EmailField) ==
        (if |email| > 255 then Some("Email too long")
         else if !isEmail(email) then Some("Invalid email format")
         else if |email| < 1 then Some("Email is required")
         else None)
      && LastMessage(issues, PasswordField) ==
        (if |password| > 100 then Some("Password too long")
         else if |password| < 1 then Some("Password is required")
         else None)
  {
    var e := EmailIssues(email, isEmail);
    var p := PasswordIssues(password);
    assert forall k :: 0 <= k < |e| ==> e[k].path == EmailField;
    assert forall k :: 0 <= k < |p| ==> p[k].path == PasswordField;
    LastMessageAppend(e, p, EmailField);
    LastMessageAppend(e, p, PasswordField);
    EmailMessage(email, isEmail);
    PasswordMessage(password);
  }

  lemma EmailMessage(email: string, isEmail: string -> bool)
    ensures LastMessage(EmailIssues(email, isEmail), EmailField) ==
      (if |email| > 255 then Some("Email too long")
       else if !isEmail(email) then Some("Invalid email format")
       else if |email| < 1 then Some("Email is required")
       else None)
  {
    var a: seq<Issue> := if |email| < 1 then [Issue(EmailField, "Email is required")] else [];
    var b: seq<Issue> := if !isEmail(email) then [Issue(EmailField, "Invalid email format")] else [];
    var c: seq<Issue> := if |email| > 255 then [Issue(EmailField, "Email too long")] else [];
    assert EmailIssues(email, isEmail) == a + b + c;
    if c == [] {
      assert a + b + c == a + b;
      if b == [] {
        assert a + b == a;
      } else {
        assert (a + b)[|a + b| - 1] == b[0];
      }
    } else {
      assert (a + b + c)[|a + b + c| - 1] == c[0];
    }
  }

  lemma PasswordMessage(password: string)
    ensures LastMessage(PasswordIssues(password), PasswordField) ==
      (if |password| > 100 then Some("Password too long")
       else if |password| < 1 then Some("Password is required")
       else None)
  {
    var a: seq<Issue> := if |password| < 1 then [Issue(PasswordField, "Password is required")] else [];
    var b: seq<Issue> := if |password| > 100 then [Issue(PasswordField, "Password too long")] else [];
    assert PasswordIssues(password) == a + b;
    if b == [] {
      assert a + b == a;
    } else {
      assert (a + b)[|a + b| - 1] == b[0];
    }
  }

  /** Issues appended after the last one about `f` leave its message alone
      when none of them is about `f`. */
  lemma {:induction false} LastMessageAppend(a: seq<Issue>, b: seq<Issue>, f: Field)
    ensures (forall k :: 0 <= k < |b| ==> b[k].path != f) ==> LastMessage(a + b, f) == LastMessage(a, f)
    ensures (forall k :: 0 <= k < |a| ==> a[k].path != f) ==> LastMessage(a + b, f) == LastMessage(b, f)
    decreases |b|
  {
    if b != [] {
      assert (a + b)[..|a + b| - 1] == a + b[..|b| - 1];
      LastMessageAppend(a, b[..|b| - 1], f);
    } else {
      assert a + b == a;
      LastMessageNone(a, f);
    }
  }

  lemma {:induction false} LastMessageNone(a: seq<Issue>, f: Field)
    ensures (forall k :: 0 <= k < |a| ==> a[k].path != f) ==> LastMessage(a, f) == None
    decreases |a|
  {
    if a != [] {
      LastMessageNone(a[..|a| - 1], f);
    }
  }

  // ---------------------------------------------------------------------
  // The attempts warning
  // ---------------------------------------------------------------------

  /** "<count> attempt(s) remaining before temporary lockout". */
  function AttemptsText(count: string, plural: bool): string {
    count + " attempt" + (if plural then "s" else "") + " remaining before temporary lockout"
  }

  /** The warning above the form as the page writes it: shown when not locked
      and more than two attempts failed, counting `5 - attempts`. */
  function AttemptsWarningAsWritten(locked: bool, attempts: int): Option<string> {
    if !locked && attempts > 2 then
      var left := 5 - attempts;
      Some(AttemptsText(IntToString(left), left != 1))
    else None
  }

  /** The limiter keeps the count when a lockout expires, so once a second
      lockout (the sixth failure) has expired the page is unlocked with six
      attempts, and the warning counts minus one. */
  lemma AttemptsWarningGoesNegative()
    ensures var c := FullConfig(AUTH_OVERRIDES);
      var s := AfterFailures(INITIAL, c, [10000000, 10000001, 10000002, 10000003, 10000004, 10040000]);
      var cleared := ClearExpired(s, 10080000);
      !LockedAt(cleared, 10080000) && cleared.attempts == 6
      && AttemptsWarningAsWritten(LockedAt(cleared, 10080000), cleared.attempts)
         == Some(AttemptsText("-1", true))
  {
    SixthFailureTrace();
    SixAttemptsWarning();
  }

  /** Five quick failures lock for 30 s; a sixth after that lock ends locks
      again, and once that lock has passed the state is unlocked at six. */
  lemma SixthFailureTrace()
    ensures var c := FullConfig(AUTH_OVERRIDES);
      var s := AfterFailures(INITIAL, c, [10000000, 10000001, 10000002, 10000003, 10000004, 10040000]);
      var cleared := ClearExpired(s, 10080000);
      !LockedAt(cleared, 10080000) && cleared.attempts == 6
  {
    var c := FullConfig(AUTH_OVERRIDES);
    var s1 := AfterFailure(INITIAL, c, 10000000);
    var s2 := AfterFailure(s1, c, 10000001);
    var s3 := AfterFailure(s2, c, 10000002);
    var s4 := AfterFailure(s3, c, 10000003);
    var s5 := AfterFailure(s4, c, 10000004);
    assert s5.attempts == 5;
    assert LockoutIndex(5, c) == 0;
    var s6 := AfterFailure(s5, c, 10040000);
    assert s6.attempts == 6;
    assert LockoutIndex(6, c) == 0;
    assert s6.lockoutUntil == Some(10070000);
    var times := [10000000, 10000001, 10000002, 10000003, 10000004, 10040000];
    assert AfterFailures(INITIAL, c, times) == AfterFailures(s1, c, times[1..]);
    assert times[1..][1..] == times[2..] && times[2..][1..] == times[3..];
    assert times[3..][1..] == times[4..] && times[4..][1..] == times[5..] && times[5..][1..] == [];
    assert AfterFailures(s1, c, times[1..]) == AfterFailures(s2, c, times[2..]);
    assert AfterFailures(s2, c, times[2..]) == AfterFailures(s3, c, times[3..]);
    assert AfterFailures(s3, c, times[3..]) == AfterFailures(s4, c, times[4..]);
    assert AfterFailures(s4, c, times[4..]) == AfterFailures(s5, c, times[5..]);
    assert AfterFailures(s5, c, times[5..]) == s6;
    var cleared := ClearExpired(s6, 10080000);
    assert cleared == s6.(lockoutUntil := None);
  }

  /** At six attempts and unlocked, the page shows "-1 attempts remaining
      before temporary lockout". */
  lemma SixAttemptsWarning()
    ensures AttemptsWarningAsWritten(false, 6) == Some(AttemptsText("-1", true))
  {
    assert DigitChar(1) == '1';
    assert NatToString(1) == "1";
    assert IntToString(-1) == "-1";
  }

  /** The attempts the warning counts: never below zero. */
  function AttemptsLeft(attempts: int): (left: nat)
    ensures left <= 5
    ensures attempts <= 5 && attempts >= 0 ==> left == 5 - attempts
    ensures attempts >= 5 ==> left == 0
  {
    if attempts >= 5 then 0 else if attempts <= 0 then 5 else 5 - attempts
  }

  /** The warning with the count kept at zero or above. */
  function AttemptsWarning(locked: bool, attempts: int): Option<string> {
    if !locked && attempts > 2 then
      var left := AttemptsLeft(attempts);
      Some(AttemptsText(NatToString(left), left != 1))
    else None
  }

  /** The corrected warning is shown in the same cases, agrees with the page
      up to five attempts, and always counts 0, 1 or 2. */
  lemma AttemptsWarningCorrected(locked: bool, attempts: int)
    ensures AttemptsWarning(locked, attempts).Some? <==> !locked && attempts > 2
    ensures attempts <= 5 ==> AttemptsWarning(locked, attempts) == AttemptsWarningAsWritten(locked, attempts)
    ensures AttemptsWarning(locked, attempts).Some? ==>
      exists left :: 0 <= left <= 2 && AttemptsWarning(locked, attempts).value ==
        AttemptsText(NatToString(left), left != 1)
  {
    if !locked && attempts > 2 {
      var left := AttemptsLeft(attempts);
      assert 0 <= left <= 2;
    }
  }

  /** The banner shown while locked. */
  function LockoutBanner(v: HookValue): Option<string> {
    if v.isLocked then Some("Please wait " + FormatLockoutTime(v.remainingLockoutMs) + " before trying again.")
    else None
  }

  // ---------------------------------------------------------------------
  // The page
  // ---------------------------------------------------------------------

  /** The overrides the page passes to the limiter. */
  const AUTH_OVERRIDES: Overrides := Overrides(Some(5), None, None, Some("admin_login_rate_limit"))

  lemma AuthConfig()
    ensures FullConfig(AUTH_OVERRIDES) == DEFAULT_CONFIG.(storageKey := "admin_login_rate_limit")
    ensures ValidConfig(FullConfig(AUTH_OVERRIDES)) && PositiveDurations(FullConfig(AUTH_OVERRIDES))
  {
  }

  /** What `signIn` did: resolved without error, resolved with an error, or
      threw. */
  datatype SignInOutcome = SignedIn | Rejected | Threw

  /** The toast raised once `signIn` settles: a welcome on success, a generic
      error otherwise, so a wrong password and a failure look alike. */
  function SignInToast(outcome: SignInOutcome): (t: Toast)
    ensures t.destructive <==> outcome != SignedIn
    ensures outcome == Rejected ==> t.description == "Invalid email or password. Please try again."
  {
    match outcome
    case Rejected => Toast("Authentication Failed", "Invalid email or password. Please try again.", true)
    case SignedIn => Toast("Welcome!", "Successfully logged in.", false)
    case Threw => Toast("Error", "An unexpected error occurred. Please try again.", true)
  }

  class AuthPage {
    var email: string
    var password: string
    var isSubmitting: bool
    var errors: FieldErrors
    /** The toasts raised, oldest first. */
    var toasts: seq<Toast>
    /** The credentials passed to `signIn`, oldest first. */
    var signInCalls: seq<(string, string)>
    const limiter: RateLimiterHook
    const isEmail: string -> bool

    constructor (sessionStorage: map<string, LimitState>, isEmail: string -> bool)
      ensures email == "" && password == "" && !isSubmitting && errors == NO_ERRORS
      ensures toasts == [] && signInCalls == [] && this.isEmail == isEmail
      ensures fresh(limiter) && limiter.Valid() && limiter.config == FullConfig(AUTH_OVERRIDES)
      ensures limiter.storage == sessionStorage
    {
      email, password, isSubmitting, errors := "", "", false, NO_ERRORS;
      toasts, signInCalls := [], [];
      this.isEmail := isEmail;
      AuthConfig();
      limiter := new RateLimiterHook(AUTH_OVERRIDES, sessionStorage);
    }

    /** `handleSubmit`. The page is taken to render at `now` just before the
        submit, which is when it reads `isLocked`; `signIn` settles with
        `outcome` at `doneAt`, the time `recordAttempt` reads. */
    method HandleSubmit(now: int, outcome: SignInOutcome, doneAt: int)
      requires limiter.Valid()
      modifies this`isSubmitting, this`errors, this`toasts, this`signInCalls, limiter`state, limiter`storage
      ensures var locked := LockedAt(old(limiter.state), now);
        var issues := AuthIssues(email, password, isEmail);
        (locked ==>
           signInCalls == old(signInCalls) && limiter.state == old(limiter.state) && errors == NO_ERRORS
           && isSubmitting == old(isSubmitting)
           && toasts == old(toasts) + [Toast("Too many attempts",
                "Please wait " + FormatLockoutTime(RemainingLockout(old(limiter.state), now)) + " before trying again.",
                true)])
        && (!locked && issues != [] ==>
           signInCalls == old(signInCalls) && limiter.state == ClearExpired(old(limiter.state), now)
           && errors == FieldErrors(LastMessage(issues, EmailField), LastMessage(issues, PasswordField))
           && isSubmitting == old(isSubmitting) && toasts == old(toasts))
        && (!locked && issues == [] ==>
           signInCalls == old(signInCalls) + [(email, password)] && errors == NO_ERRORS && !isSubmitting
           && toasts == old(toasts) + [SignInToast(outcome)]
           && limiter.state == if outcome == SignedIn then AfterSuccess(doneAt)
                               else AfterFailure(ClearExpired(old(limiter.state), now), limiter.config, doneAt))
    {
      errors := NO_ERRORS;
      var view := limiter.Render(now);
      if view.isLocked {
        toasts := toasts + [Toast("Too many attempts",
          "Please wait " + FormatLockoutTime(view.remainingLockoutMs) + " before trying again.", true)];
        return;
      }
      var issues := AuthIssues(email, password, isEmail);
      if issues != [] {
        var fieldErrors := CollectFieldErrors(issues);
        errors := fieldErrors;
        return;
      }
      isSubmitting := true;
      signInCalls := signInCalls + [(email, password)];
      limiter.RecordAttempt(outcome == SignedIn, doneAt);
      toasts := toasts + [SignInToast(outcome)];
      isSubmitting := false;
    }
  }
}
