/** The contact-form edge function: a fixed-window submission limit per
    client address held in an in-memory map, a validator that collects one
    error per failing field, the sanitiser applied to accepted input, and the
    request handler that puts these in order. The clock is a parameter
    (`now`, milliseconds); the `contact_submissions` table is a sequence field
    and the outcome of its insert is a parameter. */
module ContactForm {
  import opened Wrappers
  import opened Text

  // ---------------------------------------------------------------------
  // Rate limiting
  // ---------------------------------------------------------------------

  /** Submissions allowed per window. */
  const RATE_LIMIT_MAX := 5
  /** One hour. */
  const RATE_LIMIT_WINDOW_MS := 60 * 60 * 1000

  datatype RateRecord = RateRecord(count: int, resetTime: int)

  /** What one `checkRateLimit` call answers, and the record it leaves under
      the caller's key. */
  datatype RateCheck = RateCheck(allowed: bool, remaining: int, record: RateRecord)

  /** `checkRateLimit` on the caller's record (`None` when the map has none). */
  function Check(rec: Option<RateRecord>, now: int): (r: RateCheck)
    ensures rec.None? || now > rec.value.resetTime ==>
              r == RateCheck(true, RATE_LIMIT_MAX - 1, RateRecord(1, now + RATE_LIMIT_WINDOW_MS))
    ensures !r.allowed <==> rec.Some? && now <= rec.value.resetTime && rec.value.count >= RATE_LIMIT_MAX
    ensures !r.allowed ==> r.remaining == 0 && rec == Some(r.record)
    ensures r.allowed ==> r.remaining == RATE_LIMIT_MAX - r.record.count
    ensures r.allowed && rec.Some? && now <= rec.value.resetTime ==>
              r.record == RateRecord(rec.value.count + 1, rec.value.resetTime)
  {
    if rec.None? || now > rec.value.resetTime then
      RateCheck(true, RATE_LIMIT_MAX - 1, RateRecord(1, now + RATE_LIMIT_WINDOW_MS))
    else if rec.value.count >= RATE_LIMIT_MAX then
      RateCheck(false, 0, rec.value)
    else
      var counted := rec.value.(count := rec.value.count + 1);
      RateCheck(true, RATE_LIMIT_MAX - counted.count, counted)
  }

  /** A record the limiter can hold: at least one submission, at most the maximum. */
  predicate WellCounted(r: RateRecord) {
    1 <= r.count <= RATE_LIMIT_MAX
  }

  /** A check keeps the count within bounds and never reports a negative
      number of remaining submissions. */
  lemma CheckKeepsBounds(rec: Option<RateRecord>, now: int)
    requires rec.Some? ==> WellCounted(rec.value)
    ensures WellCounted(Check(rec, now).record)
    ensures 0 <= Check(rec, now).remaining < RATE_LIMIT_MAX
  {
  }

  /** The record a run of checks at the given times leaves behind. */
  function RecordAfter(rec: Option<RateRecord>, times: seq<int>): Option<RateRecord>
    decreases |times|
  {
    if times == [] then rec else RecordAfter(Some(Check(rec, times[0]).record), times[1..])
  }

  /** How many of a run of checks at the given times are allowed. */
  function AllowedCount(rec: Option<RateRecord>, times: seq<int>): nat
    decreases |times|
  {
    if times == [] then 0
    else
      var c := Check(rec, times[0]);
      (if c.allowed then 1 else 0) + AllowedCount(Some(c.record), times[1..])
  }

  /** Within one window a record that has already counted `count`
      submissions admits at most the rest of the maximum. */
  lemma {:induction false} WindowAdmitsRest(r: RateRecord, times: seq<int>)
    requires WellCounted(r)
    requires forall k :: 0 <= k < |times| ==> times[k] <= r.resetTime
    ensures AllowedCount(Some(r), times) <= RATE_LIMIT_MAX - r.count
    decreases |times|
  {
    if times != [] {
      var c := Check(Some(r), times[0]);
      assert c.record.resetTime == r.resetTime;
      if c.allowed {
        assert c.record.count == r.count + 1;
        if c.record.count == RATE_LIMIT_MAX {
          WindowFullRejects(c.record.resetTime, times[1..]);
        } else {
          WindowAdmitsRest(c.record, times[1..]);
        }
      } else {
        assert c.record == r;
        WindowAdmitsRest(r, times[1..]);
      }
    }
  }

  /** A full record rejects every check until its window ends. */
  lemma {:induction false} WindowFullRejects(resetTime: int, times: seq<int>)
    requires forall k :: 0 <= k < |times| ==> times[k] <= resetTime
    ensures AllowedCount(Some(RateRecord(RATE_LIMIT_MAX, resetTime)), times) == 0
    decreases |times|
  {
    if times != [] {
      WindowFullRejects(resetTime, times[1..]);
    }
  }

  /** The fixed-window promise: from the first submission of a client, at
      most five are allowed in the hour that follows it (inclusive). */
  lemma AtMostMaxPerWindow(start: int, times: seq<int>)
    requires forall k :: 0 <= k < |times| ==> start <= times[k] <= start + RATE_LIMIT_WINDOW_MS
    ensures AllowedCount(None, [start] + times) <= RATE_LIMIT_MAX
  {
    var first := Check(None, start);
    assert ([start] + times)[1..] == times;
    WindowAdmitsRest(first.record, times);
  }

  // ---------------------------------------------------------------------
  // The email pattern /^[^\s@]+@[^\s@]+\.[^\s@]+$/
  // ---------------------------------------------------------------------

  /** A string of `[^\s@]` characters. */
  predicate Plain(t: string) {
    forall k :: 0 <= k < |t| ==> !IsSpace(t[k]) && t[k] != '@'
  }

  /** The pattern's own reading: a non-empty plain local part, `@`, a
      non-empty plain run, `.`, and a non-empty plain run to the end. */
  predicate MatchesEmailPattern(s: string) {
    exists i, j :: 0 < i && i + 1 < j && j + 1 < |s| && s[i] == '@' && s[j] == '.'
      && Plain(s[..i]) && Plain(s[i + 1..j]) && Plain(s[j + 1..])
  }

  /** The check as a scan: one `@` with a plain part on each side, and a dot
      in the part after it that is neither its first nor its last character. */
  function IsEmailAddress(s: string): bool {
    var a := FirstIndex(s, '@');
    0 < a && a + 2 <= |s| - 1
    && Plain(s[..a]) && Plain(s[a + 1..]) && '.' in s[a + 2..|s| - 1]
  }

  /** A part of a plain run is plain. */
  lemma PlainWithin(s: string, lo: int, hi: int, lo2: int, hi2: int)
    requires 0 <= lo <= lo2 <= hi2 <= hi <= |s| && Plain(s[lo..hi])
    ensures Plain(s[lo2..hi2])
  {
    forall t | 0 <= t < hi2 - lo2
      ensures !IsSpace(s[lo2..hi2][t]) && s[lo2..hi2][t] != '@'
    {
      assert s[lo2..hi2][t] == s[lo..hi][t + lo2 - lo];
    }
  }

  /** Two plain runs around a plain character make one plain run. */
  lemma PlainAround(s: string, lo: int, m: int, hi: int)
    requires 0 <= lo <= m < hi <= |s|
    requires Plain(s[lo..m]) && !IsSpace(s[m]) && s[m] != '@' && Plain(s[m + 1..hi])
    ensures Plain(s[lo..hi])
  {
    forall t | 0 <= t < hi - lo
      ensures !IsSpace(s[lo..hi][t]) && s[lo..hi][t] != '@'
    {
      if t < m - lo {
        assert s[lo..hi][t] == s[lo..m][t];
      } else if t > m - lo {
        assert s[lo..hi][t] == s[m + 1..hi][t - (m - lo + 1)];
      }
    }
  }

  /** The first occurrence is the one with none before it. */
  lemma FirstIndexAt(s: string, c: char, i: int)
    requires 0 <= i < |s| && s[i] == c && c !in s[..i]
    ensures FirstIndex(s, c) == i
  {
  }

  /** The scan accepts exactly the strings the pattern matches. */
  lemma EmailPatternIff(s: string)
    ensures IsEmailAddress(s) <==> MatchesEmailPattern(s)
  {
    if IsEmailAddress(s) {
      ScanMatches(s);
    }
    if MatchesEmailPattern(s) {
      var i, j :| 0 < i && i + 1 < j && j + 1 < |s| && s[i] == '@' && s[j] == '.'
        && Plain(s[..i]) && Plain(s[i + 1..j]) && Plain(s[j + 1..]);
      MatchScans(s, i, j);
    }
  }

  lemma ScanMatches(s: string)
    requires IsEmailAddress(s)
    ensures MatchesEmailPattern(s)
  {
    var a := FirstIndex(s, '@');
    var k :| 0 <= k < |s[a + 2..|s| - 1]| && s[a + 2..|s| - 1][k] == '.';
    var j := a + 2 + k;
    assert s[j] == '.';
    assert s[a] == '@';
    assert s[a + 1..] == s[a + 1..|s|];
    PlainWithin(s, a + 1, |s|, a + 1, j);
    PlainWithin(s, a + 1, |s|, j + 1, |s|);
    assert s[j + 1..] == s[j + 1..|s|];
  }

  lemma MatchScans(s: string, i: int, j: int)
    requires 0 < i && i + 1 < j && j + 1 < |s| && s[i] == '@' && s[j] == '.'
    requires Plain(s[..i]) && Plain(s[i + 1..j]) && Plain(s[j + 1..])
    ensures IsEmailAddress(s)
  {
    assert '@' !in s[..i];
    FirstIndexAt(s, '@', i);
    assert s[j + 1..] == s[j + 1..|s|] && s[i + 1..] == s[i + 1..|s|];
    PlainAround(s, i + 1, j, |s|);
    assert s[i + 2..|s| - 1][j - i - 2] == '.';
  }

  /** Lower-casing keeps a plain run plain. */
  lemma PlainLower(s: string, lo: int, hi: int)
    requires 0 <= lo <= hi <= |s| && Plain(s[lo..hi])
    ensures Plain(ToLower(s)[lo..hi])
  {
    var l := ToLower(s);
    forall t | 0 <= t < hi - lo
      ensures !IsSpace(l[lo..hi][t]) && l[lo..hi][t] != '@'
    {
      assert l[lo..hi][t] == LowerChar(s[lo + t]) && s[lo + t] == s[lo..hi][t];
    }
  }

  /** Lower-casing keeps an address that matches the pattern matching it. */
  lemma EmailPatternLower(s: string)
    requires MatchesEmailPattern(s)
    ensures MatchesEmailPattern(ToLower(s))
  {
    var i, j :| 0 < i && i + 1 < j && j + 1 < |s| && s[i] == '@' && s[j] == '.'
      && Plain(s[..i]) && Plain(s[i + 1..j]) && Plain(s[j + 1..]);
    var l := ToLower(s);
    assert l[i] == '@' && l[j] == '.';
    assert s[..i] == s[0..i] && l[..i] == l[0..i];
    assert s[j + 1..] == s[j + 1..|s|] && l[j + 1..] == l[j + 1..|l|];
    PlainLower(s, 0, i);
    PlainLower(s, i + 1, j);
    PlainLower(s, j + 1, |s|);
  }

  // ---------------------------------------------------------------------
  // Sanitising
  // ---------------------------------------------------------------------

  /** No `<` is followed, anywhere later, by a `>`: the string holds no span
      the pattern `<[^>]*>` matches. */
  predicate NoTag(r: string) {
    forall i, j :: 0 <= i < j < |r| && r[i] == '<' ==> r[j] != '>'
  }

  /** `s.replace(/<[^>]*>/g, '')`: scanning from the left, a `<` with a `>`
      somewhere after it is removed together with everything up to and
      including the first such `>`; every other character is kept. */
  function StripTags(s: string): (r: string)
    ensures |r| <= |s|
    ensures forall k :: 0 <= k < |r| ==> r[k] in s
    decreases |s|
  {
    if s == [] then []
    else if s[0] == '<' && '>' in s[1..] then
      var close := FirstIndex(s[1..], '>') + 1;
      StripTags(s[close + 1..])
    else
      [s[0]] + StripTags(s[1..])
  }

  /** Nothing that looks like a tag survives. */
  lemma {:induction false} StripTagsNoTag(s: string)
    ensures NoTag(StripTags(s))
    decreases |s|
  {
    if s == [] {
    } else if s[0] == '<' && '>' in s[1..] {
      var close := FirstIndex(s[1..], '>') + 1;
      StripTagsNoTag(s[close + 1..]);
    } else {
      var rest := StripTags(s[1..]);
      StripTagsNoTag(s[1..]);
      if s[0] == '<' {
        assert forall k :: 0 <= k < |rest| ==> rest[k] != '>';
      }
      NoTagCons(s[0], rest);
    }
  }

  /** A character put in front of a tag-free string keeps it tag-free unless
      it opens a tag the string closes. */
  lemma NoTagCons(x: char, rest: string)
    requires NoTag(rest)
    requires x == '<' ==> '>' !in rest
    ensures NoTag([x] + rest)
  {
    var r := [x] + rest;
    forall i, j | 0 <= i < j < |r| && r[i] == '<'
      ensures r[j] != '>'
    {
      assert r[j] == rest[j - 1];
      if i > 0 {
        assert r[i] == rest[i - 1];
      }
    }
  }

  /** A string with nothing tag-like is left as it is. */
  lemma {:induction false} StripTagsClean(s: string)
    requires NoTag(s)
    ensures StripTags(s) == s
    decreases |s|
  {
    if s != [] {
      NoTagRest(s);
      StripTagsClean(s[1..]);
      assert [s[0]] + s[1..] == s;
    }
  }

  /** In a tag-free string a leading `<` is never closed, and the rest is
      tag-free too. */
  lemma NoTagRest(s: string)
    requires NoTag(s) && s != []
    ensures s[0] == '<' ==> '>' !in s[1..]
    ensures NoTag(s[1..])
  {
    var r := s[1..];
    assert forall k :: 0 <= k < |r| ==> r[k] == s[k + 1];
  }

  /** Stripping twice strips nothing more. */
  lemma StripTagsIdempotent(s: string)
    ensures StripTags(StripTags(s)) == StripTags(s)
  {
    StripTagsNoTag(s);
    StripTagsClean(StripTags(s));
  }

  /** The sanitiser for name and message: trim, then strip tags. */
  function Sanitize(s: string): (r: string)
    ensures NoTag(r) && |r| <= |Trim(s)|
  {
    StripTagsNoTag(Trim(s));
    StripTags(Trim(s))
  }

  // ---------------------------------------------------------------------
  // Validation
  // ---------------------------------------------------------------------

  /** The parsed body. Anything that is not an object (or is `null`) is
      `NotAnObject`; an object (or array) gives its three fields, each `None`
      when missing or not a string. */
  datatype Body = NotAnObject | Fields(name: Option<string>, email: Option<string>, message: Option<string>)

  datatype Contact = Contact(name: string, email: string, message: string)

  datatype Validation = Validation(valid: bool, errors: seq<Problem>, sanitized: Option<Contact>)

  /** The validation errors; `Message` gives the text the function sends. */
  datatype Problem = BadBody | NameShort | NameLong | EmailBad | EmailLong | MessageShort | MessageLong

  function Message(p: Problem): string {
    match p
    case BadBody => "Invalid request body"
    case NameShort => "Name must be at least 2 characters"
    case NameLong => "Name must be less than 255 characters"
    case EmailBad => "Valid email address is required"
    case EmailLong => "Email must be less than 255 characters"
    case MessageShort => "Message must be at least 10 characters"
    case MessageLong => "Message must be less than 5000 characters"
  }

  /** The error the name contributes: too short (or missing), too long, or none. */
  function NameError(name: Option<string>): (e: Option<Problem>)
    ensures e == Some(NameShort) <==> name.None? || |Trim(name.value)| < 2
    ensures e == Some(NameLong) <==> name.Some? && |Trim(name.value)| > 255
    ensures e.None? <==> name.Some? && 2 <= |Trim(name.value)| <= 255
  {
    if name.None? || |Trim(name.value)| < 2 then Some(NameShort)
    else if |Trim(name.value)| > 255 then Some(NameLong)
    else None
  }

  /** The error the email contributes: not an address (or missing), too
      long, or none. */
  function EmailError(email: Option<string>): (e: Option<Problem>)
    ensures e == Some(EmailBad) <==> email.None? || !MatchesEmailPattern(Trim(email.value))
    ensures e == Some(EmailLong) <==> email.Some? && MatchesEmailPattern(Trim(email.value)) && |Trim(email.value)| > 255
    ensures e.None? <==> email.Some? && MatchesEmailPattern(Trim(email.value)) && |Trim(email.value)| <= 255
  {
    if email.Some? then
      EmailPatternIff(Trim(email.value));
      if !IsEmailAddress(Trim(email.value)) then Some(EmailBad)
      else if |Trim(email.value)| > 255 then Some(EmailLong)
      else None
    else Some(EmailBad)
  }

  /** The error the message contributes: too short (or missing), too long, or none. */
  function MessageError(message: Option<string>): (e: Option<Problem>)
    ensures e == Some(MessageShort) <==> message.None? || |Trim(message.value)| < 10
    ensures e == Some(MessageLong) <==> message.Some? && |Trim(message.value)| > 5000
    ensures e.None? <==> message.Some? && 10 <= |Trim(message.value)| <= 5000
  {
    if message.None? || |Trim(message.value)| < 10 then Some(MessageShort)
    else if |Trim(message.value)| > 5000 then Some(MessageLong)
    else None
  }

  /** An error as the list it pushes. */
  function Pushed(e: Option<Problem>): (r: seq<Problem>)
    ensures |r| <= 1 && (r == [] <==> e.None?)
  {
    if e.Some? then [e.value] else []
  }

  /** `validateInput` as a value. */
  function Validate(data: Body): Validation {
    match data
    case NotAnObject => Validation(false, [BadBody], None)
    case Fields(name, email, message) =>
      var errors := Pushed(NameError(name)) + Pushed(EmailError(email)) + Pushed(MessageError(message));
      if errors != [] then Validation(false, errors, None)
      else
        Validation(true, [], Some(Contact(Sanitize(name.value), ToLower(Trim(email.value)), Sanitize(message.value))))
  }

  /** A body that is not an object gets exactly the one body error. */
  lemma NotAnObjectRejected()
    ensures Validate(NotAnObject) == Validation(false, [BadBody], None)
  {
  }

  /** Every field is checked and each failing one contributes its one error,
      in the order name, email, message; the result is valid exactly when
      no field failed, and only then carries the sanitised fields. */
  lemma ValidateErrors(name: Option<string>, email: Option<string>, message: Option<string>)
    ensures var v := Validate(Fields(name, email, message));
      v.errors == Pushed(NameError(name)) + Pushed(EmailError(email)) + Pushed(MessageError(message))
      && |v.errors| <= 3
      && (v.valid <==> v.errors == [])
      && (v.valid <==> v.sanitized.Some?)
      && (v.valid <==>
            (name.Some? && 2 <= |Trim(name.value)| <= 255
             && email.Some? && MatchesEmailPattern(Trim(email.value)) && |Trim(email.value)| <= 255
             && message.Some? && 10 <= |Trim(message.value)| <= 5000))
  {
  }

  /** What an accepted submission stores: name and message trimmed and free
      of tags, the address trimmed, lower-cased and still an address. */
  lemma ValidSanitized(name: Option<string>, email: Option<string>, message: Option<string>)
    requires Validate(Fields(name, email, message)).valid
    ensures var c := Validate(Fields(name, email, message)).sanitized.value;
      name.Some? && email.Some? && message.Some?
      && c.name == StripTags(Trim(name.value)) && NoTag(c.name)
      && c.message == StripTags(Trim(message.value)) && NoTag(c.message)
      && c.email == ToLower(Trim(email.value)) && MatchesEmailPattern(c.email) && |c.email| <= 255
  {
    ValidateErrors(name, email, message);
    EmailPatternLower(Trim(email.value));
  }

  /** `<t>`. */
  function Tag(t: string): string {
    "<" + t + ">"
  }

  /** A complete tag at the front is dropped. */
  lemma StripLeadingTag(t: string, rest: string)
    requires '>' !in t
    ensures StripTags(Tag(t) + rest) == StripTags(rest)
  {
    var s := Tag(t) + rest;
    assert s[1..] == t + ">" + rest;
    assert s[1..][|t|] == '>';
    assert s[1..][..|t|] == t;
    FirstIndexAt(s[1..], '>', |t|);
    assert s[|t| + 2..] == rest;
  }

  /** The length rules are applied before tags are stripped, so an accepted
      name made of an opening and a closing tag is stored empty. */
  lemma TagOnlyNameStoredEmpty(t: string)
    requires '>' !in t
    ensures var name := Tag(t) + Tag("/" + t);
      |Trim(name)| >= 2 && Sanitize(name) == ""
  {
    var name := Tag(t) + Tag("/" + t);
    TagPairStripped(t);
    assert IsTrimmed(name) by {
      assert name[0] == '<' && name[|name| - 1] == '>';
    }
    TrimOfTrimmed(name);
  }

  /** An opening tag followed by its closing tag strips to nothing. */
  lemma TagPairStripped(t: string)
    requires '>' !in t
    ensures StripTags(Tag(t) + Tag("/" + t)) == ""
  {
    var slashed := "/" + t;
    assert '>' !in slashed by {
      assert forall k :: 0 <= k < |slashed| ==> slashed[k] == '/' || slashed[k] in t;
    }
    StripLeadingTag(t, Tag(slashed));
    StripLeadingTag(slashed, "");
    assert Tag(slashed) + "" == Tag(slashed);
  }

  lemma NothingPushed(errors: seq<Problem>)
    ensures errors + [] == errors
  {
  }

  /** `validateInput`, pushing each error as its rule fails. */
  method ValidateInput(data: Body) returns (v: Validation)
    ensures v == Validate(data)
  {
    if data.NotAnObject? {
      return Validation(false, [BadBody], None);
    }
    var name, email, message := data.name, data.email, data.message;
    var errors: seq<Problem> := [];
    if name.None? || |Trim(name.value)| < 2 {
      errors := errors + [NameShort];
      assert Pushed(NameError(name)) == [NameShort];
    } else if |Trim(name.value)| > 255 {
      errors := errors + [NameLong];
      assert Pushed(NameError(name)) == [NameLong];
    } else {
      assert Pushed(NameError(name)) == [];
    }
    assert errors == Pushed(NameError(name));
    ghost var before := errors;
    if email.None? || !IsEmailAddress(Trim(email.value)) {
      errors := errors + [EmailBad];
      assert Pushed(EmailError(email)) == [EmailBad];
    } else if |Trim(email.value)| > 255 {
      errors := errors + [EmailLong];
      assert Pushed(EmailError(email)) == [EmailLong];
    } else {
      assert Pushed(EmailError(email)) == [];
      NothingPushed(errors);
    }
    assert errors == before + Pushed(EmailError(email));
    before := errors;
    if message.None? || |Trim(message.value)| < 10 {
      errors := errors + [MessageShort];
      assert Pushed(MessageError(message)) == [MessageShort];
    } else if |Trim(message.value)| > 5000 {
      errors := errors + [MessageLong];
      assert Pushed(MessageError(message)) == [MessageLong];
    } else {
      assert Pushed(MessageError(message)) == [];
      NothingPushed(errors);
    }
    assert errors == before + Pushed(MessageError(message));
    if |errors| > 0 {
      return Validation(false, errors, None);
    }
    return Validation(true, [], Some(Contact(Sanitize(name.value), ToLower(Trim(email.value)), Sanitize(message.value))));
  }

  // ---------------------------------------------------------------------
  // The handler
  // ---------------------------------------------------------------------

  /** The client key: the first `x-forwarded-for` entry, trimmed, when it is
      not empty; else `x-real-ip` when it is not empty; else "unknown". */
  function ClientIp(forwardedFor: Option<string>, realIp: Option<string>): (ip: string)
    ensures ip != ""
    ensures forwardedFor.Some? && Trim(Split(forwardedFor.value, ',')[0]) != "" ==>
              ip == Trim(Split(forwardedFor.value, ',')[0])
  {
    var first := if forwardedFor.Some? then Trim(Split(forwardedFor.value, ',')[0]) else "";
    if first != "" then first
    else if realIp.Some? && realIp.value != "" then realIp.value
    else "unknown"
  }

  /** The request methods the handler tells apart. */
  datatype HttpMethod = Options | Post | OtherMethod

  /** A request: its method, the two address headers, and its body, `None`
      when the body is not valid JSON. */
  datatype Request = Request(httpMethod: HttpMethod, forwardedFor: Option<string>, realIp: Option<string>,
                             body: Option<Body>)

  /** What the handler answers. */
  datatype Reply =
    | Preflight
    | MethodNotAllowed
    | TooManySubmissions(retryAfterSeconds: int)
    | InvalidJson
    | ValidationFailed(details: seq<Problem>)
    | SaveFailed
    | Sent(remaining: int)

  function Status(r: Reply): (code: int)
    ensures code == 200 <==> r.Preflight? || r.Sent?
  {
    match r
    case Preflight => 200
    case MethodNotAllowed => 405
    case TooManySubmissions(_) => 429
    case InvalidJson => 400
    case ValidationFailed(_) => 400
    case SaveFailed => 500
    case Sent(_) => 200
  }

  /** The reply to a POST, given the rate check, the parsed body and whether
      the insert fails. */
  function PostReply(c: RateCheck, body: Option<Body>, insertFails: bool): (r: Reply)
    ensures !c.allowed <==> r == TooManySubmissions(3600)
    ensures r.Sent? <==> c.allowed && body.Some? && Validate(body.value).valid && !insertFails
    ensures r.Sent? ==> r.remaining == c.remaining
    ensures c.allowed && body.Some? && !Validate(body.value).valid ==>
              r == ValidationFailed(Validate(body.value).errors)
  {
    if !c.allowed then TooManySubmissions(3600)
    else if body.None? then InvalidJson
    else if !Validate(body.value).valid then ValidationFailed(Validate(body.value).errors)
    else if insertFails then SaveFailed
    else Sent(c.remaining)
  }

  /** The function instance: its rate-limit map (lost on a cold start) and
      the rows it has inserted into `contact_submissions`. */
  class ContactFunction {
    var rateLimitMap: map<string, RateRecord>
    var submissions: seq<Contact>

    /** Every record counts between one and the maximum. */
    predicate Valid()
      reads this
    {
      forall k :: k in rateLimitMap ==> WellCounted(rateLimitMap[k])
    }

    /** A cold start: an empty map. */
    constructor (table: seq<Contact>)
      ensures Valid() && rateLimitMap == map[] && submissions == table
    {
      rateLimitMap := map[];
      submissions := table;
    }

    /** `checkRateLimit(identifier)` at time `now`. */
    method CheckRateLimit(identifier: string, now: int) returns (allowed: bool, remaining: int)
      requires Valid()
      modifies this`rateLimitMap
      ensures Valid()
      ensures var c := Check(if identifier in old(rateLimitMap) then Some(old(rateLimitMap)[identifier]) else None, now);
        allowed == c.allowed && remaining == c.remaining
        && rateLimitMap == old(rateLimitMap)[identifier := c.record]
      ensures 0 <= remaining < RATE_LIMIT_MAX
      ensures forall k :: k != identifier ==>
        (k in rateLimitMap <==> k in old(rateLimitMap)) && (k in rateLimitMap ==> rateLimitMap[k] == old(rateLimitMap)[k])
    {
      var record := if identifier in rateLimitMap then Some(rateLimitMap[identifier]) else None;
      CheckKeepsBounds(record, now);
      if record.None? || now > record.value.resetTime {
        rateLimitMap := rateLimitMap[identifier := RateRecord(1, now + RATE_LIMIT_WINDOW_MS)];
        return true, RATE_LIMIT_MAX - 1;
      }
      if record.value.count >= RATE_LIMIT_MAX {
        assert rateLimitMap[identifier := record.value] == rateLimitMap;
        return false, 0;
      }
      var counted := record.value.(count := record.value.count + 1);
      rateLimitMap := rateLimitMap[identifier := counted];
      return true, RATE_LIMIT_MAX - counted.count;
    }

    /** The handler: preflight and method checks first, then the rate check
      (which counts the request whatever its body), then parsing,
      validation and the insert. */
    method Serve(req: Request, now: int, insertFails: bool) returns (reply: Reply)
      requires Valid()
      modifies this
      ensures Valid()
      ensures req.httpMethod.Options? ==> reply == Preflight && rateLimitMap == old(rateLimitMap)
      ensures req.httpMethod.OtherMethod? ==> reply == MethodNotAllowed && rateLimitMap == old(rateLimitMap)
      ensures req.httpMethod.Post? ==>
        var ip := ClientIp(req.forwardedFor, req.realIp);
        var c := Check(if ip in old(rateLimitMap) then Some(old(rateLimitMap)[ip]) else None, now);
        rateLimitMap == old(rateLimitMap)[ip := c.record] && reply == PostReply(c, req.body, insertFails)
      ensures reply.Sent? ==>
        req.body.Some? && Validate(req.body.value).valid
        && submissions == old(submissions) + [Validate(req.body.value).sanitized.value]
      ensures !reply.Sent? ==> submissions == old(submissions)
    {
      if req.httpMethod.Options? {
        return Preflight;
      }
      if !req.httpMethod.Post? {
        return MethodNotAllowed;
      }
      var clientIp := ClientIp(req.forwardedFor, req.realIp);
      var allowed, remaining := CheckRateLimit(clientIp, now);
      if !allowed {
        return TooManySubmissions(3600);
      }
      if req.body.None? {
        return InvalidJson;
      }
      var validation := ValidateInput(req.body.value);
      if !validation.valid {
        return ValidationFailed(validation.errors);
      }
      if insertFails {
        return SaveFailed;
      }
      submissions := submissions + [validation.sanitized.value];
      return Sent(remaining);
    }
  }
}
