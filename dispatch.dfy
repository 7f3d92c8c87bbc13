/** The per-record decision of reminder_sender.py's main loop: read the fields of
    one page, then apply the guards in their fixed order (missing data, already
    sent, reminder window). */
module Dispatch {
  import opened Wrappers
  import opened Properties

  /** A Notion page identifier. */
  type Id = string

  /** The property names the script reads. */
  const CandidateNameKey: string := "Candidate Name"
  const EmailKey: string := "Email"
  const CompanyNameKey: string := "Company Name"
  const InterviewDateKey: string := "Interview Date"
  const SentAtKey: string := "Reminder Sent At"

  /** The reminder window: an interview at most this many seconds ahead qualifies. */
  const WindowSeconds: int := 3600

  /** One element of the query's "results". A field is None when its key
      ("id", "properties") is absent, so that `result[...]` raises. */
  datatype Page = Page(id: Option<Id>, properties: Option<Props>)

  /** The reminder handed to the mail service. Subject and body are rendered from
      these fields; the rendering itself is not modelled. */
  datatype Email = Email(to: string, candidate: string, company: Option<string>, interviewTime: int)

  /** What the loop body does with one page before any side effect. */
  datatype Decision =
    | RecordError          // an exception, caught by the loop's catch-all
    | SkipIncomplete       // name, email or interview time missing or empty
    | SkipAlreadySent      // "Reminder Sent At" holds a timestamp
    | SkipOutOfWindow      // interview in the past or more than an hour ahead
    | Send(message: Email)

  /** The five values extracted at the top of the loop body. */
  datatype Fields = Fields(
    name: Option<string>,
    email: Option<string>,
    company: Option<string>,
    interviewTime: Option<int>,
    sentAt: Option<int>)

  /** Python truthiness of an extracted text: present and not the empty string. */
  predicate Present(s: Option<string>) {
    s.Some? && s.value != ""
  }

  /** The missing-data guard passes. */
  predicate Complete(f: Fields) {
    Present(f.name) && f.interviewTime.Some? && Present(f.email)
  }

  /** `0 <= diff <= 3600` with `diff = interview_time - now`, both bounds inclusive. */
  predicate InWindow(interviewTime: int, now: int) {
    0 <= interviewTime - now <= WindowSeconds
  }

  /** `result["properties"]` and the five extractions. The three text extractions
      raise on an absent property; the two date extractions never raise. */
  function ReadFields(page: Page, parse: Parser): (r: Try<Fields>)
    ensures r.Raised? <==>
      page.properties.None? ||
      CandidateNameKey !in page.properties.value ||
      EmailKey !in page.properties.value ||
      CompanyNameKey !in page.properties.value ||
      ExtractText(Get(page.properties.value, CandidateNameKey)).Raised? ||
      ExtractText(Get(page.properties.value, EmailKey)).Raised? ||
      ExtractText(Get(page.properties.value, CompanyNameKey)).Raised?
    ensures r.Ok? ==>
      r.value.name == ExtractText(Get(page.properties.value, CandidateNameKey)).value &&
      r.value.email == ExtractText(Get(page.properties.value, EmailKey)).value &&
      r.value.company == ExtractText(Get(page.properties.value, CompanyNameKey)).value &&
      r.value.interviewTime == ExtractDatetime(Get(page.properties.value, InterviewDateKey), parse) &&
      r.value.sentAt == ExtractDatetime(Get(page.properties.value, SentAtKey), parse)
  {
    match page.properties
    case None => Raised
    case Some(props) =>
      var name := ExtractText(Get(props, CandidateNameKey));
      var email := ExtractText(Get(props, EmailKey));
      var company := ExtractText(Get(props, CompanyNameKey));
      if name.Raised? || email.Raised? || company.Raised? then Raised
      else Ok(Fields(name.value, email.value, company.value,
                     ExtractDatetime(Get(props, InterviewDateKey), parse),
                     ExtractDatetime(Get(props, SentAtKey), parse)))
  }

  /** The loop body's decision for one page, `now` being the clock reading taken
      for that page (the clock is consulted only once both guards have passed). */
  function Classify(page: Page, now: int, parse: Parser): Decision
  {
    match ReadFields(page, parse)
    case Raised => RecordError
    case Ok(f) =>
      if !Complete(f) then SkipIncomplete
      else if f.sentAt.Some? then SkipAlreadySent
      else if InWindow(f.interviewTime.value, now) then
        Send(Email(f.email.value, f.name.value, f.company, f.interviewTime.value))
      else SkipOutOfWindow
  }

  /** A reminder goes to the page's own email address, names its candidate and
      company, and is for an interview inside the window. */
  lemma SendAddressesTheCandidate(page: Page, now: int, parse: Parser)
    ensures var d := Classify(page, now, parse);
      d.Send? ==>
        ReadFields(page, parse).Ok? && Complete(ReadFields(page, parse).value) &&
        d.message.to == ReadFields(page, parse).value.email.value && d.message.to != "" &&
        d.message.candidate == ReadFields(page, parse).value.name.value &&
        d.message.company == ReadFields(page, parse).value.company &&
        InWindow(d.message.interviewTime, now) &&
        Some(d.message.interviewTime) == ReadFields(page, parse).value.interviewTime
  {
  }

  /** The guards in order: each outcome holds exactly when the earlier checks pass
      and its own check fires. */
  lemma GuardOrder(page: Page, now: int, parse: Parser)
    ensures Classify(page, now, parse) == RecordError <==> ReadFields(page, parse).Raised?
    ensures Classify(page, now, parse) == SkipIncomplete <==>
      ReadFields(page, parse).Ok? && !Complete(ReadFields(page, parse).value)
    ensures Classify(page, now, parse) == SkipAlreadySent <==>
      ReadFields(page, parse).Ok? && Complete(ReadFields(page, parse).value) &&
      ReadFields(page, parse).value.sentAt.Some?
    ensures Classify(page, now, parse).Send? <==>
      ReadFields(page, parse).Ok? && Complete(ReadFields(page, parse).value) &&
      ReadFields(page, parse).value.sentAt.None? &&
      InWindow(ReadFields(page, parse).value.interviewTime.value, now)
  {
  }

  /** A page without a "Company Name" key is dropped by the exception handler, not
      by the missing-data guard, because `extract_text(None)` raises. */
  lemma MissingCompanyKeyIsAnError(page: Page, now: int, parse: Parser)
    requires page.properties.Some? && CompanyNameKey !in page.properties.value
    ensures Classify(page, now, parse) == RecordError
  {
  }

  /** The same page with its "Reminder Sent At" property replaced by `q`. */
  function WithSentAt(page: Page, q: Option<Property>): (r: Page)
    requires page.properties.Some?
    ensures r.id == page.id && r.properties.Some?
    ensures Get(r.properties.value, SentAtKey) == q
    ensures forall k :: k != SentAtKey ==> Get(r.properties.value, k) == Get(page.properties.value, k)
  {
    var props := page.properties.value;
    match q
    case None => page.(properties := Some(props - {SentAtKey}))
    case Some(p) => page.(properties := Some(props[SentAtKey := p]))
  }

  /** The missing-data guard comes first: an incomplete page is skipped as such
      whatever its "Reminder Sent At" holds. */
  lemma IncompleteRegardlessOfSentAt(page: Page, now: int, parse: Parser, q: Option<Property>)
    requires Classify(page, now, parse) == SkipIncomplete
    ensures page.properties.Some?
    ensures Classify(WithSentAt(page, q), now, parse) == SkipIncomplete
  {
  }

  /** A recorded send time blocks sending at every clock reading. */
  lemma SentAtBlocksSend(page: Page, now: int, parse: Parser)
    requires page.properties.Some?
    requires ExtractDatetime(Get(page.properties.value, SentAtKey), parse).Some?
    ensures !Classify(page, now, parse).Send?
  {
  }

  /** A "Reminder Sent At" that does not extract to a timestamp (absent, empty or
      malformed) does not block: the page is classified as if it had none. */
  lemma MalformedSentAtDoesNotBlock(page: Page, now: int, parse: Parser)
    requires page.properties.Some?
    requires ExtractDatetime(Get(page.properties.value, SentAtKey), parse).None?
    ensures Classify(page, now, parse) == Classify(WithSentAt(page, None), now, parse)
  {
  }

  /** For a complete, not yet sent page the window decides, both bounds inclusive:
      exactly on time and exactly an hour ahead send; a second late or a second
      beyond the hour does not. */
  lemma WindowDecides(page: Page, now: int, parse: Parser)
    requires ReadFields(page, parse).Ok?
    requires Complete(ReadFields(page, parse).value) && ReadFields(page, parse).value.sentAt.None?
    ensures var t := ReadFields(page, parse).value.interviewTime.value;
      && (Classify(page, now, parse).Send? <==> 0 <= t - now <= 3600)
      && (Classify(page, now, parse) == SkipOutOfWindow <==> (t - now < 0 || t - now > 3600))
      && Classify(page, t, parse).Send?
      && Classify(page, t - 3600, parse).Send?
      && Classify(page, t + 1, parse) == SkipOutOfWindow
      && Classify(page, t - 3601, parse) == SkipOutOfWindow
  {
  }

  /** The clock matters only after both guards: a page that is not in the window
      branch gets the same decision at every clock reading. */
  lemma ClockReadOnlyAfterGuards(page: Page, now: int, later: int, parse: Parser)
    requires !Classify(page, now, parse).Send? && Classify(page, now, parse) != SkipOutOfWindow
    ensures Classify(page, later, parse) == Classify(page, now, parse)
  {
  }
}
