/** The imperative side of reminder_sender.py's `main`: the two remote services
    as objects whose state the calls change, and the loop over the query results. */
module Runner {
  import opened Wrappers
  import opened Properties
  import opened Dispatch
  import opened Pass

  /** The Notion database: the properties of each page, by page id. */
  class NotionDatabase {
    var pages: map<Id, Props>

    constructor (pages: map<Id, Props>)
      ensures this.pages == pages
    {
      this.pages := pages;
    }

    /** `notion.pages.update` of "Reminder Sent At". It raises when the service
        refuses (`succeeds` false) or no page has that id; then nothing changes. */
    method UpdateSentAt(id: Id, stamp: string, succeeds: bool) returns (raised: bool)
      modifies this
      ensures raised <==> !succeeds || id !in old(pages)
      ensures !raised ==> pages == MarkSent(old(pages), id, stamp)
      ensures raised ==> pages == old(pages)
    {
      raised := !succeeds || id !in pages;
      if !raised {
        pages := MarkSent(pages, id, stamp);
      }
    }
  }

  /** The mail service: the reminders it has accepted, in order. */
  class Gmail {
    var outbox: seq<Email>

    constructor ()
      ensures outbox == []
    {
      outbox := [];
    }

    /** `send_email`: either it returns and the message is sent, or it raises. */
    method Send(message: Email, succeeds: bool) returns (raised: bool)
      modifies this
      ensures raised == !succeeds
      ensures outbox == if succeeds then old(outbox) + [message] else old(outbox)
    {
      raised := !succeeds;
      if succeeds {
        outbox := outbox + [message];
      }
    }
  }

  /** `main` after authentication: give up if the query failed, otherwise visit
      the results in order, each under its own exception handler. */
  method RunReminders(notion: NotionDatabase, gmail: Gmail, fetch: Fetch, env: seq<Env>,
                      parse: Parser, format: Formatter)
    requires fetch.Response? ==> |env| == |Results(fetch)|
    modifies notion, gmail
    ensures Effects(notion.pages, gmail.outbox) ==
            RemindersPass(Effects(old(notion.pages), old(gmail.outbox)), fetch, env, parse, format)
  {
    if fetch.FetchFailed? {
      return;
    }
    var results := Results(fetch);
    ghost var start := Effects(notion.pages, gmail.outbox);
    for i := 0 to |results|
      invariant Effects(notion.pages, gmail.outbox) == ProcessAll(start, results[..i], env[..i], parse, format)
    {
      assert results[..i + 1][..i] == results[..i] && env[..i + 1][..i] == env[..i];
      var page := results[i];
      var decision := Classify(page, env[i].now, parse);
      if decision.Send? {
        var raised := gmail.Send(decision.message, env[i].sendOk);
        if !raised && page.id.Some? {
          raised := notion.UpdateSentAt(page.id.value, format(env[i].now), env[i].updateOk);
        }
      }
    }
    assert results[..|results|] == results && env[..|env|] == env;
  }
}
