# InterviewReminder: the reminder-dispatch rule, in Dafny

`reminder_sender.py` polls a Notion database of interviews. For every page it reads
the candidate's name, email and company, the interview time, and "Reminder Sent At".
It mails a reminder when the interview starts within the next hour and no reminder has
been recorded. It then writes the current time into "Reminder Sent At", so that later
runs skip the page. This project models that decision and the batch pass that applies
it, and proves what they promise.

Layout, one module per file:

- `wrappers.dfy` — `Option`, and `Try` for a Python expression that may raise.
- `properties.dfy` — Notion property values (`title`, `rich_text`, `date`) and the two
  safe accessors `extract_text` / `extract_datetime`. The ISO-8601 parser is an abstract
  `Parser = string -> Option<int>` that gives epoch seconds.
- `dispatch.dfy` — a fetched page, the five extracted fields, and `Classify`, the loop
  body's decision, with the guards in the source's order.
- `pass.dfy` — the whole run as functions of its inputs. `ProcessRecord` is one
  iteration with its exceptions caught, `ProcessAll` is the loop, and `RemindersPass`
  adds the initial query. The lemmas cover sends, store changes, isolation of failing
  records and re-run idempotence.
- `runner.dfy` — the imperative form. `NotionDatabase` and `Gmail` are classes whose
  methods change their fields. `RunReminders` is the `for` loop, proved equal to
  `RemindersPass`.

Outside inputs become parameters:
- the query outcome (`Fetch`);
- per record, an `Env` with the clock reading, whether `send_email` returns, and whether
  the Notion update returns;
- the parser, and the `isoformat` formatter used when writing the stamp.

The clock is a per-record input because the source reads `datetime.now` inside the loop
(reminder_sender.py:107), not once per run.

Behaviour of the code worth knowing:
- The company is not required, but its key is: `extract_text(props.get("Company
  Name"))` raises when the key is absent, since `'title' in None` fails. The catch-all
  then drops the record (`Dispatch.MissingCompanyKeyIsAnError`). A present but empty
  company is tolerated.
- "Already notified" is not a stored boolean. It holds exactly when "Reminder Sent At"
  extracts to a timestamp, so a malformed stamp does not block a send
  (`Dispatch.MalformedSentAtDoesNotBlock`).
- `result["id"]` is read after `send_email` returns. A page without an id therefore gets
  its reminder but is never marked.
- The same id appearing twice in one batch can be sent twice. Each record is judged on
  the fetched snapshot, not on the updated store.

## Model

| member | source | states |
|---|---|---|
| Properties.ExtractText | reminder_sender.py:57-62 | an absent property raises; the result is None exactly when neither title nor rich_text is non-empty; a returned text is the first title text when title is non-empty, else the first rich_text text |
| Properties.TitleTakesPrecedence | reminder_sender.py:58-59 | with a non-empty title, rich_text never affects the result |
| Properties.RichTextIsTheFallback | reminder_sender.py:60-62 | with no usable title, the result is what rich_text alone gives |
| Properties.ExtractDatetime | reminder_sender.py:66-72 | a timestamp comes back exactly when property, date and a non-empty start exist and the start parses, and it is the parsed start; every other case yields None, never an exception |
| Properties.ExtractDatetimeNoneCases | reminder_sender.py:66-72 | None for each of: no property, no or null date, no or empty start, unparsable start |
| Dispatch.ReadFields | reminder_sender.py:91-97 | reading a page raises exactly when "properties" is missing, one of the three text keys is missing, or a text extraction raises; the two dates are the extracted ones |
| Dispatch.Classify | reminder_sender.py:91-110 | the loop body's decision; its specification is `Dispatch.GuardOrder` (guard order, each outcome as an iff), `Dispatch.WindowDecides` (inclusive window) and `Dispatch.SendAddressesTheCandidate` (the message) |
| Dispatch.SendAddressesTheCandidate | reminder_sender.py:110-125 | a send goes to the page's non-empty email, names its candidate and company, and is for an interview inside the window |
| Dispatch.GuardOrder | reminder_sender.py:99-110 | each decision holds exactly when all earlier guards pass and its own fires: error, then missing data, then already sent, then the window |
| Dispatch.MissingCompanyKeyIsAnError | reminder_sender.py:95 | a page without a "Company Name" key ends in the exception handler |
| Dispatch.IncompleteRegardlessOfSentAt | reminder_sender.py:99-105 | an incomplete page stays incomplete whatever its "Reminder Sent At" holds |
| Dispatch.SentAtBlocksSend | reminder_sender.py:103-105 | a "Reminder Sent At" that extracts to a timestamp forbids sending at every clock reading |
| Dispatch.MalformedSentAtDoesNotBlock | reminder_sender.py:97-105 | a "Reminder Sent At" that extracts to None gives the same decision as no such property |
| Dispatch.WindowDecides | reminder_sender.py:107-110 | for a complete, unsent page: send exactly when 0 <= interview - now <= 3600; both bounds send; one second outside either bound skips |
| Dispatch.ClockReadOnlyAfterGuards | reminder_sender.py:99-107 | a page decided before the window check gets the same decision at every clock reading |
| Pass.SentAtProperty | reminder_sender.py:130-136 | the value written reads back through `extract_datetime` as the parse of the stamp (None only for an empty stamp or a failed parse), and carries no text |
| Pass.MarkSent | reminder_sender.py:128-137 | the update replaces only "Reminder Sent At" of the one page; every other page and property is kept |
| Pass.ProcessRecord | reminder_sender.py:90-142 | the page set is unchanged; a record whose send does not return changes nothing; a returned send appends its message; the store changes only when the record marks its own page |
| Pass.ProcessAll | reminder_sender.py:89-142 | the page set is unchanged; the outbox only grows, keeps what it held, and gains at most one message per record |
| Pass.RemindersPass | reminder_sender.py:81-89 | a failed query, a response with no "results" key, or an empty one changes nothing; otherwise the run is the loop over the results |
| Pass.PassDeliveries | reminder_sender.py:89-125 | a message is sent by the run exactly when some record decides to send it and its send returns |
| Pass.PassSendsInOrder | reminder_sender.py:89-125 | the outbox becomes the old outbox followed by one message per delivering record, in input order, so a page listed twice is mailed twice |
| Pass.OnlyMarkedPagesChange | reminder_sender.py:125-137 | a page's properties change only through a record of that page whose send and update both returned |
| Pass.StampSurvivesRecord | reminder_sender.py:128-137 | after one record a readable stamp stays readable (a later mark may replace its value), and marking a page leaves one that reads back |
| Pass.MarkedPagesAreStamped | reminder_sender.py:128-137 | after the run, every page a record marked has a "Reminder Sent At" that extracts to a timestamp |
| Pass.UndeliveredRecordIsTransparent | reminder_sender.py:89-142 | a record that raises, is skipped or fails to send leaves the run's result as if it were absent |
| Pass.FailedCallsLeaveThePagePending | reminder_sender.py:125-142 | a raising send changes nothing; a returned send with a failed update sends but leaves the store as it was |
| Pass.Snapshot | reminder_sender.py:82-83 | a later query returns pages with their current properties, and every listed page in the database appears |
| Pass.RerunNeverResends | reminder_sender.py:97-137 | once a page is marked, it ends the run with a readable stamp, a later query that lists it returns it with those properties, and no page of that id in the later query is classified Send at any clock reading |
| Pass.RerunIsIdempotent | reminder_sender.py:97-137 | once a page is marked, a whole later run over the updated database leaves its properties alone, and every message it sends comes from another page |
| Pass.RerunSkipsThePage | reminder_sender.py:89-142 | a run in which no record of a page decides to send leaves that page's properties alone and sends only to other pages |
| Runner.NotionDatabase.UpdateSentAt | reminder_sender.py:128-137 | raises exactly when the service fails or the id is unknown, and changes nothing then; otherwise the store becomes the marked store |
| Runner.Gmail.Send | reminder_sender.py:125 | raises exactly when delivery fails; the outbox gains the message exactly when it succeeds |
| Runner.RunReminders | reminder_sender.py:81-144 | the loop leaves the database and the outbox as `RemindersPass` describes |

## Left out

- Gmail authentication and token refresh (reminder_sender.py:28-40): OAuth and file I/O over Google libraries.
- MIME construction and base64 in `send_email` (reminder_sender.py:44-53). Sending is one call that returns or raises; a send that raises is taken to have sent nothing.
- The Notion client calls (reminder_sender.py:78, 82, 128-137). The query response is an input, and the update is `NotionDatabase.UpdateSentAt`. Pagination is not modelled: Notion returns results page by page and the script reads only the first page.
- Environment configuration and the startup `ValueError` (reminder_sender.py:14-19): process-level I/O.
- ISO-8601 parsing, `astimezone` and `isoformat` (reminder_sender.py:10, 69, 133) are abstract functions to and from integer seconds.
- Subject and body rendering with `strftime` (reminder_sender.py:113-123). The message carries the recipient and the fields the template uses.
- `total_seconds()` is a float (reminder_sender.py:108); time here is whole seconds, so sub-second differences at the window's edges are not modelled.
- A JSON null `plain_text` is not modelled; a missing `plain_text` key is (it raises).
- All `print` logging, and the final "completed" message.
- Pass.RerunNeverResends, Pass.RerunIsIdempotent, Pass.MarkedPagesAreStamped, Pass.StampSurvivesRecord: hold under the assumption `IsoRoundTrip`, that the written stamp is non-empty and reads back as the time written. Pass.RerunNeverResends and Pass.RerunIsIdempotent also assume that a later query sees the update (`Snapshot`). Without read-after-write consistency a duplicate send is possible.
