/** One run of reminder_sender.py's `main` as a function of its inputs: the query
    response, the database's page properties, the mail already sent, and, per
    record, the clock reading and whether the two outside calls return. */
module Pass {
  import opened Wrappers
  import opened Properties
  import opened Dispatch

  /** The outside world while one record is processed: the clock reading `now`,
      whether `send_email` returns, and whether `notion.pages.update` returns. */
  datatype Env = Env(now: int, sendOk: bool, updateOk: bool)

  /** The initial query: it raised, or it returned a response whose "results"
      key may be absent. */
  datatype Fetch = FetchFailed | Response(results: Option<seq<Page>>)

  /** `response.get("results", [])`. */
  function Results(fetch: Fetch): seq<Page>
    requires fetch.Response?
  {
    if fetch.results.Some? then fetch.results.value else []
  }

  /** `now.isoformat()`, left abstract. */
  type Formatter = int -> string

  /** The formatter writes what the parser reads back, and never the empty string. */
  ghost predicate IsoRoundTrip(parse: Parser, format: Formatter) {
    forall t: int :: format(t) != "" && parse(format(t)) == Some(t)
  }

  /** Everything a run can change: the database's page properties and the mail sent. */
  datatype Effects = Effects(pages: map<Id, Props>, outbox: seq<Email>)

  /** The value the update writes: `{"date": {"start": stamp}}`. */
  function SentAtProperty(stamp: string): (p: Property)
    ensures forall parse: Parser :: ExtractDatetime(Some(p), parse) == (if stamp == "" then None else parse(stamp))
    ensures ExtractText(Some(p)) == Ok(None)
  {
    Property(None, None, Some(DateObject(Some(stamp))))
  }

  /** `notion.pages.update(page_id=id, properties={"Reminder Sent At": ...})`:
      the one property of the one page is replaced, every other value is kept. */
  function MarkSent(pages: map<Id, Props>, id: Id, stamp: string): (r: map<Id, Props>)
    requires id in pages
    ensures r.Keys == pages.Keys
    ensures forall k :: k in pages && k != id ==> r[k] == pages[k]
    ensures forall key :: key != SentAtKey ==> Get(r[id], key) == Get(pages[id], key)
    ensures Get(r[id], SentAtKey) == Some(SentAtProperty(stamp))
  {
    pages[id := pages[id][SentAtKey := SentAtProperty(stamp)]]
  }

  /** Processing `page` reaches `send_email` and the call returns. */
  predicate Delivered(page: Page, e: Env, parse: Parser) {
    Classify(page, e.now, parse).Send? && e.sendOk
  }

  /** Processing `page` hands message `m` to the mail service and the call returns. */
  predicate Delivers(page: Page, e: Env, parse: Parser, m: Email) {
    Delivered(page, e, parse) && Classify(page, e.now, parse).message == m
  }

  /** Processing `page` ends with its "Reminder Sent At" written: the send
      returned, the page has an "id" that names a page of the database, and the
      update returned. */
  predicate Marks(page: Page, e: Env, parse: Parser, ids: set<Id>) {
    Classify(page, e.now, parse).Send? && e.sendOk &&
    page.id.Some? && page.id.value in ids && e.updateOk
  }

  /** One iteration of the loop, its exceptions caught. */
  function ProcessRecord(s: Effects, page: Page, e: Env, parse: Parser, format: Formatter): (r: Effects)
    ensures r.pages.Keys == s.pages.Keys
    ensures Delivered(page, e, parse) ==> r.outbox == s.outbox + [Classify(page, e.now, parse).message]
    ensures !Delivered(page, e, parse) ==> r == s
    ensures Marks(page, e, parse, s.pages.Keys) ==> r.pages == MarkSent(s.pages, page.id.value, format(e.now))
    ensures !Marks(page, e, parse, s.pages.Keys) ==> r.pages == s.pages
  {
    var d := Classify(page, e.now, parse);
    if !d.Send? || !e.sendOk then
      s  // skipped, an exception before the send, or `send_email` raised
    else
      var delivered := s.(outbox := s.outbox + [d.message]);
      if page.id.Some? && page.id.value in s.pages && e.updateOk then
        delivered.(pages := MarkSent(s.pages, page.id.value, format(e.now)))
      else
        delivered  // `result["id"]` or the update raised after the mail went out
  }

  /** The loop over `results`, in input order. */
  function ProcessAll(s: Effects, results: seq<Page>, env: seq<Env>, parse: Parser, format: Formatter): (r: Effects)
    requires |env| == |results|
    ensures r.pages.Keys == s.pages.Keys
    ensures |s.outbox| <= |r.outbox| <= |s.outbox| + |results|
    ensures r.outbox[..|s.outbox|] == s.outbox
    decreases |results|
  {
    if results == [] then s
    else
      var n := |results| - 1;
      ProcessRecord(ProcessAll(s, results[..n], env[..n], parse, format), results[n], env[n], parse, format)
  }

  /** The whole of `main` after authentication: a failed query ends the run. */
  function RemindersPass(s: Effects, fetch: Fetch, env: seq<Env>, parse: Parser, format: Formatter): (r: Effects)
    requires fetch.Response? ==> |env| == |Results(fetch)|
    ensures fetch.FetchFailed? ==> r == s
    ensures fetch == Response(None) || fetch == Response(Some([])) ==> r == s
    ensures fetch.Response? ==> r == ProcessAll(s, Results(fetch), env, parse, format)
    ensures r.pages.Keys == s.pages.Keys
  {
    if fetch.FetchFailed? then s else ProcessAll(s, Results(fetch), env, parse, format)
  }

  /** Some record of the run hands `m` to the mail service and the call returns. */
  ghost predicate DeliveredIn(results: seq<Page>, env: seq<Env>, parse: Parser, m: Email)
    requires |env| == |results|
  {
    exists i :: 0 <= i < |results| && Delivers(results[i], env[i], parse, m)
  }

  /** A run sends exactly the messages of the records whose send returned, and
      only appends to what was sent before. */
  lemma {:induction false} PassDeliveries(s: Effects, results: seq<Page>, env: seq<Env>, parse: Parser, format: Formatter)
    requires |env| == |results|
    ensures forall m :: m in ProcessAll(s, results, env, parse, format).outbox[|s.outbox|..] <==>
      DeliveredIn(results, env, parse, m)
  {
    if results != [] {
      var n := |results| - 1;
      var xs, ex := results[..n], env[..n];
      PassDeliveries(s, xs, ex, parse, format);
      var prev := ProcessAll(s, xs, ex, parse, format);
      var r := ProcessAll(s, results, env, parse, format);
      assert r == ProcessRecord(prev, results[n], env[n], parse, format);
      var before, after := prev.outbox[|s.outbox|..], r.outbox[|s.outbox|..];
      var last := Delivered(results[n], env[n], parse);
      var m0 := if last then Classify(results[n], env[n].now, parse).message else Email("", "", None, 0);
      if last {
        assert r.outbox == prev.outbox + [m0];
        assert after == before + [m0];
      } else {
        assert after == before;
      }
      forall m | m in after
        ensures DeliveredIn(results, env, parse, m)
      {
        if m in before {
          assert DeliveredIn(xs, ex, parse, m);
          var i :| 0 <= i < |xs| && Delivers(xs[i], ex[i], parse, m);
          assert xs[i] == results[i] && ex[i] == env[i];
        } else {
          assert last && m == m0;
          assert Delivers(results[n], env[n], parse, m);
        }
      }
      forall m | DeliveredIn(results, env, parse, m)
        ensures m in after
      {
        var i :| 0 <= i < |results| && Delivers(results[i], env[i], parse, m);
        if i < n {
          assert xs[i] == results[i] && ex[i] == env[i];
          assert DeliveredIn(xs, ex, parse, m);
        } else {
          assert last && m == m0;
        }
      }
    }
  }

  /** What one record contributes to the outbox: its message when it delivers. */
  function SentBy(page: Page, e: Env, parse: Parser): seq<Email> {
    if Delivered(page, e, parse) then [Classify(page, e.now, parse).message] else []
  }

  /** The messages of the delivering records, read front to back. */
  function DeliveredMessages(results: seq<Page>, env: seq<Env>, parse: Parser): seq<Email>
    requires |env| == |results|
    decreases |results|
  {
    if results == [] then []
    else SentBy(results[0], env[0], parse) + DeliveredMessages(results[1..], env[1..], parse)
  }

  /** Extending the batch by one record extends its deliveries by that record's. */
  lemma {:induction false} DeliveredMessagesSnoc(xs: seq<Page>, p: Page, ex: seq<Env>, e: Env, parse: Parser)
    requires |ex| == |xs|
    ensures DeliveredMessages(xs + [p], ex + [e], parse) ==
            DeliveredMessages(xs, ex, parse) + SentBy(p, e, parse)
    decreases |xs|
  {
    var ys, ey := xs + [p], ex + [e];
    if xs == [] {
      assert ys[1..] == [] && ey[1..] == [];
      assert DeliveredMessages(ys, ey, parse) == SentBy(p, e, parse) + [];
    } else {
      var head := SentBy(xs[0], ex[0], parse);
      assert ys[0] == xs[0] && ey[0] == ex[0];
      assert ys[1..] == xs[1..] + [p] && ey[1..] == ex[1..] + [e];
      DeliveredMessagesSnoc(xs[1..], p, ex[1..], e, parse);
      calc {
        DeliveredMessages(ys, ey, parse);
        head + DeliveredMessages(xs[1..] + [p], ex[1..] + [e], parse);
        head + (DeliveredMessages(xs[1..], ex[1..], parse) + SentBy(p, e, parse));
        (head + DeliveredMessages(xs[1..], ex[1..], parse)) + SentBy(p, e, parse);
        DeliveredMessages(xs, ex, parse) + SentBy(p, e, parse);
      }
    }
  }

  /** A run sends one message per delivering record, in input order, after what
      was sent before: a page listed twice is mailed twice. */
  lemma {:induction false} PassSendsInOrder(s: Effects, results: seq<Page>, env: seq<Env>, parse: Parser, format: Formatter)
    requires |env| == |results|
    ensures ProcessAll(s, results, env, parse, format).outbox == s.outbox + DeliveredMessages(results, env, parse)
    decreases |results|
  {
    if results != [] {
      var n := |results| - 1;
      var xs, ex := results[..n], env[..n];
      assert results == xs + [results[n]] && env == ex + [env[n]];
      PassSendsInOrder(s, xs, ex, parse, format);
      ProcessAllSnoc(s, xs, results[n], ex, env[n], parse, format);
      DeliveredMessagesSnoc(xs, results[n], ex, env[n], parse);
    }
  }

  /** A page's properties change only through a record of that page whose send
      and update both returned. */
  lemma {:induction false} OnlyMarkedPagesChange(s: Effects, results: seq<Page>, env: seq<Env>, parse: Parser, format: Formatter, id: Id)
    requires |env| == |results| && id in s.pages
    requires ProcessAll(s, results, env, parse, format).pages[id] != s.pages[id]
    ensures exists i :: 0 <= i < |results| && results[i].id == Some(id) && Marks(results[i], env[i], parse, s.pages.Keys)
  {
    var n := |results| - 1;
    var prev := ProcessAll(s, results[..n], env[..n], parse, format);
    if prev.pages[id] != s.pages[id] {
      OnlyMarkedPagesChange(s, results[..n], env[..n], parse, format, id);
      var i :| 0 <= i < n && results[..n][i].id == Some(id) && Marks(results[..n][i], env[..n][i], parse, s.pages.Keys);
      assert results[..n][i] == results[i] && env[..n][i] == env[i];
    } else {
      assert Marks(results[n], env[n], parse, prev.pages.Keys);
    }
  }

  /** After a run, every page that a record marked holds a "Reminder Sent At"
      that reads back as a timestamp. */
  lemma {:induction false} MarkedPagesAreStamped(s: Effects, results: seq<Page>, env: seq<Env>, parse: Parser, format: Formatter, i: int, id: Id)
    requires IsoRoundTrip(parse, format)
    requires |env| == |results| && 0 <= i < |results|
    requires results[i].id == Some(id) && Marks(results[i], env[i], parse, s.pages.Keys)
    ensures var r := ProcessAll(s, results, env, parse, format);
      id in r.pages && ExtractDatetime(Get(r.pages[id], SentAtKey), parse).Some?
  {
    var n := |results| - 1;
    var xs, ex := results[..n], env[..n];
    var prev := ProcessAll(s, xs, ex, parse, format);
    assert ProcessAll(s, results, env, parse, format) == ProcessRecord(prev, results[n], env[n], parse, format);
    if i < n {
      assert xs[i] == results[i] && ex[i] == env[i];
      MarkedPagesAreStamped(s, xs, ex, parse, format, i, id);
    }
    StampSurvivesRecord(prev, results[n], env[n], parse, format, id);
  }

  /** One record keeps a stamp that is there, and marking its own page stamps it. */
  lemma StampSurvivesRecord(s: Effects, page: Page, e: Env, parse: Parser, format: Formatter, id: Id)
    requires IsoRoundTrip(parse, format) && id in s.pages
    requires ExtractDatetime(Get(s.pages[id], SentAtKey), parse).Some? ||
             (page.id == Some(id) && Marks(page, e, parse, s.pages.Keys))
    ensures var r := ProcessRecord(s, page, e, parse, format);
      id in r.pages && ExtractDatetime(Get(r.pages[id], SentAtKey), parse).Some?
  {
  }

  /** A record that delivers nothing (an exception, a skip, or a failed send)
      leaves no trace: the run goes on exactly as if it were not in the results. */
  lemma {:induction false} UndeliveredRecordIsTransparent(
      s: Effects, xs: seq<Page>, p: Page, ys: seq<Page>,
      ex: seq<Env>, e: Env, ey: seq<Env>, parse: Parser, format: Formatter)
    requires |ex| == |xs| && |ey| == |ys|
    requires !Delivered(p, e, parse)
    ensures ProcessAll(s, xs + [p] + ys, ex + [e] + ey, parse, format) ==
            ProcessAll(s, xs + ys, ex + ey, parse, format)
    decreases |ys|
  {
    if ys == [] {
      assert xs + [p] + ys == xs + [p] && ex + [e] + ey == ex + [e];
      assert xs + ys == xs && ex + ey == ex;
      ProcessAllSnoc(s, xs, p, ex, e, parse, format);
    } else {
      var k := |ys| - 1;
      UndeliveredRecordIsTransparent(s, xs, p, ys[..k], ex, e, ey[..k], parse, format);
      assert xs + [p] + ys == (xs + [p] + ys[..k]) + [ys[k]];
      assert ex + [e] + ey == (ex + [e] + ey[..k]) + [ey[k]];
      assert xs + ys == (xs + ys[..k]) + [ys[k]];
      assert ex + ey == (ex + ey[..k]) + [ey[k]];
      ProcessAllSnoc(s, xs + [p] + ys[..k], ys[k], ex + [e] + ey[..k], ey[k], parse, format);
      ProcessAllSnoc(s, xs + ys[..k], ys[k], ex + ey[..k], ey[k], parse, format);
    }
  }

  /** The loop over a batch extended by one record is one more iteration. */
  lemma ProcessAllSnoc(s: Effects, xs: seq<Page>, p: Page, ex: seq<Env>, e: Env, parse: Parser, format: Formatter)
    requires |ex| == |xs|
    ensures ProcessAll(s, xs + [p], ex + [e], parse, format) ==
            ProcessRecord(ProcessAll(s, xs, ex, parse, format), p, e, parse, format)
  {
    assert (xs + [p])[..|xs|] == xs && (ex + [e])[..|ex|] == ex;
  }

  /** A send that raises changes nothing, so the record stays eligible. A send
      that returns followed by a failed update leaves the database as it was: the
      next run may send the same reminder again. */
  lemma FailedCallsLeaveThePagePending(s: Effects, page: Page, e: Env, parse: Parser, format: Formatter)
    requires Classify(page, e.now, parse).Send?
    ensures !e.sendOk ==> ProcessRecord(s, page, e, parse, format) == s
    ensures e.sendOk && !e.updateOk ==>
      ProcessRecord(s, page, e, parse, format).pages == s.pages &&
      ProcessRecord(s, page, e, parse, format).outbox == s.outbox + [Classify(page, e.now, parse).message]
  {
  }

  /** What a later query of the database returns, for the pages in `order`:
      each one with its current properties. */
  function Snapshot(pages: map<Id, Props>, order: seq<Id>): (r: seq<Page>)
    ensures |r| <= |order|
    ensures forall j :: 0 <= j < |r| ==>
      r[j].id.Some? && r[j].id.value in pages && r[j].properties == Some(pages[r[j].id.value])
    ensures forall id :: id in order && id in pages ==> Page(Some(id), Some(pages[id])) in r
    decreases |order|
  {
    if order == [] then []
    else
      var rest := Snapshot(pages, order[1..]);
      assert forall id :: id in order && id != order[0] ==> id in order[1..];
      if order[0] in pages then [Page(Some(order[0]), Some(pages[order[0]]))] + rest else rest
  }

  /** Re-run idempotence: once a record's send and update have both returned, a
      later query of the database yields that page with a stamp, so no later run
      decides to send to it, at any clock reading. */
  lemma RerunNeverResends(
      s: Effects, results: seq<Page>, env: seq<Env>, parse: Parser, format: Formatter,
      i: int, id: Id, order: seq<Id>)
    requires IsoRoundTrip(parse, format)
    requires |env| == |results| && 0 <= i < |results|
    requires results[i].id == Some(id) && Marks(results[i], env[i], parse, s.pages.Keys)
    ensures var r := ProcessAll(s, results, env, parse, format);
      id in r.pages && ExtractDatetime(Get(r.pages[id], SentAtKey), parse).Some? &&
      (id in order ==> Page(Some(id), Some(r.pages[id])) in Snapshot(r.pages, order))
    ensures var q := Snapshot(ProcessAll(s, results, env, parse, format).pages, order);
      forall j, now :: 0 <= j < |q| && q[j].id == Some(id) ==> !Classify(q[j], now, parse).Send?
  {
    var r := ProcessAll(s, results, env, parse, format);
    var q := Snapshot(r.pages, order);
    MarkedPagesAreStamped(s, results, env, parse, format, i, id);
    forall j, now | 0 <= j < |q| && q[j].id == Some(id)
      ensures !Classify(q[j], now, parse).Send?
    {
      SentAtBlocksSend(q[j], now, parse);
    }
  }

  /** A second run over a snapshot in which the page is never sent to leaves that
      page's properties alone and sends only to other pages. */
  lemma {:induction false} RerunSkipsThePage(r: Effects, q: seq<Page>, env2: seq<Env>, parse: Parser, format: Formatter, id: Id)
    requires |env2| == |q| && id in r.pages
    requires forall j :: 0 <= j < |q| && q[j].id == Some(id) ==> !Classify(q[j], env2[j].now, parse).Send?
    ensures var r2 := ProcessAll(r, q, env2, parse, format);
      && r2.pages[id] == r.pages[id]
      && (forall m :: m in r2.outbox[|r.outbox|..] ==>
            exists j :: 0 <= j < |q| && q[j].id != Some(id) && Delivers(q[j], env2[j], parse, m))
  {
    var r2 := ProcessAll(r, q, env2, parse, format);
    if r2.pages[id] != r.pages[id] {
      OnlyMarkedPagesChange(r, q, env2, parse, format, id);
      assert false;
    }
    PassDeliveries(r, q, env2, parse, format);
    forall m | m in r2.outbox[|r.outbox|..]
      ensures exists j :: 0 <= j < |q| && q[j].id != Some(id) && Delivers(q[j], env2[j], parse, m)
    {
      assert DeliveredIn(q, env2, parse, m);
    }
  }

  /** Re-run idempotence for a whole second run: after a record's send and update
      have both returned, a later run over what the database then holds leaves
      that page's properties alone and sends only to other pages. */
  lemma RerunIsIdempotent(
      s: Effects, results: seq<Page>, env: seq<Env>, parse: Parser, format: Formatter,
      i: int, id: Id, order: seq<Id>, env2: seq<Env>)
    requires IsoRoundTrip(parse, format)
    requires |env| == |results| && 0 <= i < |results|
    requires results[i].id == Some(id) && Marks(results[i], env[i], parse, s.pages.Keys)
    requires |env2| == |Snapshot(ProcessAll(s, results, env, parse, format).pages, order)|
    ensures var r := ProcessAll(s, results, env, parse, format);
      var q := Snapshot(r.pages, order);
      var r2 := ProcessAll(r, q, env2, parse, format);
      && id in r.pages && r2.pages[id] == r.pages[id]
      && (forall m :: m in r2.outbox[|r.outbox|..] ==>
            exists j :: 0 <= j < |q| && q[j].id != Some(id) && Delivers(q[j], env2[j], parse, m))
  {
    var r := ProcessAll(s, results, env, parse, format);
    var q := Snapshot(r.pages, order);
    RerunNeverResends(s, results, env, parse, format, i, id, order);
    RerunSkipsThePage(r, q, env2, parse, format, id);
  }
}
