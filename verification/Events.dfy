/**
 The event cursor (api.rs and reporting.rs): paging through a run's server log for one
 event, publishing an event at most once over ambiguous failures, and client sequences
 across crashes.
 */
module Events {
  import opened Common

  const PAGE: nat := 500
  const PAGES: nat := 20

  /** `client` is the worker's own sequence number; other producers' events have none. */
  datatype Entry = Entry(sequence: nat, client: Option<nat>, content: nat)

  /** The server numbers a run's events upward. */
  predicate Ordered(log: seq<Entry>) {
    (forall i :: 0 <= i < |log| ==> log[i].sequence > 0)
    && forall i, j :: 0 <= i < j < |log| ==> log[i].sequence < log[j].sequence
  }

  function Last(log: seq<Entry>): nat { if log == [] then 0 else log[|log| - 1].sequence }

  /** How many events the cursor has passed. */
  function Passed(log: seq<Entry>, after: nat): (n: nat)
    ensures n <= |log|
    ensures forall i :: 0 <= i < n ==> log[i].sequence <= after
    ensures n < |log| ==> log[n].sequence > after
  {
    if log == [] || log[0].sequence > after then 0
    else
      var n := 1 + Passed(log[1..], after);
      assert forall i :: 0 < i < n ==> log[i] == log[1..][i - 1];
      n
  }

  /** One page of the events endpoint: up to 500 events after the cursor, in order. */
  function PageAfter(log: seq<Entry>, after: nat): seq<Entry> {
    var rest := log[Passed(log, after)..];
    if |rest| <= PAGE then rest else rest[..PAGE]
  }

  /** The first event with the client sequence, or the length. */
  function FirstMatch(items: seq<Entry>, client: nat): (i: nat)
    ensures i <= |items|
    ensures forall k :: 0 <= k < i ==> items[k].client != Some(client)
    ensures i < |items| ==> items[i].client == Some(client)
  {
    if items == [] || items[0].client == Some(client) then 0
    else
      var i := 1 + FirstMatch(items[1..], client);
      assert forall k :: 0 < k < i ==> items[k] == items[1..][k - 1];
      i
  }

  // ---------------------------------------------------------------- the search

  datatype Search = Found(sequence: nat) | NotFound | ReplayTooLong

  /** The linear search the pages stand for. */
  function Linear(log: seq<Entry>, after: nat, client: nat): Search {
    var rest := log[Passed(log, after)..];
    var i := FirstMatch(rest, client);
    if i < |rest| && i < PAGES * PAGE then Found(rest[i].sequence)
    else if |rest| <= (PAGES - 1) * PAGE then NotFound
    else ReplayTooLong
  }

  lemma PassedAt(log: seq<Entry>, n: nat)
    requires Ordered(log) && 0 < n <= |log|
    ensures Passed(log, log[n - 1].sequence) == n
  {
    assert forall i :: 0 <= i < n ==> log[i].sequence <= log[n - 1].sequence;
    assert n < |log| ==> log[n].sequence > log[n - 1].sequence;
  }

  lemma {:induction false} MatchInParts(items: seq<Entry>, n: nat, client: nat)
    requires n <= |items|
    ensures var i := FirstMatch(items[..n], client);
      FirstMatch(items, client) == if i < n then i else n + FirstMatch(items[n..], client)
  {
    if n == 0 {
      assert items[0..] == items;
    } else if items[0].client != Some(client) {
      MatchInParts(items[1..], n - 1, client);
      assert items[..n][1..] == items[1..][..n - 1];
      assert items[n..] == items[1..][n - 1..];
    }
  }

  /** How many of `total` events `k` pages cover. */
  function Covered(total: nat, k: nat): nat { if total <= k * PAGE then total else k * PAGE }

  lemma PageStep(log: seq<Entry>, start: nat, after: nat, k: nat, client: nat)
    requires Ordered(log) && start <= |log| && Passed(log, after) == start + Covered(|log| - start, k)
    requires FirstMatch(log[start..], client) >= Covered(|log| - start, k)
    ensures var rest, page := log[start..], PageAfter(log, after);
      var i, from, to := FirstMatch(page, client), Covered(|rest|, k), Covered(|rest|, k + 1);
      && |page| == to - from
      && (i < |page| ==> FirstMatch(rest, client) == from + i && page[i] == rest[from + i])
      && (i == |page| ==> FirstMatch(rest, client) >= to)
      && (page != [] ==> Passed(log, page[|page| - 1].sequence) == start + to)
  {
    hide FirstMatch, Passed;
    var rest, page := log[start..], PageAfter(log, after);
    var from, to := Covered(|rest|, k), Covered(|rest|, k + 1);
    assert page == rest[from..][..to - from];
    MatchInParts(rest, from, client);
    MatchInParts(rest[from..], to - from, client);
    if page != [] {
      assert page[|page| - 1] == log[start + to - 1];
      PassedAt(log, start + to);
    }
  }

  /**
   `find_event_by_client_sequence`: always ends, finds an event exactly when it is among the
   first 10,000 after the cursor, and reports absence only when at most 9,500 follow it (the
   last request has to come back empty).
   */
  method FindEventByClientSequence(log: seq<Entry>, cursor: nat, client: nat) returns (r: Search)
    requires Ordered(log)
    ensures r == Linear(log, cursor, client)
  {
    hide FirstMatch, Passed, PageAfter, Ordered;
    var after := cursor;
    ghost var start := Passed(log, cursor);
    ghost var rest := log[start..];
    for k := 0 to PAGES
      invariant Passed(log, after) == start + Covered(|rest|, k)
      invariant FirstMatch(rest, client) >= Covered(|rest|, k)
      invariant k > 0 ==> |rest| > (k - 1) * PAGE
    {
      PageStep(log, start, after, k, client);
      var page := PageAfter(log, after);
      var i := FirstMatch(page, client);
      if i < |page| {
        return Found(page[i].sequence);
      }
      if |page| == 0 {
        return NotFound;
      }
      after := page[|page| - 1].sequence;
    }
    return ReplayTooLong;
  }

  // ---------------------------------------------------------------- publishing one event

  /** Publishing is idempotent in the client sequence: a known one gets its existing entry back. */
  function Publish(log: seq<Entry>, client: nat, content: nat): (seq<Entry>, nat) {
    var i := FirstMatch(log, client);
    if i < |log| then (log, log[i].sequence)
    else (log + [Entry(Last(log) + 1, Some(client), content)], Last(log) + 1)
  }

  /** An event this worker tried to publish. */
  datatype Issued = Issued(client: nat, content: nat)

  /** What reaches the server: another producer's event, or a request of this worker, however late. */
  datatype Arrival = Other | Lands(request: Issued)

  /** The log after some arrivals; of this worker's requests only those it sent can land. */
  function Meanwhile(log: seq<Entry>, sent: seq<Issued>, arrivals: seq<Arrival>): seq<Entry> {
    if arrivals == [] then log
    else Arrive(Meanwhile(log, sent, arrivals[..|arrivals| - 1]), sent, arrivals[|arrivals| - 1])
  }

  function Arrive(log: seq<Entry>, sent: seq<Issued>, arrival: Arrival): seq<Entry> {
    match arrival
    case Other => log + [Entry(Last(log) + 1, None, 0)]
    case Lands(request) => if request in sent then Publish(log, request.client, request.content).0 else log
  }

  /** An answer may be lost after the server took the event, and an unanswered request may land at any later time. */
  datatype Delivery = Answered | AnswerLost | Unanswered

  /** `before` and `between` arrive before the search and before the second request. */
  datatype Attempts = Attempts(
    first: Delivery, leaseLost: bool, before: seq<Arrival>, between: seq<Arrival>, second: Delivery)

  /** What the server's log becomes, and the sequence the worker gets when it succeeds. */
  datatype Published = Published(log: seq<Entry>, sequence: Option<nat>)

  function Delivered(log: seq<Entry>, client: nat, content: nat, delivery: Delivery): seq<Entry> {
    if delivery == Unanswered then log else Publish(log, client, content).0
  }

  function PublishEvent(
      log: seq<Entry>, sent: seq<Issued>, progress: nat, client: nat, content: nat, a: Attempts): Published {
    var first := Delivered(log, client, content, a.first);
    if a.first == Answered then Published(first, Some(Publish(log, client, content).1))
    else if a.leaseLost then Published(first, None)
    else
      var seen := Meanwhile(first, sent, a.before);
      match Linear(seen, progress, client)
      case Found(sequence) => Published(seen, Some(sequence))
      case ReplayTooLong => Published(seen, None)
      case NotFound =>
        var landed := Meanwhile(seen, sent, a.between);
        if a.second == Answered then Published(Publish(landed, client, content).0, Some(Publish(landed, client, content).1))
        else Published(Delivered(landed, client, content, a.second), None)
  }

  /** Entries for a client sequence. */
  function CountOf(log: seq<Entry>, client: nat): nat {
    if log == [] then 0
    else CountOf(log[..|log| - 1], client) + if log[|log| - 1].client == Some(client) then 1 else 0
  }

  predicate OneEntryPerClient(log: seq<Entry>) {
    forall i, j :: 0 <= i < j < |log| && log[i].client.Some? ==> log[i].client != log[j].client
  }

  /** What the server keeps: its numbering, no event this worker did not send, and none twice. */
  predicate Legal(log: seq<Entry>, sent: seq<Issued>) {
    && Ordered(log) && OneEntryPerClient(log)
    && forall i :: 0 <= i < |log| && log[i].client.Some? ==> Issued(log[i].client.value, log[i].content) in sent
  }

  /** The only event sent under its number. */
  predicate Sole(sent: seq<Issued>, request: Issued) {
    request in sent && forall other :: other in sent && other.client == request.client ==> other == request
  }

  lemma {:induction false} CountMatches(log: seq<Entry>, client: nat)
    ensures CountOf(log, client) == 0 <==> FirstMatch(log, client) == |log|
  {
    if log != [] {
      var front := log[..|log| - 1];
      CountMatches(front, client);
      MatchInParts(log, |log| - 1, client);
      assert log[|log| - 1..] == [log[|log| - 1]];
    }
  }

  lemma {:induction false} CountIsOne(log: seq<Entry>, client: nat)
    requires OneEntryPerClient(log)
    ensures CountOf(log, client) <= 1
  {
    if log != [] {
      var front := log[..|log| - 1];
      assert forall i :: 0 <= i < |front| ==> front[i] == log[i];
      CountIsOne(front, client);
      CountMatches(front, client);
      var i := FirstMatch(front, client);
      assert i < |front| ==> log[i].client == Some(client);
    }
  }

  lemma AppendOrdered(log: seq<Entry>, entry: Entry)
    requires Ordered(log) && entry.sequence == Last(log) + 1
    ensures Ordered(log + [entry])
  {
  }

  /** What an older log did not have, a newer one has only in its new part. */
  lemma MatchIsNew(base: seq<Entry>, log: seq<Entry>, client: nat)
    requires base <= log && CountOf(base, client) == 0
    ensures FirstMatch(log, client) >= |base|
  {
    CountMatches(base, client);
    MatchInParts(log, |base|, client);
    assert log[..|base|] == base;
  }

  /** A request that lands, for the first time or again, leaves exactly its event, and whatever was there. */
  lemma PublishLegal(log: seq<Entry>, sent: seq<Issued>, request: Issued)
    requires Legal(log, sent) && request in sent
    ensures var (next, sequence) := Publish(log, request.client, request.content);
      && Legal(next, sent) && log <= next
      && var i := FirstMatch(next, request.client);
         i < |next| && next[i].sequence == sequence && next[i].client == Some(request.client)
  {
    hide Legal;
    var client := request.client;
    if FirstMatch(log, client) == |log| {
      var entry := Entry(Last(log) + 1, Some(client), request.content);
      NewEntryLegal(log, sent, entry);
      MatchInParts(log + [entry], |log|, client);
      assert (log + [entry])[..|log|] == log && (log + [entry])[|log|..] == [entry];
    }
  }

  lemma NewEntryLegal(log: seq<Entry>, sent: seq<Issued>, entry: Entry)
    requires Legal(log, sent) && entry.sequence == Last(log) + 1
    requires entry.client.Some? ==>
      FirstMatch(log, entry.client.value) == |log| && Issued(entry.client.value, entry.content) in sent
    ensures Legal(log + [entry], sent)
  {
    hide Ordered, FirstMatch, Last;
    AppendOrdered(log, entry);
    assert entry.client.Some? ==> forall i :: 0 <= i < |log| ==> log[i].client != entry.client;
  }

  lemma OtherLegal(log: seq<Entry>, sent: seq<Issued>)
    requires Legal(log, sent)
    ensures Legal(log + [Entry(Last(log) + 1, None, 0)], sent)
  {
    hide Legal;
    NewEntryLegal(log, sent, Entry(Last(log) + 1, None, 0));
  }

  lemma {:induction false} MeanwhileLegal(log: seq<Entry>, sent: seq<Issued>, arrivals: seq<Arrival>)
    requires Legal(log, sent)
    ensures Legal(Meanwhile(log, sent, arrivals), sent) && log <= Meanwhile(log, sent, arrivals)
  {
    hide Legal, Publish, Last;
    if arrivals != [] {
      MeanwhileLegal(log, sent, arrivals[..|arrivals| - 1]);
      var before := Meanwhile(log, sent, arrivals[..|arrivals| - 1]);
      match arrivals[|arrivals| - 1] {
        case Other => OtherLegal(before, sent);
        case Lands(request) =>
          if request in sent {
            PublishLegal(before, sent, request);
          }
      }
    }
  }

  lemma DeliveredLegal(log: seq<Entry>, sent: seq<Issued>, request: Issued, delivery: Delivery)
    requires Legal(log, sent) && request in sent
    ensures var next := Delivered(log, request.client, request.content, delivery); Legal(next, sent) && log <= next
  {
    hide Legal, Publish;
    PublishLegal(log, sent, request);
  }

  /** A cursor at or before the old end of the log has not passed any newer entry. */
  lemma CursorIsOld(log: seq<Entry>, base: seq<Entry>, progress: nat)
    requires Ordered(log) && base <= log && progress <= Last(base)
    ensures Passed(log, progress) <= |base|
  {
    assert base != [] && |base| < |log| ==> log[|base| - 1].sequence < log[|base|].sequence;
    assert |base| < |log| ==> log[|base|].sequence > progress;
  }

  lemma SearchSeesNew(log: seq<Entry>, base: seq<Entry>, progress: nat, client: nat)
    requires Ordered(log) && base <= log && progress <= Last(base) && CountOf(base, client) == 0
    ensures var r := Linear(log, progress, client);
      && (r.Found? ==> var i := FirstMatch(log, client); i < |log| && r.sequence == log[i].sequence)
      && (r.NotFound? ==> CountOf(log, client) == 0)
  {
    hide CountOf, FirstMatch, Ordered, Passed;
    CursorIsOld(log, base, progress);
    MatchIsNew(base, log, client);
    CountMatches(log, client);
    var n := Passed(log, progress);
    MatchInParts(log, n, client);
    MatchInParts(base, n, client);
    assert log[..n] == base[..n];
    CountMatches(base, client);
  }

  /** The log keeps what the server keeps, whatever the attempts meet. */
  lemma PublishEventLegal(
      log: seq<Entry>, sent: seq<Issued>, progress: nat, client: nat, content: nat, a: Attempts)
    requires Legal(log, sent) && Issued(client, content) in sent
    ensures var p := PublishEvent(log, sent, progress, client, content, a); Legal(p.log, sent) && log <= p.log
  {
    hide Legal, Publish, Linear, Meanwhile, Delivered;
    var request := Issued(client, content);
    var first := Delivered(log, client, content, a.first);
    DeliveredLegal(log, sent, request, a.first);
    var seen := Meanwhile(first, sent, a.before);
    MeanwhileLegal(first, sent, a.before);
    var landed := Meanwhile(seen, sent, a.between);
    MeanwhileLegal(seen, sent, a.between);
    DeliveredLegal(landed, sent, request, a.second);
    PublishLegal(landed, sent, request);
  }

  /** The sequence that comes back is that of the log's entry for the client. */
  lemma AnswerIsTheEntry(
      log: seq<Entry>, sent: seq<Issued>, progress: nat, client: nat, content: nat, a: Attempts)
    requires Legal(log, sent) && Issued(client, content) in sent
    requires CountOf(log, client) == 0 && progress <= Last(log)
    ensures var p := PublishEvent(log, sent, progress, client, content, a);
      p.sequence.Some? ==>
        var i := FirstMatch(p.log, client);
        i < |p.log| && p.log[i].sequence == p.sequence.value && p.log[i].client == Some(client)
  {
    hide Legal, Publish, Linear, Meanwhile, CountOf, FirstMatch, Last;
    var request := Issued(client, content);
    var first := Delivered(log, client, content, a.first);
    PublishLegal(log, sent, request);
    var seen := Meanwhile(first, sent, a.before);
    MeanwhileLegal(first, sent, a.before);
    LegalOrdered(seen, sent);
    SearchSeesNew(seen, log, progress, client);
    var landed := Meanwhile(seen, sent, a.between);
    MeanwhileLegal(seen, sent, a.between);
    PublishLegal(landed, sent, request);
  }

  lemma LegalOrdered(log: seq<Entry>, sent: seq<Issued>)
    requires Legal(log, sent)
    ensures Ordered(log)
  {
  }

  /**
   A successful publish of a new client sequence leaves exactly one entry for it, with its
   content, numbered with the sequence returned, beyond the cursor and every earlier event;
   and however it fails there is never more than one, whatever else lands meanwhile.
   */
  lemma PublishEventOnce(
      log: seq<Entry>, sent: seq<Issued>, progress: nat, client: nat, content: nat, a: Attempts)
    requires Legal(log, sent) && Sole(sent, Issued(client, content))
    requires CountOf(log, client) == 0 && progress <= Last(log)
    ensures var p := PublishEvent(log, sent, progress, client, content, a);
      && Legal(p.log, sent) && log <= p.log && CountOf(p.log, client) <= 1
      && (p.sequence.Some? ==>
            && CountOf(p.log, client) == 1
            && var i := FirstMatch(p.log, client);
               && |log| <= i < |p.log| && p.log[i] == Entry(p.sequence.value, Some(client), content)
               && p.sequence.value > Last(log))
  {
    hide PublishEvent, CountOf, Last;
    var p := PublishEvent(log, sent, progress, client, content, a);
    PublishEventLegal(log, sent, progress, client, content, a);
    AnswerIsTheEntry(log, sent, progress, client, content, a);
    CountIsOne(p.log, client);
    CountMatches(p.log, client);
    MatchIsNew(log, p.log, client);
    if p.sequence.Some? {
      BeyondEnd(log, p.log, FirstMatch(p.log, client));
    }
  }

  /** An entry for the client among the events after the cursor. */
  predicate After(log: seq<Entry>, cursor: nat, client: nat, i: nat) {
    i < |log| && log[i].sequence > cursor && log[i].client == Some(client)
  }

  /**
   The search finds the event exactly when it is among the first 10,000 after the cursor, and
   says it is absent exactly when no event after the cursor is it and at most 9,500 follow.
   */
  lemma SearchedExactly(log: seq<Entry>, cursor: nat, client: nat)
    requires Ordered(log) && OneEntryPerClient(log)
    ensures var n := Passed(log, cursor);
      && (forall i :: 0 <= i < |log| ==> (log[i].sequence > cursor <==> i >= n))
      && (forall sequence :: Linear(log, cursor, client) == Found(sequence) <==>
            exists i: nat :: After(log, cursor, client, i) && i < n + 10_000 && log[i].sequence == sequence)
      && (Linear(log, cursor, client) == NotFound <==>
            |log| - n <= 9_500 && forall i: nat :: !After(log, cursor, client, i))
  {
    hide FirstMatch, Passed;
    var n := Passed(log, cursor);
    AboveCursor(log, cursor);
    var rest := log[n..];
    var k := FirstMatch(rest, client);
    if k < |rest| {
      assert rest[k] == log[n + k] && After(log, cursor, client, n + k);
    }
    forall i: nat | After(log, cursor, client, i) ensures i == n + k {
      assert rest[i - n] == log[i];
    }
  }

  lemma AboveCursor(log: seq<Entry>, cursor: nat)
    requires Ordered(log)
    ensures forall i :: 0 <= i < |log| ==> (log[i].sequence > cursor <==> i >= Passed(log, cursor))
  {
    var n := Passed(log, cursor);
    assert n < |log| ==> log[n].sequence > cursor;
  }

  /**
   When a publish succeeds: on its first answer; or, while the lease holds, on finding the
   event or on the answer to a second request, made exactly when the event was absent. On
   a lost lease neither the search nor a second request is made.
   */
  lemma PublishSucceedsExactly(
      log: seq<Entry>, sent: seq<Issued>, progress: nat, client: nat, content: nat, a: Attempts)
    ensures var p := PublishEvent(log, sent, progress, client, content, a);
      var first := if a.first == Unanswered then log else Publish(log, client, content).0;
      var seen := Meanwhile(first, sent, a.before);
      var search := Linear(seen, progress, client);
      && (p.sequence.Some? <==>
            a.first == Answered || (!a.leaseLost && (search.Found? || (search == NotFound && a.second == Answered))))
      && (a.first == Answered || a.leaseLost ==> p.log == first)
      && (a.first != Answered && !a.leaseLost && search != NotFound ==> p.log == seen)
      && (a.first != Answered && !a.leaseLost && search == NotFound ==>
            p.log == if a.second == Unanswered then Meanwhile(seen, sent, a.between)
                     else Publish(Meanwhile(seen, sent, a.between), client, content).0)
  {
    hide Publish, Linear, Meanwhile;
  }

  /** Whatever lands at any later time: a late request finds its one entry there, or makes it. */
  lemma LateRequestsAddNothing(log: seq<Entry>, sent: seq<Issued>, request: Issued, arrivals: seq<Arrival>)
    requires Legal(log, sent) && Sole(sent, request)
    ensures var later := Meanwhile(log, sent, arrivals);
      && CountOf(log, request.client) <= CountOf(later, request.client) <= 1
      && (CountOf(later, request.client) == 1 ==>
            var i := FirstMatch(later, request.client);
            && i < |later| && later[i].content == request.content
            && (CountOf(log, request.client) == 1 ==> i == FirstMatch(log, request.client)))
  {
    hide Ordered, CountOf, Meanwhile;
    var client, later := request.client, Meanwhile(log, sent, arrivals);
    MeanwhileLegal(log, sent, arrivals);
    CountIsOne(log, client);
    CountIsOne(later, client);
    CountMatches(log, client);
    CountMatches(later, client);
    MatchInParts(later, |log|, client);
    assert later[..|log|] == log;
  }

  lemma BeyondEnd(base: seq<Entry>, log: seq<Entry>, i: nat)
    requires base <= log && Ordered(log) && |base| <= i < |log|
    ensures log[i].sequence > Last(base)
  {
    assert base != [] ==> log[|base| - 1].sequence < log[i].sequence;
  }

  function Busy(n: nat): seq<Arrival> { seq(n, _ => Other) }

  lemma {:induction false} BusyLength(n: nat)
    ensures var log := Meanwhile([], [], Busy(n));
      |log| == n && Ordered(log) && forall i :: 0 <= i < n ==> log[i].client.None?
  {
    if n > 0 {
      BusyLength(n - 1);
      assert Busy(n)[..n - 1] == Busy(n - 1);
      var before := Meanwhile([], [], Busy(n - 1));
      AppendOrdered(before, Entry(Last(before) + 1, None, 0));
    }
  }

  /** A log of 9,501 other events: the search does not find the event, and gives up instead of saying so. */
  lemma AbsenceNotReported(client: nat)
    ensures var log := Meanwhile([], [], Busy((PAGES - 1) * PAGE + 1));
      Ordered(log) && |log| == 9501 && FirstMatch(log, client) == |log| && Linear(log, 0, client) == ReplayTooLong
  {
    hide Meanwhile, FirstMatch, Passed, Ordered;
    var n := (PAGES - 1) * PAGE + 1;
    BusyLength(n);
    var log := Meanwhile([], [], Busy(n));
    NothingPassed(log);
    assert log[0..] == log;
  }

  lemma NothingPassed(log: seq<Entry>)
    requires Ordered(log)
    ensures Passed(log, 0) == 0
  {
  }

  // ---------------------------------------------------------------- sequences across crashes

  /** What the journal holds of the two counters. */
  datatype Saved = Saved(sequence: nat, progress: nat)

  /**
   The worker's counters (absent while it is down), the journal, the server's log, and the
   history of what was issued and which server sequences came back.
   */
  datatype State = State(
    memory: Option<Saved>, saved: Saved, log: seq<Entry>, issued: seq<Issued>, published: seq<nat>)

  const START := State(None, Saved(0, 0), [], [], [])

  /**
   A strict event (a message or a log) stops when its checkpoint fails; a step goes on.
   Requests sent before and other producers' events arrive at any time. While the worker is
   down its run can get another journal, with counters at zero: it adopts another run's.
   */
  datatype Op =
    | Start
    | Emit(content: nat, strict: bool, checkpoint: bool, attempts: Attempts, recorded: bool)
    | Meantime(arrivals: seq<Arrival>)
    | OtherJournal
    | Crash

  function AfterEmit(s: State, memory: Saved, op: Op): State
    requires op.Emit?
  {
    var client := memory.sequence + 1;
    var now := Saved(client, memory.progress);
    var kept := if op.checkpoint then now else s.saved;
    if op.strict && !op.checkpoint then s.(memory := Some(now))
    else
      var issued := s.issued + [Issued(client, op.content)];
      var p := PublishEvent(s.log, issued, memory.progress, client, op.content, op.attempts);
      match p.sequence
      case None => State(Some(now), kept, p.log, issued, s.published)
      case Some(sequence) =>
        var after := Saved(client, sequence);
        State(Some(after), if op.recorded then after else kept, p.log, issued, s.published + [sequence])
  }

  function Next(s: State, op: Op): State {
    match op
    case Start => if s.memory.Some? then s else s.(memory := Some(s.saved))
    case Crash => s.(memory := None)
    case OtherJournal => if s.memory.Some? then s else s.(saved := Saved(0, 0))
    case Meantime(arrivals) => s.(log := Meanwhile(s.log, s.issued, arrivals))
    case Emit(_, _, _, _, _) => if s.memory.None? then s else AfterEmit(s, s.memory.value, op)
  }

  function Run(ops: seq<Op>): State {
    if ops == [] then START else Next(Run(ops[..|ops| - 1]), ops[|ops| - 1])
  }

  /** The journal knows of every event issued so far, whichever save got it there. */
  predicate CaughtUp(s: State) { forall i :: 0 <= i < |s.issued| ==> s.issued[i].client <= s.saved.sequence }

  /** So it was each time the worker came up. */
  predicate StartsCaughtUp(ops: seq<Op>) {
    forall i :: 0 <= i < |ops| && ops[i].Start? && Run(ops[..i]).memory.None? ==> CaughtUp(Run(ops[..i]))
  }

  predicate Increasing(numbers: seq<nat>) { forall i, j :: 0 <= i < j < |numbers| ==> numbers[i] < numbers[j] }

  predicate DistinctClients(issued: seq<Issued>) {
    forall i, j :: 0 <= i < j < |issued| ==> issued[i].client < issued[j].client
  }

  /**
   One event: its number is used up in any case; it is sent unless it is strict and could not
   be saved first; what was saved is its number, and the cursor once it has moved and that
   could be written.
   */
  lemma EmittedExactly(s: State, op: Op)
    requires s.memory.Some? && op.Emit?
    ensures var before := s.memory.value;
      var client := before.sequence + 1;
      var t := Next(s, op);
      var sends := op.checkpoint || !op.strict;
      var published := |t.published| > |s.published|;
      && t.memory.Some? && t.memory.value.sequence == client
      && t.issued == (if sends then s.issued + [Issued(client, op.content)] else s.issued)
      && (!sends ==> t.log == s.log && t.saved == s.saved)
      && (published ==> sends && t.published == s.published + [t.memory.value.progress])
      && (!published ==> t.memory.value.progress == before.progress && t.published == s.published)
      && t.saved == (if published && op.recorded then t.memory.value
                     else if op.checkpoint then Saved(client, before.progress) else s.saved)
      && (op.strict && sends ==> t.saved.sequence == client)
  {
    hide PublishEvent;
  }

  // ---------------------------------------------------------------- every log

  lemma MoreSent(log: seq<Entry>, sent: seq<Issued>, request: Issued)
    requires Legal(log, sent)
    ensures Legal(log, sent + [request])
  {
  }

  lemma EmitLegal(s: State, op: Op)
    requires s.memory.Some? && op.Emit? && Legal(s.log, s.issued)
    ensures var t := AfterEmit(s, s.memory.value, op); Legal(t.log, t.issued) && s.log <= t.log
  {
    hide PublishEvent, Legal;
    var client := s.memory.value.sequence + 1;
    var issued := s.issued + [Issued(client, op.content)];
    MoreSent(s.log, s.issued, Issued(client, op.content));
    PublishEventLegal(s.log, issued, s.memory.value.progress, client, op.content, op.attempts);
  }

  lemma NextLegal(s: State, op: Op)
    requires Legal(s.log, s.issued)
    ensures Legal(Next(s, op).log, Next(s, op).issued) && s.log <= Next(s, op).log
  {
    hide AfterEmit, Legal, Meanwhile;
    match op {
      case Emit(_, _, _, _, _) =>
        if s.memory.Some? {
          EmitLegal(s, op);
        }
      case Meantime(arrivals) => MeanwhileLegal(s.log, s.issued, arrivals);
      case _ =>
    }
  }

  /** In every history, confused or not, the log has at most one entry for a client sequence, of an event issued. */
  lemma {:induction false} EveryLogIsLegal(ops: seq<Op>)
    ensures Legal(Run(ops).log, Run(ops).issued)
  {
    hide Next, Legal;
    if ops == [] {
      NothingIsLegal();
    } else {
      EveryLogIsLegal(ops[..|ops| - 1]);
      NextLegal(Run(ops[..|ops| - 1]), ops[|ops| - 1]);
    }
  }

  lemma NothingIsLegal()
    ensures Legal(START.log, START.issued)
  {
  }

  // ---------------------------------------------------------------- histories in which the journal catches up

  predicate Inv(s: State) {
    && Legal(s.log, s.issued)
    && (s.memory.Some? ==> s.memory.value.progress <= Last(s.log))
    && (s.memory.Some? ==> forall i :: 0 <= i < |s.issued| ==> s.issued[i].client <= s.memory.value.sequence)
    && s.saved.progress <= Last(s.log)
    && DistinctClients(s.issued)
    && Increasing(s.published)
    && (forall i :: 0 <= i < |s.published| ==> s.published[i] <= Last(s.log))
  }

  lemma {:induction false} NoneAbove(log: seq<Entry>, client: nat)
    requires forall i :: 0 <= i < |log| && log[i].client.Some? ==> log[i].client.value < client
    ensures CountOf(log, client) == 0
  {
    if log != [] {
      NoneAbove(log[..|log| - 1], client);
    }
  }

  lemma LastGrows(log: seq<Entry>, next: seq<Entry>)
    requires Ordered(next) && log <= next
    ensures Last(log) <= Last(next)
  {
    assert log != [] ==> next[|log| - 1] == log[|log| - 1];
  }

  /** While the worker is up, the server has nothing beyond the last number it used. */
  lemma NewClient(s: State)
    requires Inv(s) && s.memory.Some?
    ensures CountOf(s.log, s.memory.value.sequence + 1) == 0
  {
    hide Ordered, DistinctClients, Increasing, OneEntryPerClient;
    NoneAbove(s.log, s.memory.value.sequence + 1);
  }

  lemma NewRequest(issued: seq<Issued>, request: Issued)
    requires forall i :: 0 <= i < |issued| ==> issued[i].client < request.client
    ensures Sole(issued + [request], request)
    ensures DistinctClients(issued) ==> DistinctClients(issued + [request])
  {
  }

  /** What publishing an event did. */
  lemma EmitPublishes(s: State, op: Op)
    requires Inv(s) && s.memory.Some? && op.Emit?
    ensures var memory := s.memory.value;
      var client := memory.sequence + 1;
      var issued := s.issued + [Issued(client, op.content)];
      var p := PublishEvent(s.log, issued, memory.progress, client, op.content, op.attempts);
      && Legal(p.log, issued) && DistinctClients(issued) && Last(s.log) <= Last(p.log)
      && (p.sequence.Some? ==>
            && CountOf(p.log, client) == 1
            && memory.progress <= Last(s.log) < p.sequence.value <= Last(p.log)
            && FirstMatch(p.log, client) < |p.log|
            && p.log[FirstMatch(p.log, client)] == Entry(p.sequence.value, Some(client), op.content))
  {
    hide PublishEvent, CountOf, Sole, DistinctClients, Ordered, OneEntryPerClient, Last, Increasing;
    var memory := s.memory.value;
    var client := memory.sequence + 1;
    var request := Issued(client, op.content);
    var issued := s.issued + [request];
    NewClient(s);
    NewRequest(s.issued, request);
    MoreSent(s.log, s.issued, request);
    PublishEventOnce(s.log, issued, memory.progress, client, op.content, op.attempts);
    var p := PublishEvent(s.log, issued, memory.progress, client, op.content, op.attempts);
    LastGrows(s.log, p.log);
    if p.sequence.Some? {
      EntryBelowLast(p.log, FirstMatch(p.log, client));
    }
  }

  lemma EmitInv(s: State, op: Op)
    requires Inv(s) && s.memory.Some? && op.Emit?
    ensures Inv(AfterEmit(s, s.memory.value, op))
  {
    hide PublishEvent, CountOf, FirstMatch, Last, Legal, DistinctClients;
    if op.checkpoint || !op.strict {
      EmitPublishes(s, op);
    }
  }

  lemma EntryBelowLast(log: seq<Entry>, i: nat)
    requires Ordered(log) && i < |log|
    ensures log[i].sequence <= Last(log)
  {
  }

  lemma NextInv(s: State, op: Op)
    requires Inv(s) && (op.Start? && s.memory.None? ==> CaughtUp(s))
    ensures Inv(Next(s, op))
  {
    hide AfterEmit, Legal, DistinctClients, Increasing, Meanwhile;
    match op {
      case Emit(_, _, _, _, _) =>
        if s.memory.Some? {
          EmitInv(s, op);
        }
      case Meantime(arrivals) => MeantimeInv(s, arrivals);
      case _ =>
    }
  }

  lemma MeantimeInv(s: State, arrivals: seq<Arrival>)
    requires Inv(s)
    ensures Inv(s.(log := Meanwhile(s.log, s.issued, arrivals)))
  {
    hide Meanwhile, Legal, Last, DistinctClients, Increasing;
    var log := Meanwhile(s.log, s.issued, arrivals);
    MeanwhileLegal(s.log, s.issued, arrivals);
    LegalOrdered(log, s.issued);
    LastGrows(s.log, log);
  }

  lemma {:induction false} RunInv(ops: seq<Op>)
    requires StartsCaughtUp(ops)
    ensures Inv(Run(ops))
  {
    hide Inv, Next, CaughtUp;
    if ops == [] {
      StartInv();
    } else {
      var front := ops[..|ops| - 1];
      assert forall i :: 0 <= i < |front| ==> front[..i] == ops[..i];
      RunInv(front);
      NextInv(Run(front), ops[|ops| - 1]);
    }
  }

  lemma StartInv()
    ensures Inv(START)
  {
  }

  /**
   Over any run of events, failed checkpoints, ambiguous publishes, requests landing at any
   later time, other producers, other journals and crashes, as long as the journal had
   caught up each time the worker came up: no client sequence is ever used for two events,
   each has at most one entry in the server's log and it holds that event, and the server
   sequences that came back only increase.
   */
  lemma EventsAreNotConfused(ops: seq<Op>)
    requires StartsCaughtUp(ops)
    ensures var s := Run(ops);
      && DistinctClients(s.issued)
      && (forall i :: 0 <= i < |s.log| && s.log[i].client.Some? ==>
            Issued(s.log[i].client.value, s.log[i].content) in s.issued)
      && OneEntryPerClient(s.log)
      && Increasing(s.published)
  {
    hide Run, StartsCaughtUp;
    RunInv(ops);
  }

  /** One more event of the shortest kind. */
  const PLAIN_EVENT := Emit(0, false, true, Attempts(Unanswered, true, [], [], Unanswered), false)

  function PlainEvents(k: nat): seq<Op> { seq(k, _ => PLAIN_EVENT) }

  lemma PlainEventIssues(s: State)
    requires s.memory.Some?
    ensures var t := Next(s, PLAIN_EVENT);
      && t.memory.Some? && t.memory.value.sequence == s.memory.value.sequence + 1
      && t.issued == s.issued + [Issued(s.memory.value.sequence + 1, 0)]
  {
    hide PublishEvent;
  }

  lemma {:induction false} PlainEventsIssue(ops: seq<Op>, k: nat)
    requires Run(ops).memory.Some?
    ensures var s, t := Run(ops), Run(ops + PlainEvents(k));
      && t.memory.Some? && t.memory.value.sequence == s.memory.value.sequence + k
      && |t.issued| == |s.issued| + k && s.issued <= t.issued
      && (k > 0 ==> t.issued[|t.issued| - 1].client == s.memory.value.sequence + k)
  {
    if k == 0 {
      assert ops + PlainEvents(0) == ops;
    } else {
      hide Next;
      PlainEventsIssue(ops, k - 1);
      assert (ops + PlainEvents(k))[..|ops| + k - 1] == ops + PlainEvents(k - 1);
      PlainEventIssues(Run(ops + PlainEvents(k - 1)));
    }
  }

  predicate NoStart(ops: seq<Op>) { forall i :: 0 <= i < |ops| ==> !ops[i].Start? }

  /**
   Coming up is safe, whatever follows until the next start, if and only if the journal has
   caught up: from any other journal the worker gets to a number it has used before.
   */
  lemma StartIsSafeExactly(ops: seq<Op>)
    requires StartsCaughtUp(ops) && Run(ops).memory.None?
    ensures CaughtUp(Run(ops)) <==>
      forall later :: NoStart(later) ==> DistinctClients(Run(ops + [Start] + later).issued)
  {
    hide Run, Inv, DistinctClients, StartsCaughtUp;
    if CaughtUp(Run(ops)) {
      forall later | NoStart(later) ensures DistinctClients(Run(ops + [Start] + later).issued) {
        CaughtUpThroughout(ops, later);
        EventsAreNotConfused(ops + [Start] + later);
      }
    } else {
      var s := Run(ops);
      var i :| 0 <= i < |s.issued| && s.issued[i].client > s.saved.sequence;
      var later := PlainEvents(s.issued[i].client - s.saved.sequence);
      Restarted(ops);
      PlainEventsIssue(ops + [Start], |later|);
      UsedTwice(Run(ops + [Start] + later).issued, i);
    }
  }

  lemma Restarted(ops: seq<Op>)
    requires Run(ops).memory.None?
    ensures Run(ops + [Start]) == Run(ops).(memory := Some(Run(ops).saved))
  {
    assert (ops + [Start])[..|ops|] == ops;
  }

  lemma UsedTwice(issued: seq<Issued>, i: nat)
    requires i < |issued| - 1 && issued[i].client == issued[|issued| - 1].client
    ensures !DistinctClients(issued)
  {
  }

  lemma CaughtUpThroughout(ops: seq<Op>, later: seq<Op>)
    requires StartsCaughtUp(ops) && CaughtUp(Run(ops)) && NoStart(later)
    ensures StartsCaughtUp(ops + [Start] + later)
  {
    hide Run, CaughtUp;
    var all := ops + [Start] + later;
    assert all[..|ops|] == ops;
    assert forall j :: |ops| < j < |all| ==> all[j] == later[j - |ops| - 1];
    forall i | 0 <= i < |all| && all[i].Start? && Run(all[..i]).memory.None? ensures CaughtUp(Run(all[..i])) {
      if i < |ops| {
        assert all[..i] == ops[..i] && all[i] == ops[i];
      }
    }
  }

  /** A failed checkpoint that a later save makes up is harmless. */
  lemma MadeUpCheckpointIsCaughtUp()
    ensures var ops := [Start, Emit(1, false, false, Attempts(Answered, false, [], [], Answered), true), Crash];
      StartsCaughtUp(ops) && CaughtUp(Run(ops)) && |Run(ops).issued| == 1
  {
    hide Linear, Meanwhile;
    var ops := [Start, Emit(1, false, false, Attempts(Answered, false, [], [], Answered), true), Crash];
    assert ops[..0] == [] && ops[..1][..0] == [] && ops[..2][..1] == ops[..1];
    assert Run([]) == START;
    assert Run(ops[..1]) == START.(memory := Some(Saved(0, 0)));
    assert [] + [Entry(1, Some(1), 1)] == [Entry(1, Some(1), 1)];
    assert Run(ops[..2]) == Next(Run(ops[..1]), ops[1]);
    assert Run(ops[..2]).saved == Saved(1, 1);
  }

  /** The log has exactly one entry for the last client sequence, numbered by the cursor. */
  predicate HoldsOnce(t: State, content: nat) {
    && t.memory.Some?
    && var client := t.memory.value.sequence;
       && CountOf(t.log, client) == 1 && FirstMatch(t.log, client) < |t.log|
       && t.log[FirstMatch(t.log, client)] == Entry(t.memory.value.progress, Some(client), content)
  }

  lemma EmitHoldsOnce(s: State, op: Op)
    requires Inv(s) && s.memory.Some? && op.Emit?
    ensures var t := AfterEmit(s, s.memory.value, op);
      t.published != s.published ==>
        HoldsOnce(t, op.content) && s.memory.value.progress < t.memory.value.progress == t.published[|t.published| - 1]
  {
    hide PublishEvent, CountOf, FirstMatch, Last, Legal, DistinctClients, Inv;
    EmitPublishes(s, op);
  }

  /** Each event reported published has exactly one entry, and the cursor moves up to it. */
  lemma EmittedOnce(ops: seq<Op>, op: Op)
    requires StartsCaughtUp(ops) && Run(ops).memory.Some? && op.Emit?
    ensures var s := Run(ops);
      var t := AfterEmit(s, s.memory.value, op);
      && t.memory.Some? && t.memory.value.sequence == s.memory.value.sequence + 1
      && (t.published != s.published ==>
            HoldsOnce(t, op.content) && s.memory.value.progress < t.memory.value.progress == t.published[|t.published| - 1])
  {
    hide Run, PublishEvent, HoldsOnce, Inv, StartsCaughtUp;
    RunInv(ops);
    EmitHoldsOnce(Run(ops), op);
  }

  /** The step goes on when its checkpoint failed; a crash then gives its number to the next event. */
  const UNSAVED_STEP := [
    Start, Emit(1, false, false, Attempts(Answered, false, [], [], Answered), false), Crash,
    Start, Emit(2, false, true, Attempts(Answered, false, [], [], Answered), true)]

  /**
   Without the checkpoint, and with the start it left behind, the second event is swallowed:
   both are reported published, under one client sequence, and the log holds only the first.
   */
  lemma UnsavedStepSwallowsAnEvent()
    ensures var s := Run(UNSAVED_STEP);
      && s.issued == [Issued(1, 1), Issued(1, 2)] && s.published == [1, 1]
      && s.log == [Entry(1, Some(1), 1)]
  {
    hide Run, AfterEmit;
    TheTwoEmits();
    RunOneMore(UNSAVED_STEP, 0);
    RunOneMore(UNSAVED_STEP, 1);
    RunOneMore(UNSAVED_STEP, 2);
    RunOneMore(UNSAVED_STEP, 3);
    RunOneMore(UNSAVED_STEP, 4);
    assert UNSAVED_STEP[..5] == UNSAVED_STEP;
  }

  const AFTER_FIRST := State(Some(Saved(1, 1)), Saved(0, 0), [Entry(1, Some(1), 1)], [Issued(1, 1)], [1])

  lemma TheTwoEmits()
    ensures AfterEmit(START.(memory := Some(Saved(0, 0))), Saved(0, 0), UNSAVED_STEP[1]) == AFTER_FIRST
    ensures var s := AfterEmit(AFTER_FIRST.(memory := Some(Saved(0, 0))), Saved(0, 0), UNSAVED_STEP[4]);
      && s.issued == [Issued(1, 1), Issued(1, 2)] && s.published == [1, 1] && s.log == AFTER_FIRST.log
  {
    hide Linear, Meanwhile;
    var entry := [Entry(1, Some(1), 1)];
    assert [] + entry == entry;
    assert FirstMatch([], 1) == 0;
    assert Publish([], 1, 1) == (entry, 1);
    assert FirstMatch(entry, 1) == 0 && Publish(entry, 1, 2) == (entry, 1);
  }

  lemma RunOneMore(ops: seq<Op>, n: nat)
    requires n < |ops|
    ensures Run(ops[..0]) == START
    ensures Run(ops[..n + 1]) == Next(Run(ops[..n]), ops[n])
  {
    assert ops[..n + 1][..n] == ops[..n];
  }

  /** A run reports that it cannot adopt another's work, and is given that work, journal and all, the next time. */
  const FAILED_PREPARATION := [
    Start, Emit(1, false, true, Attempts(Answered, false, [], [], Answered), true), Crash, OtherJournal,
    Start, Emit(2, false, true, Attempts(Answered, false, [], [], Answered), true)]

  /** Its counters start over under the same run: the second event is swallowed as well. */
  lemma OtherJournalSwallowsAnEvent()
    ensures var s := Run(FAILED_PREPARATION);
      && s.issued == [Issued(1, 1), Issued(1, 2)] && s.published == [1, 1]
      && s.log == [Entry(1, Some(1), 1)]
    ensures !CaughtUp(Run(FAILED_PREPARATION[..4]))
  {
    hide Run, AfterEmit;
    TheTwoReports();
    RunOneMore(FAILED_PREPARATION, 0);
    RunOneMore(FAILED_PREPARATION, 1);
    RunOneMore(FAILED_PREPARATION, 2);
    RunOneMore(FAILED_PREPARATION, 3);
    RunOneMore(FAILED_PREPARATION, 4);
    RunOneMore(FAILED_PREPARATION, 5);
    assert FAILED_PREPARATION[..6] == FAILED_PREPARATION;
    assert Run(FAILED_PREPARATION[..4]).issued[0].client == 1;
  }

  const REPORTED := State(Some(Saved(1, 1)), Saved(1, 1), [Entry(1, Some(1), 1)], [Issued(1, 1)], [1])

  lemma TheTwoReports()
    ensures AfterEmit(START.(memory := Some(Saved(0, 0))), Saved(0, 0), FAILED_PREPARATION[1]) == REPORTED
    ensures var s := AfterEmit(REPORTED.(memory := Some(Saved(0, 0)), saved := Saved(0, 0)), Saved(0, 0), FAILED_PREPARATION[5]);
      && s.issued == [Issued(1, 1), Issued(1, 2)] && s.published == [1, 1] && s.log == REPORTED.log
  {
    hide Linear, Meanwhile;
    var entry := [Entry(1, Some(1), 1)];
    assert [] + entry == entry;
    assert FirstMatch([], 1) == 0;
    assert Publish([], 1, 1) == (entry, 1);
    assert FirstMatch(entry, 1) == 0 && Publish(entry, 1, 2) == (entry, 1);
  }

  // ---------------------------------------------------------------- the reporter

  /** The reporter's counters, its journal, the requests it has sent and the server it talks to. */
  class Reporter {
    var sequence: nat
    var progress: nat
    var saved: Saved
    var sent: seq<Issued>
    var log: seq<Entry>

    constructor (saved: Saved, sent: seq<Issued>, log: seq<Entry>)
      ensures sequence == saved.sequence && progress == saved.progress && this.saved == saved
      ensures this.sent == sent && this.log == log
    {
      sequence, progress, this.saved, this.sent, this.log := saved.sequence, saved.progress, saved, sent, log;
    }

    /** One request to the server, which takes an event it already has only once. */
    method Send(client: nat, content: nat) returns (published: nat)
      modifies `log
      ensures (log, published) == Publish(old(log), client, content)
    {
      var i := FirstMatch(log, client);
      if i < |log| {
        return log[i].sequence;
      }
      published := Last(log) + 1;
      log := log + [Entry(published, Some(client), content)];
    }

    /** `publish_event`, up to recording the cursor. */
    method PublishRunEvent(client: nat, content: nat, a: Attempts) returns (published: Option<nat>)
      requires Legal(log, sent) && Issued(client, content) in sent
      modifies `log
      ensures Published(log, published) == PublishEvent(old(log), sent, progress, client, content, a)
    {
      hide Publish, Meanwhile, FirstMatch, Linear, Legal, Ordered;
      DeliveredLegal(log, sent, Issued(client, content), a.first);
      if a.first != Unanswered {
        var answer := Send(client, content);
        if a.first == Answered {
          return Some(answer);
        }
      }
      if a.leaseLost {
        return None;
      }
      MeanwhileLegal(log, sent, a.before);
      log := Meanwhile(log, sent, a.before);
      LegalOrdered(log, sent);
      var found := FindEventByClientSequence(log, progress, client);
      match found {
        case Found(sequence) => return Some(sequence);
        case ReplayTooLong => return None;
        case NotFound =>
      }
      log := Meanwhile(log, sent, a.between);
      if a.second == Unanswered {
        return None;
      }
      var answer := Send(client, content);
      return if a.second == Answered then Some(answer) else None;
    }

    /** One event: number it, checkpoint, publish, move the cursor. */
    method EmitEvent(op: Op) returns (published: Option<nat>)
      requires op.Emit? && Legal(log, sent)
      modifies this
      ensures var s := old(State(Some(Saved(sequence, progress)), saved, log, sent, []));
        var t := AfterEmit(s, s.memory.value, op);
        && State(Some(Saved(sequence, progress)), saved, log, sent, t.published) == t
        && t.published == (if published.Some? then [published.value] else [])
    {
      hide PublishEvent, Legal;
      sequence := sequence + 1;
      if op.checkpoint {
        saved := Saved(sequence, progress);
      } else if op.strict {
        return None;
      }
      MoreSent(log, sent, Issued(sequence, op.content));
      sent := sent + [Issued(sequence, op.content)];
      published := PublishRunEvent(sequence, op.content, op.attempts);
      if published.Some? {
        progress := published.value;
        if op.recorded {
          saved := Saved(sequence, progress);
        }
      }
    }
  }
}
