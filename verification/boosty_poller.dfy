/**
 The Boosty chat poller: every round walks back from the newest chat message to the last one it knows,
 then publishes what it found in chronological order. It keeps the newest identifier, the highest creation
 time and the identifiers seen at that time.
 */
module BoostyPoller {
  import opened Base

  const MAXIMUM_PAGES := 20
  const PAGE_LIMIT := 100

  /** A chat message; `readable` says whether its author and text survive normalisation. */
  datatype Message = Message(id: string, createdAt: int, readable: bool)

  datatype Answer = Failed | Page(data: seq<Message>, offset: string, isLast: bool)

  datatype Failure = RequestFailed | BadCursor | TooManyPages

  datatype Found = Found(messages: seq<Message>, newest: string)

  /** The poller's variables, and the messages it has published. */
  datatype Poller = Poller(lastID: string, initialized: bool, highWater: int, seen: set<string>, sent: seq<Message>)

  const INITIAL := Poller("", false, 0, {}, [])

  predicate Publishable(m: Message) {
    m.readable && m.id != "" && m.createdAt > 0
  }

  // ---------------------------------------------------------------------------------------------
  // One walk back
  // ---------------------------------------------------------------------------------------------

  /** The message is the last known one or older than the known time. */
  predicate Stops(p: Poller, m: Message) {
    (p.lastID != "" && m.id == p.lastID) || (p.highWater > 0 && 0 < m.createdAt < p.highWater)
  }

  predicate AnyStops(p: Poller, rows: seq<Message>) {
    exists i :: 0 <= i < |rows| && Stops(p, rows[i])
  }

  /** How many rows precede the first one that stops the walk. */
  function CutAt(p: Poller, rows: seq<Message>): (k: nat)
    ensures k <= |rows|
    ensures forall i | 0 <= i < k :: !Stops(p, rows[i])
    ensures k < |rows| ==> Stops(p, rows[k])
  {
    if rows == [] || Stops(p, rows[0]) then 0
    else
      var k := CutAt(p, rows[1..]) + 1;
      assert forall i | 1 <= i < k :: rows[i] == rows[1..][i - 1];
      k
  }

  function FirstId(rows: seq<Message>): string {
    if rows == [] then "" else if rows[0].id != "" then rows[0].id else FirstId(rows[1..])
  }

  lemma {:induction false} FirstIdAppend(front: seq<Message>, back: seq<Message>)
    ensures FirstId(front + back) == if FirstId(front) != "" then FirstId(front) else FirstId(back)
  {
    if front == [] {
      assert front + back == back;
    } else {
      FirstIdAppend(front[1..], back);
      assert (front + back)[1..] == front[1..] + back;
    }
  }

  /** What a walk over these rows finds; the row that stops it only counts for the newest identifier. */
  function FoundIn(p: Poller, rows: seq<Message>): Found {
    var k := CutAt(p, rows);
    Found(rows[..k], FirstId(rows[..if k < |rows| then k + 1 else k]))
  }

  function Flat(pages: seq<Answer>): seq<Message> {
    if pages == [] then []
    else Flat(pages[..|pages| - 1]) + (if pages[|pages| - 1].Page? then pages[|pages| - 1].data else [])
  }

  lemma FlatExtends(pages: seq<Answer>, n: nat)
    requires n < |pages|
    ensures Flat(pages[..n + 1]) == Flat(pages[..n]) + (if pages[n].Page? then pages[n].data else [])
  {
    assert pages[..n + 1][..n] == pages[..n];
  }

  function Offset(pages: seq<Answer>, i: nat): string
    requires i < |pages|
  {
    if pages[i].Page? then pages[i].offset else ""
  }

  /** Page i sends the walk on to the next one. */
  predicate Continues(p: Poller, pages: seq<Answer>, i: nat) {
    && i < |pages| && pages[i].Page? && pages[i].data != [] && !pages[i].isLast && p.initialized
    && !AnyStops(p, pages[i].data)
    && pages[i].offset != "" && (i > 0 ==> pages[i].offset != Offset(pages, i - 1))
  }

  predicate StopsAt(p: Poller, pages: seq<Answer>, n: nat) {
    && n <= |pages| && n <= MAXIMUM_PAGES
    && (forall i | 0 <= i < n :: Continues(p, pages, i))
    && (n < |pages| && n < MAXIMUM_PAGES ==> !Continues(p, pages, n))
  }

  /** The page a walk stops at. */
  function StopPage(p: Poller, pages: seq<Answer>, from: nat): (n: nat)
    requires from <= |pages| && from <= MAXIMUM_PAGES && forall i | 0 <= i < from :: Continues(p, pages, i)
    ensures StopsAt(p, pages, n)
    decreases |pages| - from
  {
    if from < |pages| && from < MAXIMUM_PAGES && Continues(p, pages, from) then StopPage(p, pages, from + 1) else from
  }

  /** The walk's outcome. Answers that never came count as failed requests. */
  function PollOutcome(p: Poller, pages: seq<Answer>): Result<Found, Failure> {
    OutcomeAt(p, pages, StopPage(p, pages, 0))
  }

  function OutcomeAt(p: Poller, pages: seq<Answer>, n: nat): Result<Found, Failure>
    requires n <= |pages|
  {
    if n == MAXIMUM_PAGES then Err(TooManyPages)
    else if n == |pages| || pages[n].Failed? then Err(RequestFailed)
    else if AnyStops(p, pages[n].data) || !p.initialized || pages[n].isLast || pages[n].data == []
    then Ok(FoundIn(p, Flat(pages[..n + 1])))
    else Err(BadCursor)
  }

  lemma StopPageIs(p: Poller, pages: seq<Answer>, n: nat)
    requires StopsAt(p, pages, n)
    ensures PollOutcome(p, pages) == OutcomeAt(p, pages, n)
  {
    var m: nat := StopPage(p, pages, 0);
    assert m < n ==> Continues(p, pages, m);
    assert n < m ==> Continues(p, pages, n);
  }

  /** A cut is where the rows before it do not stop the walk and the row at it does. */
  lemma CutIs(p: Poller, rows: seq<Message>, k: nat)
    requires k <= |rows| && (k < |rows| ==> Stops(p, rows[k]))
    requires forall i | 0 <= i < k :: !Stops(p, rows[i])
    ensures CutAt(p, rows) == k
  {
    var c := CutAt(p, rows);
    assert c < |rows| ==> Stops(p, rows[c]);
  }

  /** The walk is about to look at message i of page n, with everything before gathered. */
  ghost predicate Reached(p: Poller, pages: seq<Answer>, n: nat, i: nat, messages: seq<Message>) {
    && n < |pages| && n < MAXIMUM_PAGES && pages[n].Page? && i <= |pages[n].data|
    && (forall j | 0 <= j < n :: Continues(p, pages, j))
    && messages == Flat(pages[..n]) + pages[n].data[..i] && !AnyStops(p, messages)
  }

  lemma Step(p: Poller, pages: seq<Answer>, n: nat, i: nat, messages: seq<Message>)
    requires Reached(p, pages, n, i, messages) && i < |pages[n].data| && !Stops(p, pages[n].data[i])
    ensures Reached(p, pages, n, i + 1, messages + [pages[n].data[i]])
  {
    var more := messages + [pages[n].data[i]];
    assert more == Flat(pages[..n]) + pages[n].data[..i + 1];
    assert forall j | 0 <= j < |messages| :: more[j] == messages[j];
  }

  /** The walk ends at a message that stops it. */
  lemma EndsAtMessage(p: Poller, pages: seq<Answer>, n: nat, i: nat, messages: seq<Message>)
    requires Reached(p, pages, n, i, messages) && i < |pages[n].data| && Stops(p, pages[n].data[i])
    ensures PollOutcome(p, pages) == Ok(Found(messages, FirstId(messages + [pages[n].data[i]])))
  {
    var all := Flat(pages[..n + 1]);
    FlatExtends(pages, n);
    var m := pages[n].data[i];
    var k := |messages|;
    assert all == messages + [m] + pages[n].data[i + 1..];
    hide Flat, FirstId;
    assert CutAt(p, all) == k by {
      assert forall j | 0 <= j < k :: all[j] == messages[j];
      CutIs(p, all, k);
    }
    assert all[..k] == messages && all[..k + 1] == messages + [m];
    assert PollOutcome(p, pages) == OutcomeAt(p, pages, n) by {
      StopPageIs(p, pages, n);
    }
    hide PollOutcome, CutAt, Stops;
  }

  /** No message of the page stops the walk. */
  lemma EndsAfterPage(p: Poller, pages: seq<Answer>, n: nat, messages: seq<Message>)
    requires n < |pages| && pages[n].Page? && Reached(p, pages, n, |pages[n].data|, messages)
    ensures !AnyStops(p, pages[n].data) && messages == Flat(pages[..n + 1])
    ensures !p.initialized || pages[n].isLast || pages[n].data == [] ==>
              PollOutcome(p, pages) == Ok(Found(messages, FirstId(messages)))
    ensures p.initialized && !pages[n].isLast && pages[n].data != [] && !Continues(p, pages, n) ==>
              PollOutcome(p, pages) == Err(BadCursor)
  {
    FlatExtends(pages, n);
    var k := |messages|;
    assert pages[n].data[..|pages[n].data|] == pages[n].data;
    assert forall i | 0 <= i < |pages[n].data| :: pages[n].data[i] == messages[|Flat(pages[..n])| + i];
    assert messages[..k] == messages;
    hide Flat, FirstId;
    CutIs(p, messages, k);
    if !Continues(p, pages, n) {
      StopPageIs(p, pages, n);
    }
    hide PollOutcome, CutAt, Stops;
  }

  /** The walk ends for lack of an answer, or of pages it may still ask for. */
  lemma EndsWithoutPage(p: Poller, pages: seq<Answer>, n: nat)
    requires n <= |pages| && n <= MAXIMUM_PAGES && forall j | 0 <= j < n :: Continues(p, pages, j)
    ensures n == MAXIMUM_PAGES ==> PollOutcome(p, pages) == Err(TooManyPages)
    ensures n < MAXIMUM_PAGES && (n == |pages| || pages[n].Failed?) ==> PollOutcome(p, pages) == Err(RequestFailed)
  {
    if n == MAXIMUM_PAGES || n == |pages| || pages[n].Failed? {
      StopPageIs(p, pages, n);
    }
  }

  /** The message is the last known one, or it was created before the known time. */
  predicate Known(p: Poller, m: Message) {
    (p.lastID != "" && m.id == p.lastID) || (m.createdAt > 0 && m.createdAt < p.highWater)
  }

  /** A page without a known message, not the last one, with a cursor that is there and is not the previous one. */
  predicate Onward(p: Poller, pages: seq<Answer>, i: nat) {
    && i < |pages| && pages[i].Page? && pages[i].data != [] && !pages[i].isLast
    && (forall j | 0 <= j < |pages[i].data| :: !Known(p, pages[i].data[j]))
    && pages[i].offset != "" && (i > 0 && pages[i - 1].Page? ==> pages[i].offset != pages[i - 1].offset)
  }

  /** What was read up to page n, cut at the first known message. */
  predicate IsFound(p: Poller, pages: seq<Answer>, n: nat, found: Found)
    requires n < |pages|
  {
    var rows, k := Flat(pages[..n + 1]), |found.messages|;
    && k <= |rows| && found.messages == rows[..k] && (k < |rows| ==> Known(p, rows[k]))
    && (forall i | 0 <= i < k :: !Known(p, rows[i]))
    && found.newest == FirstId(if k < |rows| then rows[..k + 1] else rows)
  }

  /** Every end of a walk over arbitrary answers, page by page: the limit, a failed request, a page at which it has
      what it needs, a cursor it cannot follow. */
  lemma PollAnswers(p: Poller, pages: seq<Answer>, n: nat)
    requires n <= |pages| && n <= 20 && (n > 0 ==> p.initialized) && forall i | 0 <= i < n :: Onward(p, pages, i)
    ensures n == 20 ==> PollOutcome(p, pages) == Err(TooManyPages)
    ensures n < 20 && (n == |pages| || pages[n].Failed?) ==> PollOutcome(p, pages) == Err(RequestFailed)
    ensures n < 20 && n < |pages| && pages[n].Page? && !(p.initialized && Onward(p, pages, n)) ==>
              var data := pages[n].data;
              if !p.initialized || data == [] || pages[n].isLast || exists j :: 0 <= j < |data| && Known(p, data[j])
              then PollOutcome(p, pages).Ok? && IsFound(p, pages, n, PollOutcome(p, pages).value)
              else PollOutcome(p, pages) == Err(BadCursor)
  {
    forall i: nat ensures Continues(p, pages, i) <==> p.initialized && Onward(p, pages, i) {
      OnwardIs(p, pages, i);
    }
    if n == 20 || n == |pages| || !(p.initialized && Onward(p, pages, n)) {
      StopPageIs(p, pages, n);
      hide PollOutcome, Continues, Onward, Flat, FirstId;
      if n < 20 && n < |pages| {
        var rows := Flat(pages[..n + 1]);
        assert rows[..|rows|] == rows;
      }
    }
  }

  lemma OnwardIs(p: Poller, pages: seq<Answer>, i: nat)
    ensures Continues(p, pages, i) <==> p.initialized && Onward(p, pages, i)
  {
    if i < |pages| && pages[i].Page? && AnyStops(p, pages[i].data) {
      var j :| 0 <= j < |pages[i].data| && Stops(p, pages[i].data[j]);
      assert Known(p, pages[i].data[j]);
    }
  }

  // ---------------------------------------------------------------------------------------------
  // One round
  // ---------------------------------------------------------------------------------------------

  function Handle(p: Poller, m: Message): Poller {
    if m.createdAt < p.highWater || m.id in p.seen then p
    else
      var sent := if p.initialized && Publishable(m) then p.sent + [m] else p.sent;
      if m.createdAt > p.highWater
      then p.(sent := sent, highWater := m.createdAt, seen := {m.id})
      else p.(sent := sent, seen := p.seen + {m.id})
  }

  /** The rows are newest first and handled from the oldest. */
  function Absorb(p: Poller, rows: seq<Message>): Poller {
    if rows == [] then p else Handle(Absorb(p, rows[1..]), rows[0])
  }

  function Round(p: Poller, pages: seq<Answer>): Poller {
    match PollOutcome(p, pages)
    case Err(_) => p
    case Ok(found) =>
      var q := Absorb(p, found.messages);
      q.(lastID := if found.newest != "" then found.newest else q.lastID, initialized := true)
  }

  predicate Succeeds(p: Poller, pages: seq<Answer>) {
    PollOutcome(p, pages).Ok?
  }

  /** The stream's loop, one object per stream. `sent` is what it has put on the events channel. */
  class Stream {
    var lastID: string
    var initialized: bool
    var highWater: int
    var seen: set<string>
    var sent: seq<Message>

    function View(): Poller
      reads this
    {
      Poller(lastID, initialized, highWater, seen, sent)
    }

    constructor ()
      ensures View() == INITIAL
    {
      lastID, initialized, highWater, seen, sent := "", false, 0, {}, [];
    }

    method Poll(pages: seq<Answer>) returns (r: Result<Found, Failure>)
      ensures r == PollOutcome(View(), pages)
    {
      ghost var p := View();
      var messages: seq<Message>, newest, offset := [], "", "";
      var pageIndex := 0;
      assert messages == Flat(pages[..0]) && newest == FirstId(messages) && !AnyStops(p, messages);
      hide Flat, FirstId, PollOutcome, AnyStops;
      while pageIndex < MAXIMUM_PAGES
        invariant pageIndex <= MAXIMUM_PAGES && pageIndex <= |pages|
        invariant forall i | 0 <= i < pageIndex :: Continues(p, pages, i)
        invariant messages == Flat(pages[..pageIndex]) && newest == FirstId(messages) && !AnyStops(p, messages)
        invariant offset == if pageIndex == 0 then "" else Offset(pages, pageIndex - 1)
      {
        EndsWithoutPage(p, pages, pageIndex);
        if pageIndex == |pages| || pages[pageIndex].Failed? {
          return Err(RequestFailed);
        }
        var page := pages[pageIndex];
        assert page.data[..0] == [] && messages + [] == messages;
        for i := 0 to |page.data|
          invariant Reached(p, pages, pageIndex, i, messages) && newest == FirstId(messages)
        {
          var message := page.data[i];
          FirstIdAppend(messages, [message]);
          assert FirstId([message]) == message.id;
          if newest == "" {
            newest := message.id;
          }
          if (lastID != "" && message.id == lastID)
            || (highWater > 0 && message.createdAt > 0 && message.createdAt < highWater) {
            EndsAtMessage(p, pages, pageIndex, i, messages);
            return Ok(Found(messages, newest));
          }
          Step(p, pages, pageIndex, i, messages);
          messages := messages + [message];
        }
        EndsAfterPage(p, pages, pageIndex, messages);
        if !initialized || page.isLast || |page.data| == 0 {
          return Ok(Found(messages, newest));
        }
        if page.offset == "" || page.offset == offset {
          return Err(BadCursor);
        }
        offset := page.offset;
        pageIndex := pageIndex + 1;
      }
      EndsWithoutPage(p, pages, MAXIMUM_PAGES);
      return Err(TooManyPages);
    }

    method PollOnce(pages: seq<Answer>) returns (ok: bool)
      modifies this
      ensures View() == Round(old(View()), pages) && ok == Succeeds(old(View()), pages)
    {
      var r := Poll(pages);
      if r.Err? {
        return false;
      }
      var messages, newest := r.value.messages, r.value.newest;
      ghost var p := View();
      var index := |messages|;
      assert messages[index..] == [];
      while index > 0
        invariant 0 <= index <= |messages| && View() == Absorb(p, messages[index..])
      {
        index := index - 1;
        var raw := messages[index];
        assert messages[index..][0] == raw && messages[index..][1..] == messages[index + 1..];
        if raw.createdAt < highWater || raw.id in seen {
          continue;
        }
        if initialized {
          if Publishable(raw) {
            sent := sent + [raw];
          }
        }
        if raw.createdAt > highWater {
          highWater := raw.createdAt;
          seen := {};
        }
        seen := seen + {raw.id};
      }
      assert messages[0..] == messages;
      assert View() == Absorb(p, messages);
      if newest != "" {
        lastID := newest;
      }
      initialized := true;
      return true;
    }
  }

  // ---------------------------------------------------------------------------------------------
  // Whatever the pages are: nothing is published twice
  // ---------------------------------------------------------------------------------------------

  /** Every identifier has one creation time. */
  ghost predicate Timed(created: string -> int, rows: seq<Message>) {
    forall i | 0 <= i < |rows| :: rows[i].createdAt == created(rows[i].id)
  }

  ghost predicate TimedPages(created: string -> int, pages: seq<Answer>) {
    forall i | 0 <= i < |pages| :: pages[i].Page? ==> Timed(created, pages[i].data)
  }

  /** The poller will not publish this identifier any more. */
  ghost predicate Settled(p: Poller, created: string -> int, id: string) {
    created(id) < p.highWater || (created(id) == p.highWater && id in p.seen)
  }

  ghost predicate SentOnce(p: Poller, created: string -> int) {
    && (forall id | id in p.seen :: created(id) == p.highWater)
    && (forall i | 0 <= i < |p.sent| :: Settled(p, created, p.sent[i].id))
    && (forall i, j | 0 <= i < j < |p.sent| :: p.sent[i].id != p.sent[j].id)
  }

  /** Nothing settled becomes unsettled, and what is published was not settled. */
  ghost predicate Moves(p: Poller, q: Poller, created: string -> int) {
    && (forall id :: Settled(p, created, id) ==> Settled(q, created, id))
    && p.sent <= q.sent
    && (forall i | |p.sent| <= i < |q.sent| :: !Settled(p, created, q.sent[i].id))
    && (!p.initialized ==> q.sent == p.sent)
  }

  lemma HandleSettles(p: Poller, m: Message, created: string -> int)
    requires SentOnce(p, created) && m.createdAt == created(m.id)
    ensures var q := Handle(p, m);
            SentOnce(q, created) && Moves(p, q, created) && Settled(q, created, m.id) && q.initialized == p.initialized
  {}

  lemma {:induction false} AbsorbSettles(p: Poller, rows: seq<Message>, created: string -> int)
    requires SentOnce(p, created) && Timed(created, rows)
    ensures var q := Absorb(p, rows);
            && SentOnce(q, created) && Moves(p, q, created) && q.initialized == p.initialized
            && forall i | 0 <= i < |rows| :: Settled(q, created, rows[i].id)
  {
    if rows != [] {
      assert Timed(created, rows[1..]);
      AbsorbSettles(p, rows[1..], created);
      var q := Absorb(p, rows[1..]);
      HandleSettles(q, rows[0], created);
      assert forall i | 1 <= i < |rows| :: rows[i] == rows[1..][i - 1];
    }
  }

  lemma {:induction false} FlatTimed(created: string -> int, pages: seq<Answer>, n: nat)
    requires TimedPages(created, pages) && n <= |pages|
    ensures Timed(created, Flat(pages[..n]))
  {
    if n == 0 {
      assert pages[..0] == [];
    } else {
      FlatTimed(created, pages, n - 1);
      FlatExtends(pages, n - 1);
    }
  }

  lemma FoundTimed(p: Poller, pages: seq<Answer>, created: string -> int)
    requires TimedPages(created, pages) && Succeeds(p, pages)
    ensures Timed(created, PollOutcome(p, pages).value.messages)
  {
    FlatTimed(created, pages, StopPage(p, pages, 0) + 1);
  }

  lemma RoundSettles(p: Poller, pages: seq<Answer>, created: string -> int)
    requires SentOnce(p, created) && TimedPages(created, pages)
    ensures SentOnce(Round(p, pages), created) && Moves(p, Round(p, pages), created)
  {
    if Succeeds(p, pages) {
      FoundTimed(p, pages, created);
      AbsorbSettles(p, PollOutcome(p, pages).value.messages, created);
    }
  }

  /** The first successful round reads one page, all of it. */
  lemma FirstRoundReads(p: Poller, pages: seq<Answer>)
    requires !p.initialized && p.lastID == "" && p.highWater == 0 && Succeeds(p, pages)
    ensures |pages| > 0 && pages[0].Page? && Flat(pages[..1]) == pages[0].data
    ensures PollOutcome(p, pages) == Ok(Found(pages[0].data, FirstId(pages[0].data)))
  {
    assert !Continues(p, pages, 0) && StopPage(p, pages, 0) == 0;
    var rows := pages[0].data;
    assert pages[..1] == [pages[0]] && [pages[0]][..0] == [] && Flat(pages[..1]) == rows;
    hide Flat, FirstId;
    CutIs(p, rows, |rows|);
    assert rows[..|rows|] == rows;
  }

  /** The first successful round reads one page and settles all of it. */
  lemma FirstPageSettles(p: Poller, pages: seq<Answer>, created: string -> int)
    requires SentOnce(p, created) && TimedPages(created, pages)
    requires !p.initialized && p.lastID == "" && p.highWater == 0 && Succeeds(p, pages)
    ensures |pages| > 0 && pages[0].Page?
    ensures forall i | 0 <= i < |pages[0].data| :: Settled(Round(p, pages), created, pages[0].data[i].id)
  {
    FirstRoundReads(p, pages);
    var rows := pages[0].data;
    hide PollOutcome, Absorb;
    assert Timed(created, rows);
    AbsorbSettles(p, rows, created);
  }

  /** The pollers after each round. */
  ghost predicate Rounds(ps: seq<Poller>, polls: seq<seq<Answer>>) {
    && |ps| == |polls| + 1 && ps[0] == INITIAL
    && forall k | 0 <= k < |polls| :: ps[k + 1] == Round(ps[k], polls[k])
  }

  lemma {:induction false} NoMessageTwice(ps: seq<Poller>, polls: seq<seq<Answer>>, created: string -> int, k: nat)
    requires Rounds(ps, polls) && k < |ps| && forall i | 0 <= i < |polls| :: TimedPages(created, polls[i])
    ensures SentOnce(ps[k], created)
    ensures forall i, j | 0 <= i < j < |ps[k].sent| :: ps[k].sent[i].id != ps[k].sent[j].id
  {
    if k > 0 {
      NoMessageTwice(ps, polls, created, k - 1);
      RoundSettles(ps[k - 1], polls[k - 1], created);
    }
  }

  predicate Unsent(p: Poller, id: string) {
    forall m | 0 <= m < |p.sent| :: p.sent[m].id != id
  }

  lemma StaysUnsent(p: Poller, q: Poller, created: string -> int, id: string)
    requires Moves(p, q, created) && Settled(p, created, id) && Unsent(p, id)
    ensures Settled(q, created, id) && Unsent(q, id)
  {
    forall m | 0 <= m < |q.sent| ensures q.sent[m].id != id {
      assert m < |p.sent| ==> q.sent[m] == p.sent[m];
    }
  }

  lemma {:induction false} SettledForGood(ps: seq<Poller>, polls: seq<seq<Answer>>, created: string -> int, i: nat,
                                          k: nat, id: string)
    requires Rounds(ps, polls) && i <= k < |ps| && forall m | 0 <= m < |polls| :: TimedPages(created, polls[m])
    requires Settled(ps[i], created, id) && Unsent(ps[i], id)
    ensures Settled(ps[k], created, id) && Unsent(ps[k], id)
    decreases k
  {
    if i < k {
      SettledForGood(ps, polls, created, i, k - 1, id);
      NoMessageTwice(ps, polls, created, k - 1);
      RoundSettles(ps[k - 1], polls[k - 1], created);
      hide *;
      StaysUnsent(ps[k - 1], ps[k], created, id);
    }
  }

  lemma {:induction false} NotInitialized(ps: seq<Poller>, polls: seq<seq<Answer>>, k: nat)
    requires Rounds(ps, polls) && k < |ps| && forall m | 0 <= m < k :: !Succeeds(ps[m], polls[m])
    ensures ps[k] == INITIAL
  {
    if k > 0 {
      NotInitialized(ps, polls, k - 1);
    }
  }

  /** Nothing on the first page read is ever published. */
  lemma FirstPageIsNeverPublished(ps: seq<Poller>, polls: seq<seq<Answer>>, created: string -> int, f: nat, k: nat,
                                  i: nat)
    requires Rounds(ps, polls) && f < k < |ps| && forall m | 0 <= m < |polls| :: TimedPages(created, polls[m])
    requires Succeeds(ps[f], polls[f]) && forall m | 0 <= m < f :: !Succeeds(ps[m], polls[m])
    requires |polls[f]| > 0 && polls[f][0].Page? && i < |polls[f][0].data|
    ensures Unsent(ps[k], polls[f][0].data[i].id)
  {
    NotInitialized(ps, polls, f);
    FirstPageSettles(ps[f], polls[f], created);
    RoundSettles(ps[f], polls[f], created);
    SettledForGood(ps, polls, created, f + 1, k, polls[f][0].data[i].id);
  }

  // ---------------------------------------------------------------------------------------------
  // On a chat log: everything is published once, in order
  // ---------------------------------------------------------------------------------------------

  /** A chat log, oldest first: unique identifiers, creation times in order. */
  ghost predicate LogOk(log: seq<Message>) {
    && (forall i | 0 <= i < |log| :: log[i].id != "" && log[i].createdAt > 0)
    && (forall i, j | 0 <= i < j < |log| :: log[i].id != log[j].id && log[i].createdAt <= log[j].createdAt)
  }

  /** The answers are the pages of the log as it was at the first request, newest first and without gaps;
      later messages lie above the cursors and do not show. */
  ghost predicate Serves(log: seq<Message>, pages: seq<Answer>) {
    forall i | 0 <= i < |pages| :: pages[i].Page? ==> ServesPage(log, pages, i)
  }

  ghost predicate ServesPage(log: seq<Message>, pages: seq<Answer>, i: nat) {
    && i < |pages| && pages[i].Page?
    && var front := Flat(pages[..i]);
       front <= Reversed(log) ==>
         && front + pages[i].data <= Reversed(log)
         && (pages[i].data == [] || pages[i].isLast ==> front + pages[i].data == Reversed(log))
  }

  function Published(rows: seq<Message>): seq<Message> {
    if rows == [] then []
    else Published(rows[..|rows| - 1]) + (if Publishable(rows[|rows| - 1]) then [rows[|rows| - 1]] else [])
  }

  /** Published are exactly the messages with a readable author and text, an identifier and a creation time. */
  lemma {:induction false} PublishedMeans(rows: seq<Message>, m: Message)
    ensures m in Published(rows) <==> m in rows && m.readable && m.id != "" && m.createdAt > 0
  {
    if rows != [] {
      var front := rows[..|rows| - 1];
      PublishedMeans(front, m);
      assert rows == front + [rows[|rows| - 1]];
    }
  }

  /** The poller has caught up with the first n messages. */
  ghost predicate Synced(p: Poller, log: seq<Message>, n: nat) {
    && n <= |log| && p.initialized
    && p.lastID == (if n == 0 then "" else log[n - 1].id)
    && Marked(p, log, n)
  }

  /** Its time is that of the last of them, and it has seen only them. */
  ghost predicate Marked(p: Poller, log: seq<Message>, n: nat) {
    && n <= |log|
    && p.highWater == (if n == 0 then 0 else log[n - 1].createdAt)
    && SeenWithin(p, log, n)
  }

  ghost predicate SeenWithin(p: Poller, log: seq<Message>, n: nat) {
    && n <= |log|
    && forall id | id in p.seen :: exists i :: 0 <= i < n && log[i].id == id
  }

  /** The next message is not too old for it, nor has it seen it. */
  ghost predicate Ready(p: Poller, log: seq<Message>, n: nat) {
    n <= |log| && SeenWithin(p, log, n) && (n < |log| ==> p.highWater <= log[n].createdAt)
  }

  lemma MarkedIsReady(p: Poller, log: seq<Message>, n: nat)
    requires LogOk(log) && n <= |log| && Marked(p, log, n)
    ensures Ready(p, log, n)
  {}

  lemma HandleNext(p: Poller, log: seq<Message>, n: nat)
    requires LogOk(log) && n < |log| && Ready(p, log, n)
    ensures var q := Handle(p, log[n]);
            && Marked(q, log, n + 1) && q.initialized == p.initialized && q.lastID == p.lastID
            && q.sent == p.sent + (if p.initialized && Publishable(log[n]) then [log[n]] else [])
  {}

  /** Handling a stretch of the log, oldest first. */
  function HandleStretch(p: Poller, log: seq<Message>, lo: nat, hi: nat): Poller
    requires lo <= hi <= |log|
    decreases hi
  {
    if lo == hi then p else Handle(HandleStretch(p, log, lo, hi - 1), log[hi - 1])
  }

  lemma {:induction false} AbsorbIsHandling(p: Poller, log: seq<Message>, lo: nat, hi: nat)
    requires lo <= hi <= |log|
    ensures Absorb(p, Reversed(log[lo..hi])) == HandleStretch(p, log, lo, hi)
    decreases hi
  {
    if lo < hi {
      var rows := Reversed(log[lo..hi]);
      AbsorbIsHandling(p, log, lo, hi - 1);
      assert rows[0] == log[hi - 1] && rows[1..] == Reversed(log[lo..hi - 1]);
    }
  }

  /** What it publishes of a stretch. */
  function PublishedStretch(log: seq<Message>, lo: nat, hi: nat): seq<Message>
    requires lo <= hi <= |log|
    decreases hi
  {
    if lo == hi then []
    else PublishedStretch(log, lo, hi - 1) + (if Publishable(log[hi - 1]) then [log[hi - 1]] else [])
  }

  lemma {:induction false} StretchIsSlice(log: seq<Message>, lo: nat, hi: nat)
    requires lo <= hi <= |log|
    ensures PublishedStretch(log, lo, hi) == Published(log[lo..hi])
    decreases hi
  {
    if lo < hi {
      StretchIsSlice(log, lo, hi - 1);
      assert log[lo..hi][..hi - 1 - lo] == log[lo..hi - 1];
    }
  }

  /** It publishes the stretch in order, or nothing of it on the first round. */
  lemma {:induction false} StretchIsPublished(p: Poller, log: seq<Message>, lo: nat, hi: nat)
    requires LogOk(log) && lo <= hi <= |log| && Ready(p, log, lo)
    ensures var q := HandleStretch(p, log, lo, hi);
            && (lo < hi ==> Marked(q, log, hi))
            && q.initialized == p.initialized && q.lastID == p.lastID
            && q.sent == p.sent + (if p.initialized then PublishedStretch(log, lo, hi) else [])
    decreases hi
  {
    if lo < hi {
      hide LogOk, Marked, Ready, Handle, Publishable;
      var k := hi - 1;
      StretchIsPublished(p, log, lo, k);
      var q := HandleStretch(p, log, lo, k);
      if lo < k {
        MarkedIsReady(q, log, k);
      }
      HandleNext(q, log, k);
    }
  }

  lemma AbsorbLog(p: Poller, log: seq<Message>, lo: nat)
    requires LogOk(log) && lo <= |log| && Ready(p, log, lo)
    ensures var q := Absorb(p, Reversed(log[lo..]));
            && (if lo == |log| then q == p else Marked(q, log, |log|))
            && q.initialized == p.initialized && q.lastID == p.lastID
            && q.sent == p.sent + (if p.initialized then Published(log[lo..]) else [])
  {
    assert log[lo..|log|] == log[lo..];
    AbsorbIsHandling(p, log, lo, |log|);
    StretchIsPublished(p, log, lo, |log|);
    StretchIsSlice(log, lo, |log|);
    hide LogOk, Ready, Marked, Published, PublishedStretch, HandleStretch, Absorb;
  }

  /** The rows of the pages read are a stretch of the log from its end. */
  lemma {:induction false} PagesArePrefix(p: Poller, log: seq<Message>, pages: seq<Answer>, n: nat)
    requires Serves(log, pages) && n <= |pages| && forall i | 0 <= i < n :: pages[i].Page?
    ensures Flat(pages[..n]) <= Reversed(log)
    ensures n > 0 && (pages[n - 1].data == [] || pages[n - 1].isLast) ==> Flat(pages[..n]) == Reversed(log)
  {
    if n == 0 {
      assert pages[..0] == [];
    } else {
      PagesArePrefix(p, log, pages, n - 1);
      FlatExtends(pages, n - 1);
      var m := n - 1;
      assert ServesPage(log, pages, m);
    }
  }

  lemma CutOnLog(p: Poller, log: seq<Message>, n: nat)
    requires LogOk(log) && Synced(p, log, n)
    ensures CutAt(p, Reversed(log)) == |log| - n
  {
    var rows, k := Reversed(log), |log| - n;
    forall i | 0 <= i < k ensures !Stops(p, rows[i]) {
      assert rows[i] == log[|log| - 1 - i];
    }
    CutIs(p, rows, k);
  }

  lemma CutOfPrefix(p: Poller, read: seq<Message>, rows: seq<Message>)
    requires read <= rows && CutAt(p, read) < |read|
    ensures FoundIn(p, read) == FoundIn(p, rows)
  {
    var k := CutAt(p, read);
    CutIs(p, rows, k);
    assert rows[..k + 1] == read[..k + 1] && rows[..k] == read[..k];
  }

  lemma StopIsFound(p: Poller, front: seq<Message>, back: seq<Message>)
    requires AnyStops(p, back)
    ensures CutAt(p, front + back) < |front + back|
  {
    var i :| 0 <= i < |back| && Stops(p, back[i]);
    assert (front + back)[|front| + i] == back[i];
  }

  /** A walk that ends on a page that stops it cuts where a walk over the whole log would. */
  lemma CutOnPages(p: Poller, log: seq<Message>, pages: seq<Answer>)
    requires Serves(log, pages) && Succeeds(p, pages) && p.initialized
    ensures FoundIn(p, Reversed(log)) == PollOutcome(p, pages).value
  {
    hide Serves;
    var n := StopPage(p, pages, 0);
    var rows, read := Reversed(log), Flat(pages[..n + 1]);
    forall i | 0 <= i < n ensures pages[i].Page? {
      assert Continues(p, pages, i);
    }
    PagesArePrefix(p, log, pages, n + 1);
    FlatExtends(pages, n);
    hide Flat, StopsAt, FirstId, Continues, Reversed, CutAt, AnyStops, FoundIn;
    if AnyStops(p, pages[n].data) {
      StopIsFound(p, Flat(pages[..n]), pages[n].data);
      CutOfPrefix(p, read, rows);
    }
  }

  lemma FoundOnLog(p: Poller, log: seq<Message>, pages: seq<Answer>, n: nat)
    requires LogOk(log) && Serves(log, pages) && Synced(p, log, n) && Succeeds(p, pages)
    ensures PollOutcome(p, pages) == Ok(Found(Reversed(log[n..]), if log == [] then "" else log[|log| - 1].id))
  {
    CutOnPages(p, log, pages);
    CutOnLog(p, log, n);
    assert log != [] ==> log[|log| - 1].id != "";
    hide LogOk, Synced, Serves, PollOutcome, CutAt;
    assert Reversed(log)[..|log| - n] == Reversed(log[n..]);
    assert log != [] ==> Reversed(log)[0] == log[|log| - 1];
  }

  /** Each successful round publishes all that was added to the log since the last one, in order. */
  lemma RoundCatchesUp(p: Poller, older: seq<Message>, log: seq<Message>, pages: seq<Answer>)
    requires LogOk(log) && older <= log && Serves(log, pages) && Synced(p, older, |older|) && Succeeds(p, pages)
    ensures Synced(Round(p, pages), log, |log|)
    ensures Round(p, pages).sent == p.sent + Published(log[|older|..])
  {
    var n := |older|;
    assert Synced(p, log, n) by {
      assert SeenWithin(p, older, n) && forall i | 0 <= i < n :: older[i] == log[i];
    }
    FoundOnLog(p, log, pages, n);
    AbsorbLog(p, log, n);
  }

  lemma FirstRoundFinds(log: seq<Message>, pages: seq<Answer>) returns (rows: seq<Message>)
    requires Serves(log, pages) && Succeeds(INITIAL, pages)
    ensures PollOutcome(INITIAL, pages) == Ok(Found(rows, FirstId(rows)))
    ensures rows <= Reversed(log) && (rows == [] ==> Reversed(log) == [])
  {
    hide Serves, Flat, PollOutcome;
    FirstRoundReads(INITIAL, pages);
    rows := pages[0].data;
    PagesArePrefix(INITIAL, log, pages, 1);
  }

  /** The first round publishes nothing and remembers the newest message. */
  lemma FirstRoundSyncs(log: seq<Message>, pages: seq<Answer>)
    requires LogOk(log) && Serves(log, pages) && Succeeds(INITIAL, pages)
    ensures Synced(Round(INITIAL, pages), log, |log|) && Round(INITIAL, pages).sent == []
  {
    var rows := FirstRoundFinds(log, pages);
    var lo := |log| - |rows|;
    assert Reversed(log[lo..]) == rows;
    assert rows != [] ==> rows[0] == log[|log| - 1] && rows[0].id != "";
    hide PollOutcome, Absorb, Serves, LogOk, Published, Reversed;
    AbsorbLog(INITIAL, log, lo);
  }

  lemma {:induction false} PublishedAppend(front: seq<Message>, back: seq<Message>)
    ensures Published(front + back) == Published(front) + Published(back)
    ensures Published([]) == []
  {
    if back == [] {
      assert front + back == front;
    } else {
      var k := |back| - 1;
      PublishedAppend(front, back[..k]);
      assert (front + back)[..|front + back| - 1] == front + back[..k];
    }
  }

  /** Rounds over one log that only grows. */
  ghost predicate OnLog(ps: seq<Poller>, polls: seq<seq<Answer>>, logs: seq<seq<Message>>) {
    && |ps| == |polls| + 1 && |logs| == |polls| && Rounds(ps, polls)
    && (forall k | 0 <= k < |polls| :: LogOk(logs[k]) && Serves(logs[k], polls[k]))
    && Growing(logs)
  }

  ghost predicate Growing(logs: seq<seq<Message>>) {
    forall j, k | 0 <= j <= k < |logs| :: logs[j] <= logs[k]
  }

  lemma Grew(logs: seq<seq<Message>>, j: nat, k: nat)
    requires Growing(logs) && j <= k < |logs|
    ensures logs[j] <= logs[k]
  {}

  /** Round f is the first that succeeds. */
  ghost predicate FirstSuccess(ps: seq<Poller>, polls: seq<seq<Answer>>, f: nat) {
    && f < |polls| < |ps| && Succeeds(ps[f], polls[f])
    && forall i | 0 <= i < f :: !Succeeds(ps[i], polls[i])
  }

  /** Before round k everything in the log of round m is published, except what was there in round f. */
  ghost predicate CaughtUp(p: Poller, logs: seq<seq<Message>>, f: nat, m: nat) {
    && f <= m < |logs| && |logs[f]| <= |logs[m]|
    && Synced(p, logs[m], |logs[m]|) && p.sent == Published(logs[m][|logs[f]|..])
  }

  lemma FirstCatchesUp(ps: seq<Poller>, polls: seq<seq<Answer>>, logs: seq<seq<Message>>, f: nat)
    requires OnLog(ps, polls, logs) && FirstSuccess(ps, polls, f)
    ensures CaughtUp(ps[f + 1], logs, f, f)
  {
    NotInitialized(ps, polls, f);
    FirstRoundSyncs(logs[f], polls[f]);
    assert logs[f][|logs[f]|..] == [];
    PublishedAppend([], []);
  }

  lemma NextCatchesUp(ps: seq<Poller>, polls: seq<seq<Answer>>, logs: seq<seq<Message>>, f: nat, m: nat, k: nat)
    requires OnLog(ps, polls, logs) && f <= m < k < |polls| && CaughtUp(ps[k], logs, f, m) && Succeeds(ps[k], polls[k])
    ensures CaughtUp(ps[k + 1], logs, f, k)
  {
    hide Growing, Synced, Published, Round, LogOk, Serves, Succeeds;
    assert LogOk(logs[k]) && Serves(logs[k], polls[k]) && ps[k + 1] == Round(ps[k], polls[k]);
    Grew(logs, f, m);
    Grew(logs, m, k);
    var n := |logs[f]|;
    assert Synced(ps[k], logs[m], |logs[m]|) && ps[k].sent == Published(logs[m][n..]);
    RoundCatchesUp(ps[k], logs[m], logs[k], polls[k]);
    assert logs[m][n..] + logs[k][|logs[m]|..] == logs[k][n..];
    PublishedAppend(logs[m][n..], logs[k][|logs[m]|..]);
  }

  /** Every moment after the first success is caught up with the last successful round. */
  lemma {:induction false} LastSuccess(ps: seq<Poller>, polls: seq<seq<Answer>>, logs: seq<seq<Message>>, f: nat,
                                       k: nat)
    returns (m: nat)
    requires OnLog(ps, polls, logs) && FirstSuccess(ps, polls, f) && f < k <= |polls|
    ensures f <= m < k && CaughtUp(ps[k], logs, f, m)
    ensures forall i | m < i < k :: !Succeeds(ps[i], polls[i])
    decreases k
  {
    hide Growing, CaughtUp;
    m := k - 1;
    if m == f {
      FirstCatchesUp(ps, polls, logs, f);
    } else {
      var before := LastSuccess(ps, polls, logs, f, m);
      if Succeeds(ps[m], polls[m]) {
        NextCatchesUp(ps, polls, logs, f, before, m);
      } else {
        assert ps[k] == Round(ps[m], polls[m]) == ps[m];
        m := before;
      }
    }
    hide *;
  }

  /**
   From the first successful round on, and whatever rounds fail in between, each successful round has
   published exactly the publishable messages added after the first one, each once, in log order.
   */
  lemma EverythingOnceInOrder(ps: seq<Poller>, polls: seq<seq<Answer>>, logs: seq<seq<Message>>, f: nat, m: nat)
    requires OnLog(ps, polls, logs) && FirstSuccess(ps, polls, f) && f <= m < |polls| && Succeeds(ps[m], polls[m])
    ensures |logs[f]| <= |logs[m]| && ps[m + 1].sent == Published(logs[m][|logs[f]|..])
  {
    hide Growing, Succeeds, Synced, Published, Rounds, LogOk, Serves;
    var last := LastSuccess(ps, polls, logs, f, m + 1);
  }

  // ---------------------------------------------------------------------------------------------
  // Falling behind
  // ---------------------------------------------------------------------------------------------

  /** How many rows a walk has to see: the new ones, and the last known one if there is one. */
  function RowsToSee(size: nat, known: nat): nat
    requires known <= size
  {
    size - known + if known > 0 then 1 else 0
  }

  predicate SmallPages(pages: seq<Answer>) {
    forall i | 0 <= i < |pages| && pages[i].Page? :: |pages[i].data| <= PAGE_LIMIT
  }

  lemma {:induction false} FlatSize(pages: seq<Answer>, n: nat)
    requires SmallPages(pages) && n <= |pages|
    ensures |Flat(pages[..n])| <= PAGE_LIMIT * n
  {
    if n == 0 {
      assert pages[..0] == [];
    } else {
      FlatSize(pages, n - 1);
      FlatExtends(pages, n - 1);
    }
  }

  /** A walk that succeeds has seen the rows it had to see. */
  lemma SuccessSeesEnough(p: Poller, log: seq<Message>, pages: seq<Answer>, known: nat)
    requires LogOk(log) && Serves(log, pages) && Synced(p, log, known) && Succeeds(p, pages)
    ensures StopPage(p, pages, 0) < MAXIMUM_PAGES && StopPage(p, pages, 0) < |pages|
    ensures RowsToSee(|log|, known) <= |Flat(pages[..StopPage(p, pages, 0) + 1])|
  {
    hide Serves;
    var n := StopPage(p, pages, 0);
    forall i | 0 <= i < n ensures pages[i].Page? {
      assert Continues(p, pages, i);
    }
    PagesArePrefix(p, log, pages, n + 1);
    FlatExtends(pages, n);
    CutOnLog(p, log, known);
    var read, rows := Flat(pages[..n + 1]), Reversed(log);
    assert |FoundIn(p, read).messages| == CutAt(p, read) && |FoundIn(p, rows).messages| == CutAt(p, rows);
    hide Flat, StopsAt, LogOk, Synced, FoundIn;
    if AnyStops(p, pages[n].data) {
      StopIsFound(p, Flat(pages[..n]), pages[n].data);
      CutOfPrefix(p, Flat(pages[..n + 1]), Reversed(log));
    }
  }

  /** With pages of at most 100 messages, a poller that is more than 2000 rows behind fails. */
  lemma TooFarBehind(p: Poller, log: seq<Message>, pages: seq<Answer>, known: nat)
    requires LogOk(log) && Serves(log, pages) && SmallPages(pages) && Synced(p, log, known)
    requires RowsToSee(|log|, known) > PAGE_LIMIT * MAXIMUM_PAGES
    ensures !Succeeds(p, pages)
  {
    if Succeeds(p, pages) {
      SuccessSeesEnough(p, log, pages, known);
      FlatSize(pages, StopPage(p, pages, 0) + 1);
    }
  }

  /** And it never catches up: the log only grows, and a failed round forgets what it read. */
  lemma {:induction false} StalledForGood(ps: seq<Poller>, polls: seq<seq<Answer>>, logs: seq<seq<Message>>,
                                          older: seq<Message>, k: nat, j: nat)
    requires OnLog(ps, polls, logs) && k <= j < |polls| && forall i | 0 <= i < |polls| :: SmallPages(polls[i])
    requires older <= logs[k] && Synced(ps[k], older, |older|)
    requires RowsToSee(|logs[k]|, |older|) > PAGE_LIMIT * MAXIMUM_PAGES
    ensures ps[j] == ps[k] && !Succeeds(ps[j], polls[j])
    decreases j
  {
    hide Growing, Synced, LogOk, Serves, PollOutcome, SmallPages, RowsToSee;
    assert LogOk(logs[j]) && Serves(logs[j], polls[j]) && SmallPages(polls[j]) && Growing(logs);
    Grew(logs, k, j);
    if k < j {
      StalledForGood(ps, polls, logs, older, k, j - 1);
      assert ps[j] == Round(ps[j - 1], polls[j - 1]);
    }
    StillTooFarBehind(ps[k], older, logs[k], logs[j], polls[j]);
  }

  lemma StillTooFarBehind(p: Poller, older: seq<Message>, before: seq<Message>, log: seq<Message>, pages: seq<Answer>)
    requires LogOk(log) && Serves(log, pages) && SmallPages(pages) && older <= before <= log
    requires Synced(p, older, |older|) && RowsToSee(|before|, |older|) > PAGE_LIMIT * MAXIMUM_PAGES
    ensures !Succeeds(p, pages)
  {
    SyncedLater(p, older, log);
    hide LogOk, Serves, SmallPages, Synced, Succeeds;
    TooFarBehind(p, log, pages, |older|);
  }

  lemma SyncedLater(p: Poller, older: seq<Message>, log: seq<Message>)
    requires Synced(p, older, |older|) && older <= log
    ensures Synced(p, log, |older|)
  {
    assert SeenWithin(p, older, |older|) && forall i | 0 <= i < |older| :: older[i] == log[i];
  }

  function Capped(log: seq<Message>, i: nat): (k: nat)
    ensures k <= |log|
  {
    if PAGE_LIMIT * i <= |log| then PAGE_LIMIT * i else |log|
  }

  /** The service answers every request with a full page, as long as there are enough messages. */
  ghost predicate ServesFully(log: seq<Message>, pages: seq<Answer>) {
    |pages| >= MAXIMUM_PAGES && forall i | 0 <= i < |pages| :: FullPage(log, pages, i)
  }

  ghost predicate FullPage(log: seq<Message>, pages: seq<Answer>, i: nat) {
    && i < |pages|
    && pages[i].Page?
    && Capped(log, i) <= Capped(log, i + 1) && pages[i].data == Reversed(log)[Capped(log, i)..Capped(log, i + 1)]
    && (pages[i].isLast <==> PAGE_LIMIT * (i + 1) >= |log|)
    && pages[i].offset != "" && (i > 0 ==> pages[i].offset != Offset(pages, i - 1))
  }

  /** A page in front of everything that stops the walk sends it on. */
  lemma FullPageContinues(p: Poller, log: seq<Message>, pages: seq<Answer>, known: nat, i: nat)
    requires LogOk(log) && Synced(p, log, known) && ServesFully(log, pages) && i < |pages|
    requires PAGE_LIMIT * (i + 1) < RowsToSee(|log|, known)
    ensures Continues(p, pages, i)
  {
    assert FullPage(log, pages, i);
    CutOnLog(p, log, known);
    forall j | 0 <= j < |pages[i].data| ensures !Stops(p, pages[i].data[j]) {
      assert pages[i].data[j] == Reversed(log)[Capped(log, i) + j];
    }
  }

  /** The page with the last row to see ends the walk. */
  lemma FullPageEnds(p: Poller, log: seq<Message>, pages: seq<Answer>, known: nat, i: nat)
    requires LogOk(log) && Synced(p, log, known) && ServesFully(log, pages) && i < |pages|
    requires PAGE_LIMIT * i < RowsToSee(|log|, known) <= PAGE_LIMIT * (i + 1) || (i == 0 && log == [])
    ensures pages[i].Page? && (AnyStops(p, pages[i].data) || pages[i].isLast)
  {
    assert FullPage(log, pages, i);
    CutOnLog(p, log, known);
    if known > 0 {
      var s := |log| - known;
      assert pages[i].data[s - Capped(log, i)] == Reversed(log)[s];
    }
  }

  /** With full pages and no failing request, a round succeeds if and only if at most 2000 rows are to be seen. */
  lemma RoundSucceedsIff(p: Poller, log: seq<Message>, pages: seq<Answer>, known: nat)
    requires LogOk(log) && Synced(p, log, known) && ServesFully(log, pages)
    ensures Succeeds(p, pages) <==> RowsToSee(|log|, known) <= PAGE_LIMIT * MAXIMUM_PAGES
  {
    var rows := RowsToSee(|log|, known);
    var n := if rows == 0 then 0 else (rows - 1) / PAGE_LIMIT;
    var m := if n < MAXIMUM_PAGES then n else MAXIMUM_PAGES;
    forall i | 0 <= i < m ensures Continues(p, pages, i) {
      FullPageContinues(p, log, pages, known, i);
    }
    if n < MAXIMUM_PAGES {
      FullPageEnds(p, log, pages, known, n);
    }
    hide ServesFully, LogOk, Synced, FoundIn, RowsToSee;
    StopPageIs(p, pages, m);
  }
}
