/**
 Listing stored dead letters page by page, newest first, over a log of sequence numbers with gaps. The log
 may grow at its end and lose letters anywhere between two pages.
 */
module DeadLetters {
  import opened Base

  const MAXIMUM_LIMIT := 100

  /** What a read of one sequence number gives, besides that nothing is stored there. */
  datatype Stored = Letter(content: string) | Undecodable | Unreadable

  /** The stored letters, and the first and last sequence number of the stream. */
  datatype Log = Log(letters: map<nat, Stored>, first: nat, last: nat)

  datatype Item = Item(sequence: nat, content: string)

  datatype Page = Page(items: seq<Item>, total: nat, next: Option<nat>)

  datatype Failure = BadLimit | BadLetter(sequence: nat)

  /** Sequence numbers start at 1 and stored letters lie within the stream's range. */
  ghost predicate LogOk(log: Log) {
    && (log.letters != map[] ==> 1 <= log.first <= log.last)
    && forall s | s in log.letters :: log.first <= s <= log.last
  }

  /** Where a listing before a sequence number starts; 0 stands for none. */
  function Start(log: Log, before: nat): nat {
    if 0 < before <= log.last then before - 1 else log.last
  }

  /** The readable letters from hi down to lo. */
  function Descending(log: Log, lo: nat, hi: nat): seq<Item>
    decreases hi
  {
    if hi < lo || hi == 0 then []
    else (if hi in log.letters && log.letters[hi].Letter? then [Item(hi, log.letters[hi].content)] else []) +
         Descending(log, lo, hi - 1)
  }

  predicate Good(log: Log, s: nat) {
    s in log.letters ==> log.letters[s].Letter?
  }

  // ---------------------------------------------------------------------------------------------
  // One page
  // ---------------------------------------------------------------------------------------------

  /** What a page holds: the letters from its start down to where its cursor continues, if it has one. */
  ghost predicate IsPage(log: Log, limit: nat, before: nat, page: Page) {
    var start := Start(log, before);
    && page.total == |log.letters|
    && match page.next
       case None =>
         page.items == Descending(log, log.first, start) && |page.items| <= limit
         && forall s | log.first <= s <= start :: Good(log, s)
       case Some(next) =>
         && log.first < next <= start && page.items == Descending(log, next, start) && |page.items| == limit
         && forall s | next <= s <= start :: Good(log, s)
  }

  /** What a listing fails at: the first letter from its start that cannot be read, before the page is full. */
  ghost predicate IsFailure(log: Log, limit: int, before: nat, s: nat) {
    && log.first <= s <= Start(log, before) && !Good(log, s)
    && |Descending(log, s + 1, Start(log, before))| < limit
    && forall k | s < k <= Start(log, before) :: Good(log, k)
  }

  lemma {:induction false} DescendingStep(log: Log, lo: nat, hi: nat)
    requires 0 < lo <= hi + 1
    ensures lo > 1 && lo - 1 <= hi ==>
              Descending(log, lo - 1, hi) == Descending(log, lo, hi) +
                (if lo - 1 in log.letters && log.letters[lo - 1].Letter?
                 then [Item(lo - 1, log.letters[lo - 1].content)] else [])
    decreases hi
  {
    if lo <= hi {
      if hi > 0 {
        DescendingStep(log, lo, hi - 1);
      }
    } else {
      assert Descending(log, lo, hi) == [];
    }
  }

  method List(log: Log, limit: int, before: nat) returns (r: Result<Page, Failure>)
    requires LogOk(log)
    ensures r == Err(BadLimit) <==> limit < 1 || limit > MAXIMUM_LIMIT
    ensures r.Ok? ==> IsPage(log, limit, before, r.value)
    ensures r.Err? && r.error.BadLetter? ==> IsFailure(log, limit, before, r.error.sequence)
  {
    if limit < 1 || limit > MAXIMUM_LIMIT {
      return Err(BadLimit);
    }
    var items: seq<Item> := [];
    var total := |log.letters|;
    if total == 0 {
      NoLetters(log, log.first, Start(log, before));
      return Ok(Page(items, total, None));
    }
    var sequence := log.last;
    if before > 0 && before <= sequence {
      sequence := before - 1;
    }
    ghost var start := sequence;
    var one := sequence + 1;
    assert Descending(log, one, start) == [];
    while sequence >= log.first && |items| < limit
      invariant sequence <= start == Start(log, before) && (sequence + 1 >= log.first || sequence == start)
      invariant items == Descending(log, sequence + 1, start) && |items| <= limit
      invariant forall k | sequence < k <= start :: Good(log, k)
    {
      DescendingStep(log, sequence + 1, start);
      if sequence in log.letters {
        match log.letters[sequence] {
          case Letter(content) => items := items + [Item(sequence, content)];
          case Undecodable => return Err(BadLetter(sequence));
          case Unreadable => return Err(BadLetter(sequence));
        }
      }
      if sequence == 0 {
        break;
      }
      sequence := sequence - 1;
    }
    if |items| == limit && sequence >= log.first {
      return Ok(Page(items, total, Some(sequence + 1)));
    }
    return Ok(Page(items, total, None));
  }

  lemma {:induction false} NoLetters(log: Log, lo: nat, hi: nat)
    requires log.letters == map[]
    ensures Descending(log, lo, hi) == []
    decreases hi
  {
    if lo <= hi && hi > 0 {
      NoLetters(log, lo, hi - 1);
    }
  }

  // ---------------------------------------------------------------------------------------------
  // Following the cursor
  // ---------------------------------------------------------------------------------------------

  predicate Falling(items: seq<Item>) {
    forall i, j | 0 <= i < j < |items| :: items[i].sequence > items[j].sequence
  }

  predicate Within(items: seq<Item>, lo: nat, hi: int) {
    forall i | 0 <= i < |items| :: lo <= items[i].sequence <= hi
  }

  predicate StoredAt(log: Log, item: Item) {
    item.sequence in log.letters && log.letters[item.sequence] == Letter(item.content)
  }

  lemma {:induction false} DescendingFalls(log: Log, lo: nat, hi: nat)
    ensures Falling(Descending(log, lo, hi)) && Within(Descending(log, lo, hi), lo, hi)
    decreases hi
  {
    if lo <= hi && hi > 0 {
      DescendingFalls(log, lo, hi - 1);
      if hi in log.letters && log.letters[hi].Letter? {
        FallingJoin([Item(hi, log.letters[hi].content)], Descending(log, lo, hi - 1), hi);
      }
    }
  }

  lemma {:induction false} DescendingHolds(log: Log, lo: nat, hi: nat, item: Item)
    requires 0 !in log.letters
    ensures item in Descending(log, lo, hi) <==> lo <= item.sequence <= hi && StoredAt(log, item)
    decreases hi
  {
    if lo <= hi && hi > 0 {
      DescendingHolds(log, lo, hi - 1, item);
    }
  }

  /** A stretch lists exactly the readable letters in it, from the newest to the oldest. */
  lemma DescendingMeans(log: Log, lo: nat, hi: nat)
    requires 0 !in log.letters
    ensures Falling(Descending(log, lo, hi)) && Within(Descending(log, lo, hi), lo, hi)
    ensures forall item: Item :: item in Descending(log, lo, hi) <==>
              lo <= item.sequence <= hi && StoredAt(log, item)
  {
    DescendingFalls(log, lo, hi);
    forall item: Item
      ensures item in Descending(log, lo, hi) <==> lo <= item.sequence <= hi && StoredAt(log, item)
    {
      DescendingHolds(log, lo, hi, item);
    }
  }

  lemma FallingJoin(front: seq<Item>, back: seq<Item>, lo: nat)
    requires Falling(front) && Falling(back)
    requires forall i | 0 <= i < |front| :: lo <= front[i].sequence
    requires forall i | 0 <= i < |back| :: back[i].sequence < lo
    ensures Falling(front + back)
  {}

  /** Later logs have lost letters and gained newer ones. */
  ghost predicate Later(older: Log, newer: Log) {
    && older.first <= newer.first && older.last <= newer.last
    && forall s | s in newer.letters && s <= older.last :: s in older.letters && newer.letters[s] == older.letters[s]
  }

  /** The cursor a page is asked for with. */
  function Before(pages: seq<Page>, i: nat): nat
    requires i <= |pages|
  {
    if i == 0 || pages[i - 1].next.None? then 0 else pages[i - 1].next.value
  }

  /** Pages read one after the other, each from the log of its moment and from the previous page's cursor. */
  ghost predicate Session(logs: seq<Log>, limits: seq<nat>, pages: seq<Page>) {
    && 0 < |pages| == |logs| == |limits|
    && (forall i | 0 <= i < |pages| :: PageAt(logs, limits, pages, i))
    && (forall i, j | 0 <= i <= j < |logs| :: Later(logs[i], logs[j]))
    && (forall i | 0 <= i < |pages| - 1 :: pages[i].next.Some?)
  }

  ghost predicate PageAt(logs: seq<Log>, limits: seq<nat>, pages: seq<Page>, i: nat) {
    && |pages| == |logs| == |limits| && i < |pages|
    && (LogOk(logs[i]) && 1 <= limits[i] <= MAXIMUM_LIMIT && IsPage(logs[i], limits[i], Before(pages, i), pages[i]))
  }

  function AllItems(pages: seq<Page>): seq<Item> {
    if pages == [] then [] else AllItems(pages[..|pages| - 1]) + pages[|pages| - 1].items
  }

  /** The lowest sequence number the first n pages cover; without a cursor they cover all. */
  ghost function Low(logs: seq<Log>, pages: seq<Page>, n: nat): nat
    requires n <= |pages| && 0 < |pages| == |logs|
  {
    if n == 0 then logs[0].last + 1
    else if pages[n - 1].next.Some? then pages[n - 1].next.value
    else 0
  }

  /** Letter s is stored in the logs of the first n pages. */
  ghost predicate StoredThroughout(logs: seq<Log>, n: nat, item: Item) {
    n <= |logs| && forall i | 0 <= i < n :: StoredAt(logs[i], item)
  }

  ghost predicate Covers(logs: seq<Log>, pages: seq<Page>, n: nat, items: seq<Item>) {
    && n <= |pages| && 0 < |pages| == |logs|
    && Falling(items) && (forall i | 0 <= i < |items| :: Low(logs, pages, n) <= items[i].sequence <= logs[0].last)
    && (forall item | item in items :: StoredAt(logs[0], item))
    && (forall item: Item | Low(logs, pages, n) <= item.sequence <= logs[0].last && StoredThroughout(logs, n, item) ::
          item in items)
  }

  /** The next page starts right below what the pages before it cover. */
  lemma StartsBelow(logs: seq<Log>, limits: seq<nat>, pages: seq<Page>, n: nat)
    requires Session(logs, limits, pages) && n < |pages|
    ensures Low(logs, pages, n) > 0 && Start(logs[n], Before(pages, n)) == Low(logs, pages, n) - 1
    ensures Low(logs, pages, n) <= logs[0].last + 1 && 0 !in logs[n].letters
    ensures pages[n].next.Some? ==> pages[n].next.value < Low(logs, pages, n)
    decreases n
  {
    assert PageAt(logs, limits, pages, n);
    if n > 0 {
      var m := n - 1;
      StartsBelow(logs, limits, pages, m);
      assert PageAt(logs, limits, pages, m) && Later(logs[m], logs[n]);
    }
  }

  /** What one page lists. */
  lemma PageLists(logs: seq<Log>, limits: seq<nat>, pages: seq<Page>, n: nat)
    requires Session(logs, limits, pages) && n < |pages|
    ensures var low := Low(logs, pages, n + 1);
            && Falling(pages[n].items) && Within(pages[n].items, low, Low(logs, pages, n) - 1)
            && forall item: Item :: item in pages[n].items <==>
                 low <= item.sequence < Low(logs, pages, n) && StoredAt(logs[n], item)
  {
    assert PageAt(logs, limits, pages, n);
    StartsBelow(logs, limits, pages, n);
    var lo := if pages[n].next.Some? then pages[n].next.value else logs[n].first;
    DescendingMeans(logs[n], lo, Start(logs[n], Before(pages, n)));
  }

  lemma CoversMore(logs: seq<Log>, limits: seq<nat>, pages: seq<Page>, n: nat, items: seq<Item>)
    requires Session(logs, limits, pages) && n < |pages| && Covers(logs, pages, n, items)
    ensures Covers(logs, pages, n + 1, items + pages[n].items)
  {
    StartsBelow(logs, limits, pages, n);
    PageLists(logs, limits, pages, n);
    assert Later(logs[0], logs[n]);
    hide Session;
    FallingJoin(items, pages[n].items, Low(logs, pages, n));
  }

  lemma {:induction false} SessionCovers(logs: seq<Log>, limits: seq<nat>, pages: seq<Page>, n: nat)
    requires Session(logs, limits, pages) && n <= |pages|
    ensures Covers(logs, pages, n, AllItems(pages[..n]))
  {
    if n == 0 {
      assert pages[..0] == [];
    } else {
      SessionCovers(logs, limits, pages, n - 1);
      assert pages[..n][..n - 1] == pages[..n - 1];
      CoversMore(logs, limits, pages, n - 1, AllItems(pages[..n - 1]));
    }
  }

  /**
   Following the cursor to the end lists every letter at most once, from the newest to the oldest; lists
   only letters that were stored when the first page was read; and lists each of those that stays stored.
   */
  lemma EveryLetterOnce(logs: seq<Log>, limits: seq<nat>, pages: seq<Page>)
    requires Session(logs, limits, pages) && pages[|pages| - 1].next.None?
    ensures Falling(AllItems(pages))
    ensures forall item | item in AllItems(pages) :: StoredAt(logs[0], item)
    ensures forall item: Item | item.sequence <= logs[0].last && StoredThroughout(logs, |logs|, item) ::
              item in AllItems(pages)
  {
    SessionCovers(logs, limits, pages, |pages|);
    assert pages[..|pages|] == pages;
  }

  /** Cursors fall, so every session ends. */
  lemma {:induction false} SessionsEnd(logs: seq<Log>, limits: seq<nat>, pages: seq<Page>, n: nat)
    requires Session(logs, limits, pages) && n < |pages|
    ensures Low(logs, pages, n) + n <= logs[0].last + 1
    ensures n <= logs[0].last
  {
    StartsBelow(logs, limits, pages, n);
    if n > 0 {
      SessionsEnd(logs, limits, pages, n - 1);
      StartsBelow(logs, limits, pages, n - 1);
    }
  }

  // ---------------------------------------------------------------------------------------------
  // Letters that cannot be read
  // ---------------------------------------------------------------------------------------------

  /** Pages read so far, all with a cursor, and the reply to the next request. */
  ghost predicate Follows(logs: seq<Log>, limits: seq<nat>, pages: seq<Page>, r: Result<Page, Failure>) {
    var n := |pages|;
    && |logs| == |limits| == n + 1
    && (pages != [] ==> Session(logs[..n], limits[..n], pages) && pages[n - 1].next.Some?)
    && LogOk(logs[n]) && 1 <= limits[n] <= MAXIMUM_LIMIT
    && (forall i, j | 0 <= i <= j < |logs| :: Later(logs[i], logs[j]))
    && (if r.Ok? then IsPage(logs[n], limits[n], Before(pages, n), r.value)
        else r.error.BadLetter? && IsFailure(logs[n], limits[n], Before(pages, n), r.error.sequence))
  }

  /** Some log of the session has nothing at s that cannot be read. */
  ghost predicate SometimeGood(logs: seq<Log>, s: nat) {
    exists i :: 0 <= i < |logs| && Good(logs[i], s)
  }

  lemma {:induction false} SessionReads(logs: seq<Log>, limits: seq<nat>, pages: seq<Page>, n: nat, s: nat)
    requires Session(logs, limits, pages) && n <= |pages|
    requires Low(logs, pages, n) <= s <= logs[0].last && logs[|logs| - 1].first <= s
    ensures SometimeGood(logs, s)
  {
    if n > 0 {
      var m := n - 1;
      StartsBelow(logs, limits, pages, m);
      assert PageAt(logs, limits, pages, m) && Later(logs[m], logs[|logs| - 1]);
      if s < Low(logs, pages, m) {
        assert Good(logs[m], s);
      } else {
        SessionReads(logs, limits, pages, m, s);
      }
    }
  }

  /** A letter that cannot be read was there, and could not be read, at every earlier moment. */
  lemma BadAllAlong(logs: seq<Log>, s: nat)
    requires logs != [] && forall i, j | 0 <= i <= j < |logs| :: Later(logs[i], logs[j])
    requires s <= logs[0].last && !Good(logs[|logs| - 1], s)
    ensures !SometimeGood(logs, s)
  {
    forall i | 0 <= i < |logs| ensures !Good(logs[i], s) {
      assert Later(logs[i], logs[|logs| - 1]) && Later(logs[0], logs[i]);
    }
  }

  lemma AllRead(logs: seq<Log>, limits: seq<nat>, pages: seq<Page>, page: Page)
    requires Follows(logs, limits, pages, Ok(page))
    ensures Session(logs, limits, pages + [page])
  {
    var n, all := |pages|, pages + [page];
    forall i | 0 <= i <= n ensures PageAt(logs, limits, all, i) {
      if i < n {
        assert PageAt(logs[..n], limits[..n], pages, i);
        assert all[i] == pages[i] && (i > 0 ==> all[i - 1] == pages[i - 1]);
      }
    }
  }

  lemma FailsWithin(logs: seq<Log>, limits: seq<nat>, pages: seq<Page>, s: nat)
    requires Follows(logs, limits, pages, Err(BadLetter(s)))
    ensures s <= logs[0].last
  {
    var n := |pages|;
    if n > 0 {
      StartsBelow(logs[..n], limits[..n], pages, n - 1);
      assert PageAt(logs[..n], limits[..n], pages, n - 1) && Later(logs[0], logs[n]);
    }
  }

  /**
   Whatever happens to the log meanwhile: a listing that reaches the end has read every letter, so a letter
   that cannot be read all along keeps every listing from the end; and a listing that fails, fails at a letter
   that could not be read from the start on.
   */
  lemma BadLettersBlock(logs: seq<Log>, limits: seq<nat>, pages: seq<Page>, r: Result<Page, Failure>)
    requires Follows(logs, limits, pages, r)
    ensures r.Ok? && r.value.next.None? ==>
              forall s | logs[|pages|].first <= s <= logs[0].last :: SometimeGood(logs, s)
    ensures r.Err? ==> r.error.BadLetter?
    ensures r.Err? ==>
              var s := r.error.sequence;
              logs[|pages|].first <= s <= logs[0].last && !SometimeGood(logs, s)
  {
    var n := |pages|;
    if r.Ok? {
      if r.value.next.None? {
        AllRead(logs, limits, pages, r.value);
        forall s | logs[n].first <= s <= logs[0].last ensures SometimeGood(logs, s) {
          SessionReads(logs, limits, pages + [r.value], n + 1, s);
        }
      }
    } else {
      FailsWithin(logs, limits, pages, r.error.sequence);
      BadAllAlong(logs, r.error.sequence);
    }
  }

  /** On a log that does not change, following the cursor to its last reply reaches the end if and only if every
      letter can be read. */
  lemma EndReachedIff(log: Log, logs: seq<Log>, limits: seq<nat>, pages: seq<Page>, r: Result<Page, Failure>)
    requires Follows(logs, limits, pages, r) && forall i | 0 <= i < |logs| :: logs[i] == log
    requires r.Ok? ==> r.value.next.None?
    ensures r.Ok? <==> forall s | log.first <= s <= log.last :: Good(log, s)
  {
    BadLettersBlock(logs, limits, pages, r);
    if r.Ok? {
      forall s | log.first <= s <= log.last ensures Good(log, s) {
        assert SometimeGood(logs, s);
      }
    } else {
      assert Good(logs[0], r.error.sequence) <==> Good(log, r.error.sequence);
    }
  }

  // ---------------------------------------------------------------------------------------------
  // A log that does not change
  // ---------------------------------------------------------------------------------------------

  lemma {:induction false} DescendingJoin(log: Log, lo: nat, mid: nat, hi: nat)
    requires lo <= mid <= hi + 1 && mid > 0
    ensures Descending(log, mid, hi) + Descending(log, lo, mid - 1) == Descending(log, lo, hi)
    decreases hi
  {
    if mid <= hi {
      DescendingJoin(log, lo, mid, hi - 1);
    }
  }

  /** Where a page's stretch of the log ends. */
  function Floor(log: Log, page: Page): nat {
    if page.next.Some? then page.next.value else log.first
  }

  lemma StillPage(log: Log, logs: seq<Log>, limits: seq<nat>, pages: seq<Page>, n: nat)
    requires Session(logs, limits, pages) && n < |pages| && logs[n] == logs[0] == log
    requires n > 0 ==> logs[n - 1] == log
    ensures Descending(log, Low(logs, pages, n), log.last) + pages[n].items
            == Descending(log, Floor(log, pages[n]), log.last)
  {
    var low, lo := Low(logs, pages, n), Floor(log, pages[n]);
    StartsBelow(logs, limits, pages, n);
    assert PageAt(logs, limits, pages, n) && (n > 0 ==> PageAt(logs, limits, pages, n - 1));
    assert pages[n].items == Descending(log, lo, low - 1);
    hide Session, PageAt, IsPage, LogOk;
    if lo <= low {
      DescendingJoin(log, lo, low, log.last);
    }
  }

  /** While nothing changes, the pages together are the whole log. */
  lemma {:induction false} StillLog(log: Log, logs: seq<Log>, limits: seq<nat>, pages: seq<Page>, n: nat)
    requires Session(logs, limits, pages) && 0 < n <= |pages| && forall i | 0 <= i < |logs| :: logs[i] == log
    ensures AllItems(pages[..n]) == Descending(log, Floor(log, pages[n - 1]), log.last)
  {
    var m := n - 1;
    assert pages[..n][..m] == pages[..m];
    StillPage(log, logs, limits, pages, m);
    if m == 0 {
      assert pages[..0] == [];
    } else {
      assert pages[m - 1].next.Some?;
      hide Session;
      StillLog(log, logs, limits, pages, m);
    }
  }

  lemma PagesAreTheLog(log: Log, logs: seq<Log>, limits: seq<nat>, pages: seq<Page>)
    requires Session(logs, limits, pages) && pages[|pages| - 1].next.None?
    requires forall i | 0 <= i < |logs| :: logs[i] == log
    ensures AllItems(pages) == Descending(log, log.first, log.last)
  {
    StillLog(log, logs, limits, pages, |pages|);
    assert pages[..|pages|] == pages;
  }
}
