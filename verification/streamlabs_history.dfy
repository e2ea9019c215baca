/**
 Reading the donation history of one Streamlabs account: pages from the newest donation backwards,
 down to a checkpoint. The service's answers are arbitrary; what a walk means on a real donation log
 that keeps growing while it is read is stated separately.
 */
module StreamlabsHistory {
  import opened Base

  const HISTORY_PAGE_SIZE := 100
  const MAXIMUM_HISTORY_PAGE := 1000

  /** One provider row. A missing identifier is the empty string; an invalid row keeps its identifier. */
  datatype Row = Row(id: string, valid: bool)

  datatype Response = Failed | Page(rows: seq<Row>)

  datatype Failure = RequestFailed | MissingHead | MissingCursor | RepeatedCursor | TooManyPages

  datatype History = History(donations: seq<Row>, rejected: seq<Row>, checkpoint: Option<string>)

  // ---------------------------------------------------------------------------------------------
  // What a list of rows, newest first, says
  // ---------------------------------------------------------------------------------------------

  /** The rows in front of the checkpoint. */
  function Newer(rows: seq<Row>, checkpoint: Option<string>): seq<Row> {
    if rows == [] || Some(rows[0].id) == checkpoint then [] else [rows[0]] + Newer(rows[1..], checkpoint)
  }

  function Select(rows: seq<Row>, valid: bool): seq<Row> {
    if rows == [] then []
    else if rows[0].valid == valid then [rows[0]] + Select(rows[1..], valid)
    else Select(rows[1..], valid)
  }

  /** The history of a complete list of rows. */
  function HistoryOf(rows: seq<Row>, checkpoint: Option<string>): History {
    var newer := Newer(rows, checkpoint);
    History(Select(newer, true), Select(newer, false), if rows == [] then checkpoint else Some(rows[0].id))
  }

  lemma {:induction false} NewerIsPrefix(rows: seq<Row>, checkpoint: Option<string>) returns (k: nat)
    ensures k <= |rows| && Newer(rows, checkpoint) == rows[..k]
    ensures forall i | 0 <= i < k :: Some(rows[i].id) != checkpoint
    ensures k < |rows| ==> Some(rows[k].id) == checkpoint
  {
    if rows == [] || Some(rows[0].id) == checkpoint {
      k := 0;
    } else {
      var below := NewerIsPrefix(rows[1..], checkpoint);
      k := below + 1;
      assert rows[..k] == [rows[0]] + rows[1..][..below];
    }
  }

  predicate Holds(rows: seq<Row>, checkpoint: Option<string>) {
    exists i :: 0 <= i < |rows| && Some(rows[i].id) == checkpoint
  }

  lemma {:induction false} NewerAppendFound(front: seq<Row>, back: seq<Row>, checkpoint: Option<string>, i: nat)
    requires i < |front| && Some(front[i].id) == checkpoint
    ensures Newer(front + back, checkpoint) == Newer(front, checkpoint)
    decreases i
  {
    assert (front + back)[0] == front[0];
    if Some(front[0].id) != checkpoint {
      NewerAppendFound(front[1..], back, checkpoint, i - 1);
      assert (front + back)[1..] == front[1..] + back;
    }
  }

  lemma {:induction false} NewerAppendMissed(front: seq<Row>, back: seq<Row>, checkpoint: Option<string>)
    requires forall i | 0 <= i < |front| :: Some(front[i].id) != checkpoint
    ensures Newer(front + back, checkpoint) == front + Newer(back, checkpoint)
  {
    if front == [] {
      assert front + back == back;
    } else {
      NewerAppendMissed(front[1..], back, checkpoint);
      assert (front + back)[1..] == front[1..] + back && (front + back)[0] == front[0];
    }
  }

  lemma NewerAppend(front: seq<Row>, back: seq<Row>, checkpoint: Option<string>)
    ensures Holds(front, checkpoint) ==> Newer(front + back, checkpoint) == Newer(front, checkpoint)
    ensures !Holds(front, checkpoint) ==> Newer(front + back, checkpoint) == front + Newer(back, checkpoint)
  {
    if Holds(front, checkpoint) {
      var i :| 0 <= i < |front| && Some(front[i].id) == checkpoint;
      NewerAppendFound(front, back, checkpoint, i);
    } else {
      NewerAppendMissed(front, back, checkpoint);
    }
  }

  lemma {:induction false} SelectAppend(front: seq<Row>, back: seq<Row>, valid: bool)
    ensures Select(front + back, valid) == Select(front, valid) + Select(back, valid)
  {
    if front == [] {
      assert front + back == back;
    } else {
      var rest := front[1..];
      SelectAppend(rest, back, valid);
      assert (front + back)[1..] == rest + back && (front + back)[0] == front[0];
      if front[0].valid == valid {
        assert [front[0]] + (Select(rest, valid) + Select(back, valid))
            == ([front[0]] + Select(rest, valid)) + Select(back, valid);
      }
    }
  }

  lemma {:induction false} SelectKeeps(rows: seq<Row>, valid: bool, row: Row)
    ensures row in Select(rows, valid) <==> row in rows && row.valid == valid
  {
    if rows != [] {
      SelectKeeps(rows[1..], valid, row);
      assert rows == [rows[0]] + rows[1..];
    }
  }

  lemma {:induction false} SelectSplits(rows: seq<Row>)
    ensures |Select(rows, true)| + |Select(rows, false)| == |rows|
  {
    if rows != [] {
      SelectSplits(rows[1..]);
    }
  }

  /** A history holds the rows in front of the first one that is the checkpoint, each once: valid ones as donations,
      the others as rejected. Its checkpoint is the newest row's identifier, and without rows the old one. */
  lemma HistoryMeans(rows: seq<Row>, checkpoint: Option<string>, row: Row) returns (k: nat)
    ensures k <= |rows| && (k < |rows| ==> checkpoint == Some(rows[k].id))
    ensures forall i | 0 <= i < k :: checkpoint != Some(rows[i].id)
    ensures var h := HistoryOf(rows, checkpoint);
            && (row in h.donations <==> row in rows[..k] && row.valid)
            && (row in h.rejected <==> row in rows[..k] && !row.valid)
            && |h.donations| + |h.rejected| == k
            && h.checkpoint == if rows == [] then checkpoint else Some(rows[0].id)
  {
    k := NewerIsPrefix(rows, checkpoint);
    SelectSplits(rows[..k]);
    SelectKeeps(rows[..k], true, row);
    SelectKeeps(rows[..k], false, row);
  }

  // ---------------------------------------------------------------------------------------------
  // The walk
  // ---------------------------------------------------------------------------------------------

  /** All rows of the pages, in order. */
  function Flat(pages: seq<Response>): seq<Row> {
    if pages == [] then []
    else Flat(pages[..|pages| - 1]) + (if pages[|pages| - 1].Page? then pages[|pages| - 1].rows else [])
  }

  function Last(page: Response): string {
    if page.Page? && page.rows != [] then page.rows[|page.rows| - 1].id else ""
  }

  /** Page i sends the walk on to the next one. */
  ghost predicate Continues(pages: seq<Response>, checkpoint: Option<string>, i: nat) {
    && i < |pages| && pages[i].Page? && pages[i].rows != []
    && (i == 0 ==> pages[0].rows[0].id != "")
    && !Holds(pages[i].rows, checkpoint)
    && Last(pages[i]) != ""
    && (forall j | 0 <= j < i :: Last(pages[j]) != Last(pages[i]))
  }

  ghost predicate StopsAt(pages: seq<Response>, checkpoint: Option<string>, n: nat) {
    && n <= |pages| && n <= MAXIMUM_HISTORY_PAGE
    && (forall i | 0 <= i < n :: Continues(pages, checkpoint, i))
    && (n < |pages| && n < MAXIMUM_HISTORY_PAGE ==> !Continues(pages, checkpoint, n))
  }

  /** The outcome of a walk that stops at page n. Answers that never came count as failed requests. */
  ghost function Outcome(pages: seq<Response>, checkpoint: Option<string>, n: nat): Result<History, Failure>
    requires StopsAt(pages, checkpoint, n)
  {
    if n == MAXIMUM_HISTORY_PAGE then Err(TooManyPages)
    else if n == |pages| || pages[n].Failed? then Err(RequestFailed)
    else if pages[n].rows == [] then Ok(HistoryOf(Flat(pages[..n]), checkpoint))
    else if n == 0 && pages[0].rows[0].id == "" then Err(MissingHead)
    else if Holds(pages[n].rows, checkpoint) then Ok(HistoryOf(Flat(pages[..n + 1]), checkpoint))
    else if Last(pages[n]) == "" then Err(MissingCursor)
    else Err(RepeatedCursor)
  }

  /** The page a walk stops at. */
  ghost function StopPage(pages: seq<Response>, checkpoint: Option<string>, from: nat): (n: nat)
    requires from <= |pages| && from <= MAXIMUM_HISTORY_PAGE
    requires forall i | 0 <= i < from :: Continues(pages, checkpoint, i)
    ensures StopsAt(pages, checkpoint, n)
    decreases |pages| - from
  {
    if from < |pages| && from < MAXIMUM_HISTORY_PAGE && Continues(pages, checkpoint, from)
    then StopPage(pages, checkpoint, from + 1) else from
  }

  /** What a walk over these answers returns. */
  ghost function Walk(pages: seq<Response>, checkpoint: Option<string>): Result<History, Failure> {
    Outcome(pages, checkpoint, StopPage(pages, checkpoint, 0))
  }

  /** A walk stops at one page only. */
  lemma WalkIs(pages: seq<Response>, checkpoint: Option<string>, n: nat)
    requires StopsAt(pages, checkpoint, n)
    ensures Walk(pages, checkpoint) == Outcome(pages, checkpoint, n)
  {
    var m: nat := StopPage(pages, checkpoint, 0);
    assert m < n ==> Continues(pages, checkpoint, m);
    assert n < m ==> Continues(pages, checkpoint, n);
  }

  lemma FlatExtends(pages: seq<Response>, n: nat)
    requires n < |pages|
    ensures Flat(pages[..n + 1]) == Flat(pages[..n]) + (if pages[n].Page? then pages[n].rows else [])
  {
    assert pages[..n + 1][..n] == pages[..n];
  }

  /** What the walk has gathered before page n. */
  ghost predicate Gathered(pages: seq<Response>, checkpoint: Option<string>, n: nat, donations: seq<Row>,
                           rejected: seq<Row>, newCheckpoint: Option<string>)
  {
    && n <= |pages|
    && var rows := Flat(pages[..n]);
       && !Holds(rows, checkpoint)
       && donations == Select(rows, true) && rejected == Select(rows, false)
       && newCheckpoint == (if rows == [] then None else Some(rows[0].id))
       && (n > 0 <==> rows != [])
  }

  lemma GatheredHistory(pages: seq<Response>, checkpoint: Option<string>, n: nat, donations: seq<Row>,
                        rejected: seq<Row>, newCheckpoint: Option<string>)
    requires n <= |pages| && Gathered(pages, checkpoint, n, donations, rejected, newCheckpoint)
    ensures HistoryOf(Flat(pages[..n]), checkpoint) ==
            History(donations, rejected, if newCheckpoint.Some? then newCheckpoint else checkpoint)
    ensures n == 0 <==> newCheckpoint.None?
  {
    var all := Flat(pages[..n]);
    assert all + [] == all;
    NewerAppend(all, [], checkpoint);
  }

  method TakePage(rows: seq<Row>, checkpoint: Option<string>)
    returns (donations: seq<Row>, rejected: seq<Row>, found: bool)
    ensures found <==> Holds(rows, checkpoint)
    ensures donations == Select(Newer(rows, checkpoint), true)
    ensures rejected == Select(Newer(rows, checkpoint), false)
  {
    donations, rejected, found := [], [], false;
    for i := 0 to |rows|
      invariant !Holds(rows[..i], checkpoint)
      invariant donations == Select(rows[..i], true) && rejected == Select(rows[..i], false)
    {
      assert rows[..i] + rows[i..] == rows;
      NewerAppend(rows[..i], rows[i..], checkpoint);
      if checkpoint == Some(rows[i].id) {
        assert Newer(rows, checkpoint) == rows[..i];
        return donations, rejected, true;
      }
      var j := i + 1;
      assert rows[..j] == rows[..i] + [rows[i]];
      SelectAppend(rows[..i], [rows[i]], true);
      SelectAppend(rows[..i], [rows[i]], false);
      if rows[i].valid {
        donations := donations + [rows[i]];
      } else {
        rejected := rejected + [rows[i]];
      }
    }
    assert rows[..|rows|] == rows && rows + [] == rows;
    NewerAppend(rows, [], checkpoint);
  }

  lemma GatherPage(pages: seq<Response>, checkpoint: Option<string>, n: nat, donations: seq<Row>, rejected: seq<Row>,
                   newCheckpoint: Option<string>)
    requires n < |pages| && pages[n].Page? && pages[n].rows != []
    requires Gathered(pages, checkpoint, n, donations, rejected, newCheckpoint)
    ensures var rows := Flat(pages[..n + 1]);
            var newer := Newer(pages[n].rows, checkpoint);
            && HistoryOf(rows, checkpoint) ==
               History(donations + Select(newer, true), rejected + Select(newer, false),
                       Some(if newCheckpoint.Some? then newCheckpoint.value else pages[n].rows[0].id))
            && (!Holds(pages[n].rows, checkpoint) ==>
                  Gathered(pages, checkpoint, n + 1, donations + Select(newer, true), rejected + Select(newer, false),
                           Some(if newCheckpoint.Some? then newCheckpoint.value else pages[n].rows[0].id)))
  {
    var front, page := Flat(pages[..n]), pages[n].rows;
    FlatExtends(pages, n);
    NewerAppend(front, page, checkpoint);
    NewerAppend(page, [], checkpoint);
    assert page + [] == page;
    SelectAppend(front, Newer(page, checkpoint), true);
    SelectAppend(front, Newer(page, checkpoint), false);
    if !Holds(page, checkpoint) {
      NewerAppend(front, page, checkpoint);
      var all := front + page;
      forall i | 0 <= i < |all| ensures Some(all[i].id) != checkpoint {
        assert all[i] == if i < |front| then front[i] else page[i - |front|];
      }
    }
  }

  /** The walk ends for lack of an answer, or of pages it may still ask for. */
  lemma StopsWithoutPage(pages: seq<Response>, checkpoint: Option<string>, n: nat)
    requires n <= |pages| && n <= MAXIMUM_HISTORY_PAGE && forall i | 0 <= i < n :: Continues(pages, checkpoint, i)
    ensures n == MAXIMUM_HISTORY_PAGE ==> Walk(pages, checkpoint) == Err(TooManyPages)
    ensures n < MAXIMUM_HISTORY_PAGE && (n == |pages| || pages[n].Failed?) ==>
              Walk(pages, checkpoint) == Err(RequestFailed)
  {
    if n == MAXIMUM_HISTORY_PAGE || n == |pages| || pages[n].Failed? {
      WalkIs(pages, checkpoint, n);
    }
  }

  /** What page n means for the walk, in the order in which it is looked at. */
  lemma StopsAtPage(pages: seq<Response>, checkpoint: Option<string>, n: nat)
    requires n < |pages| && n < MAXIMUM_HISTORY_PAGE && pages[n].Page?
    requires forall i | 0 <= i < n :: Continues(pages, checkpoint, i)
    ensures var rows, walk := pages[n].rows, Walk(pages, checkpoint);
            if rows == [] then walk == Ok(HistoryOf(Flat(pages[..n]), checkpoint))
            else if n == 0 && rows[0].id == "" then walk == Err(MissingHead)
            else if Holds(rows, checkpoint) then walk == Ok(HistoryOf(Flat(pages[..n + 1]), checkpoint))
            else if Last(pages[n]) == "" then walk == Err(MissingCursor)
            else if exists j :: 0 <= j < n && Last(pages[j]) == Last(pages[n]) then walk == Err(RepeatedCursor)
            else Continues(pages, checkpoint, n)
    ensures pages[n].rows != [] ==> Last(pages[n]) == pages[n].rows[|pages[n].rows| - 1].id
  {
    if !Continues(pages, checkpoint, n) {
      WalkIs(pages, checkpoint, n);
    }
  }

  /** Adds what page n holds in front of the checkpoint; the first page sets the new checkpoint. */
  method AddPage(pages: seq<Response>, checkpoint: Option<string>, n: nat, donations: seq<Row>, rejected: seq<Row>,
                 newCheckpoint: Option<string>)
    returns (donations': seq<Row>, rejected': seq<Row>, newCheckpoint': Option<string>, found: bool)
    requires n < |pages| && pages[n].Page? && pages[n].rows != []
    requires Gathered(pages, checkpoint, n, donations, rejected, newCheckpoint)
    ensures found <==> Holds(pages[n].rows, checkpoint)
    ensures found ==> HistoryOf(Flat(pages[..n + 1]), checkpoint) == History(donations', rejected', newCheckpoint')
    ensures !found ==> Gathered(pages, checkpoint, n + 1, donations', rejected', newCheckpoint')
  {
    hide Select, Newer, HistoryOf, Flat, Gathered, Holds;
    GatherPage(pages, checkpoint, n, donations, rejected, newCheckpoint);
    newCheckpoint' := newCheckpoint;
    if newCheckpoint'.None? {
      newCheckpoint' := Some(pages[n].rows[0].id);
    }
    var valid, invalid, holds := TakePage(pages[n].rows, checkpoint);
    donations', rejected', found := donations + valid, rejected + invalid, holds;
  }

  method GetDonations(pages: seq<Response>, checkpoint: Option<string>)
    returns (r: Result<History, Failure>)
    ensures r == Walk(pages, checkpoint)
  {
    var donations: seq<Row>, rejected: seq<Row> := [], [];
    var newCheckpoint: Option<string> := None;
    assert Gathered(pages, checkpoint, 0, donations, rejected, newCheckpoint) by {
      assert pages[..0] == [];
    }
    hide HistoryOf, Flat, Gathered, Holds, Walk, Continues, Last;
    var seenCursors: set<string> := {};
    var pageNumber := 0;
    while pageNumber < MAXIMUM_HISTORY_PAGE
      invariant pageNumber <= MAXIMUM_HISTORY_PAGE && pageNumber <= |pages|
      invariant forall i | 0 <= i < pageNumber :: Continues(pages, checkpoint, i)
      invariant Gathered(pages, checkpoint, pageNumber, donations, rejected, newCheckpoint)
      invariant seenCursors == set i | 0 <= i < pageNumber :: Last(pages[i])
    {
      StopsWithoutPage(pages, checkpoint, pageNumber);
      if pageNumber == |pages| || pages[pageNumber].Failed? {
        return Err(RequestFailed);
      }
      StopsAtPage(pages, checkpoint, pageNumber);
      GatheredHistory(pages, checkpoint, pageNumber, donations, rejected, newCheckpoint);
      var rows := pages[pageNumber].rows;
      if rows == [] {
        return Ok(History(donations, rejected, if newCheckpoint.Some? then newCheckpoint else checkpoint));
      }
      if newCheckpoint.None? && rows[0].id == "" {
        return Err(MissingHead);
      }
      var found;
      donations, rejected, newCheckpoint, found :=
        AddPage(pages, checkpoint, pageNumber, donations, rejected, newCheckpoint);
      if found {
        return Ok(History(donations, rejected, newCheckpoint));
      }
      var before := rows[|rows| - 1].id;
      if before == "" {
        return Err(MissingCursor);
      }
      if before in seenCursors {
        return Err(RepeatedCursor);
      }
      seenCursors := seenCursors + {before};
      pageNumber := pageNumber + 1;
    }
    StopsWithoutPage(pages, checkpoint, pageNumber);
    return Err(TooManyPages);
  }

  /** A page with rows, none of them the checkpoint, that ends in an identifier no page before it ended in; the first
      row of the first page has an identifier. */
  ghost predicate Onward(pages: seq<Response>, checkpoint: Option<string>, i: nat) {
    && i < |pages| && pages[i].Page? && pages[i].rows != []
    && (i == 0 ==> pages[0].rows[0].id != "")
    && (forall j | 0 <= j < |pages[i].rows| :: checkpoint != Some(pages[i].rows[j].id))
    && LastId(pages[i]) != ""
    && forall j | 0 <= j < i :: LastId(pages[j]) != LastId(pages[i])
  }

  /** The cursor a page leads on with. */
  function LastId(page: Response): string {
    if page.Failed? || page.rows == [] then "" else page.rows[|page.rows| - 1].id
  }

  lemma OnwardIs(pages: seq<Response>, checkpoint: Option<string>, i: nat)
    ensures Continues(pages, checkpoint, i) <==> Onward(pages, checkpoint, i)
  {
    if i < |pages| && pages[i].Page? && Holds(pages[i].rows, checkpoint) {
      var j :| 0 <= j < |pages[i].rows| && Some(pages[i].rows[j].id) == checkpoint;
      assert checkpoint == Some(pages[i].rows[j].id);
    }
  }

  /** Every end of a walk over arbitrary answers, page by page, in the order in which a page is looked at. */
  lemma WalkAnswers(pages: seq<Response>, checkpoint: Option<string>, n: nat)
    requires n <= |pages| && n <= 1000 && forall i | 0 <= i < n :: Onward(pages, checkpoint, i)
    ensures n == 1000 ==> Walk(pages, checkpoint) == Err(TooManyPages)
    ensures n < 1000 && (n == |pages| || pages[n].Failed?) ==> Walk(pages, checkpoint) == Err(RequestFailed)
    ensures n < 1000 && n < |pages| && pages[n].Page? && !Onward(pages, checkpoint, n) ==>
              var rows, walk := pages[n].rows, Walk(pages, checkpoint);
              if rows == [] then walk == Ok(HistoryOf(Flat(pages[..n]), checkpoint))
              else if n == 0 && rows[0].id == "" then walk == Err(MissingHead)
              else if exists j :: 0 <= j < |rows| && checkpoint == Some(rows[j].id)
              then walk == Ok(HistoryOf(Flat(pages[..n + 1]), checkpoint))
              else if LastId(pages[n]) == "" then walk == Err(MissingCursor)
              else walk == Err(RepeatedCursor)
  {
    forall i: nat ensures Continues(pages, checkpoint, i) <==> Onward(pages, checkpoint, i) {
      OnwardIs(pages, checkpoint, i);
    }
    hide Continues, Onward, Walk, Flat, HistoryOf;
    StopsWithoutPage(pages, checkpoint, n);
    if n < 1000 && n < |pages| && pages[n].Page? {
      StopsAtPage(pages, checkpoint, n);
      assert Holds(pages[n].rows, checkpoint) <==>
             exists j :: 0 <= j < |pages[n].rows| && checkpoint == Some(pages[n].rows[j].id);
    }
  }

  // ---------------------------------------------------------------------------------------------
  // A walk over a growing log
  // ---------------------------------------------------------------------------------------------

  /** Donation logs are kept oldest first; identifiers are unique. */
  ghost predicate LogOk(log: seq<Row>) {
    forall i, j | 0 <= i < j < |log| :: log[i].id == log[j].id ==> log[i].id == ""
  }

  /** A page of the service: the newest rows older than position `end`, at least one if there is one. */
  ghost predicate PageBelow(log: seq<Row>, end: nat, page: seq<Row>) {
    && end <= |log|
    && page <= Reversed(log[..end])
    && (end > 0 ==> page != [])
  }

  /** The service's answer to a request for the rows before a cursor, none for the newest. */
  ghost predicate Answers(log: seq<Row>, before: Option<string>, page: seq<Row>) {
    match before
    case None => PageBelow(log, |log|, page)
    case Some(id) => exists end :: 0 <= end < |log| && log[end].id == id && PageBelow(log, end, page)
  }

  /** Every answered request was answered from the log of its moment; rows are only ever added. */
  ghost predicate Serves(logs: seq<seq<Row>>, pages: seq<Response>) {
    && |logs| == |pages|
    && (forall i | 0 <= i < |logs| :: Served(logs, pages, i))
  }

  ghost predicate Served(logs: seq<seq<Row>>, pages: seq<Response>, i: nat) {
    && |logs| == |pages| && i < |pages|
    && LogOk(logs[i]) && logs[0] <= logs[i]
    && (pages[i].Page? ==> Answers(logs[i], if i == 0 then None else Some(Last(pages[i - 1])), pages[i].rows))
  }

  lemma NextPage(log: seq<Row>, grown: seq<Row>, front: seq<Row>, page: seq<Row>)
    requires LogOk(grown) && log <= grown && front <= Reversed(log) && front != []
    requires front[|front| - 1].id != "" && Answers(grown, Some(front[|front| - 1].id), page)
    ensures front + page <= Reversed(log)
    ensures page == [] ==> front == Reversed(log)
  {
    var t := |log| - |front|;
    var id := front[|front| - 1].id;
    assert front[|front| - 1] == Reversed(log)[|front| - 1] == log[t] == grown[t];
    var end :| 0 <= end < |grown| && grown[end].id == id && PageBelow(grown, end, page);
    assert end == t;
    assert grown[..t] == log[..t];
    assert Reversed(log[..t]) == Reversed(log)[|front|..];
    assert front + Reversed(log)[|front|..] == Reversed(log);
  }

  /** The pages read so far are the newest rows of the log of the first request, in order and without gaps. */
  lemma {:induction false} PagesArePrefix(logs: seq<seq<Row>>, pages: seq<Response>, checkpoint: Option<string>, n: nat)
    requires Serves(logs, pages) && n < |pages| && pages[n].Page?
    requires forall i | 0 <= i < n :: Continues(pages, checkpoint, i)
    ensures Flat(pages[..n]) <= Reversed(logs[0])
    ensures Flat(pages[..n + 1]) <= Reversed(logs[0])
    ensures pages[n].rows == [] ==> Flat(pages[..n]) == Reversed(logs[0])
  {
    assert Served(logs, pages, n) && Flat([]) == [];
    assert |logs| == |pages| && LogOk(logs[n]) && logs[0] <= logs[n];
    if n == 0 {
      assert Answers(logs[0], None, pages[0].rows) && pages[..0] == [];
      hide *;
      NewestPage(logs[0], pages[0].rows);
      FlatExtends(pages, 0);
    } else {
      var m := n - 1;
      assert Answers(logs[n], Some(Last(pages[m])), pages[n].rows);
      assert Continues(pages, checkpoint, m) && pages[m].Page? && pages[m].rows != [] && Last(pages[m]) != "";
      hide *;
      PagesArePrefix(logs, pages, checkpoint, m);
      LastOfFlat(pages, m);
      NextPage(logs[0], logs[n], Flat(pages[..n]), pages[n].rows);
      FlatExtends(pages, n);
    }
  }

  lemma NewestPage(log: seq<Row>, page: seq<Row>)
    requires Answers(log, None, page)
    ensures [] + page <= Reversed(log) && (page == [] ==> Reversed(log) == [])
  {
    assert log[..|log|] == log && [] + page == page;
  }

  /** A walk that succeeds on a log, however the pages fall and whatever is added meanwhile, returns exactly
      the history of the log as it was at the first request. */
  lemma WalkIsASnapshot(logs: seq<seq<Row>>, pages: seq<Response>, checkpoint: Option<string>)
    requires Serves(logs, pages) && Walk(pages, checkpoint).Ok?
    ensures |logs| > 0 && Walk(pages, checkpoint) == Ok(HistoryOf(Reversed(logs[0]), checkpoint))
    ensures logs[0] != [] ==> logs[0][|logs[0]| - 1].id != ""
  {
    SnapshotAt(logs, pages, checkpoint, StopPage(pages, checkpoint, 0));
  }

  lemma SnapshotAt(logs: seq<seq<Row>>, pages: seq<Response>, checkpoint: Option<string>, n: nat)
    requires Serves(logs, pages) && StopsAt(pages, checkpoint, n) && Outcome(pages, checkpoint, n).Ok?
    ensures |logs| > 0 && Outcome(pages, checkpoint, n) == Ok(HistoryOf(Reversed(logs[0]), checkpoint))
    ensures logs[0] != [] ==> logs[0][|logs[0]| - 1].id != ""
  {
    var rows := Reversed(logs[0]);
    PagesArePrefix(logs, pages, checkpoint, n);
    hide Serves, Newer, Select;
    forall i | 0 <= i < n ensures pages[i].Page? && pages[i].rows != [] {
      assert Continues(pages, checkpoint, i);
    }
    FlatHead(pages, n);
    assert n > 0 ==> Continues(pages, checkpoint, 0);
    assert logs[0] != [] ==> rows[0] == pages[0].rows[0];
    if pages[n].rows != [] {
      FlatExtends(pages, n);
      var all := Flat(pages[..n + 1]);
      var i :| 0 <= i < |pages[n].rows| && Some(pages[n].rows[i].id) == checkpoint;
      assert all[|Flat(pages[..n])| + i] == pages[n].rows[i];
      NewerAppend(all, rows[|all|..], checkpoint);
      assert all + rows[|all|..] == rows;
    }
  }

  lemma {:induction false} FlatHead(pages: seq<Response>, n: nat)
    requires n < |pages| && forall i | 0 <= i < n :: pages[i].Page? && pages[i].rows != []
    ensures n > 0 ==> Flat(pages[..n]) != [] && Flat(pages[..n])[0] == pages[0].rows[0]
    ensures pages[n].Page? && pages[n].rows != [] ==>
              Flat(pages[..n + 1]) != [] && Flat(pages[..n + 1])[0] == pages[0].rows[0]
  {
    FlatExtends(pages, n);
    if n == 0 {
      assert pages[..0] == [];
    } else {
      FlatHead(pages, n - 1);
    }
  }

  /** Two different stretches of a log do not end in the same identifier. */
  lemma LastRepeats(log: seq<Row>, short: seq<Row>, long: seq<Row>)
    requires LogOk(log) && short <= Reversed(log) && long <= Reversed(log) && 0 < |short| < |long|
    ensures short[|short| - 1].id == long[|long| - 1].id ==> short[|short| - 1].id == ""
  {
    assert short[|short| - 1] == Reversed(log)[|short| - 1] == log[|log| - |short|];
    assert long[|long| - 1] == Reversed(log)[|long| - 1] == log[|log| - |long|];
  }

  /** On a log whose rows all have identifiers a walk fails only for a failed request or for its page limit. */
  lemma OnlyRequestsFail(logs: seq<seq<Row>>, pages: seq<Response>, checkpoint: Option<string>)
    requires Serves(logs, pages) && |logs| > 0
    requires forall i | 0 <= i < |logs[0]| :: logs[0][i].id != ""
    ensures Walk(pages, checkpoint).Ok? || Walk(pages, checkpoint).error in {RequestFailed, TooManyPages}
  {
    hide Serves, HistoryOf, Flat;
    var n := StopPage(pages, checkpoint, 0);
    if n < |pages| && pages[n].Page? && pages[n].rows != [] {
      PageIdentifiers(logs, pages, checkpoint, n);
      forall j | 0 <= j < n ensures Last(pages[j]) != Last(pages[n]) {
        CursorsDiffer(logs, pages, checkpoint, j, n);
      }
    }
  }

  lemma PageIdentifiers(logs: seq<seq<Row>>, pages: seq<Response>, checkpoint: Option<string>, n: nat)
    requires Serves(logs, pages) && n < |pages| && pages[n].Page? && pages[n].rows != [] && |logs| > 0
    requires forall i | 0 <= i < n :: Continues(pages, checkpoint, i)
    requires forall i | 0 <= i < |logs[0]| :: logs[0][i].id != ""
    ensures pages[n].rows[0].id != "" && Last(pages[n]) != ""
  {
    PagesArePrefix(logs, pages, checkpoint, n);
    FlatExtends(pages, n);
    hide Serves, Continues, Flat;
    var front, all := Flat(pages[..n]), Flat(pages[..n + 1]);
    assert all[|front|] == pages[n].rows[0] && all[|all| - 1].id == Last(pages[n]);
    assert forall i | 0 <= i < |all| :: all[i] == Reversed(logs[0])[i];
  }

  lemma CursorsDiffer(logs: seq<seq<Row>>, pages: seq<Response>, checkpoint: Option<string>, j: nat, n: nat)
    requires Serves(logs, pages) && j < n < |pages| && pages[n].Page? && pages[n].rows != []
    requires forall i | 0 <= i < n :: Continues(pages, checkpoint, i)
    ensures Last(pages[j]) != Last(pages[n])
  {
    hide Flat, Holds, Answers, Reversed;
    assert Continues(pages, checkpoint, j) && pages[j].Page? && pages[j].rows != [] && Last(pages[j]) != "";
    assert LogOk(logs[0]) by {
      assert Served(logs, pages, 0);
    }
    PagesArePrefix(logs, pages, checkpoint, n);
    hide *;
    LastOfFlat(pages, n);
    LastOfFlat(pages, j);
    FlatExtends(pages, n);
    FlatGrows(pages, j + 1, n);
    LastRepeats(logs[0], Flat(pages[..j + 1]), Flat(pages[..n + 1]));
  }

  lemma LastOfFlat(pages: seq<Response>, n: nat)
    requires n < |pages| && pages[n].Page? && pages[n].rows != []
    ensures Flat(pages[..n + 1]) != [] && Flat(pages[..n + 1])[|Flat(pages[..n + 1])| - 1].id == Last(pages[n])
  {
    FlatExtends(pages, n);
  }

  lemma {:induction false} FlatGrows(pages: seq<Response>, j: nat, n: nat)
    requires j <= n <= |pages|
    ensures Flat(pages[..j]) <= Flat(pages[..n])
    decreases n
  {
    if j < n {
      FlatGrows(pages, j, n - 1);
      FlatExtends(pages, n - 1);
    }
  }

  // ---------------------------------------------------------------------------------------------
  // The page limit
  // ---------------------------------------------------------------------------------------------

  /** A walk to a checkpoint has to see it; a walk without one has to see an empty page behind all rows. */
  predicate WithinLimit(rows: seq<Row>, checkpoint: Option<string>) {
    if Holds(rows, checkpoint) then |Newer(rows, checkpoint)| < HISTORY_PAGE_SIZE * MAXIMUM_HISTORY_PAGE
    else |rows| <= HISTORY_PAGE_SIZE * (MAXIMUM_HISTORY_PAGE - 1)
  }

  predicate SmallPages(pages: seq<Response>) {
    forall i | 0 <= i < |pages| && pages[i].Page? :: |pages[i].rows| <= HISTORY_PAGE_SIZE
  }

  /** A page that is not full ends at the oldest row of the log of the first request. */
  ghost predicate FullPages(log: seq<Row>, pages: seq<Response>) {
    forall i | 0 <= i < |pages| && pages[i].Page? && |pages[i].rows| < HISTORY_PAGE_SIZE ::
      Flat(pages[..i + 1]) == Reversed(log)
  }

  lemma {:induction false} FlatSize(pages: seq<Response>, n: nat)
    requires SmallPages(pages) && n <= |pages|
    ensures |Flat(pages[..n])| <= HISTORY_PAGE_SIZE * n
  {
    if n == 0 {
      assert pages[..0] == [];
    } else {
      FlatSize(pages, n - 1);
      FlatExtends(pages, n - 1);
    }
  }

  /** Pages that sent the walk on do not hold the checkpoint. */
  lemma {:induction false} FlatMisses(pages: seq<Response>, checkpoint: Option<string>, n: nat)
    requires n <= |pages| && forall i | 0 <= i < n :: Continues(pages, checkpoint, i)
    ensures !Holds(Flat(pages[..n]), checkpoint)
  {
    if n == 0 {
      assert pages[..0] == [];
    } else {
      FlatMisses(pages, checkpoint, n - 1);
      FlatExtends(pages, n - 1);
      assert Continues(pages, checkpoint, n - 1);
    }
  }

  /** Rows that hold the checkpoint among the first hundred thousand are within the limit. */
  lemma FoundIsWithin(rows: seq<Row>, read: seq<Row>, checkpoint: Option<string>, i: nat)
    requires read <= rows && |read| <= HISTORY_PAGE_SIZE * MAXIMUM_HISTORY_PAGE
    requires i < |read| && Some(read[i].id) == checkpoint
    ensures WithinLimit(rows, checkpoint)
  {
    NewerAppendFound(read, rows[|read|..], checkpoint, i);
    assert read + rows[|read|..] == rows && rows[i] == read[i];
    var k := NewerIsPrefix(read, checkpoint);
    hide Newer;
  }

  /** A walk that succeeds had at most so much to see. */
  lemma SuccessIsWithin(logs: seq<seq<Row>>, pages: seq<Response>, checkpoint: Option<string>)
    requires Serves(logs, pages) && SmallPages(pages) && Walk(pages, checkpoint).Ok?
    ensures |logs| > 0 && WithinLimit(Reversed(logs[0]), checkpoint)
  {
    var n := StopPage(pages, checkpoint, 0);
    hide Serves, Flat, Reversed, Newer, SmallPages, HistoryOf;
    assert n < |pages| && n < MAXIMUM_HISTORY_PAGE && pages[n].Page?;
    PagesArePrefix(logs, pages, checkpoint, n);
    FlatSize(pages, n);
    if pages[n].rows == [] {
      FlatMisses(pages, checkpoint, n);
    } else {
      FlatSize(pages, n + 1);
      FlatExtends(pages, n);
      var front, read := Flat(pages[..n]), Flat(pages[..n + 1]);
      var i :| 0 <= i < |pages[n].rows| && Some(pages[n].rows[i].id) == checkpoint;
      hide Walk, Continues, WithinLimit;
      assert read[|front| + i] == pages[n].rows[i];
      FoundIsWithin(Reversed(logs[0]), read, checkpoint, |front| + i);
    }
  }

  /** Pages in front of one that is not empty are full. */
  lemma {:induction false} FullSize(logs: seq<seq<Row>>, pages: seq<Response>, checkpoint: Option<string>, n: nat)
    requires Serves(logs, pages) && SmallPages(pages) && |logs| > 0 && FullPages(logs[0], pages) && n < |pages|
    requires forall i | 0 <= i <= n :: Continues(pages, checkpoint, i)
    ensures |Flat(pages[..n])| == HISTORY_PAGE_SIZE * n
  {
    if n == 0 {
      assert pages[..0] == [];
    } else {
      var m := n - 1;
      assert Continues(pages, checkpoint, n) && Continues(pages, checkpoint, m);
      FullSize(logs, pages, checkpoint, m);
      PagesArePrefix(logs, pages, checkpoint, n);
      hide Serves, Continues, Flat, Reversed;
      FlatExtends(pages, m);
      FlatExtends(pages, n);
    }
  }

  /** A walk that uses up its pages had more to see. */
  lemma ExhaustedIsBeyond(logs: seq<seq<Row>>, pages: seq<Response>, checkpoint: Option<string>)
    requires Serves(logs, pages) && SmallPages(pages) && |logs| > 0 && FullPages(logs[0], pages)
    requires StopPage(pages, checkpoint, 0) == MAXIMUM_HISTORY_PAGE
    ensures !WithinLimit(Reversed(logs[0]), checkpoint)
  {
    var m := MAXIMUM_HISTORY_PAGE - 1;
    assert Continues(pages, checkpoint, m) && pages[m].Page? && pages[m].rows != [];
    FullSize(logs, pages, checkpoint, m);
    PagesArePrefix(logs, pages, checkpoint, m);
    FlatMisses(pages, checkpoint, m + 1);
    hide Serves, Continues, Flat, Reversed, Newer;
    FlatExtends(pages, m);
    var all, rows := Flat(pages[..m + 1]), Reversed(logs[0]);
    NewerAppend(all, rows[|all|..], checkpoint);
    assert all + rows[|all|..] == rows;
  }

  /** On a log whose rows all have identifiers, with full pages and no failing request, a walk succeeds if and
      only if its rows fit into the page limit. */
  lemma WalkSucceedsIff(logs: seq<seq<Row>>, pages: seq<Response>, checkpoint: Option<string>)
    requires Serves(logs, pages) && SmallPages(pages) && |logs| > 0 && FullPages(logs[0], pages)
    requires forall i | 0 <= i < |logs[0]| :: logs[0][i].id != ""
    requires Walk(pages, checkpoint) != Err(RequestFailed)
    ensures Walk(pages, checkpoint).Ok? <==> WithinLimit(Reversed(logs[0]), checkpoint)
    ensures Walk(pages, checkpoint).Err? <==> Walk(pages, checkpoint) == Err(TooManyPages)
  {
    hide Serves, FullPages, WithinLimit, HistoryOf, Flat, Continues;
    if Walk(pages, checkpoint).Ok? {
      SuccessIsWithin(logs, pages, checkpoint);
    } else {
      OnlyRequestsFail(logs, pages, checkpoint);
      ExhaustedIsBeyond(logs, pages, checkpoint);
    }
  }

  /** The checkpoint, if there is one, names a row of the log. */
  predicate NamesRow(log: seq<Row>, checkpoint: Option<string>) {
    checkpoint.Some? ==> checkpoint.value != "" && Holds(Reversed(log), checkpoint)
  }

  /** What is added later stands in front, and does not hold an older checkpoint. */
  lemma AddedMisses(older: seq<Row>, log: seq<Row>, checkpoint: Option<string>)
    requires LogOk(log) && older <= log && checkpoint.Some? && NamesRow(older, checkpoint)
    ensures forall j | 0 <= j < |log| - |older| :: Some(Reversed(log)[j].id) != checkpoint
  {
    var n := |log| - |older|;
    var i :| 0 <= i < |older| && Some(Reversed(older)[i].id) == checkpoint;
    var p := |older| - 1 - i;
    assert log[p].id == checkpoint.value != "";
    forall j | 0 <= j < n ensures Some(Reversed(log)[j].id) != checkpoint {
      assert Reversed(log)[j] == log[|log| - 1 - j];
    }
  }

  lemma LimitFallsBehind(older: seq<Row>, log: seq<Row>, checkpoint: Option<string>)
    requires LogOk(log) && older <= log && NamesRow(older, checkpoint) && WithinLimit(Reversed(log), checkpoint)
    ensures WithinLimit(Reversed(older), checkpoint)
  {
    var n := |log| - |older|;
    var rows, back := Reversed(log), Reversed(older);
    var added := rows[..n];
    assert rows == added + back;
    if checkpoint.Some? {
      AddedMisses(older, log, checkpoint);
      var i :| 0 <= i < |back| && Some(back[i].id) == checkpoint;
      hide Newer, Reversed, LogOk, NamesRow;
      assert Holds(rows, checkpoint) by {
        assert rows[n + i] == back[i];
      }
      NewerAppendMissed(added, back, checkpoint);
    }
  }

  /** Once a checkpoint is too far behind, every later walk from it fails, however the pages fall: the log only
      grows, and a walk that fails keeps nothing. */
  lemma TooFarBehindForGood(older: seq<Row>, logs: seq<seq<Row>>, pages: seq<Response>, checkpoint: Option<string>)
    requires NamesRow(older, checkpoint) && !WithinLimit(Reversed(older), checkpoint)
    requires Serves(logs, pages) && SmallPages(pages) && (|logs| > 0 ==> older <= logs[0])
    ensures Walk(pages, checkpoint).Err?
  {
    if Walk(pages, checkpoint).Ok? {
      SuccessIsWithin(logs, pages, checkpoint);
      assert LogOk(logs[0]) by {
        assert Served(logs, pages, 0);
      }
      LimitFallsBehind(older, logs[0], checkpoint);
    }
  }
}
