/**
 Position recovery of one DonationAlerts websocket subscription. A session starts from the position of
 the previous one, asks the server for everything after it, handles what comes and returns its position
 whenever it ends. First the session's steps on arbitrary input, then sessions against a server that
 keeps a log.
 */
module SocketRecovery {
  import opened Base

  datatype Position = Position(epoch: string, sequence: nat, generation: nat, valid: bool)

  const NOWHERE := Position("", 0, 0, false)

  datatype Publication = Publication(sequence: nat, generation: nat, data: Option<string>)

  /** How processing goes: processed, rejected as an invalid donation, or failing. */
  datatype Outcome = Processed | Rejected | Fails

  datatype Delivery = Delivery(publication: Publication, outcome: Outcome)

  /** A push: unreadable, ending the session, of no interest, a publication that cannot be decoded,
      or a publication on the session's channel. */
  datatype Push = Malformed | Ends | Ignored | Garbled | Delivered(delivery: Delivery)

  /** A subscribe reply. Publications come newest first. `refreshable` says that its expiry makes sense. */
  datatype Reply =
    | Undecodable
    | Subscribed(recoverable: bool, recovered: bool, epoch: string, sequence: nat, generation: nat,
                 publications: seq<Delivery>, refreshable: bool)

  /** A session's result so far; `handled` is history: the publications processed or rejected, in order. */
  datatype Result = Result(position: Position, subscribed: bool, emitted: bool, handled: seq<Publication>)

  // ---------------------------------------------------------------------------------------------
  // One publication
  // ---------------------------------------------------------------------------------------------

  predicate Handles(d: Delivery) {
    d.publication.data.Some? && !d.outcome.Fails?
  }

  function Advance(position: Position, p: Publication): Position {
    if position.valid then position.(sequence := p.sequence, generation := p.generation) else position
  }

  function Take(r: Result, d: Delivery): Result {
    r.(position := Advance(r.position, d.publication),
       emitted := r.emitted || d.outcome.Processed?,
       handled := r.handled + [d.publication])
  }

  /** Handling deliveries up to the first that fails. */
  function Drain(r: Result, ds: seq<Delivery>): Result
    decreases |ds|
  {
    if ds == [] || !Handles(ds[0]) then r else Drain(Take(r, ds[0]), ds[1..])
  }

  /** How many of them are handled. */
  function Drained(ds: seq<Delivery>): nat {
    if ds == [] || !Handles(ds[0]) then 0 else 1 + Drained(ds[1..])
  }

  lemma DrainFrom(r: Result, ds: seq<Delivery>, i: nat)
    requires i <= |ds|
    ensures i == |ds| || !Handles(ds[i]) ==> Drain(r, ds[i..]) == r && Drained(ds[i..]) == 0
    ensures i < |ds| && Handles(ds[i]) ==>
              Drain(r, ds[i..]) == Drain(Take(r, ds[i]), ds[i + 1..]) && Drained(ds[i..]) == 1 + Drained(ds[i + 1..])
  {
    if i < |ds| {
      assert ds[i..][0] == ds[i] && ds[i..][1..] == ds[i + 1..];
    }
  }

  function Publications(ds: seq<Delivery>): seq<Publication> {
    seq(|ds|, i requires 0 <= i < |ds| => ds[i].publication)
  }

  /** Draining stops exactly at the first delivery that is not handled; everything before is handled in
      order, and the position is that of the last one handled. */
  lemma {:induction false} DrainMeans(r: Result, ds: seq<Delivery>)
    ensures var k, q := Drained(ds), Drain(r, ds);
            && k <= |ds| && (forall i | 0 <= i < k :: Handles(ds[i])) && (k < |ds| ==> !Handles(ds[k]))
            && q.handled == r.handled + Publications(ds[..k])
            && q.position == (if k == 0 then r.position else Advance(r.position, ds[k - 1].publication))
    decreases |ds|
  {
    if ds != [] && Handles(ds[0]) {
      var rest, k := ds[1..], Drained(ds);
      DrainMeans(Take(r, ds[0]), rest);
      assert forall i | 1 <= i < |ds| :: ds[i] == rest[i - 1];
      assert Publications(ds[..k]) == [ds[0].publication] + Publications(rest[..k - 1]);
    }
  }

  // ---------------------------------------------------------------------------------------------
  // Session steps
  // ---------------------------------------------------------------------------------------------

  function Baseline(reply: Reply): Position
    requires reply.Subscribed?
  {
    Position(reply.epoch, reply.sequence, reply.generation, reply.recoverable)
  }

  /** The position the publications of a reply start from. */
  function Start(position: Position, reply: Reply): Position
    requires reply.Subscribed?
  {
    if position.valid && reply.recovered then position else Position(reply.epoch, 0, 0, reply.recoverable)
  }

  predicate Accepted(reply: Reply) {
    reply.Subscribed? && (reply.recoverable ==> reply.epoch != "")
  }

  function Subscribe(r: Result, reply: Reply): (Result, bool) {
    if !Accepted(reply) then (r, false)
    else if !reply.refreshable then (r.(subscribed := true), false)
    else
      var ds := Reversed(reply.publications);
      var q := Drain(r.(subscribed := true, position := Start(r.position, reply)), ds);
      if Drained(ds) == |ds| then (q.(position := Baseline(reply)), true) else (q, false)
  }

  function HandlePush(r: Result, push: Push): (Result, bool) {
    match push
    case Malformed => (r, false)
    case Ends => (r, false)
    case Ignored => (r, true)
    case Garbled => (r, true)
    case Delivered(d) =>
      if d.publication.data.None? then (r.(position := Advance(r.position, d.publication)), true)
      else if d.outcome.Fails? then (r, false)
      else (Take(r, d), true)
  }

  method ReversePublications(a: array<Delivery>)
    modifies a
    ensures a[..] == Reversed(old(a[..]))
  {
    var left, right := 0, a.Length - 1;
    while left < right
      invariant 0 <= left && left + right == a.Length - 1 && left <= right + 1
      invariant forall k | 0 <= k < a.Length ::
                  a[k] == if k < left || k > right then old(a[a.Length - 1 - k]) else old(a[k])
    {
      a[left], a[right] := a[right], a[left];
      left, right := left + 1, right - 1;
    }
  }

  class Session {
    var position: Position
    var subscribed: bool
    var emitted: bool
    ghost var handled: seq<Publication>

    ghost function View(): Result
      reads this
    {
      Result(position, subscribed, emitted, handled)
    }

    constructor (previous: Position)
      ensures View() == Result(previous, false, false, [])
    {
      position, subscribed, emitted, handled := previous, false, false, [];
    }

    method AdvancePosition(p: Publication)
      modifies this`position
      ensures position == Advance(old(position), p)
    {
      if !position.valid {
        return;
      }
      position := position.(sequence := p.sequence, generation := p.generation);
    }

    method EmitPublication(d: Delivery) returns (ok: bool)
      modifies this
      ensures ok == Handles(d)
      ensures View() == if ok then Take(old(View()), d) else old(View())
    {
      if d.publication.data.None? {
        return false;
      }
      if d.outcome == Fails {
        return false;
      }
      if d.outcome == Processed {
        emitted := true;
      }
      handled := handled + [d.publication];
      AdvancePosition(d.publication);
      return true;
    }

    method EmitAll(publications: array<Delivery>) returns (ok: bool)
      modifies this
      ensures View() == Drain(old(View()), publications[..])
      ensures ok <==> Drained(publications[..]) == publications.Length
    {
      ghost var start, ds := View(), publications[..];
      assert ds[0..] == ds;
      hide Drain, Drained, Handles;
      for i := 0 to publications.Length
        invariant publications[..] == ds
        invariant Drain(start, ds) == Drain(View(), ds[i..]) && Drained(ds) == i + Drained(ds[i..])
      {
        DrainFrom(View(), ds, i);
        assert publications[i] == ds[i];
        var emittedOne := EmitPublication(publications[i]);
        if !emittedOne {
          return false;
        }
      }
      DrainFrom(View(), ds, publications.Length);
      return true;
    }

    method HandleReply(reply: Reply) returns (ok: bool)
      modifies this
      ensures (View(), ok) == Subscribe(old(View()), reply)
    {
      if reply.Undecodable? || (reply.recoverable && reply.epoch == "") {
        return false;
      }
      var attemptedRecovery := position.valid;
      var previousPosition := position;
      subscribed := true;
      if !reply.refreshable {
        return false;
      }
      var n := |reply.publications|;
      var publications := new Delivery[n](i requires 0 <= i < n => reply.publications[i]);
      assert publications[..] == reply.publications;
      if n > 1 {
        ReversePublications(publications);
      }
      ghost var ds := Reversed(reply.publications);
      assert publications[..] == ds;
      var baseline := Position(reply.epoch, reply.sequence, reply.generation, reply.recoverable);
      position := if attemptedRecovery && reply.recovered then previousPosition
                  else Position(baseline.epoch, 0, 0, baseline.valid);
      var drained := EmitAll(publications);
      if !drained {
        return false;
      }
      position := baseline;
      return true;
    }

    method HandleMessage(push: Push) returns (ok: bool)
      modifies this
      ensures (View(), ok) == HandlePush(old(View()), push)
    {
      match push {
        case Malformed => return false;
        case Ends => return false;
        case Ignored => return true;
        case Garbled => return true;
        case Delivered(d) =>
          if d.publication.data.None? {
            AdvancePosition(d.publication);
            return true;
          }
          ok := EmitPublication(d);
      }
    }
  }

  /** At every exit from a reply the position is that of the last publication handled, or of the start if
      there was none, or of the baseline once all of them are handled. */
  lemma ReplyPosition(r: Result, reply: Reply)
    ensures var (q, ok) := Subscribe(r, reply);
            && r.handled <= q.handled
            && (ok ==> Accepted(reply) && q.position == Baseline(reply)
                       && q.handled == r.handled + Publications(Reversed(reply.publications)))
            && (!ok && |q.handled| > |r.handled| ==>
                  q.position == Advance(Start(r.position, reply), q.handled[|q.handled| - 1]))
            && (!ok && q.handled == r.handled ==>
                  q.position == r.position || (Accepted(reply) && q.position == Start(r.position, reply)))
  {
    if Accepted(reply) && reply.refreshable {
      var ds := Reversed(reply.publications);
      DrainMeans(r.(subscribed := true, position := Start(r.position, reply)), ds);
      assert ds[..|ds|] == ds;
    }
  }

  /** The delivery carries data, and processing it does not fail. */
  predicate Good(d: Delivery) {
    d.publication.data.Some? && (d.outcome.Processed? || d.outcome.Rejected?)
  }

  /** Among deliveries given oldest first, one is processed, and it and all before it are good. */
  ghost predicate SomeProcessed(ds: seq<Delivery>) {
    exists i :: 0 <= i < |ds| && ds[i].outcome.Processed? && forall j | 0 <= j <= i :: Good(ds[j])
  }

  lemma {:induction false} DrainFlags(r: Result, ds: seq<Delivery>)
    ensures Drained(ds) == |ds| <==> forall i | 0 <= i < |ds| :: Good(ds[i])
    ensures Drain(r, ds).subscribed == r.subscribed
    ensures Drain(r, ds).emitted <==> r.emitted || SomeProcessed(ds)
    decreases |ds|
  {
    if ds != [] {
      var rest := ds[1..];
      assert forall i | 1 <= i < |ds| :: ds[i] == rest[i - 1];
      assert Good(ds[0]) == Handles(ds[0]);
      if Handles(ds[0]) {
        DrainFlags(Take(r, ds[0]), rest);
        if SomeProcessed(rest) {
          var i :| 0 <= i < |rest| && rest[i].outcome.Processed? && forall j | 0 <= j <= i :: Good(rest[j]);
          var k := i + 1;
          assert ds[k] == rest[i];
          assert forall j | 0 <= j <= k :: Good(ds[j]);
        }
        if SomeProcessed(ds) && !ds[0].outcome.Processed? {
          var i :| 0 <= i < |ds| && ds[i].outcome.Processed? && forall j | 0 <= j <= i :: Good(ds[j]);
          var k := i - 1;
          assert rest[k] == ds[i];
          assert forall j | 0 <= j <= k :: Good(rest[j]);
        }
      }
    }
  }

  /** A reply is accepted and drained exactly when it makes sense and every publication in it is good; it counts as a
      subscription as soon as it makes sense, and as progress once one of its publications is processed. */
  lemma ReplyAnswers(r: Result, reply: Reply)
    ensures var (q, ok) := Subscribe(r, reply);
            var sensible := reply.Subscribed? && (reply.recoverable ==> reply.epoch != "");
            && (ok <==> sensible && reply.refreshable
                        && forall i | 0 <= i < |reply.publications| :: Good(reply.publications[i]))
            && (q.subscribed <==> r.subscribed || sensible)
            && (q.emitted <==>
                  r.emitted || (sensible && reply.refreshable && SomeProcessed(Reversed(reply.publications))))
            && (!sensible || !reply.refreshable ==> q.position == r.position && q.handled == r.handled)
  {
    if Accepted(reply) && reply.refreshable {
      var ds := Reversed(reply.publications);
      assert forall i | 0 <= i < |ds| :: ds[i] == reply.publications[|ds| - 1 - i];
      assert forall i | 0 <= i < |ds| :: reply.publications[i] == ds[|ds| - 1 - i];
      DrainFlags(r.(subscribed := true, position := Start(r.position, reply)), ds);
      hide Drain, Drained, Reversed, SomeProcessed, Good;
    }
  }

  /** A push ends the session exactly when it cannot be read, says so, or brings a donation whose processing fails.
      The position moves with a donation that is handled and with a publication without data; nothing else moves it. */
  lemma PushAnswers(r: Result, push: Push)
    ensures var (q, ok) := HandlePush(r, push);
            && (ok <==> match push
                        case Malformed => false
                        case Ends => false
                        case Ignored => true
                        case Garbled => true
                        case Delivered(d) => d.publication.data.None? || Good(d))
            && (if push.Delivered? && Good(push.delivery) then
                  && q.handled == r.handled + [push.delivery.publication]
                  && (q.emitted <==> r.emitted || push.delivery.outcome.Processed?)
                else q.handled == r.handled && q.emitted == r.emitted)
            && q.position == (if push.Delivered? && ok && r.position.valid
                              then Position(r.position.epoch, push.delivery.publication.sequence,
                                            push.delivery.publication.generation, true)
                              else r.position)
            && q.subscribed == r.subscribed
  {}

  // ---------------------------------------------------------------------------------------------
  // Sessions against a server that keeps a log
  // ---------------------------------------------------------------------------------------------

  /** What was published: not decodable, without data, or a donation event. */
  datatype Body = Broken | Empty | Donation(text: string)

  /** One epoch of the server's log, one client. `pushed` is how far the current subscription is served.
      `base` and `before` are history: where the log was entered without recovery, and how many
      publications had been handled by then. */
  datatype World = World(epoch: string, log: seq<Body>, result: Result, connected: bool, pushed: nat, base: nat,
                         before: nat)

  /** `Restart` is the server's; `NewListener` starts the client over from no position, as after a refused
      access token or a restart of the process. */
  datatype Event =
    | Publish(body: Body)
    | Restart(epoch: string)
    | NewListener
    | Resubscribe(outcomes: seq<Outcome>)
    | PushNext(outcome: Outcome)
    | PushNoise
    | Disconnect

  const WRAP: nat := 0x1_0000_0000

  /** Sequence and generation are the low and the high word of a publication's number. */
  function Low(k: nat): nat { k % WRAP }

  function High(k: nat): nat { k / WRAP }

  function Number(sequence: nat, generation: nat): nat { generation * WRAP + sequence }

  function Offset(p: Position): nat {
    Number(p.sequence, p.generation)
  }

  function PublicationAt(body: Body, k: nat): Publication {
    Publication(Low(k), High(k), if body.Donation? then Some(body.text) else None)
  }

  lemma Words(k: nat)
    ensures Number(Low(k), High(k)) == k
  {}

  /** The deliveries of everything after number n, oldest first. */
  function Deliveries(log: seq<Body>, n: nat, outcomes: seq<Outcome>): (ds: seq<Delivery>)
    requires n + |outcomes| == |log|
    ensures |ds| == |outcomes|
  {
    seq(|outcomes|, i requires 0 <= i < |outcomes| => Delivery(PublicationAt(log[n + i], n + i + 1), outcomes[i]))
  }

  /** The position is one the server can recover from. */
  predicate Recoverable(w: World) {
    w.result.position.valid && w.result.position.epoch == w.epoch
  }

  predicate Enabled(w: World, e: Event) {
    match e
    case Publish(_) => true
    case Restart(epoch) => epoch != "" && epoch != w.epoch && epoch != w.result.position.epoch
    case NewListener => true
    case Resubscribe(outcomes) =>
      && !w.connected
      && (if Recoverable(w) then Offset(w.result.position) + |outcomes| == |w.log| else outcomes == [])
    case PushNext(_) => w.connected && w.pushed < |w.log|
    case PushNoise => w.connected
    case Disconnect => true
  }

  /** The server replays everything after the position it is given, or nothing. */
  function ServerReply(w: World, outcomes: seq<Outcome>): Reply
    requires Enabled(w, Resubscribe(outcomes))
  {
    var n := |w.log|;
    if Recoverable(w) then
      if exists i :: Offset(w.result.position) <= i < n && w.log[i].Broken? then Undecodable
      else Subscribed(true, true, w.epoch, Low(n), High(n),
                      Reversed(Deliveries(w.log, Offset(w.result.position), outcomes)), true)
    else Subscribed(true, false, w.epoch, Low(n), High(n), [], true)
  }

  function ServerPush(w: World, outcome: Outcome): Push
    requires Enabled(w, PushNext(outcome))
  {
    if w.log[w.pushed].Broken? then Garbled
    else Delivered(Delivery(PublicationAt(w.log[w.pushed], w.pushed + 1), outcome))
  }

  function Next(w: World, e: Event): World
    requires Enabled(w, e)
  {
    match e
    case Publish(body) => w.(log := w.log + [body])
    case Restart(epoch) => w.(epoch := epoch, log := [], connected := false)
    case NewListener => w.(result := Result(NOWHERE, false, false, w.result.handled), connected := false)
    case Resubscribe(outcomes) =>
      var (r, ok) := Subscribe(w.result.(subscribed := false, emitted := false), ServerReply(w, outcomes));
      var w1 := w.(result := r, connected := ok, pushed := |w.log|);
      if Recoverable(w) then w1 else w1.(base := |w.log|, before := |r.handled|)
    case PushNext(outcome) =>
      var (r, ok) := HandlePush(w.result, ServerPush(w, outcome));
      if ok then w.(result := r, pushed := w.pushed + 1) else w.(result := r, connected := false)
    case PushNoise => w
    case Disconnect => w.(connected := false)
  }

  /** The donation events among the publications numbered lo + 1 to hi. */
  function Donations(log: seq<Body>, lo: nat, hi: nat): seq<Publication>
    requires lo <= hi <= |log|
    decreases hi
  {
    if lo == hi then []
    else Donations(log, lo, hi - 1) + (if log[hi - 1].Donation? then [PublicationAt(log[hi - 1], hi)] else [])
  }

  lemma {:induction false} DonationsOfLonger(log: seq<Body>, body: Body, lo: nat, hi: nat)
    requires lo <= hi <= |log|
    ensures Donations(log + [body], lo, hi) == Donations(log, lo, hi)
    decreases hi
  {
    if lo < hi {
      DonationsOfLonger(log, body, lo, hi - 1);
    }
  }

  lemma {:induction false} DonationsJoin(log: seq<Body>, lo: nat, mid: nat, hi: nat)
    requires lo <= mid <= hi <= |log|
    ensures Donations(log, lo, mid) + Donations(log, mid, hi) == Donations(log, lo, hi)
    decreases hi
  {
    if mid < hi {
      DonationsJoin(log, lo, mid, hi - 1);
    }
  }

  /** Entry k after the position is a donation event that processing accepts or rejects. */
  predicate Passes(log: seq<Body>, n: nat, outcomes: seq<Outcome>, k: nat)
    requires n + |outcomes| == |log| && k < |outcomes|
  {
    log[n + k].Donation? && !outcomes[k].Fails?
  }

  lemma PassesIsHandled(log: seq<Body>, n: nat, outcomes: seq<Outcome>, k: nat)
    requires n + |outcomes| == |log| && k < |outcomes|
    ensures Deliveries(log, n, outcomes)[k].publication == PublicationAt(log[n + k], n + k + 1)
    ensures Handles(Deliveries(log, n, outcomes)[k]) <==> Passes(log, n, outcomes, k)
  {
    hide Low, High;
    assert Deliveries(log, n, outcomes)[k] == Delivery(PublicationAt(log[n + k], n + k + 1), outcomes[k]);
  }

  lemma {:induction false} DeliveredAreDonations(log: seq<Body>, n: nat, outcomes: seq<Outcome>, k: nat)
    requires n + |outcomes| == |log| && k <= |outcomes|
    requires forall i | 0 <= i < k :: Handles(Deliveries(log, n, outcomes)[i])
    ensures Publications(Deliveries(log, n, outcomes)[..k]) == Donations(log, n, n + k)
  {
    var ds := Deliveries(log, n, outcomes);
    if k == 0 {
      assert Publications(ds[..0]) == [];
    } else {
      var m := k - 1;
      DeliveredAreDonations(log, n, outcomes, m);
      assert Handles(ds[m]);
      PassesIsHandled(log, n, outcomes, m);
      assert Publications(ds[..k]) == Publications(ds[..m]) + [ds[m].publication];
      assert n + k - 1 == n + m;
      hide Low, High, Deliveries, Publications, Handles;
    }
  }

  /** Everything published since the base and up to the position is handled, in order, and nothing else is;
      a live subscription has skipped nothing but what is no donation event. */
  ghost predicate Inv(w: World) {
    && w.epoch != ""
    && (w.connected ==> Recoverable(w) && w.pushed <= |w.log| && Offset(w.result.position) <= w.pushed
                        && Donations(w.log, Offset(w.result.position), w.pushed) == [])
    && (Recoverable(w) ==> UpTo(w, Offset(w.result.position)))
  }

  ghost predicate UpTo(w: World, n: nat) {
    && w.base <= n <= |w.log| && w.before <= |w.result.handled|
    && w.result.handled[w.before..] == Donations(w.log, w.base, n)
  }

  lemma HandledGrows(handled: seq<Publication>, more: seq<Publication>, before: nat)
    requires before <= |handled|
    ensures (handled + more)[before..] == handled[before..] + more
  {}

  /** How far a replay gets: through everything up to the first publication that is not handled. */
  lemma ReplayMeans(w: World, outcomes: seq<Outcome>)
    requires Inv(w) && Enabled(w, Resubscribe(outcomes)) && Recoverable(w) && ServerReply(w, outcomes).Subscribed?
    ensures var n := Offset(w.result.position);
            var ds := Deliveries(w.log, n, outcomes);
            var k, t := Drained(ds), Next(w, Resubscribe(outcomes));
            && k <= |outcomes| && (t.connected <==> k == |outcomes|)
            && t == w.(result := t.result, connected := t.connected, pushed := |w.log|)
            && t.result.handled == w.result.handled + Donations(w.log, n, n + k)
            && Recoverable(t) && Offset(t.result.position) == n + k
  {
    hide Drain, Drained, Donations, Low, High, Number, Handles, Deliveries;
    var n := Offset(w.result.position);
    var ds := Deliveries(w.log, n, outcomes);
    var k := Drained(ds);
    var start := w.result.(subscribed := true, emitted := false);
    var q := Drain(start, ds);
    ReplyDrains(w, outcomes);
    hide Subscribe, ServerReply, Reversed;
    DrainMeans(start, ds);
    if k > 0 {
      PassesIsHandled(w.log, n, outcomes, k - 1);
      assert n + (k - 1) + 1 == n + k;
    }
    DeliveredAreDonations(w.log, n, outcomes, k);
    Words(n + k);
    hide Publications;
  }

  lemma ReplyDrains(w: World, outcomes: seq<Outcome>)
    requires Inv(w) && Enabled(w, Resubscribe(outcomes)) && Recoverable(w) && ServerReply(w, outcomes).Subscribed?
    ensures var ds := Deliveries(w.log, Offset(w.result.position), outcomes);
            var q := Drain(w.result.(subscribed := true, emitted := false), ds);
            var top := Position(w.epoch, Low(|w.log|), High(|w.log|), true);
            Subscribe(w.result.(subscribed := false, emitted := false), ServerReply(w, outcomes)) ==
            if Drained(ds) == |outcomes| then (q.(position := top), true) else (q, false)
  {
    hide Drain, Drained, Donations, Low, High, Number, Handles;
    var ds := Deliveries(w.log, Offset(w.result.position), outcomes);
    assert Reversed(Reversed(ds)) == ds && |ds| == |outcomes|;
    hide Deliveries, Reversed;
  }

  lemma ReplayInv(w: World, outcomes: seq<Outcome>)
    requires Inv(w) && Enabled(w, Resubscribe(outcomes)) && Recoverable(w) && ServerReply(w, outcomes).Subscribed?
    ensures Inv(Next(w, Resubscribe(outcomes)))
  {
    var n := Offset(w.result.position);
    var k := Drained(Deliveries(w.log, n, outcomes));
    ReplayMeans(w, outcomes);
    assert Donations(w.log, |w.log|, |w.log|) == [];
    hide Next, Drained, Donations, Number, Deliveries;
    DonationsJoin(w.log, w.base, n, n + k);
    HandledGrows(w.result.handled, Donations(w.log, n, n + k), w.before);
  }

  lemma PushMeans(w: World, outcome: Outcome)
    requires Inv(w) && Enabled(w, PushNext(outcome))
    ensures var t, p := Next(w, PushNext(outcome)), w.pushed;
            && t == w.(result := t.result, connected := t.connected, pushed := t.pushed) && Recoverable(t)
            && (t.connected ==>
                  && t.pushed == p + 1 && t.result.handled == w.result.handled + Donations(w.log, p, p + 1)
                  && Offset(t.result.position) == if w.log[p].Broken? then Offset(w.result.position) else p + 1)
            && (!t.connected ==> t.result == w.result)
            && (w.log[p].Broken? ==> Donations(w.log, p, p + 1) == [])
  {
    var p, m := w.pushed, w.pushed + 1;
    Words(m);
    assert Donations(w.log, p, m) == if w.log[p].Donation? then [PublicationAt(w.log[p], m)] else [];
    hide Donations, Low, High, Number;
  }

  /** While connected, only a donation whose processing fails disconnects the client by a push. */
  lemma PushConnectedIff(w: World, outcome: Outcome)
    requires Inv(w) && Enabled(w, PushNext(outcome))
    ensures Next(w, PushNext(outcome)).connected <==> !(w.log[w.pushed].Donation? && outcome.Fails?)
    ensures Next(w, PushNext(outcome)).connected && !w.log[w.pushed].Broken? ==>
              Offset(Next(w, PushNext(outcome)).result.position) == w.pushed + 1
  {
    PushMeans(w, outcome);
    hide Low, High, Number, Donations;
  }

  lemma PushInv(w: World, outcome: Outcome)
    requires Inv(w) && Enabled(w, PushNext(outcome))
    ensures Inv(Next(w, PushNext(outcome)))
  {
    var n, p, m := Offset(w.result.position), w.pushed, w.pushed + 1;
    PushMeans(w, outcome);
    assert Donations(w.log, m, m) == [];
    hide Next, Donations, Number;
    DonationsJoin(w.log, n, p, m);
    DonationsJoin(w.log, w.base, n, p);
    DonationsJoin(w.log, w.base, p, m);
    HandledGrows(w.result.handled, Donations(w.log, p, m), w.before);
  }

  /** Every step keeps it. */
  lemma StepInv(w: World, e: Event)
    requires Inv(w) && Enabled(w, e)
    ensures Inv(Next(w, e))
  {
    match e
    case Publish(body) =>
      if Recoverable(w) {
        DonationsOfLonger(w.log, body, w.base, Offset(w.result.position));
        if w.connected {
          DonationsOfLonger(w.log, body, Offset(w.result.position), w.pushed);
        }
      }
    case Resubscribe(outcomes) =>
      if Recoverable(w) {
        if ServerReply(w, outcomes).Subscribed? {
          ReplayInv(w, outcomes);
        }
      } else {
        Words(|w.log|);
      }
    case PushNext(outcome) => PushInv(w, outcome);
    case Restart(_) =>
    case NewListener =>
    case PushNoise =>
    case Disconnect =>
  }

  ghost predicate Run(ws: seq<World>, es: seq<Event>) {
    && |ws| == |es| + 1
    && ws[0].epoch != "" && ws[0] == World(ws[0].epoch, ws[0].log, Result(NOWHERE, false, false, []), false, 0, 0, 0)
    && forall i | 0 <= i < |es| :: Enabled(ws[i], es[i]) && ws[i + 1] == Next(ws[i], es[i])
  }

  lemma {:induction false} RunInv(ws: seq<World>, es: seq<Event>, i: nat)
    requires Run(ws, es) && i < |ws|
    ensures Inv(ws[i])
  {
    if i > 0 {
      RunInv(ws, es, i - 1);
      StepInv(ws[i - 1], es[i - 1]);
    }
  }

  /**
   At every moment of every run, after any failures, disconnects, reconnects and restarts: what was handled since
   the log was last entered without recovery is exactly the donation events up to the returned position,
   each once and in order. So the position is never ahead of handled work, and nothing is skipped.
   */
  lemma HandledUpToPosition(ws: seq<World>, es: seq<Event>, i: nat)
    requires Run(ws, es) && i < |ws| && Recoverable(ws[i])
    ensures var w := ws[i];
            && w.base <= Offset(w.result.position) <= |w.log| && w.before <= |w.result.handled|
            && w.result.handled[w.before..] == Donations(w.log, w.base, Offset(w.result.position))
  {
    RunInv(ws, es, i);
  }

  /** A live subscription that has been served everything has handled everything. */
  lemma NothingIsMissing(ws: seq<World>, es: seq<Event>, i: nat)
    requires Run(ws, es) && i < |ws| && ws[i].connected && ws[i].pushed == |ws[i].log|
    ensures var w := ws[i];
            && w.base <= |w.log| && w.before <= |w.result.handled|
            && w.result.handled[w.before..] == Donations(w.log, w.base, |w.log|)
  {
    RunInv(ws, es, i);
    var w := ws[i];
    DonationsJoin(w.log, w.base, Offset(w.result.position), |w.log|);
  }

  /** A recovery goes through exactly when everything after the position is a donation event that
      processing accepts or rejects. A publication without data, or one that cannot be decoded, is skipped
      when it is pushed but blocks every recovery from before it. */
  lemma RecoverySucceedsIff(ws: seq<World>, es: seq<Event>, i: nat, outcomes: seq<Outcome>)
    requires Run(ws, es) && i < |ws| && Recoverable(ws[i]) && Enabled(ws[i], Resubscribe(outcomes))
    ensures var w := ws[i];
            Next(w, Resubscribe(outcomes)).connected <==>
            forall k | 0 <= k < |outcomes| :: Passes(w.log, Offset(w.result.position), outcomes, k)
  {
    RunInv(ws, es, i);
    RecoveryPassesIff(ws[i], outcomes);
  }

  lemma RecoveryPassesIff(w: World, outcomes: seq<Outcome>)
    requires Inv(w) && Recoverable(w) && Enabled(w, Resubscribe(outcomes))
    ensures Next(w, Resubscribe(outcomes)).connected <==>
            forall k | 0 <= k < |outcomes| :: Passes(w.log, Offset(w.result.position), outcomes, k)
  {
    var n := Offset(w.result.position);
    var ds := Deliveries(w.log, n, outcomes);
    hide Low, High, Number, Publications, Reversed, Deliveries, Handles;
    DrainMeans(w.result, ds);
    forall k | 0 <= k < |outcomes| ensures Handles(ds[k]) <==> Passes(w.log, n, outcomes, k) {
      PassesIsHandled(w.log, n, outcomes, k);
    }
    if ServerReply(w, outcomes).Subscribed? {
      ReplayMeans(w, outcomes);
    } else {
      var b :| n <= b < |w.log| && w.log[b].Broken?;
      var k := b - n;
      assert !Passes(w.log, n, outcomes, k);
    }
  }

  /** The client is to recover, and what comes first after its position is no donation event. */
  ghost predicate Blocked(w: World) {
    && !w.connected && Recoverable(w)
    && var n := Offset(w.result.position); n < |w.log| && !w.log[n].Donation?
  }

  lemma NothingDrained(log: seq<Body>, n: nat, outcomes: seq<Outcome>)
    requires n + |outcomes| == |log| && n < |log| && !log[n].Donation?
    ensures Drained(Deliveries(log, n, outcomes)) == 0
    ensures forall r :: Drain(r, Deliveries(log, n, outcomes)) == r
  {
    PassesIsHandled(log, n, outcomes, 0);
  }

  /** Nothing but a new epoch or a new listener gets the client out of there: every other event leaves its
      position and what it has handled as they are, and it stays disconnected. */
  lemma BlockedStep(w: World, e: Event)
    requires Inv(w) && Blocked(w) && Enabled(w, e)
    ensures Blocked(Next(w, e)) <==> !e.Restart? && !e.NewListener?
    ensures Next(w, e).result.handled == w.result.handled
    ensures Next(w, e).result.position == if e.NewListener? then NOWHERE else w.result.position
    ensures e.Resubscribe? ==> Next(w, e).log == w.log
  {
    if e.Resubscribe? && ServerReply(w, e.outcomes).Subscribed? {
      var n := Offset(w.result.position);
      ReplyDrains(w, e.outcomes);
      NothingDrained(w.log, n, e.outcomes);
      hide Subscribe, ServerReply, Deliveries, Drain, Drained, Low, High, Number, Donations;
    }
  }

  /** So a publication that cannot be replayed stops the listener at the same position for as long as both
      the server's epoch and the listener last. */
  lemma {:induction false} BlockedForGood(ws: seq<World>, es: seq<Event>, i: nat, j: nat)
    requires Run(ws, es) && i <= j < |ws| && Blocked(ws[i])
    requires forall m | i <= m < j :: !es[m].Restart? && !es[m].NewListener?
    ensures Blocked(ws[j])
    ensures ws[j].result.position == ws[i].result.position && ws[j].result.handled == ws[i].result.handled
    decreases j
  {
    if i < j {
      BlockedForGood(ws, es, i, j - 1);
      RunInv(ws, es, j - 1);
      hide Inv, Blocked, Next, Enabled;
      BlockedStep(ws[j - 1], es[j - 1]);
    }
  }

  /** A new listener connects at its first subscription, at the end of the log: it has handled nothing more,
      and it never asks for what was published before. */
  lemma NewListenerConnects(w: World)
    requires Inv(w)
    ensures Enabled(w, NewListener) && Enabled(Next(w, NewListener), Resubscribe([]))
    ensures var t := Next(Next(w, NewListener), Resubscribe([]));
            && t.connected && t.pushed == |t.log| && Offset(t.result.position) == t.base == |w.log|
            && t.log == w.log && t.result.handled == w.result.handled
  {
    Words(|w.log|);
    assert Reversed<Delivery>([]) == [];
    hide Low, High;
  }

  const ENTERED := Result(Position("e", 0, 0, true), true, false, [])

  /** A run into that state: the only publication after the first subscription carries no data. */
  lemma EmptyPublicationBlocks() returns (ws: seq<World>, es: seq<Event>)
    ensures Run(ws, es) && es == [Resubscribe([]), Disconnect, Publish(Empty), Resubscribe([Processed])]
    ensures ws[1].connected && Blocked(ws[3]) && Blocked(ws[4])
    ensures ws[4].result.position == ws[1].result.position && ws[4].log == [Empty]
  {
    var w0 := World("e", [], Result(NOWHERE, false, false, []), false, 0, 0, 0);
    var w1 := World("e", [], ENTERED, true, 0, 0, 0);
    var w2 := w1.(connected := false);
    var w3 := w2.(log := [Empty]);
    es := [Resubscribe([]), Disconnect, Publish(Empty), Resubscribe([Processed])];
    assert Enabled(w0, es[0]) && Next(w0, es[0]) == w1 by {
      assert Reversed<Delivery>([]) == [] && Low(0) == 0 && High(0) == 0;
    }
    assert Enabled(w1, es[1]) && Next(w1, es[1]) == w2;
    assert Enabled(w2, es[2]) && Next(w2, es[2]) == w3 by {
      assert [] + [Empty] == [Empty];
    }
    assert Enabled(w3, es[3]) && Blocked(w3) && Inv(w3);
    BlockedStep(w3, es[3]);
    hide Next, Enabled, Blocked, Inv;
    ws := [w0, w1, w2, w3, Next(w3, es[3])];
  }
}
