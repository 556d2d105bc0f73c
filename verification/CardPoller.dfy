/** The card poller of the exit booth, its POST to the member-exit endpoint and the relay it
    fires, interleaved with every other payment operation. The server commits before it
    answers; requests can be slow, answers can be lost, and the client can give up first. */
module CardPoller {
  import opened Text
  import opened Payments

  const MAX_ATTEMPTS := 3
  const COOLDOWN := 3_000_000

  // ---------------------------------------------------------------- the retry loop

  /** How one attempt of a POST ends. */
  datatype Attempt = Replied(success: bool) | ConnectionRefused | NameNotFound | TimedOut | ConnectionReset | HttpError
  {
    /** The request provably never left this host. */
    predicate NeverSent() { ConnectionRefused? || NameNotFound? }
  }

  /** The client's loop: only attempts that never left the host are repeated, so at most the
      last one can have reached the server. */
  method PostSync(attempts: seq<Attempt>) returns (result: Option<bool>, made: nat)
    requires |attempts| == 3
    ensures 1 <= made <= 3
    ensures forall i :: 0 <= i < made - 1 ==> attempts[i].ConnectionRefused? || attempts[i].NameNotFound?
    ensures attempts[made - 1].ConnectionRefused? || attempts[made - 1].NameNotFound? ==> made == 3
    ensures result == if attempts[made - 1].Replied? then Some(attempts[made - 1].success) else None
  {
    made := 0;
    result := None;
    while made < MAX_ATTEMPTS
      invariant made <= MAX_ATTEMPTS && result == None
      invariant forall i :: 0 <= i < made ==> attempts[i].NeverSent()
    {
      var attempt := attempts[made];
      made := made + 1;
      if attempt.Replied? { return Some(attempt.success), made; }
      if !attempt.NeverSent() { return None, made; }
    }
  }

  // ---------------------------------------------------------------- the world

  datatype Post =
    | NoPost
    | Trying(tap: nat, card: string, failures: nat)
    | Awaiting(tap: nat)
    | Answered(reply: Reply)

  datatype Request = Request(tap: nat, card: string)

  datatype Tapped = Tapped(card: string, at: int)
  datatype Opened = Opened(tx: nat, card: string)

  datatype World = World(
    store: Store,
    post: Post,
    requests: seq<Request>,       // sent, not handled by the server yet
    taps: seq<Tapped>,            // history: reads that led to a POST
    since: nat,                   // how many of them before the poller's last start
    handled: seq<nat>,            // history: taps whose request the server handled
    opens: seq<Opened>)           // history: relay openings

  const QUIET := World(EMPTY, NoPost, [], [], 0, [], [])

  datatype Step =
    | Elsewhere(op: Op)                                 // any other payment operation
    | Tap(card: string, now: int)
    | Unreachable                                       // refused, or no such host
    | Send
    | Handle(at: nat, row: Option<nat>, member: Option<nat>, exit: int, gateOut: int, outcome: Outcome)
    | GiveUp                                            // timeout, reset, lost answer
    | Restart                                           // the poller forgets post and last card
    | Finish

  predicate Repeated(taps: seq<Tapped>, card: string, now: int) {
    taps != [] && taps[|taps| - 1].card == card && now - taps[|taps| - 1].at < COOLDOWN
  }

  /** The taps since the poller's last start. */
  function ThisLife(w: World): seq<Tapped> {
    if w.since <= |w.taps| then w.taps[w.since..] else []
  }

  /** The server handles one request: a member exit. */
  ghost function HandleOn(w: World, at: nat, row: Option<nat>, member: Option<nat>, exit: int,
                          gateOut: int, outcome: Outcome): World
    requires at < |w.requests|
  {
    var request := w.requests[at];
    var (store, reply) := Apply(w.store, PayRfid(request.card, row, member, exit, gateOut, outcome));
    if reply.NotEnabled? then w
    else
      w.(store := store, requests := w.requests[..at] + w.requests[at + 1..],
         handled := w.handled + [request.tap],
         post := if w.post == Awaiting(request.tap) then Answered(reply) else w.post)
  }

  ghost function Next(w: World, step: Step): World {
    match step
    case Elsewhere(op) => w.(store := Apply(w.store, op).0)
    case Tap(card, now) =>
      if !w.post.NoPost? || Repeated(ThisLife(w), card, now) then w
      else w.(post := Trying(|w.taps|, card, 0), taps := w.taps + [Tapped(card, now)])
    case Unreachable =>
      if !w.post.Trying? then w
      else if w.post.failures + 1 < MAX_ATTEMPTS then
        w.(post := w.post.(failures := w.post.failures + 1))
      else w.(post := NoPost)
    case Send =>
      if !w.post.Trying? then w
      else w.(post := Awaiting(w.post.tap), requests := w.requests + [Request(w.post.tap, w.post.card)])
    case Handle(at, row, member, exit, gateOut, outcome) =>
      if at >= |w.requests| then w else HandleOn(w, at, row, member, exit, gateOut, outcome)
    case GiveUp => if w.post.Awaiting? || w.post.Answered? then w.(post := NoPost) else w
    case Restart => w.(post := NoPost, since := |w.taps|)
    case Finish =>
      if !w.post.Answered? then w
      else if w.post.reply.PaidRfid? && w.post.reply.tx < |w.store.txs| then
        var tx := w.post.reply.tx;
        var card := w.store.txs[tx].card;
        w.(post := NoPost, opens := w.opens + [Opened(tx, if card.Some? then card.value else "")])
      else w.(post := NoPost)
  }

  ghost function Run(w: World, steps: seq<Step>): World {
    if steps == [] then w else Next(Run(w, steps[..|steps| - 1]), steps[|steps| - 1])
  }

  /** A run takes its steps one after the other, the last one last. */
  lemma OneMoreStep(w: World, steps: seq<Step>, step: Step)
    ensures Run(w, []) == w && Run(w, steps + [step]) == Next(Run(w, steps), step)
  {
    assert (steps + [step])[..|steps|] == steps;
  }

  // ---------------------------------------------------------------- requests

  function Sent(requests: seq<Request>, tap: nat): nat {
    if requests == [] then 0
    else Sent(requests[..|requests| - 1], tap) + if requests[|requests| - 1].tap == tap then 1 else 0
  }

  function Count(handled: seq<nat>, tap: nat): nat {
    if handled == [] then 0
    else Count(handled[..|handled| - 1], tap) + if handled[|handled| - 1] == tap then 1 else 0
  }

  lemma SentAppend(requests: seq<Request>, last: Request, tap: nat)
    ensures Sent(requests + [last], tap) == Sent(requests, tap) + if last.tap == tap then 1 else 0
  {
    assert (requests + [last])[..|requests|] == requests;
  }

  /** A tap is about to be sent, sent, or handled, and at most one of these, once. */
  ghost predicate AtMostOnce(w: World) {
    forall tap: nat :: Traces(w, tap) <= if tap < |w.taps| then 1 else 0
  }

  ghost predicate Spaced(taps: seq<Tapped>) {
    forall k :: 0 <= k < |taps| - 1 && taps[k].card == taps[k + 1].card ==>
      taps[k + 1].at - taps[k].at >= 3_000_000
  }

  lemma {:induction false} SentWithout(requests: seq<Request>, at: nat, tap: nat)
    requires at < |requests|
    ensures Sent(requests, tap)
         == Sent(requests[..at] + requests[at + 1..], tap) + if requests[at].tap == tap then 1 else 0
    decreases |requests|
  {
    var n := |requests| - 1;
    var rest := requests[..at] + requests[at + 1..];
    if at == n {
      assert rest == requests[..n];
    } else {
      SentWithout(requests[..n], at, tap);
      assert rest[..n - 1] == requests[..n][..at] + requests[..n][at + 1..];
    }
  }

  lemma CountAppend(handled: seq<nat>, last: nat, tap: nat)
    ensures Count(handled + [last], tap) == Count(handled, tap) + if last == tap then 1 else 0
  {
    assert (handled + [last])[..|handled|] == handled;
  }

  /** Where a tap can be, counted. */
  function Traces(w: World, tap: nat): nat {
    Sent(w.requests, tap) + Count(w.handled, tap) + if w.post.Trying? && w.post.tap == tap then 1 else 0
  }

  lemma SendTraces(w: World, tap: nat)
    ensures Traces(Next(w, Send), tap) == Traces(w, tap)
  {
    if w.post.Trying? { SentAppend(w.requests, Request(w.post.tap, w.post.card), tap); }
  }

  lemma HandleTraces(w: World, at: nat, row: Option<nat>, member: Option<nat>, exit: int,
                     gateOut: int, outcome: Outcome, tap: nat)
    requires at < |w.requests|
    ensures Traces(HandleOn(w, at, row, member, exit, gateOut, outcome), tap) == Traces(w, tap)
  {
    SentWithout(w.requests, at, tap);
    CountAppend(w.handled, w.requests[at].tap, tap);
  }

  lemma StepTraces(w: World, step: Step, tap: nat)
    requires Traces(w, tap) <= if tap < |w.taps| then 1 else 0
    ensures Traces(Next(w, step), tap) <= if tap < |Next(w, step).taps| then 1 else 0
  {
    match step
    case Send => SendTraces(w, tap);
    case Handle(at, row, member, exit, gateOut, outcome) =>
      if at < |w.requests| { HandleTraces(w, at, row, member, exit, gateOut, outcome, tap); }
    case _ =>
  }

  ghost predicate CooldownKept(w: World) {
    w.since <= |w.taps| && Spaced(ThisLife(w))
  }

  lemma StepKeepsCooldown(w: World, step: Step)
    requires CooldownKept(w)
    ensures CooldownKept(Next(w, step))
  {
    var w' := Next(w, step);
    if w'.since == w.since && w'.taps != w.taps {
      assert w'.taps == w.taps + [w'.taps[|w.taps|]];
      assert ThisLife(w') == ThisLife(w) + [w'.taps[|w.taps|]];
    }
  }

  lemma StepKeepsOnce(w: World, step: Step)
    requires AtMostOnce(w)
    ensures AtMostOnce(Next(w, step))
  {
    forall tap: nat ensures Traces(Next(w, step), tap) <= if tap < |Next(w, step).taps| then 1 else 0 {
      StepTraces(w, step, tap);
    }
  }

  // ---------------------------------------------------------------- one tap

  /** A read card is posted if and only if no POST is under way and it is not the card posted last in
      this life less than three seconds ago. */
  lemma TapPosted(w: World, card: string, now: int)
    ensures var (w', taps) := (Next(w, Tap(card, now)), ThisLife(w));
      var wanted := w.post.NoPost?
        && (taps == [] || taps[|taps| - 1].card != card || taps[|taps| - 1].at + 3_000_000 <= now);
      w' == if wanted then w.(post := Trying(|w.taps|, card, 0), taps := w.taps + [Tapped(card, now)]) else w
  {
  }

  /** The POST is given up after the third attempt that did not leave the host. */
  lemma ThirdAttemptIsLast(w: World)
    requires w.post.Trying?
    ensures var (w', n) := (Next(w, Unreachable), w.post.failures);
      && w' == w.(post := w'.post)
      && (n >= 2 ==> w'.post.NoPost?)
      && (n < 2 ==> w'.post == Trying(w.post.tap, w.post.card, n + 1))
  {
  }

  /** The relay is fired if and only if the answer to the POST is a completed member exit. */
  lemma OpensIffPaid(w: World)
    ensures var w' := Next(w, Finish);
      && (w.post.Answered? ==> w'.post.NoPost?) && (!w.post.Answered? ==> w' == w)
      && (w'.opens != w.opens <==> w.post.Answered? && w.post.reply.PaidRfid? && w.post.reply.tx < |w.store.txs|)
      && (w'.opens != w.opens ==> |w'.opens| == |w.opens| + 1 && w'.opens[|w.opens|].tx == w.post.reply.tx)
  {
  }

  /** A tap that is sent, handled and answered without a fault fires the relay for its card, if the card
      is an active member's with an active row, and leaves it shut otherwise. */
  lemma UndisturbedTap(w: World, card: string, now: int, row: Option<nat>, member: Option<nat>, exit: int,
                       gateOut: int)
    requires w.post.NoPost? && w.requests == [] && !Repeated(ThisLife(w), card, now)
    requires Answers(w.store.txs, Key(None, Some(card), None), row)
    ensures var handle := Handle(0, row, member, exit, gateOut, Commit);
      var w' := Next(Next(Next(Next(w, Tap(card, now)), Send), handle), Finish);
      && w'.opens == w.opens + (if row.Some? && member.Some? then [Opened(row.value, card)] else [])
      && (row.Some? && member.Some? ==>
            var tx := w'.store.txs[row.value];
            tx.status.Completed? && tx.exit == Some(exit) && tx.gateOut == Some(gateOut) && tx.member == member)
  {
    assert w.requests + [Request(|w.taps|, card)] == [Request(|w.taps|, card)];
    var asked := Next(Next(w, Tap(card, now)), Send);
    assert asked.requests[0] == Request(|w.taps|, card);
    var answered := Next(asked, Handle(0, row, member, exit, gateOut, Commit));
    assert answered.post.Answered?;
  }

  /** A POST that is given up or forgotten in a restart never fires the relay, although its request may
      still reach the server; other payments go on beside the poller. */
  lemma Mishaps(w: World, op: Op)
    ensures w.post.Awaiting? || w.post.Answered? ==> Next(w, GiveUp) == w.(post := NoPost)
    ensures !w.post.Awaiting? && !w.post.Answered? ==> Next(w, GiveUp) == w
    ensures Next(w, Restart) == w.(post := NoPost, since := |w.taps|)
    ensures Next(w, Elsewhere(op)) == w.(store := Apply(w.store, op).0)
  {
  }

  // ---------------------------------------------------------------- openings

  ghost predicate Backed(store: Store, o: Opened) {
    && o.tx < |store.txs|
    && store.txs[o.tx].status.Completed? && store.txs[o.tx].payMethod.RfidMember?
    && store.txs[o.tx].card == Some(o.card)
  }

  /** Every opening has its own completed member transaction; the one just answered has not been
      used yet. */
  ghost predicate OpensSound(w: World) {
    && (forall k :: 0 <= k < |w.opens| ==> Backed(w.store, w.opens[k]))
    && (forall k, m :: 0 <= k < m < |w.opens| ==> w.opens[k].tx != w.opens[m].tx)
    && (w.post.Answered? && w.post.reply.PaidRfid? ==>
          var tx := w.post.reply.tx;
          && tx < |w.store.txs| && w.store.txs[tx].card.Some?
          && Backed(w.store, Opened(tx, w.store.txs[tx].card.value))
          && forall k :: 0 <= k < |w.opens| ==> w.opens[k].tx != tx)
  }

  lemma BackedLasts(store: Store, store': Store, o: Opened)
    requires Extends(store, store') && Backed(store, o)
    ensures Backed(store', o)
  {
  }

  lemma StoreStepKeepsOpens(w: World, op: Op)
    requires OpensSound(w)
    ensures OpensSound(w.(store := Apply(w.store, op).0))
  {
    OpExtends(w.store, op);
    var store' := Apply(w.store, op).0;
    forall k | 0 <= k < |w.opens| ensures Backed(store', w.opens[k]) {
      BackedLasts(w.store, store', w.opens[k]);
    }
  }

  /** A successful member exit completes a transaction of that card that was still active. */
  lemma PaidRfidIsNew(store: Store, card: string, row: Option<nat>, member: Option<nat>, exit: int,
                      gateOut: int, outcome: Outcome)
    requires Apply(store, PayRfid(card, row, member, exit, gateOut, outcome)).1.PaidRfid?
    ensures var (store', reply) := Apply(store, PayRfid(card, row, member, exit, gateOut, outcome));
      && reply.tx < |store.txs| && store.txs[reply.tx].status.Active?
      && Backed(store', Opened(reply.tx, card))
  {
  }

  lemma HandleKeepsOpens(w: World, at: nat, row: Option<nat>, member: Option<nat>, exit: int,
                         gateOut: int, outcome: Outcome)
    requires OpensSound(w) && at < |w.requests|
    ensures OpensSound(HandleOn(w, at, row, member, exit, gateOut, outcome))
  {
    var request := w.requests[at];
    var op := PayRfid(request.card, row, member, exit, gateOut, outcome);
    var (store', reply) := Apply(w.store, op);
    StoreStepKeepsOpens(w, op);
    if reply.PaidRfid? {
      PaidRfidIsNew(w.store, request.card, row, member, exit, gateOut, outcome);
      forall k | 0 <= k < |w.opens| ensures w.opens[k].tx != reply.tx {
        assert Backed(w.store, w.opens[k]);
      }
    }
  }

  lemma StepKeepsOpens(w: World, step: Step)
    requires OpensSound(w)
    ensures OpensSound(Next(w, step))
  {
    match step
    case Elsewhere(op) => StoreStepKeepsOpens(w, op);
    case Handle(at, row, member, exit, gateOut, outcome) =>
      if at < |w.requests| { HandleKeepsOpens(w, at, row, member, exit, gateOut, outcome); }
    case _ =>
  }

  lemma {:induction false} RunKeeps(steps: seq<Step>)
    ensures var w := Run(QUIET, steps);
      AtMostOnce(w) && CooldownKept(w) && OpensSound(w)
    decreases |steps|
  {
    if steps == [] {
    } else {
      var n := |steps| - 1;
      RunKeeps(steps[..n]);
      StepKeepsOnce(Run(QUIET, steps[..n]), steps[n]);
      StepKeepsCooldown(Run(QUIET, steps[..n]), steps[n]);
      StepKeepsOpens(Run(QUIET, steps[..n]), steps[n]);
    }
  }

  /** Every opening fired by the poller is backed by its own member transaction, completed for
      that card; no two openings share one. */
  lemma EveryOpeningIsPaid(steps: seq<Step>)
    ensures var w := Run(QUIET, steps);
      && (forall k :: 0 <= k < |w.opens| ==> Backed(w.store, w.opens[k]))
      && (forall k, m :: 0 <= k < m < |w.opens| ==> w.opens[k].tx != w.opens[m].tx)
  {
    RunKeeps(steps);
  }

  /** The server handles the POST of a tap at most once, with retries, slow requests, lost
      answers and restarts; and since the poller's last start, equal consecutive cards are posted at
      least a cooldown apart. */
  lemma EveryTapHandledOnce(steps: seq<Step>, tap: nat)
    ensures var w := Run(QUIET, steps);
      && Count(w.handled, tap) <= 1
      && (Count(w.handled, tap) == 1 ==> tap < |w.taps|)
      && Spaced(ThisLife(w))
  {
    RunKeeps(steps);
    assert Traces(Run(QUIET, steps), tap) <= 1;
  }
}
