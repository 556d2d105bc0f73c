/** The gate-in daemon's link to its controller: the circuit breaker around guarded sends, the
    teardown on a failed write and the reconnect of the listener. Times are microseconds. */
module Breaker {

  const THRESHOLD := 3
  const COOLDOWN := 15_000_000

  datatype Link = Link(connected: bool, failCount: nat, openUntil: int)

  /** What happens to the link. Whether a write, a connect or the RSS setup succeeds is up to
      the controller. */
  datatype Step =
    | Send(now: nat, writeOk: bool)
    | Reconnect(connectOk: bool, setupOk: bool)
    | PeerGone

  datatype Outcome =
    | Skipped           // a send dropped without touching the socket
    | Written
    | Failed            // a guarded write that raised
    | Refreshed         // reconnected and set up: the breaker is cleared
    | BareConnect       // reconnected, but the setup write raised: the breaker is not cleared
    | NoConnection
    | Closed

  function Apply(link: Link, step: Step): (Link, Outcome) {
    match step
    case Send(now, writeOk) =>
      if !link.connected || now < link.openUntil then (link, Skipped)
      else if writeOk then (link.(failCount := 0), Written)
      else
        var fails := link.failCount + 1;
        (Link(false, fails, if fails >= THRESHOLD then now + COOLDOWN else link.openUntil), Failed)
    case Reconnect(connectOk, setupOk) =>
      if link.connected then (link, Skipped)
      else if !connectOk then (link, NoConnection)
      else if setupOk then (Link(true, 0, 0), Refreshed)
      else (link.(connected := true), BareConnect)
    case PeerGone => (link.(connected := false), Closed)
  }

  // ---------------------------------------------------------------- history

  datatype Entry = Entry(step: Step, outcome: Outcome)
  {
    /** The controller was actually written to by a guarded send. */
    predicate Attempted() { outcome.Written? || outcome.Failed? }
  }

  function Exec(first: Link, steps: seq<Step>): Link {
    if steps == [] then first
    else
      var n := |steps| - 1;
      Apply(Exec(first, steps[..n]), steps[n]).0
  }

  function History(first: Link, steps: seq<Step>): (log: seq<Entry>)
    ensures |log| == |steps|
  {
    if steps == [] then []
    else
      var n := |steps| - 1;
      History(first, steps[..n]) + [Entry(steps[n], Apply(Exec(first, steps[..n]), steps[n]).1)]
  }

  /** Failed guarded writes since the last guarded success or clearing reconnect. */
  function FailsSince(log: seq<Entry>): nat {
    if log == [] then 0
    else
      var n := |log| - 1;
      match log[n].outcome
      case Written => 0
      case Refreshed => 0
      case Failed => FailsSince(log[..n]) + 1
      case _ => FailsSince(log[..n])
  }

  /** Until when the history keeps the breaker open: a clearing reconnect closes it, and a
      failure opens it when it is at least the third in a row. */
  function OpenUntil(log: seq<Entry>): int {
    if log == [] then 0
    else
      var n := |log| - 1;
      match log[n].outcome
      case Refreshed => 0
      case Failed =>
        if FailsSince(log) >= 3 && log[n].step.Send? then log[n].step.now + 15_000_000
        else OpenUntil(log[..n])
      case _ => OpenUntil(log[..n])
  }

  /** Reconnects whose setup failed since the last clearing reconnect. */
  function BareSince(log: seq<Entry>): nat {
    if log == [] then 0
    else
      var n := |log| - 1;
      match log[n].outcome
      case Refreshed => 0
      case BareConnect => BareSince(log[..n]) + 1
      case _ => BareSince(log[..n])
  }

  predicate Connects(e: Entry) {
    e.outcome.Refreshed? || e.outcome.BareConnect?
  }

  /** Whether the link is up: a connect brings it up, a failed write or the peer takes it down. */
  predicate Up(first: Link, log: seq<Entry>) {
    if log == [] then first.connected
    else
      var n := |log| - 1;
      match log[n].outcome
      case Refreshed => true
      case BareConnect => true
      case Failed => false
      case Closed => false
      case _ => Up(first, log[..n])
  }

  /** The link as its constructor and first connect leave it. */
  predicate Fresh(link: Link) {
    link.failCount == 0 && link.openUntil == 0
  }

  /** The two breaker fields are functions of the history, and the failures in a row are
      covered by reconnects that did not clear the breaker. */
  lemma {:induction false} FieldsFollowHistory(first: Link, steps: seq<Step>)
    requires Fresh(first)
    ensures Follows(Exec(first, steps), History(first, steps))
    decreases |steps|
  {
    if steps == [] {
    } else {
      var n := |steps| - 1;
      FieldsFollowHistory(first, steps[..n]);
      StepFollows(Exec(first, steps[..n]), History(first, steps[..n]), steps[n]);
    }
  }

  ghost predicate Follows(link: Link, log: seq<Entry>) {
    && link.failCount == FailsSince(log)
    && link.openUntil == OpenUntil(log)
    && link.failCount <= BareSince(log) + (if link.connected then 0 else 1)
    && (link.openUntil != 0 ==> BareSince(log) >= 2)
  }

  lemma StepFollows(link: Link, log: seq<Entry>, step: Step)
    requires Follows(link, log)
    ensures var (link', outcome) := Apply(link, step); Follows(link', log + [Entry(step, outcome)])
  {
    var all := log + [Entry(step, Apply(link, step).1)];
    assert all[..|log|] == log;
  }

  lemma {:induction false} HistoryPrefix(first: Link, steps: seq<Step>, k: nat)
    requires k < |steps|
    ensures History(first, steps)[..k] == History(first, steps[..k])
    ensures History(first, steps)[k] == Entry(steps[k], Apply(Exec(first, steps[..k]), steps[k]).1)
    decreases |steps|
  {
    var n := |steps| - 1;
    assert History(first, steps)[..n] == History(first, steps[..n]);
    if k == n {
    } else {
      HistoryPrefix(first, steps[..n], k);
      assert steps[..n][..k] == steps[..k];
      assert History(first, steps)[..k] == History(first, steps)[..n][..k];
    }
  }

  lemma {:induction false} UpFollowsHistory(first: Link, steps: seq<Step>)
    ensures Exec(first, steps).connected == Up(first, History(first, steps))
    decreases |steps|
  {
    if steps == [] {
    } else {
      var n := |steps| - 1;
      UpFollowsHistory(first, steps[..n]);
      assert History(first, steps)[..n] == History(first, steps[..n]);
    }
  }

  /** The controller is written to by a guarded send of a run if and only if the link is up and the
      history so far has not kept the breaker open beyond that time, and it depends on the write alone
      whether that counts as a success or a failure. */
  lemma WritesRespectBreaker(first: Link, steps: seq<Step>, k: nat)
    requires Fresh(first) && k < |steps|
    ensures var (log, entry) := (History(first, steps)[..k], History(first, steps)[k]);
      && (entry.Attempted() <==> steps[k].Send? && Up(first, log) && OpenUntil(log) <= steps[k].now)
      && (entry.outcome.Written? ==> steps[k].Send? && steps[k].writeOk)
      && (entry.outcome.Failed? ==> steps[k].Send? && !steps[k].writeOk)
  {
    HistoryPrefix(first, steps, k);
    FieldsFollowHistory(first, steps[..k]);
    UpFollowsHistory(first, steps[..k]);
  }

  /** A reconnect is attempted only while the link is down, and clears the breaker if and only if its
      setup write succeeds too. */
  lemma ReconnectsWhenDown(first: Link, steps: seq<Step>, k: nat)
    requires k < |steps|
    ensures var (log, entry) := (History(first, steps)[..k], History(first, steps)[k]);
      var tried := steps[k].Reconnect? && !Up(first, log) && steps[k].connectOk;
      && (Connects(entry) <==> tried) && (entry.outcome.Refreshed? <==> tried && steps[k].setupOk)
      && (entry.outcome.Closed? <==> steps[k].PeerGone?)
  {
    HistoryPrefix(first, steps, k);
    UpFollowsHistory(first, steps[..k]);
  }

  /** A connection carries at most one failed guarded write: between two failures of a run
      there is a reconnect. */
  lemma {:induction false} OneFailurePerConnection(first: Link, steps: seq<Step>, i: nat, j: nat)
    requires i < j < |steps|
    requires History(first, steps)[i].outcome.Failed? && History(first, steps)[j].outcome.Failed?
    ensures exists k :: i < k < j && Connects(History(first, steps)[k])
  {
    HistoryPrefix(first, steps, i);
    HistoryPrefix(first, steps, j);
    if forall k :: i < k < j ==> !Connects(History(first, steps)[k]) {
      StaysDown(first, steps, i, j);
    }
  }

  lemma {:induction false} StaysDown(first: Link, steps: seq<Step>, i: nat, j: nat)
    requires i < j <= |steps| && History(first, steps)[i].outcome.Failed?
    requires forall k :: i < k < j ==> !Connects(History(first, steps)[k])
    ensures !Exec(first, steps[..j]).connected
    decreases j
  {
    assert steps[..j][..j - 1] == steps[..j - 1];
    HistoryPrefix(first, steps, j - 1);
    if i == j - 1 {
    } else {
      StaysDown(first, steps, i, j - 1);
    }
  }

  /** As long as every reconnect manages its setup write, the breaker never opens: the count
      stays at one, because a failure tears the connection down and the reconnect clears it. */
  lemma OpensOnlyAfterFailedSetups(first: Link, steps: seq<Step>)
    requires Fresh(first)
    ensures Exec(first, steps).openUntil != 0 ==> BareSince(History(first, steps)) >= 2
    ensures (forall e :: e in History(first, steps) ==> !e.outcome.BareConnect?) ==>
      Exec(first, steps).openUntil == 0 && Exec(first, steps).failCount <= 1
  {
    FieldsFollowHistory(first, steps);
    if forall e :: e in History(first, steps) ==> !e.outcome.BareConnect? {
      NoBareConnects(History(first, steps));
    }
  }

  lemma {:induction false} NoBareConnects(log: seq<Entry>)
    requires forall e :: e in log ==> !e.outcome.BareConnect?
    ensures BareSince(log) == 0
    decreases |log|
  {
    if log == [] {
    } else {
      NoBareConnects(log[..|log| - 1]);
    }
  }

  /** Two failed setups are enough: the third failed write opens the breaker. */
  lemma BreakerCanOpen()
    ensures var down := Send(7, false);
      var bare := Reconnect(true, false);
      Exec(Link(true, 0, 0), [down, bare, down, bare, down]) == Link(false, 3, 15_000_007)
  {
    var down, bare := Send(7, false), Reconnect(true, false);
    var s := [down, bare, down, bare, down];
    var first := Link(true, 0, 0);
    assert s[..4][..3] == s[..3] && s[..3][..2] == s[..2] && s[..2][..1] == s[..1];
    assert Exec(first, s[..1]) == Link(false, 1, 0) by { assert s[..1][..0] == []; }
    assert Exec(first, s[..2]) == Link(true, 1, 0);
    assert Exec(first, s[..3]) == Link(false, 2, 0);
    assert Exec(first, s[..4]) == Link(true, 2, 0);
  }

  // ---------------------------------------------------------------- the daemon's fields

  class ControllerLink {
    var connected: bool
    var cbFailCount: nat
    var cbOpenUntil: int

    function View(): Link
      reads this
    {
      Link(connected, cbFailCount, cbOpenUntil)
    }

    constructor (up: bool)
      ensures View() == Link(up, 0, 0)
    {
      connected, cbFailCount, cbOpenUntil := up, 0, 0;
    }

    /** The guarded send. */
    method SendControllerCommand(now: nat, writeOk: bool) returns (landed: bool)
      modifies this
      ensures View() == Apply(old(View()), Send(now, writeOk)).0
      ensures landed <==> Apply(old(View()), Send(now, writeOk)).1.Written?
    {
      if !connected { return false; }
      if now < cbOpenUntil { return false; }
      if writeOk {
        cbFailCount := 0;
        return true;
      }
      cbFailCount := cbFailCount + 1;
      connected := false;
      if cbFailCount >= THRESHOLD {
        cbOpenUntil := now + COOLDOWN;
      }
      return false;
    }

    /** The listener's branch for a controller that is down. */
    method ReconnectController(connectOk: bool, setupOk: bool)
      modifies this
      ensures View() == Apply(old(View()), Reconnect(connectOk, setupOk)).0
    {
      if connected { return; }
      if connectOk {
        connected := true;
        if setupOk {
          cbFailCount := 0;
          cbOpenUntil := 0;
        }
      }
    }

    /** A read that meets the end of the stream. */
    method PeerClosed()
      modifies this
      ensures View() == Apply(old(View()), PeerGone).0
    {
      connected := false;
    }
  }
}
