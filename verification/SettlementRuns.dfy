/** One settlement run, seen as the commits it makes: which rows each reader's chunks carry, and
    what a run leaves behind when it finishes. */
module SettlementRuns {
  import opened Text
  import opened Settlements

  // ---------------------------------------------------------------- runs as step sequences

  lemma RunSnoc(l: Ledger, steps: seq<Step>, step: Step)
    ensures Run(l, steps + [step]) == Next(Run(l, steps), step)
    ensures AllEnabled(l, steps + [step]) <==> AllEnabled(l, steps) && Enabled(Run(l, steps), step)
  {
    assert (steps + [step])[..|steps|] == steps;
  }

  lemma {:induction false} RunConcat(l: Ledger, a: seq<Step>, b: seq<Step>)
    ensures Run(l, a + b) == Run(Run(l, a), b)
    ensures AllEnabled(l, a + b) <==> AllEnabled(l, a) && AllEnabled(Run(l, a), b)
    decreases |b|
  {
    if b == [] {
      assert a + b == a;
    } else {
      var n := |b| - 1;
      assert a + b == (a + b[..n]) + [b[n]];
      RunConcat(l, a, b[..n]);
      RunSnoc(l, a + b[..n], b[n]);
    }
  }

  lemma RunLater(l: Ledger, steps: seq<Step>, more: seq<Step>, k: nat)
    requires k <= |more|
    ensures Run(l, (steps + more)[..|steps| + k]) == Run(Run(l, steps), more[..k])
  {
    assert (steps + more)[..|steps| + k] == steps + more[..k];
    RunConcat(l, steps, more[..k]);
  }

  /** The rows of a reader that steps commit, chunk after chunk. */
  function PicksOf(steps: seq<Step>, reader: nat): seq<nat>
    decreases |steps|
  {
    if steps == [] then []
    else
      var last := steps[|steps| - 1];
      PicksOf(steps[..|steps| - 1], reader)
      + if last.CommitChunk? && last.job.reader == reader then last.job.picks else []
  }

  lemma PicksSnoc(steps: seq<Step>, step: Step, reader: nat)
    ensures PicksOf(steps + [step], reader)
         == PicksOf(steps, reader) + if step.CommitChunk? && step.job.reader == reader then step.job.picks else []
  {
    assert (steps + [step])[..|steps|] == steps;
  }

  lemma {:induction false} PicksConcat(a: seq<Step>, b: seq<Step>, reader: nat)
    ensures PicksOf(a + b, reader) == PicksOf(a, reader) + PicksOf(b, reader)
    decreases |b|
  {
    if b == [] {
      assert a + b == a;
    } else {
      var (init, last) := (b[..|b| - 1], b[|b| - 1]);
      assert b == init + [last] && a + b == (a + init) + [last];
      PicksConcat(a, init, reader);
      PicksSnoc(a + init, last, reader);
      PicksSnoc(init, last, reader);
    }
  }

  function Commits(steps: seq<Step>): nat {
    if steps == [] then 0
    else Commits(steps[..|steps| - 1]) + if steps[|steps| - 1].CommitChunk? then 1 else 0
  }

  function CommittedRows(steps: seq<Step>): nat {
    if steps == [] then 0
    else CommittedRows(steps[..|steps| - 1])
         + if steps[|steps| - 1].CommitChunk? then |steps[|steps| - 1].job.picks| else 0
  }

  lemma {:induction false} CommitsConcat(a: seq<Step>, b: seq<Step>)
    ensures Commits(a + b) == Commits(a) + Commits(b)
    ensures CommittedRows(a + b) == CommittedRows(a) + CommittedRows(b)
    decreases |b|
  {
    if b == [] {
      assert a + b == a;
    } else {
      assert (a + b)[..|a + b| - 1] == a + b[..|b| - 1];
      CommitsConcat(a, b[..|b| - 1]);
    }
  }

  predicate JobStep(step: Step) { step.CommitChunk? || step.Abandon? || step.Break? }

  /** What happens while one reader is settled: its chunks, and deductions recorded meanwhile. */
  predicate OnlyFor(steps: seq<Step>, reader: nat) {
    forall k :: 0 <= k < |steps| ==>
      steps[k].Insert? || (JobStep(steps[k]) && steps[k].job.reader == reader)
  }

  lemma {:induction false} OnlyForPicks(steps: seq<Step>, reader: nat, other: nat)
    requires OnlyFor(steps, reader)
    ensures |PicksOf(steps, reader)| == CommittedRows(steps)
    ensures other != reader ==> PicksOf(steps, other) == []
    decreases |steps|
  {
    if steps == [] {
    } else {
      OnlyForPicks(steps[..|steps| - 1], reader, other);
    }
  }

  // ---------------------------------------------------------------- eligible lists

  predicate ByTime(rows: seq<Row>, list: seq<nat>)
    requires Within(list, |rows|)
  {
    forall i, j :: 0 <= i < j < |list| ==> rows[list[i]].createdAt <= rows[list[j]].createdAt
  }

  ghost predicate ExactlyEligible(rows: seq<Row>, reader: nat, list: seq<nat>) {
    forall i: nat :: i in list <==> i < |rows| && Eligible(rows[i], reader)
  }

  /** What the query for a reader's eligible rows may return. */
  ghost predicate Fetched(rows: seq<Row>, reader: nat, list: seq<nat>) {
    Within(list, |rows|) && Distinct(list) && ByTime(rows, list) && ExactlyEligible(rows, reader, list)
  }

  /** A reader's query in a run: after how many steps it was made, and the rows it saw. */
  datatype Query = Query(at: nat, rows: seq<Row>)

  ghost predicate Honest(l: Ledger, steps: seq<Step>, q: Query) {
    q.at <= |steps| && q.rows == Run(l, steps[..q.at]).rows
  }

  /** The chunks of the reader, put together, are an answer to its query. */
  ghost predicate FetchedAt(q: Query, steps: seq<Step>, reader: nat) {
    Fetched(q.rows, reader, PicksOf(steps, reader))
  }

  // ---------------------------------------------------------------- what a full run leaves

  lemma {:induction false} PicksAreLinked(l: Ledger, steps: seq<Step>, reader: nat, i: nat)
    requires AllEnabled(l, steps) && i in PicksOf(steps, reader)
    ensures i < |Run(l, steps).rows| && Run(l, steps).rows[i].batch.Some?
    decreases |steps|
  {
    var n := |steps| - 1;
    var l1 := Run(l, steps[..n]);
    if i in PicksOf(steps[..n], reader) {
      PicksAreLinked(l, steps[..n], reader, i);
      StepKeepsLinks(l1, steps[n]);
    } else {
      LinkAt(l1.rows, steps[n].job.picks, |l1.batches|);
    }
  }

  /** A reader that the run never came to had no eligible row when the run looked for readers. */
  function QueryOf(rows: seq<Row>, queries: map<nat, Query>, reader: nat): Query {
    if reader in queries then queries[reader] else Query(0, rows)
  }

  /** A run that went through all readers with an identity at the bank; anything may be recorded
      while it works. */
  ghost predicate FullRun(l: Ledger, directory: map<nat, Terminal>, steps: seq<Step>,
                          queries: map<nat, Query>)
  {
    && AllEnabled(l, steps)
    && forall reader :: reader in directory && directory[reader].Complete() ==>
         var q := QueryOf(l.rows, queries, reader);
         Honest(l, steps, q) && FetchedAt(q, steps, reader)
  }

  /** A deduction still to be settled with the bank. */
  predicate Due(row: Row, reader: nat) {
    row.batch.None? && row.status.Success? && row.reader == Some(reader) && row.cardType != Some(9)
  }

  /** A run that finishes has linked every row that was eligible when its reader was fetched, for every
      reader with MID and TID; what is eligible afterwards was recorded since. */
  lemma FullRunLinksFetched(l: Ledger, directory: map<nat, Terminal>, steps: seq<Step>,
                            queries: map<nat, Query>, reader: nat, i: nat)
    requires FullRun(l, directory, steps, queries)
    requires reader in directory && directory[reader].mid != "" && directory[reader].tid != ""
    ensures var (seen, rows) := (QueryOf(l.rows, queries, reader).rows, Run(l, steps).rows);
      && |seen| <= |rows|
      && (i < |seen| && Due(seen[i], reader) ==> rows[i].batch.Some?)
      && (i < |rows| && Eligible(rows[i], reader) ==> i >= |seen|)
  {
    var q := QueryOf(l.rows, queries, reader);
    SeenIsKept(l, steps, q);
    FetchedIsLinked(l, steps, reader, q, i);
  }

  lemma SeenIsKept(l: Ledger, steps: seq<Step>, q: Query)
    requires Honest(l, steps, q)
    ensures Kept(q.rows, Run(l, steps).rows)
  {
    assert steps == steps[..q.at] + steps[q.at..];
    RunConcat(l, steps[..q.at], steps[q.at..]);
    LinksAreFinal(Run(l, steps[..q.at]), steps[q.at..]);
  }

  lemma FetchedIsLinked(l: Ledger, steps: seq<Step>, reader: nat, q: Query, i: nat)
    requires AllEnabled(l, steps) && FetchedAt(q, steps, reader)
    ensures i < |q.rows| && Eligible(q.rows[i], reader) ==>
      i < |Run(l, steps).rows| && Run(l, steps).rows[i].batch.Some?
  {
    if i < |q.rows| && Eligible(q.rows[i], reader) {
      assert i in PicksOf(steps, reader);
      PicksAreLinked(l, steps, reader, i);
    }
  }

  lemma {:induction false} NoInsertsNoGrowth(l: Ledger, steps: seq<Step>)
    requires forall k :: 0 <= k < |steps| ==> !steps[k].Insert?
    ensures |Run(l, steps).rows| == |l.rows|
    decreases |steps|
  {
    if steps == [] {
    } else {
      NoInsertsNoGrowth(l, steps[..|steps| - 1]);
    }
  }

  /** If nothing is recorded meanwhile, it leaves no eligible row at all. */
  lemma FullRunLeavesNothing(l: Ledger, directory: map<nat, Terminal>, steps: seq<Step>,
                             queries: map<nat, Query>, reader: nat, i: nat)
    requires FullRun(l, directory, steps, queries)
    requires reader in directory && directory[reader].mid != "" && directory[reader].tid != ""
    requires forall k :: 0 <= k < |steps| ==> !steps[k].Insert?
    requires i < |Run(l, steps).rows|
    ensures !Eligible(Run(l, steps).rows[i], reader)
  {
    var q := QueryOf(l.rows, queries, reader);
    FullRunLinksFetched(l, directory, steps, queries, reader, i);
    NoInsertsNoGrowth(l, steps);
    NoInsertsNoGrowth(l, steps[..q.at]);
  }

  // ---------------------------------------------------------------- chunks of 999

  predicate AllFull(steps: seq<Step>) {
    forall k :: 0 <= k < |steps| && steps[k].CommitChunk? ==> |steps[k].job.picks| == MAX_PER_FILE
  }

  /** The chunks are cut every 999 rows: only the last may be shorter. */
  predicate CutEvery999(steps: seq<Step>)
    decreases |steps|
  {
    steps == [] ||
    var n := |steps| - 1;
    if steps[n].CommitChunk? then AllFull(steps[..n]) else CutEvery999(steps[..n])
  }

  lemma {:induction false} FullIsCut(steps: seq<Step>)
    requires AllFull(steps)
    ensures CutEvery999(steps)
    decreases |steps|
  {
    if steps == [] {
    } else {
      FullIsCut(steps[..|steps| - 1]);
    }
  }

  // ---------------------------------------------------------------- runs without Redis

  predicate OfflineStep(step: Step, day: nat, time: nat, reader: nat, terminal: Terminal) {
    step.Insert? ||
    (step.CommitChunk? && !step.job.answered && step.job.reader == reader
     && step.job.terminal == terminal && step.job.day == day && step.job.time == time)
  }

  predicate Offline(steps: seq<Step>, day: nat, time: nat, reader: nat, terminal: Terminal) {
    forall k :: 0 <= k < |steps| ==> OfflineStep(steps[k], day, time, reader, terminal)
  }

  ghost predicate AllNamed(l: Ledger, from: nat, filename: string) {
    forall b :: from <= b < |l.batches| ==> l.batches[b].filename == filename && l.batches[b].number == 1
  }

  lemma {:induction false} OfflineNames(l: Ledger, steps: seq<Step>, day: nat, time: nat, reader: nat,
                                        terminal: Terminal)
    requires Offline(steps, day, time, reader, terminal) && AllEnabled(l, steps)
    ensures |Run(l, steps).batches| == |l.batches| + Commits(steps)
    ensures AllNamed(Run(l, steps), |l.batches|, GenerateFilename(day, time, terminal, 1))
    decreases |steps|
  {
    if steps == [] {
    } else {
      OfflineNames(l, steps[..|steps| - 1], day, time, reader, terminal);
    }
  }

  lemma {:induction false} FullChunks(steps: seq<Step>, day: nat, time: nat, reader: nat, terminal: Terminal)
    requires Offline(steps, day, time, reader, terminal) && AllFull(steps)
    ensures |PicksOf(steps, reader)| == MAX_PER_FILE * Commits(steps)
    decreases |steps|
  {
    if steps == [] {
    } else {
      FullChunks(steps[..|steps| - 1], day, time, reader, terminal);
    }
  }

  /** One chunk is enough exactly for up to 999 rows. */
  lemma {:induction false} OneChunkIff(l: Ledger, steps: seq<Step>, day: nat, time: nat, reader: nat,
                                       terminal: Terminal)
    requires Offline(steps, day, time, reader, terminal) && CutEvery999(steps) && AllEnabled(l, steps)
    ensures Commits(steps) <= 1 <==> |PicksOf(steps, reader)| <= 999
    decreases |steps|
  {
    if steps == [] {
    } else {
      var n := |steps| - 1;
      if steps[n].CommitChunk? {
        FullChunks(steps[..n], day, time, reader, terminal);
        assert Enabled(Run(l, steps[..n]), steps[n]);
      } else {
        OneChunkIff(l, steps[..n], day, time, reader, terminal);
      }
    }
  }

  /** Without Redis, batches of one run and reader share a file exactly when the reader has more
      than 999 eligible rows; every file but the last chunk's is then overwritten. */
  lemma OfflineFilesCollideIff(l: Ledger, steps: seq<Step>, day: nat, time: nat, reader: nat,
                               terminal: Terminal)
    requires Offline(steps, day, time, reader, terminal) && CutEvery999(steps) && AllEnabled(l, steps)
    ensures var l' := Run(l, steps);
      (exists b, c :: |l.batches| <= b < c < |l'.batches|
                      && l'.batches[b].filename == l'.batches[c].filename)
      <==> |PicksOf(steps, reader)| > 999
  {
    OneChunkIff(l, steps, day, time, reader, terminal);
    OfflineNames(l, steps, day, time, reader, terminal);
    var (l', n) := (Run(l, steps), |l.batches|);
    if Commits(steps) >= 2 {
      assert l'.batches[n].filename == l'.batches[n + 1].filename;
    }
  }
}
