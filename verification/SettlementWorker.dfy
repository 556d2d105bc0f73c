/** The settlement job as an object over its tables, counters and files. Its main loop commits
    one chunk at a time; the steps it returns say what it did in the ledger's terms. */
module SettlementWorkers {
  import opened Text
  import opened Settlements
  import opened SettlementRuns
  import opened SettlementFaults

  datatype Lock = NoRedis | Acquired | Held

  /** The rest of the world during a run: while which batches are numbered Redis answers, which
      deductions are recorded before a reader's query and before a batch's commit, and what fails. */
  datatype Others = Others(answering: set<nat>, early: map<nat, seq<Row>>, during: map<nat, seq<Row>>,
                           faults: map<nat, Fault>)

  function Arrivals(arrivals: map<nat, seq<Row>>, key: nat): seq<Row> {
    if key in arrivals then arrivals[key] else []
  }

  /** What the run of a given start is held to; without a Redis lock no number comes from Redis. */
  function PlanFor(lock: Lock, directory: map<nat, Terminal>, day: nat, time: nat, others: Others): Plan {
    Plan(directory, day, time, if lock.NoRedis? then {} else others.answering, others.faults)
  }

  predicate PlanOf(plan: Plan, reader: nat, terminal: Terminal, day: nat, time: nat, others: Others) {
    && reader in plan.directory && plan.directory[reader] == terminal && terminal.Complete()
    && plan == Plan(plan.directory, day, time, others.answering, others.faults)
  }

  datatype Written = NoContent | Spoiled(text: string) | Done(name: string, number: nat, total: int)

  datatype Report = Report(filesGenerated: nat, totalTransactions: nat, skippedLocked: bool, raised: bool)

  class SettlementWorker {
    var rows: seq<Row>
    var batches: seq<Batch>
    var counters: map<(nat, nat), nat>
    var files: map<string, File>
    var today: nat
    // history
    var jobs: seq<Job>
    var writes: seq<Write>
    var origin: seq<nat>

    function View(): Ledger
      reads this
    {
      Ledger(rows, batches, counters, files, today, jobs, writes, origin)
    }

    /** The readers that have eligible rows, each once. */
    method FetchReaders() returns (readers: seq<nat>)
      ensures Distinct(readers)
      ensures AllReaders(rows, readers)
      ensures forall k :: 0 <= k < |readers| ==> HasEligible(rows, readers[k])
    {
      readers := [];
      for i := 0 to |rows|
        invariant Distinct(readers)
        invariant forall k :: 0 <= k < |readers| ==> HasEligible(rows, readers[k])
        invariant forall j :: 0 <= j < i && rows[j].reader.Some? && Eligible(rows[j], rows[j].reader.value) ==>
          rows[j].reader.value in readers
      {
        if rows[i].reader.Some? && Eligible(rows[i], rows[i].reader.value)
           && rows[i].reader.value !in readers {
          readers := readers + [rows[i].reader.value];
        }
      }
    }

    method PositionByTime(list: seq<nat>, createdAt: int) returns (at: nat)
      requires Within(list, |rows|)
      ensures at <= |list|
      ensures at > 0 ==> rows[list[at - 1]].createdAt <= createdAt
      ensures forall k :: at <= k < |list| ==> rows[list[k]].createdAt > createdAt
    {
      at := |list|;
      while at > 0 && rows[list[at - 1]].createdAt > createdAt
        invariant 0 <= at <= |list|
        invariant forall k :: at <= k < |list| ==> rows[list[k]].createdAt > createdAt
      {
        at := at - 1;
      }
    }

    /** A reader's eligible rows in order of creation. */
    method FetchEligible(reader: nat) returns (list: seq<nat>)
      ensures Fetched(rows, reader, list)
    {
      list := [];
      for i := 0 to |rows|
        invariant Listed(rows, reader, list, i)
      {
        if Eligible(rows[i], reader) {
          var at := PositionByTime(list, rows[i].createdAt);
          InsertKeepsListed(rows, reader, list, i, at);
          list := list[..at] + [i] + list[at..];
        }
      }
    }

    /** The next number of the reader's day, or 1 when Redis does not answer. */
    method NextBatchNumber(job: Job) returns (number: nat)
      modifies this`counters
      ensures number == Number(old(counters), job) && counters == Draw(old(counters), job)
    {
      if !job.answered { return 1; }
      number := Counter(counters, job.reader, job.day) + 1;
      counters := counters[(job.reader, job.day) := number];
    }

    method ChunkTotal(picks: seq<nat>) returns (total: int)
      requires Within(picks, |rows|)
      ensures total == Total(rows, picks)
    {
      total := 0;
      for k := 0 to |picks|
        invariant total == Total(rows, picks[..k])
      {
        total := total + rows[picks[k]].amount;
        assert picks[..k + 1][..k] == picks[..k];
      }
      assert picks[..|picks|] == picks;
    }

    method LinkRows(picks: seq<nat>, id: nat)
      requires Within(picks, |rows|)
      modifies this`rows
      ensures rows == Link(old(rows), picks, id)
    {
      ghost var was := rows;
      for k := 0 to |picks|
        invariant |rows| == |was| && rows == Link(was, picks[..k], id)
      {
        rows := rows[picks[k] := rows[picks[k]].(batch := Some(id))];
        assert picks[..k + 1][..k] == picks[..k];
      }
      assert picks[..|picks|] == picks;
    }

    /** Deductions recorded by others, not linked yet. */
    method Record(arrivals: seq<Row>) returns (steps: seq<Step>)
      modifies this`rows
      ensures Recorded(old(View()), View(), steps)
    {
      steps := [];
      ghost var before := View();
      for k := 0 to |arrivals|
        invariant Recorded(before, View(), steps)
      {
        var row := arrivals[k].(batch := None);
        RunSnoc(before, steps, Insert(row));
        rows := rows + [row];
        steps := steps + [Insert(row)];
      }
    }

    /** The file is written under the number just drawn. */
    method Write(job: Job, number: nat, text: string) returns (name: string)
      modifies this`files, this`writes
      ensures var w := Settlements.Write(job, number);
        && name == NameOf(w) && files == old(files)[name := File(text, |old(writes)|)]
        && writes == old(writes) + [w]
    {
      name := GenerateFilename(job.day, job.time, job.terminal, number);
      files := files[name := File(text, |writes|)];
      writes := writes + [Settlements.Write(job, number)];
    }

    /** The batch is stored and its rows are linked. */
    method Store(job: Job, number: nat, total: int, filename: string)
      requires Within(job.picks, |rows|) && writes != []
      modifies this`rows, this`batches, this`jobs, this`origin
      ensures View() == Stored(old(View()), job, number, total, filename)
    {
      var id := |batches|;
      batches := batches + [Batch(filename, job.day, number, |job.picks|, total)];
      LinkRows(job.picks, id);
      jobs, origin := jobs + [job], origin + [|writes| - 1];
    }

    /** The number is drawn and the file written, unless the total does not fit its field; the text may
        not be ASCII, and the disk may fail half-way. */
    method WriteChunk(job: Job, fault: Fault) returns (written: Written)
      requires Chunk(rows, job)
      modifies this`counters, this`files, this`writes
      ensures match written
              case NoContent => FileContent(rows, job).None? && View() == old(View()).(counters := Draw(old(counters), job))
              case Spoiled(text) =>
                && FileContent(rows, job).Some? && text <= FileContent(rows, job).value
                && (fault.DiskFails? || !Ascii(FileContent(rows, job).value))
                && View() == WriteFile(old(View()), job, text)
              case Done(name, number, total) =>
                && FileContent(rows, job).Some? && Ascii(FileContent(rows, job).value) && !fault.DiskFails?
                && name == NameOf(Settlements.Write(job, number)) && number == Number(old(counters), job)
                && total == Total(rows, job.picks)
                && View() == WriteFile(old(View()), job, FileContent(rows, job).value)
    {
      var number := NextBatchNumber(job);
      var total := ChunkTotal(job.picks);
      var content := BuildContent(Payloads(rows, job.picks), total);
      if content.None? { return NoContent; }
      var text := content.value;
      if !Ascii(text) || fault.DiskFails? {
        var part := if Ascii(text) && fault.kept <= |text| then text[..fault.kept] else "";
        var _ := Write(job, number, part);
        return Spoiled(part);
      }
      var name := Write(job, number, text);
      written := Done(name, number, total);
    }

    /** One file and one commit. If the database fails or the total does not fit its column, the run
        raises with the file already on disk. */
    method CommitOne(job: Job, fault: Fault) returns (step: Step)
      requires Chunk(rows, job) && Timely(View(), job)
      modifies this
      ensures Outcome(old(View()), job, step)
      ensures View() == Next(old(View()), step)
      ensures Judged(old(View()), step, fault)
    {
      ghost var was := View();
      JudgedIs(was, job, fault);
      var written := WriteChunk(job, fault);
      match written {
        case NoContent =>
          return Abandon(job);
        case Spoiled(part) =>
          BreakIs(was, job, part);
          return Break(job, part);
        case Done(name, number, total) =>
          if total > MAX_INTEGER || fault.CommitFails? {
            var text := FileContent(rows, job).value;
            BreakIs(was, job, text);
            return Break(job, text);
          }
          CommitIs(was, job, name, number, total);
          Store(job, number, total, name);
          return CommitChunk(job);
      }
    }

    /** The next chunk of a reader's list, after the deductions recorded meanwhile. */
    method SettleChunk(ghost before: Ledger, reader: nat, terminal: Terminal, list: seq<nat>, settled: nat,
                       day: nat, time: nat, others: Others, steps: seq<Step>, ghost plan: Plan)
      returns (steps': seq<Step>, settled': nat, ok: bool)
      requires Progress(before, View(), reader, terminal, list, settled, steps, true)
      requires settled < |list| && day <= today <= day + 1
      requires PlanOf(plan, reader, terminal, day, time, others) && Accounted(before, steps, plan, true)
      modifies this
      ensures Accounted(before, steps', plan, ok)
      ensures Progress(before, View(), reader, terminal, list, settled', steps', ok)
      ensures (if ok then settled < settled' <= |list| else settled' == settled) && today == old(today)
      ensures Commits(steps') == Commits(steps) + if ok then 1 else 0
    {
      ghost var here := View();
      var arrived := Record(Arrivals(others.during, |batches|));
      ArrivalsProgress(before, here, View(), reader, terminal, list, settled, steps, arrived);
      var more := steps + arrived;
      var end := if settled + MAX_PER_FILE < |list| then settled + MAX_PER_FILE else |list|;
      var job := Job(reader, terminal, list[settled..end], day, time, |batches| in others.answering);
      ghost var now := View();
      ChunkOfList(now.rows, reader, list, settled, end, job);
      var step := CommitOne(job, FaultAt(others.faults, |batches|));
      NextProgress(before, now, reader, terminal, list, settled, end, more, job, step);
      NextAccounted(before, here, now, steps, arrived, step, plan);
      CommitsConcat(more, [step]);
      OneCommit(step);
      return more + [step], if step.CommitChunk? then end else settled, step.CommitChunk?;
    }

    /** One reader: its query, then all its chunks, with deductions recorded meanwhile. */
    method SettleReader(reader: nat, terminal: Terminal, day: nat, time: nat, others: Others, ghost plan: Plan)
      returns (steps: seq<Step>, q: Query, made: nat, settled: nat, ok: bool)
      requires day <= today <= day + 1 && PlanOf(plan, reader, terminal, day, time, others)
      modifies this
      ensures Accounted(old(View()), steps, plan, ok)
      ensures ReaderSettled(old(View()), View(), reader, terminal, steps, q, ok)
      ensures made == Commits(steps) && settled == CommittedRows(steps) && today == old(today)
    {
      ghost var start := View();
      var early := Record(Arrivals(others.early, reader));
      ghost var before := View();
      q := Query(|early|, rows);
      var list := FetchEligible(reader);
      var more: seq<Step> := [];
      made, settled, ok := 0, 0, true;
      while settled < |list| && ok
        invariant Progress(before, View(), reader, terminal, list, settled, more, ok)
        invariant Accounted(before, more, plan, ok)
        invariant made == Commits(more) && today == before.today
        decreases |list| - settled, if ok then 1 else 0
      {
        more, settled, ok := SettleChunk(before, reader, terminal, list, settled, day, time, others, more, plan);
        if ok { made := made + 1; }
      }
      InsertsJustified(start, early, plan);
      AccountedConcat(start, early, more, plan, ok);
      Together(start, before, View(), reader, terminal, list, settled, early, more, ok);
      steps := early + more;
    }

    /** The next reader of the run; one without an identity at the bank is skipped. */
    method SettleNext(ghost before: Ledger, directory: map<nat, Terminal>, ghost done: seq<nat>, reader: nat,
                      time: nat, others: Others, steps: seq<Step>, queries: map<nat, Query>)
      returns (steps': seq<Step>, queries': map<nat, Query>, made: nat, settled: nat, ok: bool)
      requires RunProgress(before, View(), directory, done, steps, queries) && reader !in done
      requires Accounted(before, steps, Plan(directory, today, time, others.answering, others.faults), true)
      modifies this
      ensures Accounted(before, steps', Plan(directory, old(today), time, others.answering, others.faults), ok)
      ensures today == old(today)
      ensures AllEnabled(before, steps') && View() == Run(before, steps')
      ensures ListsRespected(before, steps', queries')
      ensures ok ==> RunProgress(before, View(), directory, done + [reader], steps', queries')
      ensures Commits(steps') == Commits(steps) + made
      ensures CommittedRows(steps') == CommittedRows(steps) + settled
    {
      if reader !in directory || !directory[reader].Complete() {
        SkipReader(before.rows, directory, done, reader, steps, queries);
        return steps, queries, 0, 0, true;
      }
      ghost var now := View();
      ghost var plan := Plan(directory, today, time, others.answering, others.faults);
      var more, q;
      more, q, made, settled, ok := SettleReader(reader, directory[reader], today, time, others, plan);
      AccountedConcat(before, steps, more, plan, ok);
      JoinReader(before, now, View(), directory, done, reader, steps, queries, more, q, ok);
      CommitsConcat(steps, more);
      steps', queries' := steps + more, queries[reader := Shifted(q, |steps|)];
    }

    /** A whole run at the given day and time. */
    method GenerateSettlementFile(lock: Lock, directory: map<nat, Terminal>, time: nat, others: Others)
      returns (steps: seq<Step>, queries: map<nat, Query>, report: Report)
      modifies this
      ensures AllEnabled(old(View()), steps) && View() == Run(old(View()), steps)
      ensures report.filesGenerated == Commits(steps) && report.totalTransactions == CommittedRows(steps)
      ensures report.skippedLocked == lock.Held? && (lock.Held? ==> steps == [])
      ensures !report.skippedLocked && !report.raised ==> FullRun(old(View()), directory, steps, queries)
      ensures ListsRespected(old(View()), steps, queries)
      ensures report.raised <==> exists k :: 0 <= k < |steps| && (steps[k].Abandon? || steps[k].Break?)
      ensures Accounted(old(View()), steps, PlanFor(lock, directory, old(today), time, others), !report.raised)
      ensures !lock.Held? && others.faults == map[] && AllFit(old(rows)) && InsertsFit(steps) ==>
        !report.raised && FullRun(old(View()), directory, steps, queries)
    {
      steps, queries, report := [], map[], Report(0, 0, lock.Held?, false);
      ghost var plan := PlanFor(lock, directory, today, time, others);
      if lock.Held? { return; }
      ghost var before := View();
      var readers := FetchReaders();
      var live := if lock.NoRedis? then others.(answering := {}) else others;
      for k := 0 to |readers|
        invariant RunProgress(before, View(), directory, readers[..k], steps, queries)
        invariant report == Report(Commits(steps), CommittedRows(steps), false, false)
        invariant today == before.today && Accounted(before, steps, plan, true)
      {
        assert readers[..k + 1] == readers[..k] + [readers[k]];
        var made, settled, ok;
        steps, queries, made, settled, ok := SettleNext(before, directory, readers[..k], readers[k], time,
                                                        live, steps, queries);
        report := Report(report.filesGenerated + made, report.totalTransactions + settled, false, !ok);
        RaisedIff(before, steps, plan, ok);
        if !ok { return; }
      }
      RaisedIff(before, steps, plan, true);
      assert readers[..|readers|] == readers;
      WholeRun(before, View(), directory, readers, steps, queries);
    }
  }

  // ---------------------------------------------------------------- one chunk

  lemma JudgedIs(l: Ledger, job: Job, fault: Fault)
    requires Chunk(l.rows, job)
    ensures var (content, total) := (FileContent(l.rows, job), Total(l.rows, job.picks));
      && (content.None? ==> Judged(l, Abandon(job), fault))
      && (content.Some? && (fault.DiskFails? || !Ascii(content.value)) ==>
            forall text :: Judged(l, Break(job, text), fault))
      && (content.Some? && (fault.CommitFails? || total > MAX_INTEGER) ==> Judged(l, Break(job, content.value), fault))
      && (content.Some? && fault.NoFault? && Ascii(content.value) && total <= MAX_INTEGER ==>
            Judged(l, CommitChunk(job), fault))
  {
  }

  lemma BreakIs(l: Ledger, job: Job, text: string)
    requires Chunk(l.rows, job) && Timely(l, job) && FileContent(l.rows, job).Some?
    requires text <= FileContent(l.rows, job).value
    ensures Enabled(l, Break(job, text)) && Next(l, Break(job, text)) == WriteFile(l, job, text)
  {
  }

  lemma CommitIs(l: Ledger, job: Job, name: string, number: nat, total: int)
    requires Chunk(l.rows, job) && Timely(l, job) && Storable(l.rows, job)
    requires number == Number(l.counters, job) && name == NameOf(Settlements.Write(job, number))
    requires total == Total(l.rows, job.picks)
    ensures Enabled(l, CommitChunk(job))
    ensures var written := WriteFile(l, job, FileContent(l.rows, job).value);
      Next(l, CommitChunk(job)) == Stored(written, job, number, total, name)
  {
  }

  // ---------------------------------------------------------------- what others record

  ghost predicate Recorded(before: Ledger, after: Ledger, steps: seq<Step>) {
    && AllEnabled(before, steps) && after == Run(before, steps) && after == before.(rows := after.rows)
    && before.rows <= after.rows
    && forall k :: 0 <= k < |steps| ==> steps[k].Insert?
  }

  lemma {:induction false} InsertsCommitNothing(steps: seq<Step>, reader: nat)
    requires forall k :: 0 <= k < |steps| ==> steps[k].Insert?
    ensures PicksOf(steps, reader) == [] && Commits(steps) == 0 && CommittedRows(steps) == 0
    decreases |steps|
  {
    if steps == [] {
    } else {
      InsertsCommitNothing(steps[..|steps| - 1], reader);
    }
  }

  lemma OneCommit(step: Step)
    ensures Commits([step]) == if step.CommitChunk? then 1 else 0
  {
    assert [step][..0] == [];
  }

  /** A chunk is committed, or its number is drawn, or its file is written too. */
  ghost predicate Outcome(l: Ledger, job: Job, step: Step) {
    JobStep(step) && step.job == job && Enabled(l, step)
  }

  // ---------------------------------------------------------------- the eligible list

  ghost predicate Listed(rows: seq<Row>, reader: nat, list: seq<nat>, n: nat) {
    && n <= |rows| && Within(list, n) && Distinct(list) && ByTime(rows, list)
    && forall i: nat :: i in list <==> i < n && Eligible(rows[i], reader)
  }

  lemma InsertedMembers(list: seq<nat>, i: nat, at: nat)
    requires at <= |list|
    ensures forall k: nat :: k in list[..at] + [i] + list[at..] <==> k == i || k in list
  {
    assert list == list[..at] + list[at..];
  }

  lemma InsertedDistinct(list: seq<nat>, i: nat, at: nat)
    requires at <= |list| && Distinct(list) && i !in list
    ensures Distinct(list[..at] + [i] + list[at..])
  {
  }

  lemma InsertedByTime(rows: seq<Row>, list: seq<nat>, i: nat, at: nat)
    requires Within(list, |rows|) && ByTime(rows, list) && i < |rows| && at <= |list|
    requires at > 0 ==> rows[list[at - 1]].createdAt <= rows[i].createdAt
    requires forall k :: at <= k < |list| ==> rows[list[k]].createdAt > rows[i].createdAt
    ensures Within(list[..at] + [i] + list[at..], |rows|)
    ensures ByTime(rows, list[..at] + [i] + list[at..])
  {
    forall k | 0 <= k < at ensures rows[list[k]].createdAt <= rows[i].createdAt {
      if k < at - 1 { assert rows[list[k]].createdAt <= rows[list[at - 1]].createdAt; }
    }
  }

  lemma InsertKeepsListed(rows: seq<Row>, reader: nat, list: seq<nat>, i: nat, at: nat)
    requires Listed(rows, reader, list, i) && i < |rows| && Eligible(rows[i], reader) && at <= |list|
    requires at > 0 ==> rows[list[at - 1]].createdAt <= rows[i].createdAt
    requires forall k :: at <= k < |list| ==> rows[list[k]].createdAt > rows[i].createdAt
    ensures Listed(rows, reader, list[..at] + [i] + list[at..], i + 1)
  {
    InsertedMembers(list, i, at);
    InsertedDistinct(list, i, at);
    InsertedByTime(rows, list, i, at);
  }

  // ---------------------------------------------------------------- chunk by chunk

  ghost predicate Remaining(rows: seq<Row>, reader: nat, list: seq<nat>, from: nat) {
    Within(list, |rows|) && forall k :: from <= k < |list| ==> Eligible(rows[list[k]], reader)
  }

  lemma RemainingAfter(rows: seq<Row>, reader: nat, list: seq<nat>, from: nat, end: nat, picks: seq<nat>,
                       batch: nat)
    requires Remaining(rows, reader, list, from) && Distinct(list) && from <= end <= |list|
    requires picks == list[from..end]
    ensures Remaining(Link(rows, picks, batch), reader, list, end)
  {
    LinkAt(rows, picks, batch);
  }

  predicate ForTerminal(steps: seq<Step>, reader: nat, terminal: Terminal) {
    OnlyFor(steps, reader)
    && forall k :: 0 <= k < |steps| && !steps[k].Insert? ==> steps[k].job.terminal == terminal
  }

  /** The first `settled` rows of the list are committed, in full chunks while more remain. */
  ghost predicate Progress(before: Ledger, now: Ledger, reader: nat, terminal: Terminal,
                           list: seq<nat>, settled: nat, steps: seq<Step>, ok: bool)
  {
    && Fetched(before.rows, reader, list) && settled <= |list|
    && AllEnabled(before, steps) && now == Run(before, steps)
    && Remaining(now.rows, reader, list, settled)
    && Cut(list, settled, reader, terminal, steps)
    && (!ok ==> settled < |list|)
  }

  /** The steps so far, as far as the list is concerned. */
  ghost predicate Cut(list: seq<nat>, settled: nat, reader: nat, terminal: Terminal, steps: seq<Step>) {
    && settled <= |list| && ForTerminal(steps, reader, terminal) && PicksOf(steps, reader) == list[..settled]
    && CutEvery999(steps) && (settled < |list| ==> AllFull(steps))
  }

  lemma {:induction false} ArrivalsCut(list: seq<nat>, settled: nat, reader: nat, terminal: Terminal,
                                       steps: seq<Step>, arrived: seq<Step>)
    requires Cut(list, settled, reader, terminal, steps) && settled < |list|
    requires forall k :: 0 <= k < |arrived| ==> arrived[k].Insert?
    ensures Cut(list, settled, reader, terminal, steps + arrived)
  {
    InsertsCommitNothing(arrived, reader);
    PicksConcat(steps, arrived, reader);
    FullIsCut(steps + arrived);
  }

  lemma ArrivalsProgress(before: Ledger, here: Ledger, now: Ledger, reader: nat, terminal: Terminal,
                         list: seq<nat>, settled: nat, steps: seq<Step>, arrived: seq<Step>)
    requires Progress(before, here, reader, terminal, list, settled, steps, true) && settled < |list|
    requires Recorded(here, now, arrived)
    ensures Progress(before, now, reader, terminal, list, settled, steps + arrived, true)
    ensures Commits(steps + arrived) == Commits(steps)
  {
    ArrivalsCut(list, settled, reader, terminal, steps, arrived);
    RunConcat(before, steps, arrived);
    InsertsCommitNothing(arrived, reader);
    CommitsConcat(steps, arrived);
  }

  predicate ChunkEnd(list: seq<nat>, settled: nat, end: nat) {
    && settled < end <= |list| && end <= settled + MAX_PER_FILE
    && (end < |list| ==> end == settled + MAX_PER_FILE)
  }

  predicate IsChunk(job: Job, reader: nat, terminal: Terminal, list: seq<nat>, settled: nat, end: nat) {
    && ChunkEnd(list, settled, end)
    && job.reader == reader && job.terminal == terminal && job.picks == list[settled..end]
  }

  lemma ChunkOfList(rows: seq<Row>, reader: nat, list: seq<nat>, settled: nat, end: nat, job: Job)
    requires Remaining(rows, reader, list, settled) && Distinct(list)
    requires settled < end <= |list| && end <= settled + MAX_PER_FILE
    requires job.reader == reader && job.picks == list[settled..end]
    ensures Chunk(rows, job)
  {
  }

  lemma NextCut(reader: nat, terminal: Terminal, list: seq<nat>, settled: nat, end: nat,
                steps: seq<Step>, job: Job, step: Step)
    requires Cut(list, settled, reader, terminal, steps) && IsChunk(job, reader, terminal, list, settled, end)
    requires JobStep(step) && step.job == job
    ensures Cut(list, if step.CommitChunk? then end else settled, reader, terminal, steps + [step])
  {
    PicksSnoc(steps, step, reader);
    assert (steps + [step])[..|steps|] == steps;
    assert list[..end] == list[..settled] + list[settled..end];
  }

  lemma NextProgress(before: Ledger, now: Ledger, reader: nat, terminal: Terminal, list: seq<nat>,
                     settled: nat, end: nat, steps: seq<Step>, job: Job, step: Step)
    requires Progress(before, now, reader, terminal, list, settled, steps, true)
    requires IsChunk(job, reader, terminal, list, settled, end) && Outcome(now, job, step)
    ensures Progress(before, Next(now, step), reader, terminal, list,
                     if step.CommitChunk? then end else settled, steps + [step], step.CommitChunk?)
  {
    RunSnoc(before, steps, step);
    NextCut(reader, terminal, list, settled, end, steps, job, step);
    if step.CommitChunk? {
      RemainingAfter(now.rows, reader, list, settled, end, job.picks, |now.batches|);
    }
  }

  lemma NextAccounted(before: Ledger, here: Ledger, now: Ledger, steps: seq<Step>, arrived: seq<Step>,
                      step: Step, plan: Plan)
    requires Accounted(before, steps, plan, true) && here == Run(before, steps)
    requires Recorded(here, now, arrived) && Justified(now, step, plan) && JobStep(step)
    ensures Accounted(before, steps + arrived + [step], plan, step.CommitChunk?)
  {
    InsertsJustified(here, arrived, plan);
    AccountedConcat(before, steps, arrived, plan, true);
    RunConcat(before, steps, arrived);
    OneJustified(now, step, plan);
    AccountedConcat(before, steps + arrived, [step], plan, step.CommitChunk?);
  }

  ghost predicate PartOf(rows: seq<Row>, reader: nat, picks: seq<nat>) {
    exists list :: Fetched(rows, reader, list) && picks <= list
  }

  /** The query of a reader was made, and the first rows of its list were committed. */
  ghost predicate PartFetchedAt(q: Query, steps: seq<Step>, reader: nat) {
    PartOf(q.rows, reader, PicksOf(steps, reader))
  }

  /** What settling one reader does: its chunks, put together, are its eligible list in order, or the
      start of it if the run raises. */
  ghost predicate ReaderSettled(before: Ledger, after: Ledger, reader: nat, terminal: Terminal,
                                steps: seq<Step>, q: Query, ok: bool)
  {
    && ForTerminal(steps, reader, terminal)
    && AllEnabled(before, steps) && after == Run(before, steps)
    && CutEvery999(steps)
    && Honest(before, steps, q) && PartFetchedAt(q, steps, reader)
    && (ok ==> FetchedAt(q, steps, reader))
  }

  lemma {:induction false} CutAfterInserts(early: seq<Step>, steps: seq<Step>)
    requires (forall k :: 0 <= k < |early| ==> early[k].Insert?) && CutEvery999(steps)
    ensures CutEvery999(early + steps)
    decreases |steps|
  {
    if steps == [] {
      FullIsCut(early + steps);
    } else {
      var n := |steps| - 1;
      assert (early + steps)[..|early + steps| - 1] == early + steps[..n];
      if !steps[n].CommitChunk? { CutAfterInserts(early, steps[..n]); }
    }
  }

  lemma Together(start: Ledger, before: Ledger, now: Ledger, reader: nat, terminal: Terminal,
                 list: seq<nat>, settled: nat, early: seq<Step>, steps: seq<Step>, ok: bool)
    requires Recorded(start, before, early)
    requires Progress(before, now, reader, terminal, list, settled, steps, ok)
    requires ok ==> settled == |list|
    ensures ReaderSettled(start, now, reader, terminal, early + steps, Query(|early|, before.rows), ok)
    ensures Commits(early + steps) == Commits(steps) && CommittedRows(early + steps) == settled
  {
    var all := early + steps;
    RunConcat(start, early, steps);
    CutAfterInserts(early, steps);
    InsertsCommitNothing(early, reader);
    PicksConcat(early, steps, reader);
    CommitsConcat(early, steps);
    OnlyForPicks(steps, reader, reader);
    assert all[..|early|] == early;
    assert Honest(start, all, Query(|early|, before.rows));
    assert PicksOf(all, reader) == list[..settled];
    assert Fetched(before.rows, reader, list) && list[..settled] <= list;
    if ok { assert list[..settled] == list; }
  }

  // ---------------------------------------------------------------- reader by reader

  ghost predicate Respected(rows: seq<Row>, steps: seq<Step>, queries: map<nat, Query>, reader: nat) {
    PicksOf(steps, reader) == [] || PartFetchedAt(QueryOf(rows, queries, reader), steps, reader)
  }

  ghost predicate HonestIfMade(l: Ledger, steps: seq<Step>, queries: map<nat, Query>, reader: nat) {
    reader in queries ==> Honest(l, steps, queries[reader])
  }

  ghost predicate AllHonest(l: Ledger, steps: seq<Step>, queries: map<nat, Query>) {
    forall reader: nat :: HonestIfMade(l, steps, queries, reader)
  }

  ghost predicate AllRespected(rows: seq<Row>, steps: seq<Step>, queries: map<nat, Query>) {
    forall reader: nat :: Respected(rows, steps, queries, reader)
  }

  /** Even a run that raises commits, for each reader, nothing or the start of its eligible list. */
  ghost predicate ListsRespected(l: Ledger, steps: seq<Step>, queries: map<nat, Query>) {
    AllHonest(l, steps, queries) && AllRespected(l.rows, steps, queries)
  }

  predicate NotYet(done: seq<nat>, steps: seq<Step>, queries: map<nat, Query>, reader: nat) {
    reader !in done ==> PicksOf(steps, reader) == [] && reader !in queries
  }

  ghost predicate WholeIfDone(rows: seq<Row>, directory: map<nat, Terminal>, done: seq<nat>,
                              steps: seq<Step>, queries: map<nat, Query>, reader: nat)
  {
    reader in done && reader in directory && directory[reader].Complete() ==>
      FetchedAt(QueryOf(rows, queries, reader), steps, reader)
  }

  /** The readers gone through so far have their whole lists committed, the others nothing. */
  ghost predicate ListsDone(rows: seq<Row>, directory: map<nat, Terminal>, done: seq<nat>,
                            steps: seq<Step>, queries: map<nat, Query>)
  {
    && (forall reader: nat :: NotYet(done, steps, queries, reader))
    && (forall reader: nat :: WholeIfDone(rows, directory, done, steps, queries, reader))
  }

  ghost predicate RunProgress(before: Ledger, now: Ledger, directory: map<nat, Terminal>,
                              done: seq<nat>, steps: seq<Step>, queries: map<nat, Query>)
  {
    && AllEnabled(before, steps) && now == Run(before, steps)
    && ListsDone(before.rows, directory, done, steps, queries)
    && ListsRespected(before, steps, queries)
  }

  lemma JoinedPicks(steps: seq<Step>, more: seq<Step>, reader: nat, other: nat)
    requires OnlyFor(more, reader) && PicksOf(steps, reader) == []
    ensures PicksOf(steps + more, other)
         == if other == reader then PicksOf(more, reader) else PicksOf(steps, other)
  {
    PicksConcat(steps, more, other);
    OnlyForPicks(more, reader, other);
  }

  /** What was true of an earlier reader stays true. */
  lemma OthersStay(q: Query, steps: seq<Step>, more: seq<Step>, reader: nat, other: nat)
    requires OnlyFor(more, reader) && PicksOf(steps, reader) == [] && other != reader
    ensures FetchedAt(q, steps, other) ==> FetchedAt(q, steps + more, other)
    ensures PartFetchedAt(q, steps, other) ==> PartFetchedAt(q, steps + more, other)
  {
    JoinedPicks(steps, more, reader, other);
  }

  lemma HonestStays(l: Ledger, steps: seq<Step>, more: seq<Step>, q: Query)
    requires Honest(l, steps, q)
    ensures Honest(l, steps + more, q)
  {
    assert (steps + more)[..q.at] == steps[..q.at];
  }

  /** A query, seen from the start of the run. */
  function Shifted(q: Query, first: nat): Query {
    Query(first + q.at, q.rows)
  }

  lemma HonestLater(l: Ledger, steps: seq<Step>, more: seq<Step>, q: Query)
    requires Honest(Run(l, steps), more, q)
    ensures Honest(l, steps + more, Shifted(q, |steps|))
  {
    RunLater(l, steps, more, q.at);
    HonestBy(l, steps + more, Run(Run(l, steps), more[..q.at]), Shifted(q, |steps|));
  }

  lemma HonestBy(l: Ledger, steps: seq<Step>, seen: Ledger, q: Query)
    requires q.at <= |steps| && Run(l, steps[..q.at]) == seen && q.rows == seen.rows
    ensures Honest(l, steps, q)
  {
  }

  lemma JoinReader(before: Ledger, now: Ledger, after: Ledger, directory: map<nat, Terminal>,
                   done: seq<nat>, reader: nat, steps: seq<Step>, queries: map<nat, Query>,
                   more: seq<Step>, q: Query, ok: bool)
    requires RunProgress(before, now, directory, done, steps, queries) && reader !in done
    requires reader in directory && ReaderSettled(now, after, reader, directory[reader], more, q, ok)
    ensures AllEnabled(before, steps + more) && after == Run(before, steps + more)
    ensures ListsRespected(before, steps + more, queries[reader := Shifted(q, |steps|)])
    ensures ok ==> RunProgress(before, after, directory, done + [reader], steps + more,
                               queries[reader := Shifted(q, |steps|)])
  {
    RunConcat(before, steps, more);
    assert NotYet(done, steps, queries, reader);
    JoinedPicks(steps, more, reader, reader);
    JoinedHonest(before, reader, steps, queries, more, q);
    JoinedRespected(before.rows, reader, steps, queries, more, Shifted(q, |steps|));
    if ok { JoinedDone(before.rows, directory, done, reader, steps, queries, more, Shifted(q, |steps|)); }
  }

  lemma SkipReader(rows: seq<Row>, directory: map<nat, Terminal>, done: seq<nat>, reader: nat,
                   steps: seq<Step>, queries: map<nat, Query>)
    requires ListsDone(rows, directory, done, steps, queries)
    requires reader !in directory || !directory[reader].Complete()
    ensures ListsDone(rows, directory, done + [reader], steps, queries)
  {
    var done' := done + [reader];
    forall other: nat
      ensures WholeIfDone(rows, directory, done', steps, queries, other) && NotYet(done', steps, queries, other)
    {
      assert WholeIfDone(rows, directory, done, steps, queries, other) && NotYet(done, steps, queries, other);
    }
  }

  lemma JoinedHonest(l: Ledger, reader: nat, steps: seq<Step>, queries: map<nat, Query>,
                     more: seq<Step>, q: Query)
    requires AllHonest(l, steps, queries) && Honest(Run(l, steps), more, q)
    ensures AllHonest(l, steps + more, queries[reader := Shifted(q, |steps|)])
  {
    var (all, queries') := (steps + more, queries[reader := Shifted(q, |steps|)]);
    HonestLater(l, steps, more, q);
    forall other: nat ensures HonestIfMade(l, all, queries', other) {
      assert HonestIfMade(l, steps, queries, other);
      if other != reader && other in queries { HonestStays(l, steps, more, queries[other]); }
    }
  }

  lemma JoinedRespected(rows: seq<Row>, reader: nat, steps: seq<Step>, queries: map<nat, Query>,
                        more: seq<Step>, q: Query)
    requires OnlyFor(more, reader) && PicksOf(steps, reader) == []
    requires AllRespected(rows, steps, queries)
    requires PartFetchedAt(q, steps + more, reader)
    ensures AllRespected(rows, steps + more, queries[reader := q])
  {
    var (all, queries') := (steps + more, queries[reader := q]);
    forall other: nat ensures Respected(rows, all, queries', other) {
      assert Respected(rows, steps, queries, other);
      if other != reader {
        JoinedPicks(steps, more, reader, other);
        OthersStay(QueryOf(rows, queries, other), steps, more, reader, other);
      }
    }
  }

  lemma JoinedDone(rows: seq<Row>, directory: map<nat, Terminal>, done: seq<nat>, reader: nat,
                   steps: seq<Step>, queries: map<nat, Query>, more: seq<Step>, q: Query)
    requires OnlyFor(more, reader) && PicksOf(steps, reader) == []
    requires ListsDone(rows, directory, done, steps, queries) && FetchedAt(q, steps + more, reader)
    ensures ListsDone(rows, directory, done + [reader], steps + more, queries[reader := q])
  {
    var (all, queries', done') := (steps + more, queries[reader := q], done + [reader]);
    forall other: nat
      ensures WholeIfDone(rows, directory, done', all, queries', other) && NotYet(done', all, queries', other)
    {
      assert WholeIfDone(rows, directory, done, steps, queries, other) && NotYet(done, steps, queries, other);
      if other != reader {
        JoinedPicks(steps, more, reader, other);
        OthersStay(QueryOf(rows, queries, other), steps, more, reader, other);
      }
    }
  }

  ghost predicate HasEligible(rows: seq<Row>, reader: nat) {
    exists i :: 0 <= i < |rows| && Eligible(rows[i], reader)
  }

  ghost predicate AllReaders(rows: seq<Row>, readers: seq<nat>) {
    forall i :: 0 <= i < |rows| && rows[i].reader.Some? && Eligible(rows[i], rows[i].reader.value) ==>
      rows[i].reader.value in readers
  }

  lemma WholeRun(before: Ledger, now: Ledger, directory: map<nat, Terminal>, readers: seq<nat>,
                 steps: seq<Step>, queries: map<nat, Query>)
    requires RunProgress(before, now, directory, readers, steps, queries)
    requires AllReaders(before.rows, readers)
    ensures FullRun(before, directory, steps, queries)
  {
    forall reader: nat | reader in directory && directory[reader].Complete()
      ensures var q := QueryOf(before.rows, queries, reader); Honest(before, steps, q) && FetchedAt(q, steps, reader)
    {
      assert WholeIfDone(before.rows, directory, readers, steps, queries, reader);
      assert HonestIfMade(before, steps, queries, reader) && NotYet(readers, steps, queries, reader);
      assert steps[..0] == [];
      if reader !in readers {
        assert ExactlyEligible(before.rows, reader, []);
      }
    }
  }
}
