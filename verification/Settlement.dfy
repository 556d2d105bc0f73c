/** Bank settlement: the ledger of e-money rows and settlement batches, what one commit of a
    settlement run does to it, and what holds at every commit point of any sequence of runs,
    whether they finish or abort, with Redis or without. */
module Settlements {
  import opened Text
  import opened Payments

  const MAX_PER_FILE := 999
  const QR_CARD_TYPE := 9
  const MAX_TOTAL := 9_999_999_999
  const MAX_INTEGER := 2_147_483_647      // of the batch's total column

  // ---------------------------------------------------------------- the ledger

  datatype Row = Row(reader: Option<nat>, status: DeductStatus, cardType: Option<int>, amount: int,
                     createdAt: int, payload: Option<string>, batch: Option<nat>)

  /** A reader's bank identity; the empty string stands for a missing one. */
  datatype Terminal = Terminal(mid: string, tid: string)
  {
    predicate Complete() { mid != "" && tid != "" }
  }

  datatype Batch = Batch(filename: string, day: nat, number: nat, count: nat, total: int)

  /** One commit of a run: a chunk of one reader's rows, in file order. */
  datatype Job = Job(reader: nat, terminal: Terminal, picks: seq<nat>, day: nat, time: nat,
                     answered: bool)      // whether Redis answered the INCR

  /** A file on disk, and which of all writes left it there. */
  datatype File = File(text: string, writer: nat)

  datatype Write = Write(job: Job, number: nat)

  datatype Ledger = Ledger(
    rows: seq<Row>, batches: seq<Batch>, counters: map<(nat, nat), nat>, files: map<string, File>,
    today: nat,
    jobs: seq<Job>,                       // history: the commit behind each batch
    writes: seq<Write>,                   // history: every file written, committed or not
    origin: seq<nat>)                     // history: the write behind each batch

  const BLANK := Ledger([], [], map[], map[], 0, [], [], [])

  /** Rows the bank settles: successful deductions of any card but QR. */
  predicate Qualifies(row: Row) {
    row.status.Success? && row.cardType != Some(QR_CARD_TYPE)
  }

  predicate Eligible(row: Row, reader: nat) {
    row.batch.None? && Qualifies(row) && row.reader == Some(reader)
  }

  predicate Distinct(picks: seq<nat>) {
    forall i, j :: 0 <= i < j < |picks| ==> picks[i] != picks[j]
  }

  predicate Within(picks: seq<nat>, n: nat) {
    forall i :: 0 <= i < |picks| ==> picks[i] < n
  }

  // ---------------------------------------------------------------- the file

  /** Day and time of day of the run in fixed-width digits, then the reader and the batch. */
  function GenerateFilename(day: nat, time: nat, terminal: Terminal, number: nat): string {
    ZeroFill(Decimal(day), 8) + ZeroFill(Decimal(time), 6) + ZeroFill(terminal.mid, 16)
    + ZeroFill(terminal.tid, 8) + "01" + ZeroFill(Decimal(number), 3) + ".txt"
  }

  function Body(payloads: seq<string>): string {
    if payloads == [] then "" else Upper(payloads[0]) + "\n" + Body(payloads[1..])
  }

  function BuildContent(payloads: seq<string>, total: int): Option<string> {
    if |payloads| > MAX_PER_FILE || total < 0 || total > MAX_TOTAL then None
    else Some(ZeroFill(Decimal(|payloads|), 3) + ZeroFill(Decimal(total), 10) + "\n" + Body(payloads))
  }

  function Payload(row: Row): string {
    if row.payload.Some? then row.payload.value else ""
  }

  function Payloads(rows: seq<Row>, picks: seq<nat>): (r: seq<string>)
    requires Within(picks, |rows|)
    ensures |r| == |picks|
  {
    seq(|picks|, i requires 0 <= i < |picks| => Payload(rows[picks[i]]))
  }

  // ---------------------------------------------------------------- one commit

  function Total(rows: seq<Row>, picks: seq<nat>): int
    requires Within(picks, |rows|)
  {
    if picks == [] then 0
    else Total(rows, picks[..|picks| - 1]) + rows[picks[|picks| - 1]].amount
  }

  function Link(rows: seq<Row>, picks: seq<nat>, batch: nat): (r: seq<Row>)
    requires Within(picks, |rows|)
    ensures |r| == |rows|
    decreases |picks|
  {
    if picks == [] then rows
    else
      var linked := Link(rows, picks[..|picks| - 1], batch);
      var last := picks[|picks| - 1];
      linked[last := linked[last].(batch := Some(batch))]
  }

  function Counter(counters: map<(nat, nat), nat>, reader: nat, day: nat): nat {
    if (reader, day) in counters then counters[(reader, day)] else 0
  }

  function Number(counters: map<(nat, nat), nat>, job: Job): nat {
    if job.answered then Counter(counters, job.reader, job.day) + 1 else 1
  }

  function Draw(counters: map<(nat, nat), nat>, job: Job): map<(nat, nat), nat> {
    if job.answered then counters[(job.reader, job.day) := Number(counters, job)] else counters
  }

  predicate Chunk(rows: seq<Row>, job: Job) {
    && 1 <= |job.picks| <= MAX_PER_FILE
    && Within(job.picks, |rows|) && Distinct(job.picks)
    && forall i :: 0 <= i < |job.picks| ==> Eligible(rows[job.picks[i]], job.reader)
  }

  /** A run names its files and counters by the day it started; it lasts less than a day. */
  predicate Timely(l: Ledger, job: Job) {
    job.day <= l.today <= job.day + 1
  }

  function FileContent(rows: seq<Row>, job: Job): Option<string>
    requires Within(job.picks, |rows|)
  {
    BuildContent(Payloads(rows, job.picks), Total(rows, job.picks))
  }

  predicate Ascii(text: string) {
    forall i :: 0 <= i < |text| ==> text[i] as int < 128
  }

  /** The file can be encoded and the batch's total fits its column. */
  predicate Storable(rows: seq<Row>, job: Job)
    requires Within(job.picks, |rows|)
  {
    var content := FileContent(rows, job);
    content.Some? && Ascii(content.value) && Total(rows, job.picks) <= MAX_INTEGER
  }

  datatype Step =
    | Insert(row: Row)                       // a deduction is recorded, not linked yet
    | CommitChunk(job: Job)                  // one chunk of a settlement run
    | Abandon(job: Job)                      // the run aborts after drawing a number
    | Break(job: Job, text: string)          // it aborts after writing some or all of the file
    | Expire(reader: nat, day: nat)          // a counter's 48 hours are over
    | Midnight

  predicate Enabled(l: Ledger, step: Step) {
    match step
    case Insert(row) => row.batch.None?
    case CommitChunk(job) => Chunk(l.rows, job) && Timely(l, job) && Storable(l.rows, job)
    case Abandon(job) => Timely(l, job)
    case Break(job, text) =>
      && Chunk(l.rows, job) && Timely(l, job)
      && FileContent(l.rows, job).Some? && text <= FileContent(l.rows, job).value
    case Expire(reader, day) => day + 2 <= l.today
    case Midnight => true
  }

  function NameOf(w: Write): string {
    GenerateFilename(w.job.day, w.job.time, w.job.terminal, w.number)
  }

  /** A number is drawn and a file written under it; an older file of that name is gone. */
  function WriteFile(l: Ledger, job: Job, text: string): Ledger {
    var w := Write(job, Number(l.counters, job));
    l.(counters := Draw(l.counters, job), files := l.files[NameOf(w) := File(text, |l.writes|)],
       writes := l.writes + [w])
  }

  /** The batch of the file just written is stored and its rows are linked. */
  function Stored(l: Ledger, job: Job, number: nat, total: int, name: string): Ledger
    requires Within(job.picks, |l.rows|) && l.writes != []
  {
    l.(rows := Link(l.rows, job.picks, |l.batches|),
       batches := l.batches + [Batch(name, job.day, number, |job.picks|, total)],
       jobs := l.jobs + [job], origin := l.origin + [|l.writes| - 1])
  }

  function CommitJob(l: Ledger, job: Job): Ledger
    requires Enabled(l, CommitChunk(job))
  {
    var w := Write(job, Number(l.counters, job));
    Stored(WriteFile(l, job, FileContent(l.rows, job).value), job, w.number, Total(l.rows, job.picks), NameOf(w))
  }

  function Next(l: Ledger, step: Step): Ledger {
    if !Enabled(l, step) then l
    else match step
      case Insert(row) => l.(rows := l.rows + [row])
      case CommitChunk(job) => CommitJob(l, job)
      case Abandon(job) => l.(counters := Draw(l.counters, job))
      case Break(job, text) => WriteFile(l, job, text)
      case Expire(reader, day) => l.(counters := l.counters - {(reader, day)})
      case Midnight => l.(today := l.today + 1)
  }

  function Run(l: Ledger, steps: seq<Step>): Ledger
    decreases |steps|
  {
    if steps == [] then l else Next(Run(l, steps[..|steps| - 1]), steps[|steps| - 1])
  }

  predicate AllEnabled(l: Ledger, steps: seq<Step>)
    decreases |steps|
  {
    steps == [] ||
    var n := |steps| - 1;
    AllEnabled(l, steps[..n]) && Enabled(Run(l, steps[..n]), steps[n])
  }

  // ---------------------------------------------------------------- linking

  lemma {:induction false} LinkAt(rows: seq<Row>, picks: seq<nat>, batch: nat)
    requires Within(picks, |rows|)
    ensures forall i :: 0 <= i < |rows| ==>
      Link(rows, picks, batch)[i] == if i in picks then rows[i].(batch := Some(batch)) else rows[i]
    decreases |picks|
  {
    if picks == [] {
    } else {
      var n := |picks| - 1;
      LinkAt(rows, picks[..n], batch);
      assert picks == picks[..n] + [picks[n]];
    }
  }

  function LinkedCount(rows: seq<Row>, batch: nat): nat {
    if rows == [] then 0
    else LinkedCount(rows[..|rows| - 1], batch)
         + if rows[|rows| - 1].batch == Some(batch) then 1 else 0
  }

  function LinkedSum(rows: seq<Row>, batch: nat): int {
    if rows == [] then 0
    else LinkedSum(rows[..|rows| - 1], batch)
         + if rows[|rows| - 1].batch == Some(batch) then rows[|rows| - 1].amount else 0
  }

  /** The amount of all rows linked to any batch. */
  function Settled(rows: seq<Row>): int {
    if rows == [] then 0
    else Settled(rows[..|rows| - 1])
         + if rows[|rows| - 1].batch.Some? then rows[|rows| - 1].amount else 0
  }

  function BatchTotals(batches: seq<Batch>): int {
    if batches == [] then 0 else BatchTotals(batches[..|batches| - 1]) + batches[|batches| - 1].total
  }

  lemma {:induction false} LinkOne(rows: seq<Row>, i: nat, batch: nat, other: nat)
    requires i < |rows| && rows[i].batch.None?
    ensures var rows' := rows[i := rows[i].(batch := Some(batch))];
      var mine := if other == batch then 1 else 0;
      && LinkedCount(rows', other) == LinkedCount(rows, other) + mine
      && LinkedSum(rows', other) == LinkedSum(rows, other) + mine * rows[i].amount
      && Settled(rows') == Settled(rows) + rows[i].amount
    decreases |rows|
  {
    var n := |rows| - 1;
    var rows' := rows[i := rows[i].(batch := Some(batch))];
    if i == n {
      assert rows'[..n] == rows[..n];
    } else {
      LinkOne(rows[..n], i, batch, other);
      assert rows'[..n] == rows[..n][i := rows[i].(batch := Some(batch))];
    }
  }

  predicate Unlinked(rows: seq<Row>, picks: seq<nat>)
    requires Within(picks, |rows|)
  {
    forall i :: 0 <= i < |picks| ==> rows[picks[i]].batch.None?
  }

  lemma LastIsFree(rows: seq<Row>, picks: seq<nat>, batch: nat)
    requires Within(picks, |rows|) && Distinct(picks) && picks != []
    ensures var n := |picks| - 1; Link(rows, picks[..n], batch)[picks[n]] == rows[picks[n]]
  {
    var n := |picks| - 1;
    LinkAt(rows, picks[..n], batch);
    assert picks[n] !in picks[..n];
  }

  /** Linking a chunk adds its size and total to its batch and to no other. */
  lemma {:induction false} LinkBooks(rows: seq<Row>, picks: seq<nat>, batch: nat, other: nat)
    requires Within(picks, |rows|) && Distinct(picks) && Unlinked(rows, picks)
    ensures var rows' := Link(rows, picks, batch);
      var mine := if other == batch then 1 else 0;
      && LinkedCount(rows', other) == LinkedCount(rows, other) + mine * |picks|
      && LinkedSum(rows', other) == LinkedSum(rows, other) + mine * Total(rows, picks)
      && Settled(rows') == Settled(rows) + Total(rows, picks)
    decreases |picks|
  {
    if picks == [] {
    } else {
      var n := |picks| - 1;
      var linked := Link(rows, picks[..n], batch);
      LinkBooks(rows, picks[..n], batch, other);
      LastIsFree(rows, picks, batch);
      LinkOne(linked, picks[n], batch, other);
    }
  }

  lemma AppendBooks(rows: seq<Row>, row: Row, other: nat)
    requires row.batch.None?
    ensures LinkedCount(rows + [row], other) == LinkedCount(rows, other)
    ensures LinkedSum(rows + [row], other) == LinkedSum(rows, other)
    ensures Settled(rows + [row]) == Settled(rows)
  {
    assert (rows + [row])[..|rows|] == rows;
  }

  lemma {:induction false} NoLinks(rows: seq<Row>, batch: nat)
    requires forall i :: 0 <= i < |rows| ==> rows[i].batch != Some(batch)
    ensures LinkedCount(rows, batch) == 0 && LinkedSum(rows, batch) == 0
    decreases |rows|
  {
    if rows == [] {
    } else {
      NoLinks(rows[..|rows| - 1], batch);
    }
  }

  // ---------------------------------------------------------------- the invariant

  /** The rows linked to batch b are exactly the chunk committed for it: at most 999 rows of one
      reader, all of them successful deductions that are not QR. */
  ghost predicate Membership(rows: seq<Row>, b: nat, job: Job) {
    && 1 <= |job.picks| <= 999
    && Within(job.picks, |rows|) && Distinct(job.picks)
    && (forall i :: 0 <= i < |rows| ==> (rows[i].batch == Some(b) <==> i in job.picks))
    && (forall i :: 0 <= i < |rows| && i in job.picks ==>
          Qualifies(rows[i]) && rows[i].reader == Some(job.reader))
  }

  /** The stored count and total are those of the linked rows, counted in the table. */
  ghost predicate Books(rows: seq<Row>, b: nat, batch: Batch) {
    && batch.count == LinkedCount(rows, b)
    && batch.total == LinkedSum(rows, b)
  }

  ghost predicate LinksKnown(rows: seq<Row>, n: nat) {
    forall i :: 0 <= i < |rows| && rows[i].batch.Some? ==> rows[i].batch.value < n
  }

  /** Batches stem from writes, in order. */
  ghost predicate Rooted(l: Ledger) {
    RootedIn(l.writes, l.batches, l.jobs, l.origin)
  }

  ghost predicate RootedIn(writes: seq<Write>, batches: seq<Batch>, jobs: seq<Job>, origin: seq<nat>) {
    && |jobs| == |batches| == |origin|
    && (forall b :: 0 <= b < |batches| ==>
          origin[b] < |writes| && RootOf(writes[origin[b]], batches[b], jobs[b]))
    && (forall b, c :: 0 <= b < c < |batches| ==> origin[b] < origin[c])
  }

  predicate RootOf(w: Write, batch: Batch, job: Job) {
    w.job == job && w.number == batch.number && NameOf(w) == batch.filename && batch.day == job.day
  }

  /** A later write, whether its run committed or not, took the name. */
  ghost predicate TakenAfter(writes: seq<Write>, name: string, n: nat) {
    exists w :: n < w < |writes| && NameOf(writes[w]) == name
  }

  /** On disk, every name holds the last write to it. */
  ghost predicate LastWrites(files: map<string, File>, writes: seq<Write>) {
    && (forall name :: name in files ==>
          files[name].writer < |writes| && NameOf(writes[files[name].writer]) == name)
    && (forall w :: 0 <= w < |writes| ==>
          NameOf(writes[w]) in files && w <= files[NameOf(writes[w])].writer)
  }

  /** The file under a batch's name is the one written for it. */
  ghost predicate Own(files: map<string, File>, batch: Batch, origin: nat) {
    batch.filename in files && files[batch.filename].writer == origin
  }

  /** It carries the batch's count, its total and its rows in order. */
  ghost predicate FileIs(rows: seq<Row>, files: map<string, File>, batch: Batch, job: Job) {
    && Within(job.picks, |rows|)
    && batch.count == |job.picks|
    && batch.filename in files
    && BuildContent(Payloads(rows, job.picks), batch.total) == Some(files[batch.filename].text)
  }

  ghost predicate Members(l: Ledger) {
    && |l.jobs| == |l.batches|
    && LinksKnown(l.rows, |l.batches|)
    && forall b: nat :: b < |l.batches| ==> Membership(l.rows, b, l.jobs[b])
  }

  ghost predicate Balanced(l: Ledger) {
    && (forall b: nat :: b < |l.batches| ==> Books(l.rows, b, l.batches[b]))
    && BatchTotals(l.batches) == Settled(l.rows)
  }

  ghost predicate Filed(l: Ledger) {
    && Rooted(l) && LastWrites(l.files, l.writes)
    && forall b: nat :: b < |l.batches| && Own(l.files, l.batches[b], l.origin[b]) ==>
         FileIs(l.rows, l.files, l.batches[b], l.jobs[b])
  }

  lemma MembershipKept(rows: seq<Row>, picks: seq<nat>, n: nat, b: nat, job: Job)
    requires Within(picks, |rows|) && Unlinked(rows, picks) && b < n && Membership(rows, b, job)
    ensures Membership(Link(rows, picks, n), b, job)
  {
    LinkAt(rows, picks, n);
  }

  lemma MembershipMade(rows: seq<Row>, n: nat, job: Job)
    requires Chunk(rows, job) && LinksKnown(rows, n)
    ensures Membership(Link(rows, job.picks, n), n, job)
    ensures LinksKnown(Link(rows, job.picks, n), n + 1)
  {
    LinkAt(rows, job.picks, n);
  }

  lemma MembershipAppend(rows: seq<Row>, row: Row, b: nat, job: Job)
    requires row.batch.None? && Membership(rows, b, job)
    ensures Membership(rows + [row], b, job)
  {
  }

  lemma ChunkKeepsMembers(l: Ledger, job: Job)
    requires Members(l) && Enabled(l, CommitChunk(job))
    ensures Members(CommitJob(l, job))
  {
    var n := |l.batches|;
    var (rows', jobs') := (Link(l.rows, job.picks, n), l.jobs + [job]);
    MembershipMade(l.rows, n, job);
    forall b: nat | b < n + 1 ensures Membership(rows', b, jobs'[b]) {
      if b < n { MembershipKept(l.rows, job.picks, n, b, l.jobs[b]); }
    }
  }

  lemma InsertKeepsMembers(l: Ledger, row: Row)
    requires Members(l) && row.batch.None?
    ensures Members(l.(rows := l.rows + [row]))
  {
    forall b: nat | b < |l.batches| ensures Membership(l.rows + [row], b, l.jobs[b]) {
      MembershipAppend(l.rows, row, b, l.jobs[b]);
    }
  }

  lemma StepKeepsMembers(l: Ledger, step: Step)
    requires Members(l)
    ensures Members(Next(l, step))
  {
    if Enabled(l, step) {
      match step
      case CommitChunk(job) => ChunkKeepsMembers(l, job);
      case Insert(row) => InsertKeepsMembers(l, row);
      case _ =>
    }
  }

  lemma ChunkKeepsBalance(l: Ledger, job: Job)
    requires Members(l) && Balanced(l) && Enabled(l, CommitChunk(job))
    ensures Balanced(CommitJob(l, job))
  {
    var (n, l') := (|l.batches|, CommitJob(l, job));
    NoLinks(l.rows, n);
    forall b: nat | b < n + 1 ensures Books(l'.rows, b, l'.batches[b]) {
      LinkBooks(l.rows, job.picks, n, b);
      if b < n { assert Books(l.rows, b, l.batches[b]); }
    }
    LinkBooks(l.rows, job.picks, n, n);
    assert l'.batches[..n] == l.batches;
  }

  lemma InsertKeepsBalance(l: Ledger, row: Row)
    requires Balanced(l) && row.batch.None?
    ensures Balanced(l.(rows := l.rows + [row]))
  {
    forall b: nat | b < |l.batches| ensures Books(l.rows + [row], b, l.batches[b]) {
      AppendBooks(l.rows, row, b);
      assert Books(l.rows, b, l.batches[b]);
    }
    AppendBooks(l.rows, row, 0);
  }

  lemma StepKeepsBalance(l: Ledger, step: Step)
    requires Members(l) && Balanced(l)
    ensures Balanced(Next(l, step))
  {
    if Enabled(l, step) {
      match step
      case CommitChunk(job) => ChunkKeepsBalance(l, job);
      case Insert(row) => InsertKeepsBalance(l, row);
      case _ =>
    }
  }

  lemma PayloadsKept(rows: seq<Row>, rows': seq<Row>, picks: seq<nat>)
    requires Within(picks, |rows|) && |rows| <= |rows'|
    requires forall i :: 0 <= i < |rows| ==> rows'[i].payload == rows[i].payload
    ensures Payloads(rows', picks) == Payloads(rows, picks)
  {
  }

  lemma FileKept(rows: seq<Row>, rows': seq<Row>, files: map<string, File>,
                 files': map<string, File>, batch: Batch, job: Job)
    requires FileIs(rows, files, batch, job) && |rows| <= |rows'|
    requires forall i :: 0 <= i < |rows| ==> rows'[i].payload == rows[i].payload
    requires batch.filename in files' && files'[batch.filename] == files[batch.filename]
    ensures FileIs(rows', files', batch, job)
  {
    PayloadsKept(rows, rows', job.picks);
  }

  lemma WriteKeepsLast(files: map<string, File>, writes: seq<Write>, w: Write, text: string)
    requires LastWrites(files, writes)
    ensures LastWrites(files[NameOf(w) := File(text, |writes|)], writes + [w])
  {
  }

  /** Writing a file leaves the others alone, and the own files of older batches. */
  lemma WriteKeepsFiles(l: Ledger, job: Job, text: string)
    requires Filed(l)
    ensures Filed(WriteFile(l, job, text))
  {
    var l' := WriteFile(l, job, text);
    WriteKeepsLast(l.files, l.writes, Write(job, Number(l.counters, job)), text);
    forall b: nat | b < |l'.batches| && Own(l'.files, l'.batches[b], l'.origin[b])
      ensures FileIs(l'.rows, l'.files, l'.batches[b], l'.jobs[b])
    {
      FileKept(l.rows, l'.rows, l.files, l'.files, l.batches[b], l.jobs[b]);
    }
  }

  lemma WriteRooted(writes: seq<Write>, batches: seq<Batch>, jobs: seq<Job>, origin: seq<nat>, w: Write)
    requires RootedIn(writes, batches, jobs, origin)
    ensures RootedIn(writes + [w], batches, jobs, origin)
  {
  }

  lemma BatchRooted(writes: seq<Write>, batches: seq<Batch>, jobs: seq<Job>, origin: seq<nat>, n: nat,
                    batch: Batch, job: Job)
    requires RootedIn(writes, batches, jobs, origin) && n < |writes| && RootOf(writes[n], batch, job)
    requires forall b :: 0 <= b < |origin| ==> origin[b] < n
    ensures RootedIn(writes, batches + [batch], jobs + [job], origin + [n])
  {
  }

  lemma CommitRooted(l: Ledger, job: Job)
    requires Rooted(l) && Enabled(l, CommitChunk(job))
    ensures Rooted(CommitJob(l, job))
  {
    var (n, l') := (|l.batches|, CommitJob(l, job));
    WriteRooted(l.writes, l.batches, l.jobs, l.origin, l'.writes[|l.writes|]);
    BatchRooted(l'.writes, l.batches, l.jobs, l.origin, |l.writes|, l'.batches[n], job);
  }

  lemma NewFileIs(l: Ledger, job: Job)
    requires Enabled(l, CommitChunk(job)) && |l.jobs| == |l.batches|
    ensures var (n, l') := (|l.batches|, CommitJob(l, job));
      FileIs(l'.rows, l'.files, l'.batches[n], l'.jobs[n])
  {
    var (n, l') := (|l.batches|, CommitJob(l, job));
    LinkAt(l.rows, job.picks, n);
    PayloadsKept(l.rows, l'.rows, job.picks);
    assert l'.batches[n].total == Total(l.rows, job.picks);
  }

  lemma LinkKeepsFile(rows: seq<Row>, picks: seq<nat>, n: nat, files: map<string, File>, batch: Batch, job: Job)
    requires Within(picks, |rows|) && FileIs(rows, files, batch, job)
    ensures FileIs(Link(rows, picks, n), files, batch, job)
  {
    LinkAt(rows, picks, n);
    FileKept(rows, Link(rows, picks, n), files, files, batch, job);
  }

  lemma CommitKeepsFiles(l: Ledger, job: Job)
    requires Filed(l) && Enabled(l, CommitChunk(job))
    ensures Filed(CommitJob(l, job))
  {
    var (n, l') := (|l.batches|, CommitJob(l, job));
    var written := WriteFile(l, job, FileContent(l.rows, job).value);
    WriteKeepsFiles(l, job, FileContent(l.rows, job).value);
    CommitRooted(l, job);
    NewFileIs(l, job);
    forall b: nat | b < n + 1 && Own(l'.files, l'.batches[b], l'.origin[b])
      ensures FileIs(l'.rows, l'.files, l'.batches[b], l'.jobs[b])
    {
      if b < n {
        assert Own(written.files, written.batches[b], written.origin[b]);
        LinkKeepsFile(l.rows, job.picks, n, written.files, l.batches[b], l.jobs[b]);
      }
    }
  }

  lemma InsertKeepsFiles(l: Ledger, row: Row)
    requires Filed(l)
    ensures Filed(l.(rows := l.rows + [row]))
  {
    forall b: nat | b < |l.batches| && Own(l.files, l.batches[b], l.origin[b])
      ensures FileIs(l.rows + [row], l.files, l.batches[b], l.jobs[b])
    {
      FileKept(l.rows, l.rows + [row], l.files, l.files, l.batches[b], l.jobs[b]);
    }
  }

  lemma StepKeepsFiles(l: Ledger, step: Step)
    requires Filed(l)
    ensures Filed(Next(l, step))
  {
    if Enabled(l, step) {
      match step
      case CommitChunk(job) => CommitKeepsFiles(l, job);
      case Break(job, text) => WriteKeepsFiles(l, job, text);
      case Insert(row) => InsertKeepsFiles(l, row);
      case _ =>
    }
  }

  /** On disk a batch's file is its own if and only if no later write, committed or not, took its
      name. */
  lemma OwnFileIff(steps: seq<Step>, b: nat)
    requires b < |Run(BLANK, steps).batches|
    ensures var l := Run(BLANK, steps);
      && b < |l.origin|
      && (Own(l.files, l.batches[b], l.origin[b])
          <==> !TakenAfter(l.writes, l.batches[b].filename, l.origin[b]))
  {
    var l := Run(BLANK, steps);
    EveryCommitPoint(steps);
    var (name, n) := (l.batches[b].filename, l.origin[b]);
    assert NameOf(l.writes[n]) == name;
    if l.files[name].writer > n {
      assert NameOf(l.writes[l.files[name].writer]) == name;
    }
  }

  /** At every commit point of any sequence of runs: each batch holds 1 to 999 rows of one reader,
      all of them successful non-QR deductions; its stored count and total are those of the rows
      linked to it and, while the file is its own, those written in its file; batch totals add up to the linked amounts. */
  lemma {:induction false} EveryCommitPoint(steps: seq<Step>)
    ensures var l := Run(BLANK, steps); Members(l) && Balanced(l) && Filed(l)
    decreases |steps|
  {
    if steps == [] {
    } else {
      var n := |steps| - 1;
      EveryCommitPoint(steps[..n]);
      StepKeepsMembers(Run(BLANK, steps[..n]), steps[n]);
      StepKeepsBalance(Run(BLANK, steps[..n]), steps[n]);
      StepKeepsFiles(Run(BLANK, steps[..n]), steps[n]);
    }
  }

  /** Only successful non-QR deductions are ever linked; a card charged through a correction never
      is. */
  lemma LinkedRowsQualify(steps: seq<Step>, i: nat)
    requires i < |Run(BLANK, steps).rows|
    ensures var row := Run(BLANK, steps).rows[i];
      row.batch.Some? ==> row.status.Success? && row.cardType != Some(9) && row.reader.Some?
  {
    var l := Run(BLANK, steps);
    EveryCommitPoint(steps);
    if l.rows[i].batch.Some? {
      var b := l.rows[i].batch.value;
      assert Membership(l.rows, b, l.jobs[b]);
    }
  }

  // ---------------------------------------------------------------- links are final

  /** Rows stay, and once linked they keep their batch. */
  ghost predicate Kept(rows: seq<Row>, rows': seq<Row>) {
    && |rows| <= |rows'|
    && forall i :: 0 <= i < |rows| ==>
         && rows'[i].(batch := rows[i].batch) == rows[i]
         && (rows[i].batch.Some? ==> rows'[i].batch == rows[i].batch)
  }

  lemma StepKeepsLinks(l: Ledger, step: Step)
    ensures Kept(l.rows, Next(l, step).rows)
  {
    if step.CommitChunk? && Enabled(l, step) {
      LinkAt(l.rows, step.job.picks, |l.batches|);
    }
  }

  /** From any state on, a row's batch link is set at most once and never changes, and its other
      fields never change. */
  lemma {:induction false} LinksAreFinal(l: Ledger, steps: seq<Step>)
    ensures Kept(l.rows, Run(l, steps).rows)
    decreases |steps|
  {
    if steps == [] {
    } else {
      var n := |steps| - 1;
      LinksAreFinal(l, steps[..n]);
      StepKeepsLinks(Run(l, steps[..n]), steps[n]);
    }
  }

  // ---------------------------------------------------------------- batch numbers

  predicate Covers(counters: map<(nat, nat), nat>, today: nat, w: Write) {
    w.job.answered && today <= w.job.day + 1 ==> w.number <= Counter(counters, w.job.reader, w.job.day)
  }

  /** Every number drawn from Redis is covered by its counter, unless the counter may have expired. */
  ghost predicate Covered(l: Ledger) {
    forall w :: 0 <= w < |l.writes| ==> Covers(l.counters, l.today, l.writes[w])
  }

  predicate SameSeries(a: Job, b: Job) {
    a.answered && b.answered && a.reader == b.reader && a.day == b.day
  }

  ghost predicate Increasing(writes: seq<Write>) {
    forall v, w :: 0 <= v < w < |writes| && SameSeries(writes[v].job, writes[w].job) ==>
      writes[v].number < writes[w].number
  }

  lemma DrawCovers(counters: map<(nat, nat), nat>, today: nat, drawn: Job, w: Write)
    requires Covers(counters, today, w)
    ensures Covers(Draw(counters, drawn), today, w)
  {
  }

  lemma ExpiryCovers(counters: map<(nat, nat), nat>, today: nat, reader: nat, day: nat, w: Write)
    requires Covers(counters, today, w) && day + 2 <= today
    ensures Covers(counters - {(reader, day)}, today, w)
  {
  }

  /** A draw is above every number of its series. */
  lemma DrawIsAbove(counters: map<(nat, nat), nat>, today: nat, drawn: Job, w: Write)
    requires Covers(counters, today, w) && SameSeries(w.job, drawn) && today <= drawn.day + 1
    ensures w.number < Number(counters, drawn)
  {
  }

  lemma WriteKeepsNumbers(l: Ledger, job: Job, text: string)
    requires Covered(l) && Increasing(l.writes) && Timely(l, job)
    ensures Covered(WriteFile(l, job, text)) && Increasing(WriteFile(l, job, text).writes)
  {
    var (n, l') := (|l.writes|, WriteFile(l, job, text));
    forall w | 0 <= w <= n ensures Covers(l'.counters, l'.today, l'.writes[w]) {
      if w < n { DrawCovers(l.counters, l.today, job, l.writes[w]); }
    }
    forall v, w | 0 <= v < w <= n && SameSeries(l'.writes[v].job, l'.writes[w].job)
      ensures l'.writes[v].number < l'.writes[w].number
    {
      if w == n { DrawIsAbove(l.counters, l.today, job, l.writes[v]); }
    }
  }

  lemma StepKeepsNumbers(l: Ledger, step: Step)
    requires Covered(l) && Increasing(l.writes)
    ensures Covered(Next(l, step)) && Increasing(Next(l, step).writes)
  {
    if Enabled(l, step) {
      match step
      case CommitChunk(job) => WriteKeepsNumbers(l, job, FileContent(l.rows, job).value);
      case Break(job, text) => WriteKeepsNumbers(l, job, text);
      case Abandon(job) =>
        forall w | 0 <= w < |l.writes| ensures Covers(Draw(l.counters, job), l.today, l.writes[w]) {
          DrawCovers(l.counters, l.today, job, l.writes[w]);
        }
      case Expire(reader, day) =>
        forall w | 0 <= w < |l.writes|
          ensures Covers(l.counters - {(reader, day)}, l.today, l.writes[w])
        {
          ExpiryCovers(l.counters, l.today, reader, day, l.writes[w]);
        }
      case _ =>
    }
  }

  lemma {:induction false} NumbersCovered(steps: seq<Step>)
    ensures var l := Run(BLANK, steps); Covered(l) && Increasing(l.writes)
    decreases |steps|
  {
    if steps == [] {
    } else {
      var n := |steps| - 1;
      NumbersCovered(steps[..n]);
      StepKeepsNumbers(Run(BLANK, steps[..n]), steps[n]);
    }
  }

  /** With Redis answering, the numbers of a reader strictly increase within a day, over any number of
      runs, aborted ones and files without a batch included, and although counters expire after 48
      hours. */
  lemma NumbersIncrease(steps: seq<Step>, b: nat, c: nat)
    requires b < c < |Run(BLANK, steps).batches| && |Run(BLANK, steps).jobs| == |Run(BLANK, steps).batches|
    requires SameSeries(Run(BLANK, steps).jobs[b], Run(BLANK, steps).jobs[c])
    ensures Run(BLANK, steps).batches[b].number < Run(BLANK, steps).batches[c].number
    ensures Increasing(Run(BLANK, steps).writes)
  {
    var l := Run(BLANK, steps);
    EveryCommitPoint(steps);
    NumbersCovered(steps);
    assert RootOf(l.writes[l.origin[b]], l.batches[b], l.jobs[b]);
    assert RootOf(l.writes[l.origin[c]], l.batches[c], l.jobs[c]);
  }

  // ---------------------------------------------------------------- filenames

  lemma PaddedInjective(m: nat, n: nat, width: nat)
    ensures ZeroFill(Decimal(m), width) == ZeroFill(Decimal(n), width) <==> m == n
  {
    PaddedRoundTrip(m, width);
    PaddedRoundTrip(n, width);
  }

  lemma SplitEqual(a: string, b: string, c: string, d: string)
    requires |a| == |c|
    ensures a + b == c + d <==> a == c && b == d
  {
    if a + b == c + d {
      assert (a + b)[..|a|] == a && (c + d)[..|c|] == c;
      assert (a + b)[|a|..] == b && (c + d)[|c|..] == d;
    }
  }

  predicate FitsClock(day: nat, time: nat) {
    |Decimal(day)| <= 8 && |Decimal(time)| <= 6
  }

  predicate FitsFields(terminal: Terminal) {
    |terminal.mid| <= 16 && |terminal.tid| <= 8
  }

  /** Two names are equal exactly when the second of the run, the padded identities and the batch
      numbers are. */
  lemma FilenameEqual(day: nat, time: nat, t: Terminal, number: nat,
                      day': nat, time': nat, t': Terminal, number': nat)
    requires FitsClock(day, time) && FitsClock(day', time') && FitsFields(t) && FitsFields(t')
    ensures GenerateFilename(day, time, t, number) == GenerateFilename(day', time', t', number')
       <==> day == day' && time == time' && ZeroFill(t.mid, 16) == ZeroFill(t'.mid, 16)
            && ZeroFill(t.tid, 8) == ZeroFill(t'.tid, 8) && number == number'
  {
    var (a, a') := (ZeroFill(Decimal(day), 8), ZeroFill(Decimal(day'), 8));
    var (b, b') := (ZeroFill(Decimal(time), 6), ZeroFill(Decimal(time'), 6));
    var (c, c') := (ZeroFill(t.mid, 16), ZeroFill(t'.mid, 16));
    var (d, d') := (ZeroFill(t.tid, 8), ZeroFill(t'.tid, 8));
    var (e, e') := (ZeroFill(Decimal(number), 3), ZeroFill(Decimal(number'), 3));
    FilenameParts(a, b, c, d, e, a', b', c', d', e');
    PaddedInjective(day, day', 8);
    PaddedInjective(time, time', 6);
    PaddedInjective(number, number', 3);
  }

  /** Where the parts of a name stand: the clock's fourteen digits, the identity padded to sixteen and
      eight characters, "01", and at least three digits of the batch's number. */
  lemma FilenameLayout(day: nat, time: nat, t: Terminal, number: nat)
    requires FitsClock(day, time) && FitsFields(t) && number < 1000
    ensures var name := GenerateFilename(day, time, t, number);
      && |name| == 47 && name[38..40] == "01" && name[43..] == ".txt"
      && AllDigits(name[..8]) && ParseDecimal(name[..8]) == day
      && AllDigits(name[8..14]) && ParseDecimal(name[8..14]) == time
      && name[14..30] == Zeros(16 - |t.mid|) + t.mid && name[30..38] == Zeros(8 - |t.tid|) + t.tid
      && AllDigits(name[40..43]) && ParseDecimal(name[40..43]) == number
  {
    PaddedRoundTrip(day, 8);
    PaddedRoundTrip(time, 6);
    PaddedRoundTrip(number, 3);
    DecimalWidth(number, 3);
    PartsStand(ZeroFill(Decimal(day), 8), ZeroFill(Decimal(time), 6), ZeroFill(t.mid, 16),
               ZeroFill(t.tid, 8), ZeroFill(Decimal(number), 3));
  }

  lemma PartsStand(a: string, b: string, c: string, d: string, e: string)
    requires |a| == 8 && |b| == 6 && |c| == 16 && |d| == 8 && |e| == 3
    ensures var name := a + b + c + d + "01" + e + ".txt";
      && |name| == 47 && name[..8] == a && name[8..14] == b && name[14..30] == c && name[30..38] == d
      && name[38..40] == "01" && name[40..43] == e && name[43..] == ".txt"
  {
  }

  /** A content is refused if and only if it has more than 999 lines or its total does not fit ten
      digits. */
  lemma ContentRefusedIff(payloads: seq<string>, total: int)
    ensures BuildContent(payloads, total).None? <==> |payloads| > 999 || total < 0 || total > 9_999_999_999
  {
  }

  /** What a commit stores: the next number of the reader's day, counted from 1, or 1 without Redis; the
      chunk's size and total; and the links of its rows, which change in nothing else. */
  lemma BatchStored(l: Ledger, job: Job)
    requires Enabled(l, CommitChunk(job))
    ensures var (l', key) := (Next(l, CommitChunk(job)), (job.reader, job.day));
      && |l'.batches| == |l.batches| + 1 && l.batches <= l'.batches
      && var batch := l'.batches[|l.batches|];
      && batch.number == (if job.answered && key in l.counters then l.counters[key] + 1 else 1)
      && l'.counters == (if job.answered then l.counters[key := batch.number] else l.counters)
      && batch.count == |job.picks| && batch.total == Total(l.rows, job.picks) && batch.day == job.day
      && batch.filename == GenerateFilename(job.day, job.time, job.terminal, batch.number)
      && |l'.rows| == |l.rows|
      && forall i :: 0 <= i < |l.rows| ==>
           l'.rows[i] == l.rows[i].(batch := if i in job.picks then Some(|l.batches|) else l.rows[i].batch)
  {
    LinkAt(l.rows, job.picks, |l.batches|);
  }

  /** What any other step does; a chunk that fails leaves the rows and batches alone. */
  lemma OtherStepsStore(l: Ledger, step: Step)
    requires Enabled(l, step) && !step.CommitChunk?
    ensures var l' := Next(l, step);
      && l'.batches == l.batches && l'.rows == l.rows + (if step.Insert? then [step.row] else [])
      && l'.today == l.today + (if step.Midnight? then 1 else 0)
      && l'.files == (if step.Break? then
                        l.files[GenerateFilename(step.job.day, step.job.time, step.job.terminal,
                                                 Number(l.counters, step.job)) := File(step.text, |l.writes|)]
                      else l.files)
      && l'.counters == match step
                        case Abandon(job) => Draw(l.counters, job)
                        case Break(job, _) => Draw(l.counters, job)
                        case Expire(reader, day) => l.counters - {(reader, day)}
                        case _ => l.counters
  {
    assert l.rows + [] == l.rows;
  }

  /** Whatever the state, a day may end and a deduction may be recorded; a counter lasts two days, so
      it expires only when the day it counts is over. */
  lemma OthersGoOn(l: Ledger, row: Row, reader: nat, day: nat)
    ensures Enabled(l, Midnight) && (row.batch.None? ==> Enabled(l, Insert(row)))
    ensures Enabled(l, Step.Expire(reader, day)) <==> day + 2 <= l.today
  {
  }

  lemma FilenameParts(a: string, b: string, c: string, d: string, e: string,
                      a': string, b': string, c': string, d': string, e': string)
    requires |a| == |a'| && |b| == |b'| && |c| == |c'| && |d| == |d'|
    ensures a + b + c + d + "01" + e + ".txt" == a' + b' + c' + d' + "01" + e' + ".txt"
       <==> a == a' && b == b' && c == c' && d == d' && e == e'
  {
    var (w, w') := (a + b + c + d + "01" + e, a' + b' + c' + d' + "01" + e');
    if w + ".txt" == w' + ".txt" {
      assert |w| == |w'|;
      SplitEqual(w, ".txt", w', ".txt");
      SplitEqual(a + b + c + d + "01", e, a' + b' + c' + d' + "01", e');
      SplitEqual(a + b + c + d, "01", a' + b' + c' + d', "01");
      SplitEqual(a + b + c, d, a' + b' + c', d');
      SplitEqual(a + b, c, a' + b', c');
      SplitEqual(a, b, a', b');
    }
  }

  predicate Fits(job: Job) {
    job.answered && FitsFields(job.terminal) && FitsClock(job.day, job.time)
  }

  /** With Redis answering, no two writes of a reader share a filename. */
  lemma FilenamesDistinct(steps: seq<Step>, v: nat, w: nat)
    requires v < w < |Run(BLANK, steps).writes|
    requires var (x, y) := (Run(BLANK, steps).writes[v].job, Run(BLANK, steps).writes[w].job);
      Fits(x) && Fits(y) && x.reader == y.reader
    ensures NameOf(Run(BLANK, steps).writes[v]) != NameOf(Run(BLANK, steps).writes[w])
  {
    var l := Run(BLANK, steps);
    var (x, y) := (l.writes[v], l.writes[w]);
    NumbersCovered(steps);
    FilenameEqual(x.job.day, x.job.time, x.job.terminal, x.number,
                  y.job.day, y.job.time, y.job.terminal, y.number);
    if x.job.day == y.job.day { assert SameSeries(x.job, y.job); }
  }

  predicate SameIdentity(a: Terminal, b: Terminal) {
    ZeroFill(a.mid, 16) == ZeroFill(b.mid, 16) && ZeroFill(a.tid, 8) == ZeroFill(b.tid, 8)
  }

  /** Redis answered for every file and readers have their own identities at the bank. */
  ghost predicate WellNumbered(writes: seq<Write>) {
    && (forall w :: 0 <= w < |writes| ==> Fits(writes[w].job))
    && forall v, w :: 0 <= v < w < |writes| && SameIdentity(writes[v].job.terminal, writes[w].job.terminal) ==>
         writes[v].job.reader == writes[w].job.reader
  }

  /** Then every batch's file on disk is its own, at all times. */
  lemma RedisKeepsFilesOwn(steps: seq<Step>, b: nat)
    requires b < |Run(BLANK, steps).batches| && WellNumbered(Run(BLANK, steps).writes)
    ensures var l := Run(BLANK, steps);
      b < |l.origin| && Own(l.files, l.batches[b], l.origin[b])
  {
    var l := Run(BLANK, steps);
    OwnFileIff(steps, b);
    EveryCommitPoint(steps);
    var v := l.origin[b];
    assert RootOf(l.writes[v], l.batches[b], l.jobs[b]);
    forall w | v < w < |l.writes| ensures NameOf(l.writes[w]) != l.batches[b].filename {
      var (x, y) := (l.writes[v], l.writes[w]);
      if SameIdentity(x.job.terminal, y.job.terminal) {
        FilenamesDistinct(steps, v, w);
      } else {
        FilenameEqual(x.job.day, x.job.time, x.job.terminal, x.number,
                      y.job.day, y.job.time, y.job.terminal, y.number);
      }
    }
  }

  /** Without Redis it need not be: a chunk whose batch then cannot be stored has already replaced the
      file of the chunk before it, and that batch's name is nobody else's. */
  lemma BrokenChunkOverwrites(l: Ledger, first: Job, second: Job, text: string)
    requires Enabled(l, CommitChunk(first)) && Enabled(CommitJob(l, first), Break(second, text))
    requires !first.answered && !second.answered && first.terminal == second.terminal
    requires first.day == second.day && first.time == second.time
    ensures var (n, l') := (|l.batches|, WriteFile(CommitJob(l, first), second, text));
      && |l'.batches| == n + 1 && l'.batches[n].filename in l'.files
      && !Own(l'.files, l'.batches[n], |l.writes|)
      && l'.files[l'.batches[n].filename].text == text
  {
  }

  // ---------------------------------------------------------------- reading a file back

  datatype Document = Document(count: nat, total: int, lines: seq<string>)

  /** Text cut at every newline; what follows the last one is dropped. */
  function Lines(s: string): seq<string> {
    if s == "" then []
    else
      var rest := Lines(s[1..]);
      if s[0] == '\n' then [""] + rest
      else if rest == [] then []
      else [[s[0]] + rest[0]] + rest[1..]
  }

  lemma {:induction false} LinesOfLine(line: string, rest: string)
    requires OneLine(line)
    ensures Lines(line + "\n" + rest) == [line] + Lines(rest)
    decreases |line|
  {
    var s := line + "\n" + rest;
    if line == "" {
      assert s[1..] == rest;
    } else {
      assert s[1..] == line[1..] + "\n" + rest;
      LinesOfLine(line[1..], rest);
      assert [line[0]] + line[1..] == line;
    }
  }

  function Uppers(payloads: seq<string>): seq<string> {
    seq(|payloads|, i requires 0 <= i < |payloads| => Upper(payloads[i]))
  }

  lemma UpperOneLine(s: string)
    requires OneLine(s)
    ensures OneLine(Upper(s))
  {
  }

  lemma UppersOfFirst(payloads: seq<string>)
    requires payloads != []
    ensures Uppers(payloads) == [Upper(payloads[0])] + Uppers(payloads[1..])
  {
  }

  lemma {:induction false} LinesOfBody(payloads: seq<string>)
    requires OneLineEach(payloads)
    ensures Lines(Body(payloads)) == Uppers(payloads)
    decreases |payloads|
  {
    if payloads == [] {
    } else {
      UpperOneLine(payloads[0]);
      LinesOfLine(Upper(payloads[0]), Body(payloads[1..]));
      LinesOfBody(payloads[1..]);
      UppersOfFirst(payloads);
    }
  }

  predicate HasHeader(s: string) {
    && |s| >= 14 && AllDigits(s[..3]) && AllDigits(s[3..13])
    && s[13] == '\n' && s[|s| - 1] == '\n'
  }

  lemma {:induction false} BodyEnds(payloads: seq<string>)
    ensures payloads == [] ==> Body(payloads) == ""
    ensures payloads != [] ==> Body(payloads) != "" && Body(payloads)[|Body(payloads)| - 1] == '\n'
    decreases |payloads|
  {
    if payloads != [] {
      BodyEnds(payloads[1..]);
      var line := Upper(payloads[0]) + "\n";
      assert line[|line| - 1] == '\n';
      assert Body(payloads) == line + Body(payloads[1..]);
    }
  }

  /** A row without a payload gets an empty line. */
  lemma PayloadsOfRows(rows: seq<Row>, picks: seq<nat>, k: nat)
    requires Within(picks, |rows|) && k < |picks|
    ensures var payload := rows[picks[k]].payload;
      Payloads(rows, picks)[k] == if payload.Some? then payload.value else ""
  {
  }

  /** How the bank reads a file: three digits, ten digits, and one line a row, each with its end. */
  function ReadContent(s: string): Option<Document> {
    if !HasHeader(s) then None
    else Some(Document(ParseDecimal(s[..3]), ParseDecimal(s[3..13]), Lines(s[14..])))
  }

  lemma TenDigits(total: nat)
    requires total <= MAX_TOTAL
    ensures |Decimal(total)| <= 10
  {
    assert Pow10(5) == 100_000;
    assert Pow10(10) == 10_000_000_000;
    DecimalWidth(total, 10);
  }

  lemma ThreeDigits(count: nat)
    requires count <= MAX_PER_FILE
    ensures |Decimal(count)| <= 3
  {
    assert Pow10(3) == 1000;
    DecimalWidth(count, 3);
  }

  lemma HeaderParts(a: string, b: string, body: string)
    requires |a| == 3 && |b| == 10
    ensures var s := a + b + "\n" + body;
      |s| >= 14 && s[..3] == a && s[3..13] == b && s[13] == '\n' && s[14..] == body
  {
  }

  /** A file that can be built at all reads back as its number of rows, its total and the rows'
      payloads in upper case, in order. */
  lemma ContentReadsBack(payloads: seq<string>, total: int)
    requires BuildContent(payloads, total).Some? && OneLineEach(payloads)
    ensures ReadContent(BuildContent(payloads, total).value)
         == Some(Document(|payloads|, total, Uppers(payloads)))
  {
    var (a, b) := (ZeroFill(Decimal(|payloads|), 3), ZeroFill(Decimal(total), 10));
    ThreeDigits(|payloads|);
    TenDigits(total);
    PaddedRoundTrip(|payloads|, 3);
    PaddedRoundTrip(total, 10);
    var s := BuildContent(payloads, total).value;
    HeaderParts(a, b, Body(payloads));
    assert s == a + b + "\n" + Body(payloads);
    BodyEnds(payloads);
    assert s[|s| - 1] == '\n';
    LinesOfBody(payloads);
  }

  /** A batch's own file reads back as the batch's stored count and total and the linked rows'
      payloads in the order they were committed; it is its own unless a later write took its name. */
  lemma FileMatchesBatch(steps: seq<Step>, b: nat)
    requires var l := Run(BLANK, steps);
      && b < |l.batches| && b < |l.origin| && !TakenAfter(l.writes, l.batches[b].filename, l.origin[b])
      && OneLineEach(CommittedPayloads(l, b))
    ensures var l := Run(BLANK, steps);
      && l.batches[b].filename in l.files
      && ReadContent(l.files[l.batches[b].filename].text)
         == Some(Document(LinkedCount(l.rows, b), LinkedSum(l.rows, b), Uppers(CommittedPayloads(l, b))))
  {
    var l := Run(BLANK, steps);
    EveryCommitPoint(steps);
    OwnFileIff(steps, b);
    assert FileIs(l.rows, l.files, l.batches[b], l.jobs[b]);
    assert Books(l.rows, b, l.batches[b]);
    ContentReadsBack(Payloads(l.rows, l.jobs[b].picks), l.batches[b].total);
  }

  function CommittedPayloads(l: Ledger, b: nat): seq<string> {
    if b < |l.jobs| && Within(l.jobs[b].picks, |l.rows|) then Payloads(l.rows, l.jobs[b].picks) else []
  }
}
