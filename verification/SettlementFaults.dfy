/** When a settlement run raises: which step ends it, and what stands behind that step. */
module SettlementFaults {
  import opened Text
  import opened Settlements
  import opened SettlementRuns

  /** What goes wrong while a chunk is written and committed: nothing, the disk after some characters,
      or the database. */
  datatype Fault = NoFault | DiskFails(kept: nat) | CommitFails

  /** What a run is started with, and what will go wrong by the number of the batch at hand. */
  datatype Plan = Plan(directory: map<nat, Terminal>, day: nat, time: nat, answering: set<nat>,
                       faults: map<nat, Fault>)

  function FaultAt(faults: map<nat, Fault>, batch: nat): Fault {
    if batch in faults then faults[batch] else NoFault
  }

  predicate Fails(step: Step) { step.Abandon? || step.Break? }

  predicate Calm(steps: seq<Step>) {
    forall k :: 0 <= k < |steps| ==> !Fails(steps[k])
  }

  /** The first failure is the end. */
  predicate EndsBy(steps: seq<Step>, ok: bool) {
    if ok then Calm(steps)
    else steps != [] && Fails(steps[|steps| - 1]) && Calm(steps[..|steps| - 1])
  }

  /** The chunk is one of an identified reader, named by the day and time of the run and numbered by
      Redis if that answers. */
  predicate Planned(plan: Plan, job: Job, batch: nat) {
    && job.reader in plan.directory && job.terminal == plan.directory[job.reader]
    && job.terminal.mid != "" && job.terminal.tid != ""
    && job.day == plan.day && job.time == plan.time && (job.answered <==> batch in plan.answering)
  }

  /** A chunk is committed if nothing goes wrong with it and it can be stored, and fails otherwise:
      before the file is opened if it has no content, and after it is written if only the database or
      the total's column is in the way. */
  predicate Judged(l: Ledger, step: Step, fault: Fault)
    requires JobStep(step)
  {
    && Chunk(l.rows, step.job)
    && JudgedBy(FileContent(l.rows, step.job), Total(l.rows, step.job.picks), step, fault)
  }

  predicate Beyond7Bits(text: string) {
    exists i :: 0 <= i < |text| && text[i] as int > 127
  }

  predicate JudgedBy(content: Option<string>, total: int, step: Step, fault: Fault) {
    && (Fails(step)
        <==> !fault.NoFault? || content.None? || Beyond7Bits(content.value) || total > 2_147_483_647)
    && (step.Abandon? <==> content.None?)
    && (step.Break? && !fault.DiskFails? && content.Some? && Ascii(content.value) ==> step.text == content.value)
  }

  predicate Justified(l: Ledger, step: Step, plan: Plan) {
    JobStep(step) ==>
      Planned(plan, step.job, |l.batches|) && Judged(l, step, FaultAt(plan.faults, |l.batches|))
  }

  /** Every step of a run is, in the state that it finds. */
  ghost predicate AllJustified(l: Ledger, steps: seq<Step>, plan: Plan)
    decreases |steps|
  {
    steps == [] ||
    var n := |steps| - 1;
    AllJustified(l, steps[..n], plan) && Justified(Run(l, steps[..n]), steps[n], plan)
  }

  /** Whatever step of the run one looks at: a chunk stands for its own fault or its own text or total. */
  lemma {:induction false} EachJustified(l: Ledger, steps: seq<Step>, plan: Plan, k: nat)
    requires AllJustified(l, steps, plan) && k < |steps|
    ensures Justified(Run(l, steps[..k]), steps[k], plan)
    decreases |steps|
  {
    var n := |steps| - 1;
    if k < n {
      EachJustified(l, steps[..n], plan, k);
      assert steps[..n][..k] == steps[..k];
    }
  }

  lemma JustifiedSnoc(l: Ledger, steps: seq<Step>, step: Step, plan: Plan)
    ensures AllJustified(l, steps + [step], plan)
       <==> AllJustified(l, steps, plan) && Justified(Run(l, steps), step, plan)
  {
    assert (steps + [step])[..|steps|] == steps;
  }

  lemma {:induction false} JustifiedConcat(l: Ledger, steps: seq<Step>, more: seq<Step>, plan: Plan)
    requires AllJustified(l, steps, plan) && AllJustified(Run(l, steps), more, plan)
    ensures AllJustified(l, steps + more, plan)
    decreases |more|
  {
    if more == [] {
      assert steps + more == steps;
    } else {
      var n := |more| - 1;
      assert steps + more == (steps + more[..n]) + [more[n]];
      JustifiedConcat(l, steps, more[..n], plan);
      RunConcat(l, steps, more[..n]);
      JustifiedSnoc(l, steps + more[..n], more[n], plan);
    }
  }

  lemma {:induction false} InsertsJustified(l: Ledger, steps: seq<Step>, plan: Plan)
    requires forall k :: 0 <= k < |steps| ==> steps[k].Insert?
    ensures AllJustified(l, steps, plan) && Calm(steps)
    decreases |steps|
  {
    if steps == [] {
    } else {
      InsertsJustified(l, steps[..|steps| - 1], plan);
    }
  }

  lemma OneJustified(l: Ledger, step: Step, plan: Plan)
    requires Justified(l, step, plan)
    ensures AllJustified(l, [step], plan)
  {
    JustifiedSnoc(l, [], step, plan);
    assert [] + [step] == [step];
  }

  lemma EndsConcat(steps: seq<Step>, more: seq<Step>, ok: bool)
    requires Calm(steps) && EndsBy(more, ok)
    ensures EndsBy(steps + more, ok)
  {
    if !ok { assert (steps + more)[..|steps + more| - 1] == steps + more[..|more| - 1]; }
  }

  /** Steps of a run that goes on: justified, and failing at most at their end. */
  ghost predicate Accounted(l: Ledger, steps: seq<Step>, plan: Plan, ok: bool) {
    AllJustified(l, steps, plan) && EndsBy(steps, ok)
  }

  lemma AccountedConcat(l: Ledger, steps: seq<Step>, more: seq<Step>, plan: Plan, ok: bool)
    requires Accounted(l, steps, plan, true) && Accounted(Run(l, steps), more, plan, ok)
    ensures Accounted(l, steps + more, plan, ok)
  {
    JustifiedConcat(l, steps, more, plan);
    EndsConcat(steps, more, ok);
  }

  /** A run fails if and only if one of its steps does. */
  lemma FailsIff(steps: seq<Step>, ok: bool)
    requires EndsBy(steps, ok)
    ensures !ok <==> exists k :: 0 <= k < |steps| && (steps[k].Abandon? || steps[k].Break?)
  {
    if !ok { assert Fails(steps[|steps| - 1]); }
    else { assert forall k :: 0 <= k < |steps| ==> !Fails(steps[k]); }
  }

  // ---------------------------------------------------------------- rows that never fail

  /** 999 such amounts stay within the total's column. */
  const MAX_AMOUNT := 2_149_633

  predicate Fits(row: Row) {
    0 <= row.amount <= MAX_AMOUNT && Ascii(Payload(row))
  }

  predicate AllFit(rows: seq<Row>) {
    forall i :: 0 <= i < |rows| ==> Fits(rows[i])
  }

  predicate InsertsFit(steps: seq<Step>) {
    forall k :: 0 <= k < |steps| && steps[k].Insert? ==> Fits(steps[k].row)
  }

  lemma AsciiConcat(a: string, b: string)
    requires Ascii(a) && Ascii(b)
    ensures Ascii(a + b)
  {
  }

  lemma AsciiDigits(s: string)
    requires AllDigits(s)
    ensures Ascii(s)
  {
  }

  lemma {:induction false} AsciiZeros(k: nat)
    ensures Ascii(Zeros(k))
    decreases k
  {
    if k > 0 { AsciiZeros(k - 1); }
  }

  lemma AsciiNumber(n: nat, width: nat)
    ensures Ascii(ZeroFill(Decimal(n), width))
  {
    AsciiDigits(Decimal(n));
    if |Decimal(n)| < width { AsciiZeros(width - |Decimal(n)|); }
  }

  lemma {:induction false} AsciiUpper(s: string)
    requires Ascii(s)
    ensures Ascii(Upper(s))
    decreases |s|
  {
    if s != "" { AsciiUpper(s[1..]); }
  }

  lemma {:induction false} AsciiBody(payloads: seq<string>)
    requires forall k :: 0 <= k < |payloads| ==> Ascii(payloads[k])
    ensures Ascii(Body(payloads))
    decreases |payloads|
  {
    if payloads != [] {
      AsciiUpper(payloads[0]);
      AsciiBody(payloads[1..]);
      AsciiConcat(Upper(payloads[0]) + "\n", Body(payloads[1..]));
    }
  }

  lemma {:induction false} TotalFits(rows: seq<Row>, picks: seq<nat>)
    requires Within(picks, |rows|) && AllFit(rows)
    ensures 0 <= Total(rows, picks) <= |picks| * MAX_AMOUNT
    decreases |picks|
  {
    if picks != [] {
      TotalFits(rows, picks[..|picks| - 1]);
      assert Fits(rows[picks[|picks| - 1]]);
    }
  }

  lemma ChunkFits(rows: seq<Row>, job: Job)
    requires Chunk(rows, job) && AllFit(rows)
    ensures Storable(rows, job)
  {
    TotalFits(rows, job.picks);
    var (payloads, total) := (Payloads(rows, job.picks), Total(rows, job.picks));
    assert total <= 999 * MAX_AMOUNT <= MAX_INTEGER;
    AsciiNumber(|payloads|, 3);
    AsciiNumber(total, 10);
    AsciiConcat(ZeroFill(Decimal(|payloads|), 3), ZeroFill(Decimal(total), 10));
    AsciiBody(payloads);
    AsciiConcat(ZeroFill(Decimal(|payloads|), 3) + ZeroFill(Decimal(total), 10) + "\n", Body(payloads));
  }

  lemma StepFits(l: Ledger, step: Step)
    requires AllFit(l.rows) && (step.Insert? ==> Fits(step.row))
    ensures AllFit(Next(l, step).rows)
  {
    if step.CommitChunk? && Enabled(l, step) {
      LinkAt(l.rows, step.job.picks, |l.batches|);
      forall i | 0 <= i < |Next(l, step).rows| ensures Fits(Next(l, step).rows[i]) {
        assert Fits(l.rows[i]);
      }
    }
  }

  lemma {:induction false} RunFits(l: Ledger, steps: seq<Step>)
    requires AllFit(l.rows) && InsertsFit(steps)
    ensures AllFit(Run(l, steps).rows)
    decreases |steps|
  {
    if steps == [] {
    } else {
      RunFits(l, steps[..|steps| - 1]);
      StepFits(Run(l, steps[..|steps| - 1]), steps[|steps| - 1]);
    }
  }

  /** With ASCII payloads and no negative or oversized amount, a run in which nothing goes wrong does
      not raise. */
  lemma QuietRunIsCalm(l: Ledger, steps: seq<Step>, plan: Plan, ok: bool)
    requires Accounted(l, steps, plan, ok) && plan.faults == map[]
    requires AllFit(l.rows) && InsertsFit(steps)
    ensures ok
  {
    if !ok {
      var k := |steps| - 1;
      RunFits(l, steps[..k]);
      ChunkFits(Run(l, steps[..k]).rows, steps[k].job);
      assert false;
    }
  }

  /** Both together, as the run reports it. */
  lemma RaisedIff(l: Ledger, steps: seq<Step>, plan: Plan, ok: bool)
    requires Accounted(l, steps, plan, ok)
    ensures !ok <==> exists k :: 0 <= k < |steps| && (steps[k].Abandon? || steps[k].Break?)
    ensures plan.faults == map[] && AllFit(l.rows) && InsertsFit(steps) ==> ok
  {
    FailsIff(steps, ok);
    if plan.faults == map[] && AllFit(l.rows) && InsertsFit(steps) { QuietRunIsCalm(l, steps, plan, ok); }
  }
}
