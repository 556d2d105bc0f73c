/** The bank's answer to a settlement file: reading its .OK or .NOK file, giving every linked row
    its code, and the status a batch goes through from generation to acknowledgement. */
module BankResponses {
  import opened Text
  import Settlements

  const ACCEPTED := "00"
  const MISSING := "??"

  // ---------------------------------------------------------------- the response file

  /** ASCII whitespace, as `str.strip` takes it. */
  predicate IsSpace(c: char) {
    9 <= c as int <= 13 || 28 <= c as int <= 32
  }

  function StripLeft(s: string): string {
    if s != "" && IsSpace(s[0]) then StripLeft(s[1..]) else s
  }

  function StripRight(s: string): string {
    if s != "" && IsSpace(s[|s| - 1]) then StripRight(s[..|s| - 1]) else s
  }

  function Strip(s: string): string { StripRight(StripLeft(s)) }

  /** Text cut at every newline. */
  function Split(s: string): (lines: seq<string>)
    ensures |lines| > 0
  {
    if s == "" then [""]
    else
      var rest := Split(s[1..]);
      if s[0] == '\n' then [""] + rest else [[s[0]] + rest[0]] + rest[1..]
  }

  datatype Entry = Entry(payload: string, status: string)

  function Entries(lines: seq<string>): seq<Entry> {
    if lines == [] then []
    else
      var line := lines[|lines| - 1];
      Entries(lines[..|lines| - 1])
      + if |line| < 2 then [] else [Entry(Upper(line[..|line| - 2]), line[|line| - 2..])]
  }

  function Parsed(content: string): seq<Entry> {
    var lines := Split(Strip(content));
    if |lines[0]| < 5 then [] else Entries(lines[1..])
  }

  method ParseOkResponse(content: string) returns (results: seq<Entry>)
    ensures results == Parsed(content)
  {
    var lines := Split(Strip(content));
    results := [];
    if |lines[0]| < 5 { return; }
    for k := 1 to |lines|
      invariant results == Entries(lines[1..k])
    {
      var line := lines[k];
      if |line| >= 2 {
        results := results + [Entry(Upper(line[..|line| - 2]), line[|line| - 2..])];
      }
      assert lines[1..k + 1][..k - 1] == lines[1..k];
    }
    assert lines[1..|lines|] == lines[1..];
  }

  /** A header of fewer than five characters makes the whole response empty, and a line too short for
      a code is skipped. */
  lemma ShortLines(content: string, lines: seq<string>, line: string)
    ensures |Split(Strip(content))[0]| < 5 ==> Parsed(content) == []
    ensures |line| < 2 ==> Entries(lines + [line]) == Entries(lines)
  {
    assert (lines + [line])[..|lines|] == lines;
  }

  /** Blank, tab, the line breaks and the separators are whitespace; no printable character is. */
  lemma Whitespace(c: char)
    ensures IsSpace(c) <==> c as int in {9, 10, 11, 12, 13, 28, 29, 30, 31, 32}
    ensures '!' <= c <= '~' ==> !IsSpace(c)
  {
  }

  /** Whitespace before the header does not matter. */
  lemma {:induction false} LeadingSpace(head: string, content: string)
    requires Spaces(head)
    ensures Parsed(head + content) == Parsed(content)
    decreases |head|
  {
    if head == "" {
      assert head + content == content;
    } else {
      assert (head + content)[1..] == head[1..] + content;
      LeadingSpace(head[1..], content);
    }
  }

  // ---------------------------------------------------------------- codes

  /** The code a row gets: that of the last entry with its payload. */
  function CodeOf(entries: seq<Entry>, key: string): string {
    if entries == [] then MISSING
    else
      var last := entries[|entries| - 1];
      if last.payload == key then last.status else CodeOf(entries[..|entries| - 1], key)
  }

  /** Of several entries with the payload the last one counts, and without one the row is marked. */
  lemma {:induction false} LastEntryCounts(entries: seq<Entry>, key: string, k: nat)
    requires k < |entries| ==> entries[k].payload == key
    requires forall j :: k < j < |entries| ==> entries[j].payload != key
    requires k >= |entries| ==> forall j :: 0 <= j < |entries| ==> entries[j].payload != key
    ensures CodeOf(entries, key) == if k < |entries| then entries[k].status else "??"
    decreases |entries|
  {
    if entries == [] {
    } else {
      var n := |entries| - 1;
      if k != n { LastEntryCounts(entries[..n], key, if k < n then k else n); }
    }
  }

  function Key(payload: Option<string>): string {
    if payload.Some? then Upper(payload.value) else Upper("")
  }

  /** Rows are looked up by their payload in upper case, one without a payload by the empty text. */
  lemma KeyIsPayload(payload: string)
    ensures Key(Some(payload)) == Upper(payload) && Key(None) == ""
  {
  }

  function Codes(entries: seq<Entry>, payloads: seq<Option<string>>): (codes: seq<string>)
    ensures |codes| == |payloads|
  {
    seq(|payloads|, i requires 0 <= i < |payloads| => CodeOf(entries, Key(payloads[i])))
  }

  // ---------------------------------------------------------------- status

  datatype Status = Generated | Uploaded | Failed | AckedOk | AckedNok | Partial
  {
    predicate Terminal() { AckedOk? || AckedNok? || Partial? }

    predicate Uploadable() { Generated? || Failed? }
  }

  datatype Extension = OK | NOK

  predicate AllAccepted(codes: seq<string>) {
    forall i :: 0 <= i < |codes| ==> codes[i] == ACCEPTED
  }

  /** A whole file is refused, all rows are accepted, or some are. */
  function FinalStatus(extension: Extension, codes: seq<string>): Status {
    if extension.NOK? || ACCEPTED !in codes then AckedNok
    else if AllAccepted(codes) then AckedOk
    else Partial
  }

  /** Any refusal of the file, or of every row, is a NOK; only a full acceptance is an OK. */
  lemma FinalStatusIff(extension: Extension, codes: seq<string>)
    ensures var status := FinalStatus(extension, codes);
      && (status.AckedOk? <==> extension.OK? && codes != [] && forall i :: 0 <= i < |codes| ==> codes[i] == "00")
      && (status.AckedNok? <==> extension.NOK? || forall i :: 0 <= i < |codes| ==> codes[i] != "00")
      && (status.Partial? <==> extension.OK? && (exists i :: 0 <= i < |codes| && codes[i] == "00")
                               && (exists i :: 0 <= i < |codes| && codes[i] != "00"))
  {
    if codes != [] { assert codes[0] == "00" || codes[0] != "00"; }
  }

  datatype UploadEnd =
    | Sent            // put and renamed
    | FileMissing     // no local file: the upload function answers false and raises nothing
    | Raised(put: bool)    // an error, before the file was renamed into place or after

  /** A batch with its linked rows, as the upload and poll jobs see it. */
  class BankSettlement {
    var status: Status
    var payloads: seq<Option<string>>
    var bankStatus: seq<Option<string>>
    var extension: Option<Extension>

    ghost predicate Valid()
      reads this
    {
      |bankStatus| == |payloads|
    }

    /** The job's ending; its answer from the transfer is not looked at. */
    method FinishUpload(end: UploadEnd) returns (raised: bool)
      modifies this`status
      ensures status == UploadStatus(end) && raised == end.Raised?
    {
      if end.Raised? {
        status := Failed;
        return true;
      }
      status := Uploaded;
      raised := false;
    }

    method LookUp(entries: seq<Entry>) returns (codes: map<string, string>)
      ensures forall key :: CodeOf(entries, key) == if key in codes then codes[key] else MISSING
    {
      codes := map[];
      for k := 0 to |entries|
        invariant forall key :: CodeOf(entries[..k], key) == if key in codes then codes[key] else MISSING
      {
        codes := codes[entries[k].payload := entries[k].status];
        assert entries[..k + 1][..k] == entries[..k];
      }
      assert entries[..|entries|] == entries;
    }

    /** Every linked row gets its code, or the mark of a row the bank did not list. */
    method MarkRows(entries: seq<Entry>) returns (okCount: nat, nokCount: nat)
      requires Valid()
      modifies this`bankStatus
      ensures Valid() && Marked(bankStatus, Codes(entries, payloads), |payloads|)
      ensures okCount == 0 <==> ACCEPTED !in Codes(entries, payloads)
      ensures nokCount == 0 <==> AllAccepted(Codes(entries, payloads))
    {
      var lookup := LookUp(entries);
      ghost var codes := Codes(entries, payloads);
      okCount, nokCount := 0, 0;
      for k := 0 to |payloads|
        invariant |bankStatus| == |payloads| && Marked(bankStatus, codes, k)
        invariant okCount == 0 <==> ACCEPTED !in codes[..k]
        invariant nokCount == 0 <==> AllAccepted(codes[..k])
      {
        var key := Key(payloads[k]);
        var code := if key in lookup then lookup[key] else MISSING;
        CodeAt(entries, payloads, k);
        OneMoreCode(codes, k);
        bankStatus := bankStatus[k := Some(code)];
        if code == ACCEPTED { okCount := okCount + 1; } else { nokCount := nokCount + 1; }
      }
      assert codes[..|payloads|] == codes;
    }

    /** A response file arrived for an uploaded batch. */
    method Reconcile(extension: Extension, content: string)
      requires Valid()
      modifies this
      ensures Valid() && payloads == old(payloads) && this.extension == Some(extension)
      ensures var codes := Codes(Parsed(content), payloads);
        && status == FinalStatus(extension, codes) && |bankStatus| == |payloads|
        && forall i :: 0 <= i < |payloads| ==> bankStatus[i] == Some(codes[i])
      ensures status.AckedOk?
         <==> extension.OK? && bankStatus != [] && forall i :: 0 <= i < |bankStatus| ==> bankStatus[i] == Some("00")
      ensures status.AckedNok?
         <==> extension.NOK? || forall i :: 0 <= i < |bankStatus| ==> bankStatus[i] != Some("00")
      ensures status in {AckedOk, AckedNok, Partial}
    {
      var entries := ParseOkResponse(content);
      var okCount, nokCount := MarkRows(entries);
      if extension.NOK? || okCount == 0 {
        status := AckedNok;
      } else if nokCount == 0 {
        status := AckedOk;
      } else {
        status := Partial;
      }
      this.extension := Some(extension);
      FinalStatusIff(extension, Codes(entries, payloads));
    }
  }

  lemma CodeAt(entries: seq<Entry>, payloads: seq<Option<string>>, k: nat)
    requires k < |payloads|
    ensures Codes(entries, payloads)[k] == CodeOf(entries, Key(payloads[k]))
  {
  }

  lemma OneMoreCode(codes: seq<string>, k: nat)
    requires k < |codes|
    ensures ACCEPTED in codes[..k + 1] <==> ACCEPTED in codes[..k] || codes[k] == ACCEPTED
    ensures AllAccepted(codes[..k + 1]) <==> AllAccepted(codes[..k]) && codes[k] == ACCEPTED
  {
    assert codes[..k + 1] == codes[..k] + [codes[k]];
  }

  predicate Marked(bankStatus: seq<Option<string>>, codes: seq<string>, n: nat) {
    && n <= |bankStatus| && n <= |codes|
    && forall i :: 0 <= i < n ==> bankStatus[i] == Some(codes[i])
  }

  // ---------------------------------------------------------------- an echoing bank

  predicate SelfConsistent(entries: seq<Entry>) {
    forall i, j :: 0 <= i < |entries| && 0 <= j < |entries| && entries[i].payload == entries[j].payload ==>
      entries[i].status == entries[j].status
  }

  /** A payload that occurs gets the code of one of its occurrences. */
  lemma {:induction false} CodeIsOfAnOccurrence(entries: seq<Entry>, i: nat) returns (j: nat)
    requires i < |entries|
    ensures j < |entries| && entries[j].payload == entries[i].payload
    ensures CodeOf(entries, entries[i].payload) == entries[j].status
    decreases |entries|
  {
    var n := |entries| - 1;
    if entries[n].payload == entries[i].payload {
      j := n;
    } else {
      j := CodeIsOfAnOccurrence(entries[..n], i);
    }
  }

  /** Every entry's code reaches the rows with its payload, exactly when entries with one payload
      agree on the code. */
  lemma OwnCodesIff(entries: seq<Entry>)
    ensures (forall i :: 0 <= i < |entries| ==> CodeOf(entries, entries[i].payload) == entries[i].status)
       <==> SelfConsistent(entries)
  {
    if SelfConsistent(entries) {
      forall i | 0 <= i < |entries| ensures CodeOf(entries, entries[i].payload) == entries[i].status {
        var j := CodeIsOfAnOccurrence(entries, i);
      }
    }
  }

  function Joined(lines: seq<string>): string
    requires lines != []
  {
    if |lines| == 1 then lines[0] else lines[0] + "\n" + Joined(lines[1..])
  }

  lemma {:induction false} SplitLine(line: string, rest: string)
    requires OneLine(line)
    ensures Split(line + "\n" + rest) == [line] + Split(rest)
    decreases |line|
  {
    var s := line + "\n" + rest;
    if line == "" {
      assert s[1..] == rest;
    } else {
      assert s[1..] == line[1..] + "\n" + rest;
      SplitLine(line[1..], rest);
      assert [line[0]] + line[1..] == line;
    }
  }

  lemma {:induction false} SplitLast(line: string)
    requires OneLine(line)
    ensures Split(line) == [line]
    decreases |line|
  {
    if line == "" {
    } else {
      SplitLast(line[1..]);
      assert [line[0]] + line[1..] == line;
    }
  }

  lemma {:induction false} SplitJoined(lines: seq<string>)
    requires lines != [] && OneLineEach(lines)
    ensures Split(Joined(lines)) == lines
    decreases |lines|
  {
    if |lines| == 1 {
      SplitLast(lines[0]);
    } else {
      SplitLine(lines[0], Joined(lines[1..]));
      SplitJoined(lines[1..]);
    }
  }

  predicate Spaces(s: string) { forall i :: 0 <= i < |s| ==> IsSpace(s[i]) }

  predicate Trimmed(s: string) { s != "" && !IsSpace(s[0]) && !IsSpace(s[|s| - 1]) }

  lemma {:induction false} StripTail(s: string, tail: string)
    requires Trimmed(s) && Spaces(tail)
    ensures Strip(s + tail) == s
    decreases |tail|
  {
    if tail == "" {
      assert s + tail == s;
    } else {
      var n := |tail| - 1;
      assert (s + tail)[..|s + tail| - 1] == s + tail[..n];
      StripTail(s, tail[..n]);
    }
  }

  lemma {:induction false} JoinedEnd(lines: seq<string>)
    requires lines != [] && lines[|lines| - 1] != ""
    ensures var (s, last) := (Joined(lines), lines[|lines| - 1]);
      s != "" && s[|s| - 1] == last[|last| - 1]
    decreases |lines|
  {
    if |lines| == 1 {
    } else {
      JoinedEnd(lines[1..]);
      var rest := Joined(lines[1..]);
      assert Joined(lines) == (lines[0] + "\n") + rest;
    }
  }

  lemma JoinedStart(lines: seq<string>)
    requires lines != [] && lines[0] != ""
    ensures Joined(lines) != "" && Joined(lines)[0] == lines[0][0]
  {
  }

  /** A two-character code that is printable. */
  predicate Code(s: string) { |s| == 2 && !IsSpace(s[0]) && !IsSpace(s[1]) }

  predicate CodesFor(lines: seq<string>, codes: seq<string>) {
    |codes| == |lines| && forall i :: 0 <= i < |codes| ==> Code(codes[i])
  }

  function EchoLines(lines: seq<string>, codes: seq<string>): (r: seq<string>)
    requires |codes| == |lines|
    ensures |r| == |lines|
  {
    seq(|lines|, i requires 0 <= i < |lines| => lines[i] + codes[i])
  }

  predicate Header(s: string) { |s| >= 5 && Trimmed(s) && OneLine(s) }

  /** A response: a header line, each payload line with its code, and any trailing whitespace. */
  function Echo(header: string, lines: seq<string>, codes: seq<string>, tail: string): string
    requires |codes| == |lines|
  {
    Joined([header] + EchoLines(lines, codes)) + tail
  }

  function EchoEntries(lines: seq<string>, codes: seq<string>): (r: seq<Entry>)
    requires |codes| == |lines|
    ensures |r| == |lines|
  {
    seq(|lines|, i requires 0 <= i < |lines| => Entry(Upper(lines[i]), codes[i]))
  }

  lemma {:induction false} EntriesOfEcho(lines: seq<string>, codes: seq<string>)
    requires CodesFor(lines, codes)
    ensures Entries(EchoLines(lines, codes)) == EchoEntries(lines, codes)
    decreases |lines|
  {
    if lines == [] {
    } else {
      var n := |lines| - 1;
      EntriesOfEcho(lines[..n], codes[..n]);
      var line := lines[n] + codes[n];
      assert EchoLines(lines, codes)[..n] == EchoLines(lines[..n], codes[..n]);
      assert line[..|line| - 2] == lines[n] && line[|line| - 2..] == codes[n];
      assert EchoEntries(lines, codes) == EchoEntries(lines[..n], codes[..n]) + [Entry(Upper(lines[n]), codes[n])];
    }
  }

  /** An echo is read back line by line: each payload in upper case with its own code. */
  lemma EchoIsRead(header: string, lines: seq<string>, codes: seq<string>, tail: string)
    requires Header(header) && OneLineEach(lines) && CodesFor(lines, codes) && Spaces(tail)
    ensures Parsed(Echo(header, lines, codes, tail)) == EchoEntries(lines, codes)
  {
    var all := [header] + EchoLines(lines, codes);
    EchoLinesAreLines(lines, codes);
    JoinedStart(all);
    JoinedEnd(all);
    StripTail(Joined(all), tail);
    SplitJoined(all);
    assert all[1..] == EchoLines(lines, codes);
    EntriesOfEcho(lines, codes);
  }

  lemma EchoLinesAreLines(lines: seq<string>, codes: seq<string>)
    requires OneLineEach(lines) && CodesFor(lines, codes)
    ensures OneLineEach(EchoLines(lines, codes))
  {
  }

  predicate SamePayloadSameCode(payloads: seq<Option<string>>, codes: seq<string>)
    requires |codes| == |payloads|
  {
    forall i, j :: 0 <= i < |payloads| && 0 <= j < |payloads| && Key(payloads[i]) == Key(payloads[j]) ==>
      codes[i] == codes[j]
  }

  /** The bank echoes the line of each row, in any letter case. */
  predicate EchoOf(payloads: seq<Option<string>>, lines: seq<string>) {
    |lines| == |payloads| && forall i :: 0 <= i < |lines| ==> Upper(lines[i]) == Key(payloads[i])
  }

  /** Every linked row gets exactly the code of its own line, if and only if rows with equal payloads
      were given equal codes; pairwise distinct payloads are the ordinary case. */
  lemma RowsGetTheirCodesIff(payloads: seq<Option<string>>, header: string, lines: seq<string>,
                             codes: seq<string>, tail: string)
    requires Header(header) && OneLineEach(lines) && CodesFor(lines, codes) && Spaces(tail)
    requires EchoOf(payloads, lines)
    ensures Codes(Parsed(Echo(header, lines, codes, tail)), payloads) == codes
       <==> SamePayloadSameCode(payloads, codes)
  {
    EchoIsRead(header, lines, codes, tail);
    var entries := EchoEntries(lines, codes);
    OwnCodesIff(entries);
    var got := Codes(entries, payloads);
    forall i | 0 <= i < |codes|
      ensures entries[i] == Entry(Key(payloads[i]), codes[i])
      ensures got[i] == CodeOf(entries, entries[i].payload)
    {
    }
    if got == codes {
      forall i, j | 0 <= i < |codes| && 0 <= j < |codes| && Key(payloads[i]) == Key(payloads[j])
        ensures codes[i] == codes[j]
      {
        assert got[i] == got[j];
      }
    }
  }

  // ---------------------------------------------------------------- line ends

  /** What a file opened as text reads as: every kind of line end is a newline. */
  function Universal(s: string): string {
    if s == "" then ""
    else if s[0] != '\r' then [s[0]] + Universal(s[1..])
    else "\n" + Universal(if |s| > 1 && s[1] == '\n' then s[2..] else s[1..])
  }

  predicate LineEnd(s: string) { s == "\n" || s == "\r\n" || s == "\r" }

  predicate AllEnds(ends: seq<string>) { forall i :: 0 <= i < |ends| ==> LineEnd(ends[i]) }

  predicate Plain(line: string) { line != "" && '\r' !in line && '\n' !in line }

  predicate AllPlain(lines: seq<string>) { forall i :: 0 <= i < |lines| ==> Plain(lines[i]) }

  /** Every line with its own line end. */
  function Ended(lines: seq<string>, ends: seq<string>): string
    requires |ends| == |lines|
  {
    if lines == [] then "" else lines[0] + ends[0] + Ended(lines[1..], ends[1..])
  }

  lemma {:induction false} UniversalLine(line: string, end: string, rest: string)
    requires '\r' !in line && '\n' !in line && LineEnd(end) && (rest == "" || rest[0] != '\n')
    ensures Universal(line + end + rest) == line + "\n" + Universal(rest)
    decreases |line|
  {
    if line == "" {
      UniversalEnd(end, rest);
      assert line + end + rest == end + rest;
    } else {
      UniversalLine(line[1..], end, rest);
      UniversalChar(line[0], line[1..] + end + rest);
      FirstChar(line, end, rest);
      FirstChar(line, "\n", Universal(rest));
    }
  }

  lemma FirstChar(line: string, end: string, rest: string)
    requires line != ""
    ensures line + end + rest == [line[0]] + (line[1..] + end + rest)
  {
  }

  lemma UniversalChar(c: char, rest: string)
    requires c != '\r'
    ensures Universal([c] + rest) == [c] + Universal(rest)
  {
    assert ([c] + rest)[1..] == rest;
  }

  lemma UniversalEnd(end: string, rest: string)
    requires LineEnd(end) && (rest == "" || rest[0] != '\n')
    ensures Universal(end + rest) == "\n" + Universal(rest)
  {
    assert (end + rest)[|end|..] == rest;
  }

  lemma {:induction false} UniversalEnded(lines: seq<string>, ends: seq<string>)
    requires lines != [] && |ends| == |lines| && AllPlain(lines) && AllEnds(ends)
    ensures Universal(Ended(lines, ends)) == Joined(lines) + "\n"
    decreases |lines|
  {
    var rest := Ended(lines[1..], ends[1..]);
    if |lines| == 1 {
      assert rest == "" && Universal(rest) == "";
      UniversalLine(lines[0], ends[0], rest);
    } else {
      assert rest[0] == lines[1][0];
      assert lines[1][0] in lines[1];
      UniversalLine(lines[0], ends[0], rest);
      UniversalEnded(lines[1..], ends[1..]);
      assert lines[0] + "\n" + (Joined(lines[1..]) + "\n") == (lines[0] + "\n" + Joined(lines[1..])) + "\n";
    }
  }

  /** Whatever line ends the bank's system uses, its response is read line by line. */
  lemma AnyLineEnds(header: string, lines: seq<string>, codes: seq<string>, ends: seq<string>)
    requires Header(header) && Plain(header) && CodesFor(lines, codes) && |ends| == |lines| + 1
    requires AllPlain(EchoLines(lines, codes)) && AllEnds(ends)
    ensures Parsed(Universal(Ended([header] + EchoLines(lines, codes), ends))) == EchoEntries(lines, codes)
  {
    TextOfEcho(header, EchoLines(lines, codes), ends);
    PlainLines(lines, codes);
    OneNewline();
    EchoIsRead(header, lines, codes, "\n");
  }

  lemma OneNewline()
    ensures Spaces("\n")
  {
  }

  lemma TextOfEcho(header: string, lines: seq<string>, ends: seq<string>)
    requires Plain(header) && AllPlain(lines) && |ends| == |lines| + 1 && AllEnds(ends)
    ensures Universal(Ended([header] + lines, ends)) == Joined([header] + lines) + "\n"
  {
    AllPlainWith(header, lines);
    UniversalEnded([header] + lines, ends);
  }

  lemma AllPlainWith(header: string, lines: seq<string>)
    requires Plain(header) && AllPlain(lines)
    ensures AllPlain([header] + lines)
  {
  }

  lemma PlainLines(lines: seq<string>, codes: seq<string>)
    requires |codes| == |lines| && AllPlain(EchoLines(lines, codes))
    ensures OneLineEach(lines)
  {
    forall i | 0 <= i < |lines| ensures OneLine(lines[i]) {
      assert Plain(EchoLines(lines, codes)[i]);
      assert forall k :: 0 <= k < |lines[i]| ==> lines[i][k] == EchoLines(lines, codes)[i][k];
    }
  }

  /** From the file to the rows: the bank reads the settlement file, echoes its lines with codes,
      and, the payloads being distinct, each row gets its own code. */
  lemma FileToCodes(payloads: seq<string>, total: int, header: string, codes: seq<string>, tail: string)
    requires Settlements.BuildContent(payloads, total).Some? && OneLineEach(payloads)
    requires forall i, j :: 0 <= i < j < |payloads| ==> Upper(payloads[i]) != Upper(payloads[j])
    requires Header(header) && CodesFor(payloads, codes) && Spaces(tail)
    ensures var file := Settlements.ReadContent(Settlements.BuildContent(payloads, total).value);
      && file.Some? && |file.value.lines| == |codes|
      && Codes(Parsed(Echo(header, file.value.lines, codes, tail)), AsRows(payloads)) == codes
  {
    Settlements.ContentReadsBack(payloads, total);
    var lines := Settlements.Uppers(payloads);
    forall i | 0 <= i < |lines| ensures OneLine(lines[i]) && Upper(lines[i]) == Key(AsRows(payloads)[i]) {
      Settlements.UpperOneLine(payloads[i]);
      UpperTwice(payloads[i]);
    }
    assert SamePayloadSameCode(AsRows(payloads), codes);
    RowsGetTheirCodesIff(AsRows(payloads), header, lines, codes, tail);
  }

  function AsRows(payloads: seq<string>): seq<Option<string>> {
    seq(|payloads|, i requires 0 <= i < |payloads| => Some(payloads[i]))
  }

  lemma UpperTwice(s: string)
    ensures Upper(Upper(s)) == Upper(s)
  {
  }

  // ---------------------------------------------------------------- the life of a batch

  function UploadStatus(end: UploadEnd): Status {
    if end.Raised? then Failed else Uploaded
  }

  /** Both jobs read the status, wait for the bank, and write it back later. */
  datatype Life = Life(status: Status, uploads: nat, polls: nat,
                       sent: bool,        // history: the bank has the file
                       missed: bool,      // history: an upload found no local file
                       early: bool)       // history: a failed or interrupted upload had put the file

  const BORN := Life(Generated, 0, 0, false, false, false)

  datatype Event =
    | BeginUpload
    | EndUpload(end: UploadEnd)
    | CutUpload(put: bool)         // cancelled or crashed: no status is written
    | BeginPoll
    | EndPoll(response: Option<(Extension, seq<string>)>)    // no response yet, or its row codes
    | CutPoll

  function Live(b: Life, event: Event): Life {
    match event
    case BeginUpload => if b.status.Uploadable() then b.(uploads := b.uploads + 1) else b
    case EndUpload(end) =>
      if b.uploads == 0 then b
      else
        var put := end.Raised? && end.put;
        Life(UploadStatus(end), b.uploads - 1, b.polls, b.sent || end.Sent? || put,
             b.missed || end.FileMissing?, b.early || put)
    case CutUpload(put) =>
      if b.uploads == 0 then b
      else b.(uploads := b.uploads - 1, sent := b.sent || put, early := b.early || put)
    case BeginPoll => if b.status.Uploaded? then b.(polls := b.polls + 1) else b
    case EndPoll(response) =>
      if b.polls == 0 then b
      else
        var b1 := b.(polls := b.polls - 1);
        if response.None? then b1
        else b1.(status := FinalStatus(response.value.0, response.value.1))
    case CutPoll => if b.polls == 0 then b else b.(polls := b.polls - 1)
  }

  /** How many jobs are under way: a job starts only in a status it is meant for, and ends once. */
  lemma JobsUnderWay(b: Life, event: Event)
    ensures var b' := Live(b, event);
      && b'.uploads == (match event
                        case BeginUpload => if b.status in {Generated, Failed} then b.uploads + 1 else b.uploads
                        case EndUpload(_) => if b.uploads > 0 then b.uploads - 1 else 0
                        case CutUpload(_) => if b.uploads > 0 then b.uploads - 1 else 0
                        case _ => b.uploads)
      && b'.polls == (match event
                      case BeginPoll => if b.status.Uploaded? then b.polls + 1 else b.polls
                      case EndPoll(_) => if b.polls > 0 then b.polls - 1 else 0
                      case CutPoll => if b.polls > 0 then b.polls - 1 else 0
                      case _ => b.polls)
  {
  }

  /** What the end of a job makes of the status; a job that is cut off, or a poll without a response,
      leaves it. */
  lemma StatusAfter(b: Life, event: Event)
    ensures var status := Live(b, event).status;
      match event
      case EndUpload(end) => status == if b.uploads == 0 then b.status else if end.Raised? then Failed else Uploaded
      case EndPoll(response) =>
        status == if b.polls == 0 || response.None? then b.status
                  else FinalStatus(response.value.0, response.value.1)
      case _ => status == b.status
  {
  }

  function LiveAll(events: seq<Event>): Life
    decreases |events|
  {
    if events == [] then BORN else Live(LiveAll(events[..|events| - 1]), events[|events| - 1])
  }

  // ---------------------------------------------------------------- legal changes

  predicate Legal(from: Status, to: Status) {
    || from == to
    || (from.Uploadable() && (to.Uploaded? || to.Failed?))
    || (from.Uploaded? && to.Terminal())
  }

  /** A job writes its result over a status that another job has set since it looked. */
  predicate Overtaken(b: Life, event: Event) {
    || (event.EndUpload? && b.uploads > 0 && !b.status.Uploadable() && UploadStatus(event.end) != b.status)
    || (event.EndPoll? && b.polls > 0 && event.response.Some? && !b.status.Uploaded?
        && FinalStatus(event.response.value.0, event.response.value.1) != b.status)
  }

  lemma FinalIsTerminal(extension: Extension, codes: seq<string>)
    ensures FinalStatus(extension, codes).Terminal()
  {
  }

  /** The status moves forward at a job's end exactly if no other job has overtaken it. */
  lemma LegalIff(b: Life, event: Event)
    ensures Legal(b.status, Live(b, event).status) <==> !Overtaken(b, event)
  {
    if event.EndPoll? && event.response.Some? {
      FinalIsTerminal(event.response.value.0, event.response.value.1);
    }
  }

  predicate AllLegal(events: seq<Event>)
    decreases |events|
  {
    events == [] ||
    var n := |events| - 1;
    AllLegal(events[..n]) && Legal(LiveAll(events[..n]).status, LiveAll(events).status)
  }

  predicate NoneOvertaken(events: seq<Event>)
    decreases |events|
  {
    events == [] ||
    var n := |events| - 1;
    NoneOvertaken(events[..n]) && !Overtaken(LiveAll(events[..n]), events[n])
  }

  /** Over a whole life, with jobs overlapping, failing and cut off in any way: every change of status
      is legal if and only if no job is overtaken. */
  lemma {:induction false} LifeLegalIff(events: seq<Event>)
    ensures AllLegal(events) <==> NoneOvertaken(events)
    decreases |events|
  {
    if events == [] {
    } else {
      var n := |events| - 1;
      LifeLegalIff(events[..n]);
      LegalIff(LiveAll(events[..n]), events[n]);
    }
  }

  // ---------------------------------------------------------------- one job at a time

  /** No upload of the batch starts while another one runs, and no poll while another one runs; a
      job that was cut off runs no longer. */
  predicate OneAtATime(events: seq<Event>)
    decreases |events|
  {
    events == [] ||
    var n := |events| - 1;
    && OneAtATime(events[..n])
    && (events[n].BeginUpload? ==> LiveAll(events[..n]).uploads == 0)
    && (events[n].BeginPoll? ==> LiveAll(events[..n]).polls == 0)
  }

  ghost predicate InOrder(b: Life) {
    && b.uploads <= 1 && b.polls <= 1
    && (b.uploads == 1 ==> b.status.Uploadable())
    && (b.polls == 1 ==> b.status.Uploaded?)
    && (b.status.Uploadable() ==> !b.missed && b.sent == b.early)
    && (!b.status.Uploadable() ==> b.sent == (b.early || !b.missed))
  }

  lemma StepInOrder(b: Life, event: Event)
    requires InOrder(b)
    requires event.BeginUpload? ==> b.uploads == 0
    requires event.BeginPoll? ==> b.polls == 0
    ensures InOrder(Live(b, event)) && !Overtaken(b, event)
  {
    if event.EndPoll? && event.response.Some? {
      FinalIsTerminal(event.response.value.0, event.response.value.1);
    }
  }

  lemma {:induction false} LifeInOrder(events: seq<Event>)
    requires OneAtATime(events)
    ensures InOrder(LiveAll(events)) && NoneOvertaken(events)
    decreases |events|
  {
    if events == [] {
    } else {
      var n := |events| - 1;
      LifeInOrder(events[..n]);
      StepInOrder(LiveAll(events[..n]), events[n]);
    }
  }

  /** With the jobs of a batch one at a time, cut-off ones included, its status only goes from
      GENERATED or FAILED to UPLOADED or FAILED, and from UPLOADED to an acknowledgement. */
  lemma StatusesMoveForward(events: seq<Event>)
    requires OneAtATime(events)
    ensures AllLegal(events)
  {
    LifeInOrder(events);
    LifeLegalIff(events);
  }

  /** An acknowledged batch stays as it is, whatever jobs run later one at a time. */
  lemma {:induction false} AcknowledgementIsFinal(events: seq<Event>, later: seq<Event>)
    requires OneAtATime(events + later) && LiveAll(events).status.Terminal()
    ensures LiveAll(events + later).status == LiveAll(events).status
    decreases |later|
  {
    if later == [] {
      assert events + later == events;
    } else {
      var n := |later| - 1;
      assert (events + later)[..|events + later| - 1] == events + later[..n];
      AcknowledgementIsFinal(events, later[..n]);
      StatusesMoveForward(events + later);
    }
  }

  /** The guard on the status is read before the transfer, so two overlapping uploads can take an
      acknowledged batch back to uploaded. */
  lemma OverlapUndoesAcknowledgement()
    ensures var events := [BeginUpload, BeginUpload, EndUpload(Sent), BeginPoll, EndPoll(Some((OK, [ACCEPTED])))];
      && LiveAll(events).status.AckedOk?
      && LiveAll(events + [EndUpload(Sent)]).status.Uploaded?
  {
    var e := [BeginUpload, BeginUpload, EndUpload(Sent), BeginPoll, EndPoll(Some((OK, [ACCEPTED])))];
    assert e[..1][..0] == [] && e[..2][..1] == e[..1] && e[..3][..2] == e[..2] && e[..4][..3] == e[..3];
    assert LiveAll(e[..1]) == BORN.(uploads := 1);
    assert LiveAll(e[..2]) == BORN.(uploads := 2);
    assert LiveAll(e[..3]) == Life(Uploaded, 1, 0, true, false, false);
    assert LiveAll(e[..4]) == Life(Uploaded, 1, 1, true, false, false);
    assert LiveAll(e) == Life(AckedOk, 1, 0, true, false, false);
    assert (e + [EndUpload(Sent)])[..5] == e;
  }

  // ---------------------------------------------------------------- uploaded and sent

  /** Some attempt that failed or was cut off had already put the file in place. */
  predicate PutEarly(events: seq<Event>) {
    CutUpload(true) in events || EndUpload(Raised(true)) in events
  }

  /** A batch that counts as uploaded is at the bank if and only if no upload found its file missing,
      or an earlier attempt that failed or was cut off had already put it there. */
  lemma UploadedWasSentIff(events: seq<Event>)
    requires OneAtATime(events) && !LiveAll(events).status.Uploadable()
    ensures var b := LiveAll(events);
      && (b.sent <==> !b.missed || b.early)
      && (b.missed ==> EndUpload(FileMissing) in events) && (b.early ==> PutEarly(events))
  {
    LifeInOrder(events);
    HistoryIsInEvents(events);
  }

  lemma {:induction false} HistoryIsInEvents(events: seq<Event>)
    ensures LiveAll(events).missed ==> EndUpload(FileMissing) in events
    ensures LiveAll(events).early ==> PutEarly(events)
    decreases |events|
  {
    if events == [] {
    } else {
      HistoryIsInEvents(events[..|events| - 1]);
    }
  }

  /** The transfer's answer is ignored: a batch whose file is gone still becomes uploaded. */
  lemma MissingFileCountsAsUploaded()
    ensures var b := LiveAll([BeginUpload, EndUpload(FileMissing)]);
      b.status.Uploaded? && !b.sent
  {
    var e := [BeginUpload, EndUpload(FileMissing)];
    assert e[..1] == [BeginUpload] && e[..1][..0] == [];
    assert LiveAll(e[..1]) == BORN.(uploads := 1);
  }
}
