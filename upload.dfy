/**
 * CAM_MachineUploadProgram: send a saved CAM program to the machine's controller daemon.
 * It sends a "prog-commit" request naming the program, its size and its digest, reads
 * the daemon's answer, streams the program file over the socket, and reads the final
 * confirmation.
 *
 * The object framework, the file and the session are oracles, gathered in an Exchange:
 * - what saving the program and copying its name, digest and file name gave;
 * - whether fopen succeeded and whether the request was written;
 * - the two replies NC_Read delivered;
 * - for each fread, the number of bytes read and what `write` returned for them.
 */
module Upload {
  import opened Wrappers
  import opened Numerals

  /** The saved program as the framework describes it: object name, file size (`len`),
      digest text and the path of the saved file. */
  datatype Artifact = Artifact(name: string, size: nat, digest: string, path: string)

  /** One NC_Read: its return value and the session's read buffer as the call leaves it,
      `text` followed by NUL bytes. */
  datatype Reply = Reply(count: int, text: string)

  /** One turn of the streaming loop: what fread returned, and what `write` returned
      for those bytes. `write`'s result lands in a `size_t`, so it is never negative. */
  datatype Chunk = Chunk(read: nat, written: nat)

  datatype Exchange = Exchange(
    artifact: Option<Artifact>,  // None: AG_ObjectSave or one of the copies failed
    opens: bool,                 // fopen succeeded
    requestSent: bool,           // NC_Write of the commit request succeeded
    commitReply: Reply,          // the 12-byte read after the request
    chunks: seq<Chunk>,          // fread returns 0 once the list is exhausted
    confirmReply: Reply)         // the 32-byte read after the data

  /** The error set with AG_SetError before -1 is returned. */
  datatype Failure =
    | NotSaved                   // the error the framework set
    | CannotOpen(path: string)   // "<path>: <strerror>"
    | RequestNotSent             // the error NC_Write set
    | Refused(reason: string)    // "Server refused data: <reason>"
    | EofFromServer              // "EOF from server"
    | Incomplete                 // "Upload incomplete"
    | CommitFailed(text: string) // "Commit failed: <text>"

  datatype Outcome =
    | Uploaded(size: nat, response: string)  // the "successfully uploaded" notice
    | Failed(why: Failure)

  /** What the upload did: its outcome and return code, the request it sent, the number
      of `write` calls and the bytes they reported, whether the confirmation was read,
      and how many times the file was closed. */
  datatype Trace = Trace(outcome: Outcome, code: int, request: Option<string>, writes: nat,
                         wrote: nat, confirmRead: bool, closes: nat)

  /*** The commit request ***/

  predicate NoNewline(s: string) {
    forall k :: 0 <= k < |s| ==> s[k] != '\n'
  }

  /** A line and its terminating newline. */
  function Line(l: string): string {
    l + "\n"
  }

  /** Lines, each terminated by a newline. */
  function JoinLines(ls: seq<string>): string
    decreases |ls|
  {
    if ls == [] then "" else Line(ls[0]) + JoinLines(ls[1..])
  }

  /** The index of the first newline in `s`, or |s| if there is none. */
  function LineEnd(s: string): (k: nat)
    ensures k <= |s|
    ensures NoNewline(s[..k])
    ensures k < |s| ==> s[k] == '\n'
    decreases |s|
  {
    if s == [] || s[0] == '\n' then 0
    else
      var k := 1 + LineEnd(s[1..]);
      assert s[..k] == [s[0]] + s[1..][..k - 1];
      k
  }

  /** Newline-terminated text cut into its lines, or None if the text does not end with
      a newline. */
  function SplitLines(s: string): Option<seq<string>>
    decreases |s|
  {
    if s == [] then Some([])
    else
      var k := LineEnd(s);
      if k == |s| then None
      else
        var rest :- SplitLines(s[k + 1..]);
        Some([s[..k]] + rest)
  }

  /** A line without newlines, then a newline: the line ends at the newline. */
  lemma {:induction false} LineEndAfter(l: string, rest: string)
    requires NoNewline(l)
    ensures LineEnd(l + "\n" + rest) == |l|
    decreases |l|
  {
    var s := l + "\n" + rest;
    if l != [] {
      assert s[1..] == l[1..] + "\n" + rest;
      LineEndAfter(l[1..], rest);
    }
  }

  lemma {:induction false} SplitJoinedLines(ls: seq<string>)
    requires forall i :: 0 <= i < |ls| ==> NoNewline(ls[i])
    ensures SplitLines(JoinLines(ls)) == Some(ls)
    decreases |ls|
  {
    if ls != [] {
      var s := JoinLines(ls);
      var l := ls[0];
      LineEndAfter(l, JoinLines(ls[1..]));
      assert s[..|l|] == l;
      assert s[|l| + 1..] == JoinLines(ls[1..]);
      SplitJoinedLines(ls[1..]);
      assert [l] + ls[1..] == ls;
    }
  }

  /** The header fields a commit request announces. */
  datatype Header = Header(name: string, size: nat, digest: string)

  /** The request CAM_MachineUploadProgram writes for an artifact: the format string
      of its NC_Write call, line by line. */
  function CommitRequest(a: Artifact): (s: string)
    ensures s == JoinLines(RequestLines(a))
  {
    JoinFive("prog-commit", "prog-name=" + a.name, "prog-size=" + Decimal(a.size),
             "prog-digest=" + a.digest, "");
    Line("prog-commit") + Line("prog-name=" + a.name) + Line("prog-size=" + Decimal(a.size))
    + Line("prog-digest=" + a.digest) + Line("")
  }

  /** The request's lines: the fixed first line, the three `key=value` header lines and
      the empty line that ends the request. */
  function RequestLines(a: Artifact): seq<string> {
    ["prog-commit", "prog-name=" + a.name, "prog-size=" + Decimal(a.size),
     "prog-digest=" + a.digest, ""]
  }

  lemma JoinFive(l0: string, l1: string, l2: string, l3: string, l4: string)
    ensures JoinLines([l0, l1, l2, l3, l4]) == Line(l0) + Line(l1) + Line(l2) + Line(l3) + Line(l4)
  {
    var ls := [l0, l1, l2, l3, l4];
    JoinStep(ls, 4);
    JoinStep(ls, 3);
    JoinStep(ls, 2);
    JoinStep(ls, 1);
    JoinStep(ls, 0);
    assert ls[5..] == [];
    assert ls[0..] == ls;
  }

  /** Joining from line `i` on is line `i` and the join of the rest. */
  lemma JoinStep(ls: seq<string>, i: nat)
    requires i < |ls|
    ensures JoinLines(ls[i..]) == Line(ls[i]) + JoinLines(ls[i + 1..])
  {
    assert ls[i..][1..] == ls[i + 1..];
  }

  /** How the daemon reads a commit request: five lines, the fixed first line, three
      `key=value` lines with a decimal size, and the blank line. */
  function ParseRequest(s: string): Option<Header> {
    var ls :- SplitLines(s);
    if |ls| == 5 && ls[0] == "prog-commit" && ls[4] == ""
       && StartsWith(ls[1], "prog-name=") && StartsWith(ls[2], "prog-size=")
       && StartsWith(ls[3], "prog-digest=") && AllDigits(ls[2][10..])
    then Some(Header(ls[1][10..], Parse(ls[2][10..]), ls[3][12..]))
    else None
  }

  /** The request carries the program's name, size and digest to the daemon unchanged,
      provided name and digest hold no newline. */
  lemma RequestRoundTrip(a: Artifact)
    requires NoNewline(a.name) && NoNewline(a.digest)
    ensures ParseRequest(CommitRequest(a)) == Some(Header(a.name, a.size, a.digest))
  {
    var ls := RequestLines(a);
    forall i | 0 <= i < |ls|
      ensures NoNewline(ls[i])
    {
      if i == 2 {
        assert forall k :: 0 <= k < |Decimal(a.size)| ==> IsDigit(Decimal(a.size)[k]);
      }
    }
    SplitJoinedLines(ls);
    assert ls[1][10..] == a.name;
    assert ls[2][10..] == Decimal(a.size);
    assert ls[3][12..] == a.digest;
    ParseDecimal(a.size);
  }

  /*** The replies ***/

  /** Byte `i` of the read buffer. */
  function ByteAt(r: Reply, i: nat): char {
    if i < |r.text| then r.text[i] else '\0'
  }

  /** The C string that starts at byte `i` of the read buffer. */
  function CStringAt(r: Reply, i: nat): (s: string)
    ensures forall k :: 0 <= k < |s| ==> s[k] != '\0' && s[k] == ByteAt(r, i + k)
    ensures ByteAt(r, i + |s|) == '\0'
    decreases |r.text| - i
  {
    if ByteAt(r, i) == '\0' then "" else [ByteAt(r, i)] + CStringAt(r, i + 1)
  }

  /** The daemon refused the commit: the read returned at most two bytes, or the status
      byte is not '0'. */
  predicate CommitRefused(r: Reply)
    ensures CommitRefused(r) <==> r.count <= 2 || |r.text| == 0 || r.text[0] != '0'
  {
    r.count <= 2 || ByteAt(r, 0) != '0'
  }

  /** The confirmation is bad: nothing was read, the status byte is not '0', or nothing
      follows it. */
  predicate ConfirmBad(r: Reply)
    ensures ConfirmBad(r) <==>
              r.count < 1 || |r.text| < 2 || r.text[0] != '0' || r.text[1] == '\0'
  {
    r.count < 1 || ByteAt(r, 0) != '0' || ByteAt(r, 1) == '\0'
  }

  /*** The streaming loop ***/

  /** A turn the loop completes: fread delivered bytes and `write` took some of them. */
  predicate Accepted(c: Chunk) {
    c.read > 0 && c.written > 0
  }

  /** The turn at which the streaming loop stops, searching from turn `i`: the end of
      the file, a turn where fread returns 0, or a turn where `write` returns 0. */
  function StopTurn(chunks: seq<Chunk>, i: nat): (k: nat)
    requires i <= |chunks|
    ensures i <= k <= |chunks|
    ensures forall j :: i <= j < k ==> Accepted(chunks[j])
    ensures k < |chunks| ==> !Accepted(chunks[k])
    decreases |chunks| - i
  {
    if i == |chunks| || !Accepted(chunks[i]) then i else StopTurn(chunks, i + 1)
  }

  /** The bytes `write` reported for the first `n` turns. */
  function Written(chunks: seq<Chunk>, n: nat): nat
    requires n <= |chunks|
  {
    if n == 0 then 0 else Written(chunks, n - 1) + chunks[n - 1].written
  }

  /** The byte count never decreases, and each completed turn adds at least one byte. */
  lemma {:induction false} WrittenGrows(chunks: seq<Chunk>, n: nat)
    requires n <= |chunks|
    requires forall j :: 0 <= j < n ==> Accepted(chunks[j])
    ensures Written(chunks, n) >= n
    ensures n > 0 ==> Written(chunks, n) >= Written(chunks, n - 1) + 1
    decreases n
  {
    if n > 0 {
      WrittenGrows(chunks, n - 1);
    }
  }

  /** The loop ends on a zero-length write rather than on the end of the file. */
  predicate EndsOnEof(chunks: seq<Chunk>) {
    var k := StopTurn(chunks, 0);
    k < |chunks| && chunks[k].read > 0
  }

  /** The first turn at which the loop stops is `i` when every earlier turn completed and
      turn `i` does not. */
  lemma StopTurnIs(chunks: seq<Chunk>, i: nat)
    requires i <= |chunks|
    requires forall j :: 0 <= j < i ==> Accepted(chunks[j])
    requires i < |chunks| ==> !Accepted(chunks[i])
    ensures StopTurn(chunks, 0) == i
  {
  }

  /*** The upload ***/

  /** CAM_MachineUploadProgram, with every `goto fail_close` exit and the open file's
      single fclose made explicit. */
  method UploadProgram(e: Exchange) returns (t: Trace)
    ensures t.code == (if t.outcome.Uploaded? then 0 else -1)
    ensures e.artifact.None? ==> t == Trace(Failed(NotSaved), -1, None, 0, 0, false, 0)
    ensures e.artifact.Some? && !e.opens ==>
              t == Trace(Failed(CannotOpen(e.artifact.value.path)), -1, None, 0, 0, false, 0)
    ensures e.artifact.Some? && e.opens ==>
              t.closes == 1 && t.request == Some(CommitRequest(e.artifact.value))
    ensures t.outcome == Failed(RequestNotSent) <==> e.artifact.Some? && e.opens && !e.requestSent
    ensures t.outcome.Failed? && t.outcome.why.Refused? <==>
              e.artifact.Some? && e.opens && e.requestSent && CommitRefused(e.commitReply)
    ensures t.outcome.Failed? && t.outcome.why.Refused? ==>
              t.outcome.why.reason == CStringAt(e.commitReply, 2)
    ensures t.writes > 0 ==>
              e.artifact.Some? && e.opens && e.requestSent && !CommitRefused(e.commitReply)
    ensures e.artifact.Some? && e.opens && e.requestSent && !CommitRefused(e.commitReply) ==>
              && t.writes == StopTurn(e.chunks, 0) + (if EndsOnEof(e.chunks) then 1 else 0)
              && t.wrote == Written(e.chunks, StopTurn(e.chunks, 0))
    ensures t.writes == 0 ==> t.wrote == 0
    ensures t.outcome == Failed(EofFromServer) <==>
              e.artifact.Some? && e.opens && e.requestSent && !CommitRefused(e.commitReply)
              && EndsOnEof(e.chunks)
    ensures t.outcome == Failed(Incomplete) <==>
              e.artifact.Some? && e.opens && e.requestSent && !CommitRefused(e.commitReply)
              && !EndsOnEof(e.chunks)
              && Written(e.chunks, StopTurn(e.chunks, 0)) < e.artifact.value.size
    ensures t.confirmRead <==>
              e.artifact.Some? && e.opens && e.requestSent && !CommitRefused(e.commitReply)
              && !EndsOnEof(e.chunks)
              && Written(e.chunks, StopTurn(e.chunks, 0)) >= e.artifact.value.size
    ensures t.outcome.Failed? && t.outcome.why.CommitFailed? <==>
              t.confirmRead && ConfirmBad(e.confirmReply)
    ensures t.outcome.Failed? && t.outcome.why.CommitFailed? ==>
              t.outcome.why.text == CStringAt(e.confirmReply, 0)
    ensures t.outcome.Uploaded? <==> t.confirmRead && !ConfirmBad(e.confirmReply)
    ensures t.outcome.Uploaded? ==>
              && t.outcome.size == t.wrote && t.wrote >= e.artifact.value.size
              && t.outcome.response == CStringAt(e.confirmReply, 2)
  {
    if e.artifact.None? {
      return Trace(Failed(NotSaved), -1, None, 0, 0, false, 0);
    }
    var a := e.artifact.value;
    if !e.opens {
      return Trace(Failed(CannotOpen(a.path)), -1, None, 0, 0, false, 0);
    }
    var request := CommitRequest(a);
    var closes := 0;
    if !e.requestSent {
      closes := closes + 1;
      return Trace(Failed(RequestNotSent), -1, Some(request), 0, 0, false, closes);
    }
    if CommitRefused(e.commitReply) {
      closes := closes + 1;
      return Trace(Failed(Refused(CStringAt(e.commitReply, 2))), -1, Some(request), 0, 0, false,
                   closes);
    }
    var wrote := 0;
    var i := 0;
    while i < |e.chunks| && e.chunks[i].read > 0
      invariant i <= |e.chunks|
      invariant forall j :: 0 <= j < i ==> Accepted(e.chunks[j])
      invariant wrote == Written(e.chunks, i)
    {
      var nw := e.chunks[i].written;
      if nw == 0 {
        StopTurnIs(e.chunks, i);
        closes := closes + 1;
        return Trace(Failed(EofFromServer), -1, Some(request), i + 1, wrote, false, closes);
      }
      wrote := wrote + nw;
      i := i + 1;
    }
    StopTurnIs(e.chunks, i);
    if wrote < a.size {
      closes := closes + 1;
      return Trace(Failed(Incomplete), -1, Some(request), i, wrote, false, closes);
    }
    if ConfirmBad(e.confirmReply) {
      closes := closes + 1;
      return Trace(Failed(CommitFailed(CStringAt(e.confirmReply, 0))), -1, Some(request), i, wrote,
                   true, closes);
    }
    closes := closes + 1;
    t := Trace(Uploaded(wrote, CStringAt(e.confirmReply, 2)), 0, Some(request), i, wrote, true,
               closes);
  }
}
