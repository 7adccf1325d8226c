/** Writing a trial's evidence: one line a record, a running digest, a byte limit and an error that sticks.

What the encoder and the file system answer is given with each operation. The digest is modelled by the bytes it was
fed; hashing and JSON are parameters where a receipt is read back. */
module EvidenceWriter {
  import opened Base
  import opened EvidenceReader

  type Bytes = seq<nat>

  const NEWLINE: nat := 10

  /** What the file answers to a write: how many bytes it took, and whether it reported an error. */
  datatype WriteReply = WriteReply(taken: nat, failed: bool)

  /** A record to write: its encoding, if it has one, and the file's answer. */
  datatype Submission = Submission(encoded: Option<Bytes>, reply: WriteReply)

  /** A writer reports an error whenever it takes less than it was given. */
  predicate Honest(sub: Submission) {
    sub.encoded.Some? ==> sub.reply.taken <= |Line(sub.encoded.value)|
                          && (sub.reply.taken < |Line(sub.encoded.value)| ==> sub.reply.failed)
  }

  function Line(encoded: Bytes): Bytes {
    encoded + [NEWLINE]
  }

  /** What the artifact is after these records, when nothing goes wrong. */
  function Lines(subs: seq<Submission>): Bytes
    requires forall i | 0 <= i < |subs| :: subs[i].encoded.Some?
  {
    if subs == [] then []
    else Lines(subs[..|subs| - 1]) + Line(subs[|subs| - 1].encoded.value)
  }

  datatype Artifact = Artifact(file: Bytes, digested: Bytes, bytes: nat, failed: bool, closed: bool)

  const OPENED := Artifact([], [], 0, false, false)

  // ---------------------------------------------------------------- one call

  function Record(a: Artifact, sub: Submission): (Artifact, bool)
    requires Honest(sub)
  {
    if a.failed || a.closed then (a, false)
    else if sub.encoded.None? || |Line(sub.encoded.value)| > MAX_BYTES - a.bytes then (a.(failed := true), false)
    else
      var line := Line(sub.encoded.value);
      var written := line[..sub.reply.taken];
      (a.(file := a.file + written, digested := a.digested + written, bytes := a.bytes + |line|,
          failed := sub.reply.failed),
       !sub.reply.failed)
  }

  function Close(a: Artifact, fails: bool): (Artifact, bool) {
    var b := if a.closed then a else a.(closed := true, failed := a.failed || fails);
    (b, !b.failed)
  }

  class TrialEvidence {
    var file: Bytes
    var digested: Bytes
    var bytes: nat
    var failed: bool
    var closed: bool

    ghost function Value(): Artifact
      reads this
    {
      Artifact(file, digested, bytes, failed, closed)
    }

    constructor ()
      ensures Value() == OPENED
    {
      file, digested, bytes, failed, closed := [], [], 0, false, false;
    }

    method RecordEntry(sub: Submission) returns (ok: bool)
      requires Honest(sub)
      modifies this
      ensures (Value(), ok) == Record(old(Value()), sub)
    {
      if failed || closed { return false; }
      if sub.encoded.None? || |sub.encoded.value| + 1 > MAX_BYTES - bytes {
        failed := true;
        return false;
      }
      var line := Line(sub.encoded.value);
      var n := sub.reply.taken;
      file := file + line[..n];
      digested := digested + line[..n];
      bytes := bytes + |line|;
      if sub.reply.failed { failed := true; }
      ok := !failed;
    }

    method CloseArtifact(fails: bool) returns (ok: bool)
      modifies this
      ensures (Value(), ok) == Close(old(Value()), fails)
    {
      if !closed {
        closed := true;
        if fails { failed := true; }
      }
      ok := !failed;
    }

    /** Records the result and closes; the caller issues a receipt only when this succeeds. */
    method Finish(result: Submission, fails: bool) returns (ok: bool)
      requires Honest(result)
      modifies this
      ensures (Value(), ok) == Settle(old(Value()), result, fails)
    {
      var recorded := RecordEntry(result);
      ok := CloseArtifact(fails);
      ok := recorded && ok;
    }
  }

  function Settle(a: Artifact, result: Submission, fails: bool): (Artifact, bool)
    requires Honest(result)
  {
    var (b, recorded) := Record(a, result);
    var (c, shut) := Close(b, fails);
    (c, recorded && shut)
  }

  // ---------------------------------------------------------------- every run

  /** Records and closes, in any order. */
  datatype Op = Submit(sub: Submission) | Shut(fails: bool)

  predicate HonestRun(ops: seq<Op>) {
    forall i | 0 <= i < |ops| && ops[i].Submit? :: Honest(ops[i].sub)
  }

  function Apply(a: Artifact, op: Op): (Artifact, bool)
    requires op.Submit? ==> Honest(op.sub)
  {
    if op.Submit? then Record(a, op.sub) else Close(a, op.fails)
  }

  function Exec(ops: seq<Op>): Artifact
    requires HonestRun(ops)
  {
    if ops == [] then OPENED else Apply(Exec(ops[..|ops| - 1]), ops[|ops| - 1]).0
  }

  /** The records submitted before the artifact was first closed. */
  function Submitted(ops: seq<Op>): seq<Submission> {
    if ops == [] then []
    else
      var before, op := ops[..|ops| - 1], ops[|ops| - 1];
      Submitted(before) + (if op.Submit? && !Closes(before) then [op.sub] else [])
  }

  predicate Closes(ops: seq<Op>) {
    exists i | 0 <= i < |ops| :: ops[i].Shut?
  }

  /** The record was encoded and fully written. */
  predicate Kept(sub: Submission) {
    sub.encoded.Some? && !sub.reply.failed
  }

  predicate AllKept(subs: seq<Submission>) {
    forall i | 0 <= i < |subs| :: Kept(subs[i])
  }

  /** What every reachable artifact satisfies: the digest covers exactly the file, and while no error stuck the file
  holds every record submitted, whole and in order, within the limit. */
  predicate Faithful(ops: seq<Op>, a: Artifact) {
    && a.digested == a.file
    && a.bytes <= MAX_BYTES
    && a.closed == Closes(ops)
    && (!a.failed ==> AllKept(Submitted(ops)) && a.file == Lines(Submitted(ops)) && a.bytes == |a.file|)
  }

  lemma ClosesExtend(ops: seq<Op>)
    requires ops != []
    ensures Closes(ops) <==> Closes(ops[..|ops| - 1]) || ops[|ops| - 1].Shut?
  {
    var before := ops[..|ops| - 1];
    if Closes(before) {
      var i :| 0 <= i < |before| && before[i].Shut?;
      assert ops[i].Shut?;
    }
  }

  lemma LinesExtend(subs: seq<Submission>, sub: Submission)
    requires AllKept(subs) && Kept(sub)
    ensures AllKept(subs + [sub]) && Lines(subs + [sub]) == Lines(subs) + Line(sub.encoded.value)
  {
    assert (subs + [sub])[..|subs|] == subs;
  }

  lemma SubmitFaithful(ops: seq<Op>, a: Artifact, sub: Submission)
    requires Faithful(ops, a) && Honest(sub)
    ensures Faithful(ops + [Submit(sub)], Record(a, sub).0)
  {
    var more := ops + [Submit(sub)];
    assert more[..|ops|] == ops;
    ClosesExtend(more);
    if a.closed {
      assert Submitted(more) == Submitted(ops);
    } else if !Record(a, sub).0.failed {
      var line := Line(sub.encoded.value);
      assert line[..sub.reply.taken] == line;
      LinesExtend(Submitted(ops), sub);
    }
  }

  lemma ShutFaithful(ops: seq<Op>, a: Artifact, fails: bool)
    requires Faithful(ops, a)
    ensures Faithful(ops + [Shut(fails)], Close(a, fails).0)
  {
    var more := ops + [Shut(fails)];
    assert more[..|ops|] == ops;
    ClosesExtend(more);
    assert Submitted(more) == Submitted(ops);
  }

  lemma {:induction false} AlwaysFaithful(ops: seq<Op>)
    requires HonestRun(ops)
    ensures Faithful(ops, Exec(ops))
  {
    if ops != [] {
      var before, op := ops[..|ops| - 1], ops[|ops| - 1];
      AlwaysFaithful(before);
      assert ops == before + [op];
      match op
      case Submit(sub) => SubmitFaithful(before, Exec(before), sub);
      case Shut(fails) => ShutFaithful(before, Exec(before), fails);
    }
  }

  /** An error sticks: once it is there, every later record and every later close reports it. */
  lemma {:induction false} ErrorSticks(ops: seq<Op>, i: nat, j: nat)
    requires HonestRun(ops) && i <= j <= |ops| && Exec(ops[..i]).failed
    ensures Exec(ops[..j]).failed
    ensures j < |ops| ==> !Apply(Exec(ops[..j]), ops[j]).1
  {
    if i < j {
      ErrorSticks(ops, i, j - 1);
      assert ops[..j][..j - 1] == ops[..j - 1];
    }
  }

  // ---------------------------------------------------------------- a settled trial

  /** A trial's records, one after the other, then the result and the close. */
  function Written(subs: seq<Submission>): Artifact
    requires forall i | 0 <= i < |subs| :: Honest(subs[i])
  {
    if subs == [] then OPENED else Record(Written(subs[..|subs| - 1]), subs[|subs| - 1]).0
  }

  /** Exactly when a trial's records leave no error behind, and what the file then holds. */
  lemma {:induction false} WrittenExactly(subs: seq<Submission>)
    requires forall i | 0 <= i < |subs| :: Honest(subs[i])
    ensures var a := Written(subs);
            && !a.closed && a.digested == a.file
            && (!a.failed <==> AllKept(subs) && |Lines(subs)| <= MAX_BYTES)
            && (!a.failed ==> a.file == Lines(subs) && a.bytes == |a.file|)
  {
    if subs != [] {
      var before, sub := subs[..|subs| - 1], subs[|subs| - 1];
      WrittenExactly(before);
      assert subs == before + [sub];
      if AllKept(subs) {
        assert forall i | 0 <= i < |before| :: before[i] == subs[i];
        LinesExtend(before, sub);
      } else if AllKept(before) {
        assert !Kept(sub);
      }
      if Kept(sub) {
        var line := Line(sub.encoded.value);
        assert line[..sub.reply.taken] == line;
      }
    }
  }

  /** A receipt is issued exactly when every record was encoded and written whole, all of them fit in the limit, and the
  close succeeded; the receipt's digest is then the digest of the whole file, which is every record in order. */
  lemma ReceiptExactly(subs: seq<Submission>, result: Submission, fails: bool)
    requires forall i | 0 <= i < |subs| :: Honest(subs[i])
    requires Honest(result)
    ensures var (a, ok) := Settle(Written(subs), result, fails);
            && (ok <==> AllKept(subs + [result]) && |Lines(subs + [result])| <= MAX_BYTES && !fails)
            && (ok ==> a.closed && a.file == Lines(subs + [result]) && a.digested == a.file)
  {
    var all := subs + [result];
    assert all[..|subs|] == subs;
    WrittenExactly(all);
  }

  // ---------------------------------------------------------------- finishing beside other calls

  /** The run of a `Finish` whose two critical sections have other calls between them. */
  function Finishing(ops: seq<Op>, result: Submission, between: seq<Op>, fails: bool): seq<Op> {
    ops + [Submit(result)] + between + [Shut(fails)]
  }

  /** `Finish` succeeds when both of its sections do. */
  ghost predicate FinishSucceeds(ops: seq<Op>, result: Submission, between: seq<Op>, fails: bool)
    requires HonestRun(Finishing(ops, result, between, fails))
  {
    var run := Finishing(ops, result, between, fails);
    && Apply(Exec(run[..|ops|]), run[|ops|]).1
    && Apply(Exec(run[..|run| - 1]), run[|run| - 1]).1
  }

  /** Whatever other calls come between, a successful finish leaves a closed file that is every record submitted before
  the close, the result among them, and whose digest is of all of it. A record that slipped in behind the result is in
  the file too, and makes the log ill formed for the reader. */
  lemma FinishBesideOthers(ops: seq<Op>, result: Submission, between: seq<Op>, fails: bool)
    requires HonestRun(Finishing(ops, result, between, fails))
    requires FinishSucceeds(ops, result, between, fails)
    ensures var run := Finishing(ops, result, between, fails);
            var a := Exec(run);
            && a.closed && !a.failed && a.digested == a.file && |a.file| <= MAX_BYTES
            && result in Submitted(run) && AllKept(Submitted(run)) && a.file == Lines(Submitted(run))
  {
    var run := Finishing(ops, result, between, fails);
    AlwaysFaithful(run);
    RecordedIsSubmitted(run, |ops|);
    assert run[|run| - 1] == Shut(fails);
  }

  /** A record that was taken is among those submitted. */
  lemma RecordedIsSubmitted(run: seq<Op>, n: nat)
    requires HonestRun(run) && n < |run| && run[n].Submit? && Apply(Exec(run[..n]), run[n]).1
    ensures run[n].sub in Submitted(run)
  {
    TakenWhileOpen(run[..n], run[n]);
    SubmittedNext(run, n);
    SubmittedGrows(run, n + 1, |run|);
    assert run[..|run|] == run;
    PrefixHas(Submitted(run[..n]), run[n].sub, Submitted(run));
  }

  /** A record is taken only while nothing was closed. */
  lemma TakenWhileOpen(ops: seq<Op>, op: Op)
    requires HonestRun(ops) && op.Submit? && Honest(op.sub) && Apply(Exec(ops), op).1
    ensures !Closes(ops)
  {
    AlwaysFaithful(ops);
  }

  lemma SubmittedNext(run: seq<Op>, n: nat)
    requires n < |run| && run[n].Submit? && !Closes(run[..n])
    ensures Submitted(run[..n + 1]) == Submitted(run[..n]) + [run[n].sub]
  {
    assert run[..n + 1][..n] == run[..n];
  }

  lemma PrefixHas(before: seq<Submission>, sub: Submission, all: seq<Submission>)
    requires before + [sub] <= all
    ensures sub in all
  {
    assert all[|before|] == (before + [sub])[|before|];
  }

  lemma {:induction false} SubmittedGrows(ops: seq<Op>, i: nat, j: nat)
    requires i <= j <= |ops|
    ensures Submitted(ops[..i]) <= Submitted(ops[..j])
  {
    if i < j {
      SubmittedGrows(ops, i, j - 1);
      assert ops[..j][..j - 1] == ops[..j - 1];
    }
  }

  /** Nothing may follow the result. */
  lemma LateRecordRejected(log: seq<Entry>, receipt: Receipt, n: nat)
    requires 0 < n < |log| && log[n - 1].Outcome?
    ensures !WellFormed(log, receipt)
  {
    Misplaced(log, receipt, n);
  }

  // ---------------------------------------------------------------- reading it back

  /** The encoder, the decoder and the hash, as the reader and the writer use them. */
  datatype Codec = Codec(encode: Entry -> Option<Bytes>, decode: Bytes -> seq<Entry>, hash: Bytes -> string)

  /** Each record goes to the file as the encoding of an entry. */
  predicate Encodes(codec: Codec, log: seq<Entry>, subs: seq<Submission>) {
    |subs| == |log| && forall i | 0 <= i < |log| :: subs[i].encoded == codec.encode(log[i])
  }

  /** A name of a file in the evidence directory itself: local, and its own base name. */
  predicate PlainName(file: string) {
    file != "" && file != "." && file != ".." && '/' !in file
  }

  /** What the reader demands of a receipt and of the file it names. */
  predicate Matches(codec: Codec, data: Bytes, receipt: Receipt) {
    PlainName(receipt.file) && |receipt.sha256| == 64 && |data| <= MAX_BYTES && codec.hash(data) == receipt.sha256
  }

  /** Reads the artifact a receipt names; `None` from the directory is a file that cannot be opened or read. The context
  is looked at once on entry and then once a record. */
  method ReadTrialEvidence(
    codec: Codec, directory: string -> Option<Bytes>, receipt: Receipt, cancelledFirst: bool, cancelled: nat -> bool)
    returns (r: Option<View>)
    ensures r.Some? <==>
              var data := directory(receipt.file);
              && !cancelledFirst && data.Some? && Matches(codec, data.value, receipt)
              && WellFormed(codec.decode(data.value), receipt)
              && forall i: nat | i <= |codec.decode(data.value)| :: !cancelled(i)
    ensures r.Some? ==> Projects(codec.decode(directory(receipt.file).value), receipt, r.value)
  {
    if cancelledFirst { return None; }
    if !PlainName(receipt.file) || |receipt.sha256| != 64 { return None; }
    var file := directory(receipt.file);
    if file.None? { return None; }
    var data := if |file.value| > MAX_BYTES + 1 then file.value[..MAX_BYTES + 1] else file.value;
    if |data| > MAX_BYTES || codec.hash(data) != receipt.sha256 { return None; }
    r := ProjectEvidence(codec.decode(data), receipt, cancelled);
  }

  /** Writes a trial's records, the last being its result, and settles it. */
  method WriteTrial(subs: seq<Submission>, fails: bool) returns (trial: TrialEvidence, issued: bool)
    requires |subs| > 0 && forall i | 0 <= i < |subs| :: Honest(subs[i])
    ensures issued <==> AllKept(subs) && |Lines(subs)| <= MAX_BYTES && !fails
    ensures issued ==> trial.file == trial.digested == Lines(subs)
  {
    trial := new TrialEvidence();
    var n := |subs| - 1;
    var i := 0;
    assert subs[..0] == [];
    while i < n
      invariant 0 <= i <= n
      invariant trial.Value() == Written(subs[..i])
    {
      var ok := trial.RecordEntry(subs[i]);
      i := i + 1;
      assert subs[..i][..i - 1] == subs[..i - 1];
    }
    issued := trial.Finish(subs[n], fails);
    ReceiptExactly(subs[..n], subs[n], fails);
    assert subs[..n] + [subs[n]] == subs;
  }

  /** Writing then reading: with a decoder that inverts the encoder on this log, a trial that was issued a receipt for
  the digest is read back exactly when its log is well formed, and the view is the projection of what was written. */
  method RoundTrip(codec: Codec, log: seq<Entry>, subs: seq<Submission>, fails: bool, identity: Receipt)
    returns (issued: bool, r: Option<View>)
    requires |log| > 0 && Encodes(codec, log, subs) && PlainName(identity.file)
    requires forall i | 0 <= i < |subs| :: Honest(subs[i])
    requires AllKept(subs) ==> codec.decode(Lines(subs)) == log
    requires forall b: Bytes {:trigger codec.hash(b)} :: |codec.hash(b)| == 64
    ensures issued <==> AllKept(subs) && |Lines(subs)| <= MAX_BYTES && !fails
    ensures r.Some? <==> issued && WellFormed(log, identity.(sha256 := codec.hash(Lines(subs))))
    ensures r.Some? ==> Projects(log, identity.(sha256 := codec.hash(Lines(subs))), r.value)
  {
    var trial;
    trial, issued := WriteTrial(subs, fails);
    if !issued { return false, None; }
    var data := trial.file;
    var receipt := identity.(sha256 := codec.hash(trial.digested));
    var directory := name => if name == receipt.file then Some(data) else None;
    r := ReadTrialEvidence(codec, directory, receipt, false, n => false);
  }
}
