/** Harness experiments: their validation, the trials they expand to, and the decisions that carry them.

JSON decoding happens before this model: an experiment or decision arrives as decoded fields. */
module Experiment {
  import opened Base
  import opened Decimal
  import opened EvidenceReader

  const BASELINE := "baseline"
  const NAME_PREFIX := "zarlcode-harness-"

  /** Guidance under a label (`tag`). */
  datatype Candidate = Candidate(tag: string, guidance: string)

  datatype Spec = Spec(version: int, repeats: int, candidates: seq<Candidate>)

  datatype Trial = Trial(tag: string, guidance: string, repeat: nat)

  // ---------------------------------------------------------------- driver names

  /** A trial's stable key; a zero trial has none. */
  function DriverName(t: Trial): string {
    if t.repeat == 0 then "" else NAME_PREFIX + t.tag + "-r" + Itoa(t.repeat)
  }

  /** If two names end in numbers of different length, the longer number contains the other's `r`. */
  lemma ShorterClash(a: string, b: string, x: string, y: string)
    requires a + "-r" + x == b + "-r" + y && |x| < |y|
    ensures y[|y| - |x| - 1] == 'r'
  {
    var s, t := a + "-r" + x, b + "-r" + y;
    assert s[|s| - |x| - 1] == 'r';
    assert t[|t| - |x| - 1] == y[|y| - |x| - 1];
  }

  /** Digits contain no `r`, so the last "-r" of a name is the one before its number. */
  lemma SuffixUnique(a: string, b: string, x: string, y: string)
    requires a + "-r" + x == b + "-r" + y
    requires (forall i | 0 <= i < |x| :: IsDigit(x[i])) && (forall i | 0 <= i < |y| :: IsDigit(y[i]))
    ensures a == b && x == y
  {
    var s, t := a + "-r" + x, b + "-r" + y;
    if |x| < |y| {
      ShorterClash(a, b, x, y);
      assert false;
    } else if |y| < |x| {
      ShorterClash(b, a, y, x);
      assert false;
    }
    assert a == s[..|a|] && b == t[..|b|];
    assert x == s[|s| - |x|..] && y == t[|t| - |y|..];
  }

  /** Active trials share a driver name only if they share label and repetition, whatever the labels contain. */
  lemma DriverNameInjective(t: Trial, u: Trial)
    requires t.repeat > 0 && u.repeat > 0 && DriverName(t) == DriverName(u)
    ensures t.tag == u.tag && t.repeat == u.repeat
  {
    SuffixUnique(NAME_PREFIX + t.tag, NAME_PREFIX + u.tag, Itoa(t.repeat), Itoa(u.repeat));
    var p, q := NAME_PREFIX + t.tag, NAME_PREFIX + u.tag;
    assert t.tag == p[|NAME_PREFIX|..] && u.tag == q[|NAME_PREFIX|..];
    AtoiItoa(t.repeat);
    AtoiItoa(u.repeat);
  }

  // ---------------------------------------------------------------- validation

  predicate LabelHead(c: char) { 'a' <= c <= 'z' }

  predicate LabelRest(c: char) { 'a' <= c <= 'z' || '0' <= c <= '9' || c == '-' }

  predicate ValidLabel(s: string) {
    1 <= |s| <= 40 && LabelHead(s[0]) && forall i | 1 <= i < |s| :: LabelRest(s[i])
  }

  predicate ValidGuidance(s: string) {
    !Blank(s) && ByteLength(s) <= 16384
  }

  /** A valid experiment: bounded counts, well-formed and pairwise distinct labels other than the reserved one. */
  predicate ValidSpec(spec: Spec) {
    && spec.version == 1 && 1 <= spec.repeats <= 10 && 1 <= |spec.candidates| <= 16
    && (forall i | 0 <= i < |spec.candidates| ::
          ValidLabel(spec.candidates[i].tag) && spec.candidates[i].tag != BASELINE
          && ValidGuidance(spec.candidates[i].guidance))
    && (forall i, j | 0 <= i < j < |spec.candidates| :: spec.candidates[i].tag != spec.candidates[j].tag)
  }

  method ParseExperiment(spec: Spec) returns (ok: bool)
    ensures ok == ValidSpec(spec)
  {
    if spec.version != 1 || spec.repeats < 1 || spec.repeats > 10 || |spec.candidates| < 1 || |spec.candidates| > 16 {
      return false;
    }
    var seen: set<string> := {BASELINE};
    var k := 0;
    while k < |spec.candidates|
      invariant 0 <= k <= |spec.candidates|
      invariant forall x :: x in seen <==> x == BASELINE || exists i :: 0 <= i < k && spec.candidates[i].tag == x
      invariant forall i | 0 <= i < k ::
                  ValidLabel(spec.candidates[i].tag) && spec.candidates[i].tag != BASELINE
                  && ValidGuidance(spec.candidates[i].guidance)
      invariant forall i, j | 0 <= i < j < k :: spec.candidates[i].tag != spec.candidates[j].tag
    {
      var c := spec.candidates[k];
      if !ValidLabel(c.tag) || c.tag in seen { return false; }
      if Blank(c.guidance) || ByteLength(c.guidance) > 16384 { return false; }
      seen := seen + {c.tag};
      k := k + 1;
    }
    ok := true;
  }

  // ---------------------------------------------------------------- trials

  function CandidateTrials(candidates: seq<Candidate>, repeat: nat): (ts: seq<Trial>)
    ensures |ts| == |candidates|
    ensures forall i | 0 <= i < |ts| :: ts[i] == Trial(candidates[i].tag, candidates[i].guidance, repeat)
  {
    if candidates == [] then []
    else
      var n := |candidates| - 1;
      CandidateTrials(candidates[..n], repeat) + [Trial(candidates[n].tag, candidates[n].guidance, repeat)]
  }

  /** One repetition: the baseline, then every candidate. */
  function Round(spec: Spec, repeat: nat): seq<Trial> {
    [Trial(BASELINE, "", repeat)] + CandidateTrials(spec.candidates, repeat)
  }

  function TrialList(spec: Spec, repeats: nat): seq<Trial> {
    if repeats == 0 then [] else TrialList(spec, repeats - 1) + Round(spec, repeats)
  }

  method Trials(spec: Spec) returns (trials: seq<Trial>)
    ensures trials == if spec.repeats < 0 then [] else TrialList(spec, spec.repeats)
  {
    trials := [];
    var repeat := 1;
    while repeat <= spec.repeats
      invariant 1 <= repeat
      invariant if spec.repeats < 0 then trials == [] && repeat == 1
                else repeat <= spec.repeats + 1 && trials == TrialList(spec, repeat - 1)
    {
      trials := AppendRound(trials, spec.candidates, repeat);
      assert TrialList(spec, repeat) == TrialList(spec, repeat - 1) + Round(spec, repeat);
      repeat := repeat + 1;
    }
  }

  method AppendRound(trials: seq<Trial>, candidates: seq<Candidate>, repeat: nat) returns (out: seq<Trial>)
    ensures out == trials + ([Trial(BASELINE, "", repeat)] + CandidateTrials(candidates, repeat))
  {
    ghost var start := trials + [Trial(BASELINE, "", repeat)];
    out := trials + [Trial(BASELINE, "", repeat)];
    var k := 0;
    while k < |candidates|
      invariant 0 <= k <= |candidates|
      invariant out == start + CandidateTrials(candidates[..k], repeat)
    {
      assert candidates[..k + 1][..k] == candidates[..k];
      out := out + [Trial(candidates[k].tag, candidates[k].guidance, repeat)];
      k := k + 1;
    }
    assert candidates[..k] == candidates;
  }

  lemma {:induction false} TrialCount(spec: Spec, repeats: nat)
    ensures |TrialList(spec, repeats)| == repeats * (1 + |spec.candidates|)
  {
    if repeats > 0 {
      TrialCount(spec, repeats - 1);
    }
  }

  lemma {:induction false} TrialRepeats(spec: Spec, repeats: nat, i: nat)
    requires i < |TrialList(spec, repeats)|
    ensures 1 <= TrialList(spec, repeats)[i].repeat <= repeats
  {
    if i < |TrialList(spec, repeats - 1)| {
      TrialRepeats(spec, repeats - 1, i);
    }
  }

  /** Within and across repetitions no two trials of a valid experiment agree in label and number. */
  lemma {:induction false} TrialsDiffer(spec: Spec, repeats: nat, i: nat, j: nat)
    requires ValidSpec(spec) && i < j < |TrialList(spec, repeats)|
    ensures var ts := TrialList(spec, repeats); ts[i].tag != ts[j].tag || ts[i].repeat != ts[j].repeat
  {
    var before := TrialList(spec, repeats - 1);
    if j < |before| {
      TrialsDiffer(spec, repeats - 1, i, j);
    } else if i < |before| {
      TrialRepeats(spec, repeats - 1, i);
    } else {
      RoundDiffers(spec, repeats, i - |before|, j - |before|);
    }
  }

  lemma RoundDiffers(spec: Spec, repeat: nat, i: nat, j: nat)
    requires ValidSpec(spec) && i < j < |Round(spec, repeat)|
    ensures Round(spec, repeat)[i].tag != Round(spec, repeat)[j].tag
  {
    assert Round(spec, repeat)[j].tag == spec.candidates[j - 1].tag;
    assert i > 0 ==> Round(spec, repeat)[i].tag == spec.candidates[i - 1].tag;
  }

  /** A valid experiment expands to repeats x (1 + candidates) trials with pairwise distinct driver names. */
  lemma TrialsAreDistinct(spec: Spec)
    requires ValidSpec(spec)
    ensures var ts := TrialList(spec, spec.repeats);
            && |ts| == spec.repeats * (1 + |spec.candidates|)
            && forall i, j | 0 <= i < j < |ts| :: DriverName(ts[i]) != DriverName(ts[j])
  {
    var ts := TrialList(spec, spec.repeats);
    TrialCount(spec, spec.repeats);
    forall i, j | 0 <= i < j < |ts|
      ensures DriverName(ts[i]) != DriverName(ts[j])
    {
      if DriverName(ts[i]) == DriverName(ts[j]) {
        TrialRepeats(spec, spec.repeats, i);
        TrialRepeats(spec, spec.repeats, j);
        DriverNameInjective(ts[i], ts[j]);
        TrialsDiffer(spec, spec.repeats, i, j);
      }
    }
  }

  // ---------------------------------------------------------------- decisions

  datatype Decision = Decision(
    version: int,
    noChange: bool,
    rationale: string,
    evidenceIDs: seq<string>,
    experiment: Option<Spec>)

  /** Citing a view, or one of its observations. */
  predicate Cites(id: string, v: View) {
    id == v.id || id in ObservationIDs(v)
  }

  function ObservationIDs(v: View): set<string> {
    set k | 0 <= k < |v.observations| :: v.observations[k].id
  }

  ghost predicate Known(evidence: seq<View>, id: string) {
    exists v :: v in evidence && Cites(id, v)
  }

  /** The stage's candidates, in order, once each. */
  predicate ProposesExactly(spec: Spec, labels: seq<string>) {
    && spec.repeats == 1
    && |spec.candidates| == |labels|
    && forall i | 0 <= i < |labels| :: spec.candidates[i].tag == labels[i]
  }

  /** What an accepted decision is: bounded prose, distinct citations of known evidence, and either no change at all or
  exactly the stage's candidates. */
  ghost predicate Acceptable(d: Decision, labels: seq<string>, evidence: seq<View>) {
    && d.version == 1 && !Blank(d.rationale) && ByteLength(d.rationale) <= 2048
    && 1 <= |d.evidenceIDs| <= 32
    && (forall i | 0 <= i < |d.evidenceIDs| :: Known(evidence, d.evidenceIDs[i]))
    && (forall i, j | 0 <= i < j < |d.evidenceIDs| :: d.evidenceIDs[i] != d.evidenceIDs[j])
    && (if d.noChange then d.experiment.None?
        else d.experiment.Some? && ValidSpec(d.experiment.value) && ProposesExactly(d.experiment.value, labels))
  }

  /** The name the validator expects for a stage's candidate. */
  function StageName(tag: string): string {
    NAME_PREFIX + tag + "-r1"
  }

  lemma StageNameIs(tag: string)
    ensures StageName(tag) == DriverName(Trial(tag, "", 1))
  {
    assert Itoa(1) == "1";
  }

  /** Among first repetitions the name settles the label; a later repetition never bears a stage's name. */
  lemma StageNameSettles(t: Trial, tag: string)
    requires t.repeat > 0
    ensures DriverName(t) == StageName(tag) <==> t.tag == tag && t.repeat == 1
  {
    StageNameIs(tag);
    if DriverName(t) == StageName(tag) {
      DriverNameInjective(t, Trial(tag, "", 1));
    }
  }

  lemma {:induction false} RoundPrefix(spec: Spec, n: nat, repeats: nat)
    requires n <= repeats
    ensures TrialList(spec, n) <= TrialList(spec, repeats)
  {
    if n < repeats {
      RoundPrefix(spec, n, repeats - 1);
    }
  }

  lemma OneRound(spec: Spec)
    ensures TrialList(spec, 1) == Round(spec, 1)
  {
    assert TrialList(spec, 0) == [];
  }

  /** With several repetitions, the second baseline stands right after the first candidates. */
  lemma SecondBaseline(spec: Spec)
    requires spec.repeats >= 2
    ensures var ts := TrialList(spec, spec.repeats);
            |ts| >= 2 * (1 + |spec.candidates|) && ts[1 + |spec.candidates|] == Trial(BASELINE, "", 2)
  {
    OneRound(spec);
    var two := TrialList(spec, 2);
    assert two == Round(spec, 1) + Round(spec, 2);
    assert two[1 + |spec.candidates|] == Round(spec, 2)[0];
    RoundPrefix(spec, 2, spec.repeats);
  }

  /** What the name comparisons amount to: the trials after the first are first repetitions of the labels, in order. */
  predicate StageTrials(ts: seq<Trial>, labels: seq<string>) {
    |ts| == |labels| + 1 && forall i | 1 <= i < |ts| :: ts[i].tag == labels[i - 1] && ts[i].repeat == 1
  }

  /** A second repetition would put its baseline where a first-repetition candidate is expected, so the trials are a
  stage's trials exactly when the experiment proposes the labels, once each. */
  lemma StageTrialsExactly(spec: Spec, labels: seq<string>)
    requires spec.repeats >= 1
    ensures StageTrials(TrialList(spec, spec.repeats), labels) <==> ProposesExactly(spec, labels)
  {
    if spec.repeats >= 2 {
      SecondBaseline(spec);
    } else {
      OneRound(spec);
      if ProposesExactly(spec, labels) {
        RoundStage(spec, labels);
      }
      if StageTrials(Round(spec, 1), labels) {
        StageRound(spec, labels);
      }
    }
  }

  lemma RoundStage(spec: Spec, labels: seq<string>)
    requires spec.repeats == 1 && ProposesExactly(spec, labels)
    ensures StageTrials(Round(spec, 1), labels)
  {
    var ts, cs := Round(spec, 1), CandidateTrials(spec.candidates, 1);
    forall i | 1 <= i < |ts|
      ensures ts[i].tag == labels[i - 1] && ts[i].repeat == 1
    {
      assert ts[i] == cs[i - 1];
    }
  }

  lemma StageRound(spec: Spec, labels: seq<string>)
    requires spec.repeats == 1 && StageTrials(Round(spec, 1), labels)
    ensures ProposesExactly(spec, labels)
  {
    var ts, cs := Round(spec, 1), CandidateTrials(spec.candidates, 1);
    forall i | 0 <= i < |labels|
      ensures spec.candidates[i].tag == labels[i]
    {
      var k := i + 1;
      assert ts[k].tag == labels[k - 1];
      assert ts[k] == cs[i];
    }
  }

  /** The validator's comparison of driver names, one by one. */
  method MatchTrials(spec: Spec, labels: seq<string>) returns (ok: bool)
    requires spec.repeats >= 1
    ensures ok == ProposesExactly(spec, labels)
  {
    var trials := Trials(spec);
    StageTrialsExactly(spec, labels);
    if |trials| != |labels| + 1 { return false; }
    var i := 0;
    while i < |labels|
      invariant 0 <= i <= |labels|
      invariant forall k | 1 <= k <= i :: trials[k].tag == labels[k - 1] && trials[k].repeat == 1
    {
      TrialRepeats(spec, spec.repeats, i + 1);
      StageNameSettles(trials[i + 1], labels[i]);
      if DriverName(trials[i + 1]) != StageName(labels[i]) { return false; }
      i := i + 1;
    }
    ok := true;
  }

  method ParseGuidanceDecision(d: Decision, labels: seq<string>, evidence: seq<View>) returns (ok: bool)
    ensures ok == Acceptable(d, labels, evidence)
  {
    if d.version != 1 || Blank(d.rationale) || ByteLength(d.rationale) > 2048
       || |d.evidenceIDs| == 0 || |d.evidenceIDs| > 32 {
      return false;
    }
    var cited := CheckCitations(d.evidenceIDs, evidence);
    if !cited { return false; }
    if d.noChange { return d.experiment.None?; }
    if d.experiment.None? { return false; }
    var valid := ParseExperiment(d.experiment.value);
    if !valid { return false; }
    ok := MatchTrials(d.experiment.value, labels);
  }

  /** Every citation names known evidence and none is repeated. */
  method CheckCitations(ids: seq<string>, evidence: seq<View>) returns (ok: bool)
    ensures ok == ((forall i | 0 <= i < |ids| :: Known(evidence, ids[i]))
                   && forall i, j | 0 <= i < j < |ids| :: ids[i] != ids[j])
  {
    var known := KnownIDs(evidence);
    var seen: set<string> := {};
    var k := 0;
    while k < |ids|
      invariant 0 <= k <= |ids|
      invariant forall x :: x in seen <==> x in ids[..k]
      invariant forall i | 0 <= i < k :: Known(evidence, ids[i])
      invariant forall i, j | 0 <= i < j < k :: ids[i] != ids[j]
    {
      if ids[k] !in known || ids[k] in seen { return false; }
      seen := seen + {ids[k]};
      k := k + 1;
    }
    ok := true;
  }

  /** `known` holds exactly the identities that may be cited. */
  ghost predicate AllKnown(known: set<string>, evidence: seq<View>) {
    forall id :: id in known <==> Known(evidence, id)
  }

  lemma KnownGrows(before: seq<View>, view: View, id: string)
    ensures Known(before + [view], id) <==> Known(before, id) || Cites(id, view)
  {
    if Known(before, id) {
      var v :| v in before && Cites(id, v);
      assert v in before + [view];
    }
    if Cites(id, view) {
      assert view in before + [view];
    }
  }

  lemma AllKnownGrows(known: set<string>, before: seq<View>, view: View)
    requires AllKnown(known, before)
    ensures AllKnown(known + {view.id} + ObservationIDs(view), before + [view])
  {
    var more := known + {view.id} + ObservationIDs(view);
    forall id
      ensures id in more <==> Known(before + [view], id)
    {
      KnownGrows(before, view, id);
      assert id in known <==> Known(before, id);
    }
  }

  method KnownIDs(evidence: seq<View>) returns (known: set<string>)
    ensures AllKnown(known, evidence)
  {
    known := {};
    var i := 0;
    while i < |evidence|
      invariant 0 <= i <= |evidence|
      invariant AllKnown(known, evidence[..i])
    {
      var view := evidence[i];
      AllKnownGrows(known, evidence[..i], view);
      assert evidence[..i + 1] == evidence[..i] + [view];
      known := known + {view.id} + ObservationIDs(view);
      i := i + 1;
    }
    assert evidence[..i] == evidence;
  }
}
