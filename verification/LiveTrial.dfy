/** The live swarm trial: request metering, a versioned artifact under review, and the latch that ends the trial.

The meter's lock covers request admission and every tool call, so each is one step. Whether a pattern compiles and
whether it passes the fixed oracle are parameters of the trial. */
module LiveTrial {
  import opened Base
  import opened Findings
  import opened Sums

  const REQUEST_LIMIT: nat := 36
  const TOKEN_LIMIT: int := 100_000
  const EDIT_LIMIT: nat := 3
  const PATTERN_LIMIT: nat := 4096

  /** What decides about patterns: regex compilation and the oracle's verdict. */
  datatype Trial = Trial(compiles: string -> bool, passes: string -> bool)

  // ---------------------------------------------------------------- error trees

  /** An error value: a leaf, a wrapper (around nothing, possibly), or a join. */
  datatype ErrorTree = Leaf(cancellation: bool) | WrapNil | Wrap(inner: ErrorTree) | Join(children: seq<ErrorTree>)

  /** The walk over direct unwrap edges. */
  predicate OnlyCancellation(e: ErrorTree) {
    match e
    case Leaf(c) => c
    case WrapNil => false
    case Wrap(inner) => OnlyCancellation(inner)
    case Join(children) => |children| > 0 && forall i | 0 <= i < |children| :: OnlyCancellation(children[i])
  }

  /** The same walk as the loop over a join's children that the code runs. */
  method CheckCancellation(e: ErrorTree) returns (only: bool)
    ensures only == OnlyCancellation(e)
    decreases e
  {
    match e
    case Leaf(c) => only := c;
    case WrapNil => only := false;
    case Wrap(inner) => only := CheckCancellation(inner);
    case Join(children) =>
      var i := 0;
      while i < |children|
        invariant 0 <= i <= |children| && forall k | 0 <= k < i :: OnlyCancellation(children[k])
      {
        var child := CheckCancellation(children[i]);
        if !child { return false; }
        i := i + 1;
      }
      only := |children| > 0;
  }

  /** What a chain of unwraps leads to, if it can be followed: each step picks one of the errors wrapped. */
  function Unwrap(e: ErrorTree, path: seq<nat>): Option<ErrorTree>
    decreases |path|
  {
    if path == [] then Some(e)
    else
      match e
      case Wrap(inner) => if path[0] == 0 then Unwrap(inner, path[1..]) else None
      case Join(children) => if path[0] < |children| then Unwrap(children[path[0]], path[1..]) else None
      case _ => None
  }

  /** The chain ends in `end`, which wraps nothing further. */
  predicate EndsIn(e: ErrorTree, path: seq<nat>, end: ErrorTree) {
    Unwrap(e, path) == Some(end) && !end.Wrap? && (end.Join? ==> end.children == [])
  }

  lemma {:induction false} AcceptedThroughout(e: ErrorTree, path: seq<nat>)
    requires OnlyCancellation(e) && Unwrap(e, path).Some?
    ensures OnlyCancellation(Unwrap(e, path).value)
    decreases |path|
  {
    if path != [] {
      match e
      case Wrap(inner) => AcceptedThroughout(inner, path[1..]);
      case Join(children) => AcceptedThroughout(children[path[0]], path[1..]);
    }
  }

  /** Some chain from a rejected error ends in a failure, and some chain from an accepted one in a cancellation. */
  lemma {:induction false} WitnessChain(e: ErrorTree) returns (path: seq<nat>, end: ErrorTree)
    ensures EndsIn(e, path, end) && (end == Leaf(true) <==> OnlyCancellation(e))
    decreases e
  {
    path, end := [], e;
    match e
    case Leaf(_) =>
    case WrapNil =>
    case Wrap(inner) =>
      var rest, last := WitnessChain(inner);
      path, end := [0] + rest, last;
    case Join(children) =>
      if children != [] {
        var i: nat := 0;
        if !OnlyCancellation(e) {
          i :| i < |children| && !OnlyCancellation(children[i]);
        }
        var rest, last := WitnessChain(children[i]);
        path, end := [i] + rest, last;
      }
  }

  /** Accepted exactly when every chain of unwraps ends in a cancellation, none in a failure or in nothing. */
  lemma NoHiddenFailure(e: ErrorTree)
    ensures OnlyCancellation(e) <==> forall path, end | EndsIn(e, path, end) :: end == Leaf(true)
  {
    if OnlyCancellation(e) {
      forall path, end | EndsIn(e, path, end)
        ensures end == Leaf(true)
      {
        AcceptedThroughout(e, path);
      }
    } else {
      var path, end := WitnessChain(e);
      assert EndsIn(e, path, end) && end != Leaf(true);
    }
  }

  // ---------------------------------------------------------------- the meter

  datatype Usage = Usage(requests: nat, reports: nat, prompt: int, completion: int, total: int, cached: int)

  const NO_USAGE := Usage(0, 0, 0, 0, 0, 0)

  /** Provider-reported usage of one request. */
  datatype Reported = Reported(prompt: int, completion: int, total: int, cached: int) {
    function Charge(): int {
      if total > prompt + completion then total else prompt + completion
    }
  }

  datatype Meter = Meter(
    requests: nat, tokens: int, roles: map<string, Usage>, verified: bool, failures: seq<ErrorTree>)

  datatype Admission = Go | Verified | OverBudget

  function RoleUsage(roles: map<string, Usage>, role: string): Usage {
    if role in roles then roles[role] else NO_USAGE
  }

  function Admit(m: Meter, role: string): (Meter, Admission) {
    if m.verified then (m, Verified)
    else if m.requests >= REQUEST_LIMIT || m.tokens >= TOKEN_LIMIT then
      (m.(failures := m.failures + [Leaf(false)]), OverBudget)
    else
      var u := RoleUsage(m.roles, role);
      (m.(requests := m.requests + 1, roles := m.roles[role := u.(requests := u.requests + 1)]), Go)
  }

  function Charge(m: Meter, role: string, r: Reported): Meter {
    var u := RoleUsage(m.roles, role);
    m.(tokens := m.tokens + r.Charge(),
       roles := m.roles[role := Usage(u.requests, u.reports + 1, u.prompt + r.prompt, u.completion + r.completion,
                                      u.total + r.Charge(), u.cached + r.cached)])
  }

  /** Cancellation caused by the verified stop is not a failure; everything else is. */
  function Fail(m: Meter, stoppedForSuccess: bool, e: ErrorTree): Meter {
    if stoppedForSuccess && OnlyCancellation(e) then m else m.(failures := m.failures + [e])
  }

  // ---------------------------------------------------------------- the artifact

  datatype Candidate = Candidate(pattern: string, version: nat, reviewed: nat, approved: bool)

  function Submit(t: Trial, c: Candidate, pattern: string): (Candidate, bool) {
    if ByteLength(pattern) == 0 || ByteLength(pattern) > PATTERN_LIMIT || !t.compiles(pattern) then (c, false)
    else if c.version >= EDIT_LIMIT || pattern == c.pattern then (c, false)
    else (Candidate(pattern, c.version + 1, 0, false), true)
  }

  function Review(c: Candidate, version: nat, approved: bool): (Candidate, bool) {
    if version != c.version || version == 1 then (c, false)
    else (c.(reviewed := version, approved := approved), true)
  }

  // ---------------------------------------------------------------- the chain on the board

  datatype Role = Role(author: string, topic: string)

  const LIVE_STEPS: seq<Role> :=
    [Role("host", "task"), Role("agent/researcher", "research"), Role("agent/implementer", "implementation"),
     Role("agent/reviewer", "review")]

  predicate Answers(post: Post, step: Role, previous: nat) {
    post.author == step.author && post.topic == step.topic && post.replyTo == previous
  }

  /** The identifier of the first post that answers `previous` for a step. */
  function FirstAnswer(posts: seq<Post>, step: Role, previous: nat): Option<nat> {
    if posts == [] then None
    else if Answers(posts[0], step, previous) then Some(posts[0].id)
    else FirstAnswer(posts[1..], step, previous)
  }

  predicate Follows(posts: seq<Post>, steps: seq<Role>, previous: nat)
    decreases |steps|
  {
    if steps == [] then true
    else
      var next := FirstAnswer(posts, steps[0], previous);
      next.Some? && Follows(posts, steps[1..], next.value)
  }

  predicate LiveChain(posts: seq<Post>) {
    Follows(posts, LIVE_STEPS, 0)
  }

  method CheckLiveChain(posts: seq<Post>) returns (ok: bool)
    ensures ok == LiveChain(posts)
  {
    var previous: nat, s := 0, 0;
    while s < |LIVE_STEPS|
      invariant 0 <= s <= |LIVE_STEPS|
      invariant LiveChain(posts) == Follows(posts, LIVE_STEPS[s..], previous)
    {
      var step := LIVE_STEPS[s];
      assert LIVE_STEPS[s..][1..] == LIVE_STEPS[s + 1..] && LIVE_STEPS[s..][0] == step;
      var found, i := false, 0;
      ghost var wanted := previous;
      while i < |posts| && !found
        invariant 0 <= i <= |posts|
        invariant found ==> FirstAnswer(posts, step, wanted) == Some(previous)
        invariant !found ==> previous == wanted
        invariant !found ==> FirstAnswer(posts, step, wanted) == FirstAnswer(posts[i..], step, wanted)
        decreases |posts| - i, !found
      {
        assert posts[i..][1..] == posts[i + 1..] && posts[i..][0] == posts[i];
        if Answers(posts[i], step, previous) {
          previous, found := posts[i].id, true;
        } else {
          i := i + 1;
        }
      }
      if !found { return false; }
      s := s + 1;
    }
    ok := true;
  }

  /** Some selection of posts answers the steps one after the other. */
  ghost predicate Threaded(posts: seq<Post>, steps: seq<Role>, previous: nat)
    decreases |steps|
  {
    steps == [] ||
    exists i :: 0 <= i < |posts| && Answers(posts[i], steps[0], previous) && Threaded(posts, steps[1..], posts[i].id)
  }

  lemma {:induction false} FirstAnswerIs(posts: seq<Post>, step: Role, previous: nat)
    ensures FirstAnswer(posts, step, previous).Some? <==>
            exists i :: 0 <= i < |posts| && Answers(posts[i], step, previous)
    ensures FirstAnswer(posts, step, previous).Some? ==>
              exists i :: 0 <= i < |posts| && Answers(posts[i], step, previous)
                          && posts[i].id == FirstAnswer(posts, step, previous).value
  {
    if posts != [] && !Answers(posts[0], step, previous) {
      FirstAnswerIs(posts[1..], step, previous);
      if FirstAnswer(posts, step, previous).Some? {
        var i :| 0 <= i < |posts[1..]| && Answers(posts[1..][i], step, previous)
                 && posts[1..][i].id == FirstAnswer(posts, step, previous).value;
        assert posts[i + 1] == posts[1..][i];
      }
      if i :| 0 <= i < |posts| && Answers(posts[i], step, previous) {
        assert posts[1..][i - 1] == posts[i];
      }
    }
  }

  /** Whatever the checker accepts is a real thread of answers. */
  lemma {:induction false} FollowsThread(posts: seq<Post>, steps: seq<Role>, previous: nat)
    requires Follows(posts, steps, previous)
    ensures Threaded(posts, steps, previous)
    decreases |steps|
  {
    if steps != [] {
      FirstAnswerIs(posts, steps[0], previous);
      var i :| 0 <= i < |posts| && Answers(posts[i], steps[0], previous)
               && posts[i].id == FirstAnswer(posts, steps[0], previous).value;
      FollowsThread(posts, steps[1..], posts[i].id);
    }
  }

  /** No two posts give the same answer to the same post. */
  predicate SingleAnswers(posts: seq<Post>) {
    forall i, j | 0 <= i < j < |posts| ::
      posts[i].author != posts[j].author || posts[i].topic != posts[j].topic || posts[i].replyTo != posts[j].replyTo
  }

  /** Without competing answers, a thread is never missed. */
  lemma {:induction false} ThreadFollows(posts: seq<Post>, steps: seq<Role>, previous: nat)
    requires SingleAnswers(posts) && Threaded(posts, steps, previous)
    ensures Follows(posts, steps, previous)
    decreases |steps|
  {
    if steps != [] {
      var i :| 0 <= i < |posts| && Answers(posts[i], steps[0], previous) && Threaded(posts, steps[1..], posts[i].id);
      FirstAnswerIs(posts, steps[0], previous);
      ThreadFollows(posts, steps[1..], posts[i].id);
    }
  }

  /** The earliest post that answers `previous` for a step is at `p`. */
  predicate Earliest(posts: seq<Post>, step: Role, previous: nat, p: nat) {
    p < |posts| && Answers(posts[p], step, previous) && forall j | 0 <= j < p :: !Answers(posts[j], step, previous)
  }

  /** Some selection of posts answers the steps one after the other, each being the earliest that does. */
  ghost predicate EarliestThreaded(posts: seq<Post>, steps: seq<Role>, previous: nat)
    decreases |steps|
  {
    steps == [] ||
    exists p: nat :: Earliest(posts, steps[0], previous, p) && EarliestThreaded(posts, steps[1..], posts[p].id)
  }

  lemma {:induction false} FirstAnswerEarliest(posts: seq<Post>, step: Role, previous: nat, p: nat)
    requires Earliest(posts, step, previous, p)
    ensures FirstAnswer(posts, step, previous) == Some(posts[p].id)
  {
    if p > 0 {
      assert !Answers(posts[0], step, previous);
      assert forall j | 0 <= j < p - 1 :: posts[1..][j] == posts[j + 1];
      FirstAnswerEarliest(posts[1..], step, previous, p - 1);
    }
  }

  lemma {:induction false} EarliestExists(posts: seq<Post>, step: Role, previous: nat) returns (p: nat)
    requires FirstAnswer(posts, step, previous).Some?
    ensures Earliest(posts, step, previous, p)
  {
    if Answers(posts[0], step, previous) {
      p := 0;
    } else {
      var q := EarliestExists(posts[1..], step, previous);
      p := q + 1;
      forall j | 0 <= j < p
        ensures !Answers(posts[j], step, previous)
      {
        if j > 0 { assert posts[j] == posts[1..][j - 1]; }
      }
    }
  }

  /** Exactly what the checker accepts: a thread whose every answer is the earliest to the post before it. */
  lemma {:induction false} FollowsExactly(posts: seq<Post>, steps: seq<Role>, previous: nat)
    ensures Follows(posts, steps, previous) <==> EarliestThreaded(posts, steps, previous)
    decreases |steps|
  {
    if steps != [] {
      if Follows(posts, steps, previous) {
        var p := EarliestExists(posts, steps[0], previous);
        FirstAnswerEarliest(posts, steps[0], previous, p);
        FollowsExactly(posts, steps[1..], posts[p].id);
      }
      if EarliestThreaded(posts, steps, previous) {
        var p: nat :| Earliest(posts, steps[0], previous, p) && EarliestThreaded(posts, steps[1..], posts[p].id);
        FirstAnswerEarliest(posts, steps[0], previous, p);
        FollowsExactly(posts, steps[1..], posts[p].id);
      }
    }
  }

  const RIVALS: seq<Post> := [
    Post(1, "host", "task", 0, ""),
    Post(2, "agent/researcher", "research", 1, ""),
    Post(3, "agent/researcher", "research", 1, ""),
    Post(4, "agent/implementer", "implementation", 3, ""),
    Post(5, "agent/reviewer", "review", 4, "")]

  lemma StepsTail()
    ensures LIVE_STEPS[1..][1..] == LIVE_STEPS[2..] && LIVE_STEPS[2..][1..] == LIVE_STEPS[3..]
    ensures LIVE_STEPS[3..][1..] == []
  {
  }

  lemma RivalsThread()
    ensures Threaded(RIVALS, LIVE_STEPS, 0)
  {
    StepsTail();
    assert Threaded(RIVALS, [], 5);
    assert Threaded(RIVALS, LIVE_STEPS[3..], 4) by { assert Answers(RIVALS[4], LIVE_STEPS[3..][0], 4); }
    assert Threaded(RIVALS, LIVE_STEPS[2..], 3) by { assert Answers(RIVALS[3], LIVE_STEPS[2..][0], 3); }
    assert Threaded(RIVALS, LIVE_STEPS[1..], 1) by { assert Answers(RIVALS[2], LIVE_STEPS[1..][0], 1); }
    assert Answers(RIVALS[0], LIVE_STEPS[0], 0);
  }

  lemma RivalsRejected()
    ensures !LiveChain(RIVALS)
  {
    StepsTail();
    assert FirstAnswer(RIVALS, LIVE_STEPS[0], 0) == Some(1);
    assert FirstAnswer(RIVALS, LIVE_STEPS[1], 1) == Some(2) by {
      assert RIVALS[1..][0] == RIVALS[1] && !Answers(RIVALS[0], LIVE_STEPS[1], 1);
    }
    FirstAnswerIs(RIVALS, LIVE_STEPS[2], 2);
    assert forall i | 0 <= i < |RIVALS| :: RIVALS[i].replyTo != 2;
    assert !Follows(RIVALS, LIVE_STEPS[2..], 2);
    assert !Follows(RIVALS, LIVE_STEPS[1..], 1);
  }

  lemma RivalsInOrder()
    ensures InOrder(RIVALS)
  {
    assert forall i | 0 <= i < |RIVALS| :: RIVALS[i].id == i + 1;
  }

  /** With competing answers the checker may commit to the wrong one: an implementation that replies to the second
  research post is hidden by the first, so `SingleAnswers` cannot be dropped from `ThreadFollows`. */
  lemma CompetingAnswerHidesThread()
    ensures exists posts :: InOrder(posts) && Threaded(posts, LIVE_STEPS, 0) && !LiveChain(posts)
  {
    RivalsInOrder();
    RivalsThread();
    RivalsRejected();
  }

  // ---------------------------------------------------------------- the objects

  class RegexArtifact {
    var candidate: Candidate

    constructor (pattern: string)
      ensures candidate == Candidate(pattern, 1, 0, false)
    {
      candidate := Candidate(pattern, 1, 0, false);
    }

    method SubmitPattern(t: Trial, pattern: string) returns (ok: bool)
      modifies this
      ensures (candidate, ok) == Submit(t, old(candidate), pattern)
    {
      if ByteLength(pattern) == 0 || ByteLength(pattern) > PATTERN_LIMIT { return false; }
      if !t.compiles(pattern) { return false; }
      if candidate.version >= EDIT_LIMIT { return false; }
      if pattern == candidate.pattern { return false; }
      candidate := Candidate(pattern, candidate.version + 1, 0, false);
      ok := true;
    }

    method ReviewVersion(version: nat, approved: bool) returns (ok: bool)
      modifies this
      ensures (candidate, ok) == Review(old(candidate), version, approved)
    {
      if version != candidate.version || version == 1 { return false; }
      candidate := candidate.(reviewed := version);
      candidate := candidate.(approved := approved);
      ok := true;
    }
  }

  class LiveMeter {
    var requests: nat
    var tokens: int
    var roles: map<string, Usage>
    var verified: bool
    var failures: seq<ErrorTree>

    constructor ()
      ensures Value() == Meter(0, 0, map[], false, [])
    {
      requests, tokens, roles, verified, failures := 0, 0, map[], false, [];
    }

    ghost function Value(): Meter
      reads this
    {
      Meter(requests, tokens, roles, verified, failures)
    }

    method AdmitRequest(role: string) returns (r: Admission)
      modifies this
      ensures (Value(), r) == Admit(old(Value()), role)
    {
      if verified { return Verified; }
      if requests >= REQUEST_LIMIT || tokens >= TOKEN_LIMIT {
        failures := failures + [Leaf(false)];
        return OverBudget;
      }
      requests := requests + 1;
      var stats := RoleUsage(roles, role);
      stats := stats.(requests := stats.requests + 1);
      roles := roles[role := stats];
      r := Go;
    }

    method ChargeUsage(role: string, usage: Reported)
      modifies this
      ensures Value() == Charge(old(Value()), role, usage)
    {
      var stats := RoleUsage(roles, role);
      var sum := usage.prompt + usage.completion;
      var total := if usage.total > sum then usage.total else sum;
      tokens := tokens + total;
      roles := roles[role := Usage(stats.requests, stats.reports + 1, stats.prompt + usage.prompt,
                                   stats.completion + usage.completion, stats.total + total,
                                   stats.cached + usage.cached)];
    }

    method RecordFailure(stoppedForSuccess: bool, e: ErrorTree)
      modifies this
      ensures Value() == Fail(old(Value()), stoppedForSuccess, e)
    {
      var only := CheckCancellation(e);
      if !(stoppedForSuccess && only) {
        failures := failures + [e];
      }
    }
  }

  // ---------------------------------------------------------------- interleavings

  datatype Call =
    | SubmitCall(pattern: string)
    | ReviewCall(version: nat, approved: bool)
    | PostCall(topic: string, replyTo: nat, body: string)
    | OtherCall

  datatype State = State(
    meter: Meter,
    candidate: Candidate,
    board: seq<Post>,
    hostPosted: bool,
    inflight: map<nat, string>)

  /** `workers` bounds concurrent requests and `most` what one request may report; `room` is whether the board accepts
  one more post, `cancelled`/`late` whether the caller's context is done before or after the call ran. */
  datatype Config = Config(trial: Trial, workers: nat, most: nat)

  datatype Label =
    | HostPost(body: string)
    | BeginRequest(id: nat, role: string)
    | ReportUsage(id: nat, usage: Reported)
    | EndRequest(id: nat)
    | Failure(stoppedForSuccess: bool, e: ErrorTree)
    | ToolCall(role: string, call: Call, room: bool, cancelled: bool, late: bool)

  function AppendPost(board: seq<Post>, author: string, topic: string, replyTo: nat, body: string, room: bool)
    : (seq<Post>, bool)
  {
    if replyTo > |board| || !room then (board, false)
    else (board + [Post(|board| + 1, author, topic, replyTo, body)], true)
  }

  /** The inner tool's effect and whether it succeeded. Submitting and reviewing are wired to one role each. */
  function RunCall(cfg: Config, s: State, role: string, call: Call, room: bool): (State, bool) {
    match call
    case SubmitCall(pattern) =>
      if role != "implementer" then (s, false)
      else
        var (c, ok) := Submit(cfg.trial, s.candidate, pattern);
        (s.(candidate := c), ok)
    case ReviewCall(version, approved) =>
      if role != "reviewer" then (s, false)
      else
        var (c, ok) := Review(s.candidate, version, approved);
        (s.(candidate := c), ok)
    case PostCall(topic, replyTo, body) =>
      var (b, ok) := AppendPost(s.board, "agent/" + role, topic, replyTo, body, room);
      (s.(board := b), ok)
    case OtherCall => (s, true)
  }

  predicate Accepted(cfg: Config, c: Candidate, board: seq<Post>) {
    && c.approved && c.version > 1 && c.reviewed == c.version
    && cfg.trial.passes(c.pattern)
    && LiveChain(board)
  }

  /** One guarded tool call: run it, and latch the trial if it completed an accepted result without any failure. */
  function Guarded(cfg: Config, s: State, role: string, call: Call, room: bool, cancelled: bool, late: bool): State {
    if s.meter.verified || cancelled then s
    else
      var (s', ok) := RunCall(cfg, s, role, call, room);
      if && ok && (call.PostCall? || call.ReviewCall?) && Accepted(cfg, s'.candidate, s'.board)
         && s'.meter.failures == [] && !late
      then s'.(meter := s'.meter.(verified := true))
      else s'
  }

  class BoardStore {
    var posts: seq<Post>

    constructor ()
      ensures posts == []
    {
      posts := [];
    }

    method Append(author: string, topic: string, replyTo: nat, body: string, room: bool) returns (ok: bool)
      modifies this
      ensures (posts, ok) == AppendPost(old(posts), author, topic, replyTo, body, room)
    {
      if replyTo > |posts| || !room { return false; }
      posts := posts + [Post(|posts| + 1, author, topic, replyTo, body)];
      ok := true;
    }
  }

  /** The wrapper around every tool a member holds. */
  class CompletionTool {
    const cfg: Config
    const meter: LiveMeter
    const artifact: RegexArtifact
    const board: BoardStore
    const role: string

    constructor (cfg: Config, meter: LiveMeter, artifact: RegexArtifact, board: BoardStore, role: string)
      ensures this.cfg == cfg && this.meter == meter && this.artifact == artifact && this.board == board
      ensures this.role == role
    {
      this.cfg, this.meter, this.artifact, this.board, this.role := cfg, meter, artifact, board, role;
    }

    ghost function Value(hostPosted: bool, inflight: map<nat, string>): State
      reads meter, artifact, board
    {
      State(meter.Value(), artifact.candidate, board.posts, hostPosted, inflight)
    }

    method Run(call: Call, room: bool) returns (ok: bool)
      modifies artifact, board
      ensures forall h, f :: (Value(h, f), ok) == RunCall(cfg, old(Value(h, f)), role, call, room)
    {
      match call
      case SubmitCall(pattern) =>
        if role != "implementer" { return false; }
        ok := artifact.SubmitPattern(cfg.trial, pattern);
      case ReviewCall(version, approved) =>
        if role != "reviewer" { return false; }
        ok := artifact.ReviewVersion(version, approved);
      case PostCall(topic, replyTo, body) => ok := board.Append("agent/" + role, topic, replyTo, body, room);
      case OtherCall => ok := true;
    }

    method Execute(call: Call, room: bool, cancelled: bool, late: bool)
      modifies meter, artifact, board
      ensures forall h, f :: Value(h, f) == Guarded(cfg, old(Value(h, f)), role, call, room, cancelled, late)
    {
      if meter.verified { return; }
      if cancelled { return; }
      var ok := Run(call, room);
      if !ok { return; }
      if !call.PostCall? && !call.ReviewCall? { return; }
      var candidate := artifact.candidate;
      if !candidate.approved || candidate.version <= 1 || candidate.reviewed != candidate.version { return; }
      var chain := CheckLiveChain(board.posts);
      if !chain { return; }
      if cfg.trial.passes(candidate.pattern) && |meter.failures| == 0 && !late {
        meter.verified := true;
      }
    }
  }

  function BeginStep(cfg: Config, s: State, id: nat, role: string): State {
    if id in s.inflight || |s.inflight| >= cfg.workers then s
    else
      var (m, r) := Admit(s.meter, role);
      if r == Go then s.(meter := m, inflight := s.inflight[id := role]) else s.(meter := m)
  }

  function ReportStep(cfg: Config, s: State, id: nat, usage: Reported): State {
    if id !in s.inflight || usage.Charge() > cfg.most then s
    else s.(meter := Charge(s.meter, s.inflight[id], usage), inflight := s.inflight - {id})
  }

  function Step(cfg: Config, s: State, l: Label): State {
    match l
    case HostPost(body) =>
      if s.hostPosted then s
      else s.(board := AppendPost(s.board, "host", "task", 0, body, true).0, hostPosted := true)
    case BeginRequest(id, role) => BeginStep(cfg, s, id, role)
    case ReportUsage(id, usage) => ReportStep(cfg, s, id, usage)
    case EndRequest(id) => s.(inflight := s.inflight - {id})
    case Failure(stoppedForSuccess, e) => s.(meter := Fail(s.meter, stoppedForSuccess && s.meter.verified, e))
    case ToolCall(role, call, room, cancelled, late) => Guarded(cfg, s, role, call, room, cancelled, late)
  }

  function Init(pattern: string): State {
    State(Meter(0, 0, map[], false, []), Candidate(pattern, 1, 0, false), [], false, map[])
  }

  function Exec(cfg: Config, s: State, schedule: seq<Label>): State {
    if schedule == [] then s else Step(cfg, Exec(cfg, s, schedule[..|schedule| - 1]), schedule[|schedule| - 1])
  }

  // ---------------------------------------------------------------- per-role totals

  function Requests(roles: map<string, Usage>): map<string, int> {
    map k | k in roles :: roles[k].requests
  }

  function Totals(roles: map<string, Usage>): map<string, int> {
    map k | k in roles :: roles[k].total
  }

  lemma RoleSums(roles: map<string, Usage>, role: string, u: Usage)
    ensures Sum(Requests(roles[role := u])) == Sum(Requests(roles)) - RoleUsage(roles, role).requests + u.requests
    ensures Sum(Totals(roles[role := u])) == Sum(Totals(roles)) - RoleUsage(roles, role).total + u.total
  {
    assert Requests(roles[role := u]) == Requests(roles)[role := u.requests];
    assert Totals(roles[role := u]) == Totals(roles)[role := u.total];
    SumUpdate(Requests(roles), role, u.requests);
    SumUpdate(Totals(roles), role, u.total);
  }

  // ---------------------------------------------------------------- the invariant

  /** The per-role ledgers add up to the global counters. */
  ghost predicate LedgerOk(m: Meter) {
    Sum(Requests(m.roles)) == m.requests && Sum(Totals(m.roles)) == m.tokens
  }

  ghost predicate QuotaOk(cfg: Config, s: State) {
    && s.meter.requests <= REQUEST_LIMIT
    && |s.inflight| <= cfg.workers
    && s.meter.tokens + Worst(cfg.most, |s.inflight|) <= TOKEN_LIMIT - 1 + Worst(cfg.most, cfg.workers)
  }

  ghost predicate TrialOk(cfg: Config, s: State) {
    && 1 <= s.candidate.version <= EDIT_LIMIT
    && (s.meter.verified ==> Accepted(cfg, s.candidate, s.board))
    && (forall i | 0 <= i < |s.board| && s.board[i].author == "host" :: s.hostPosted)
  }

  /** What `n` requests may still report. */
  function Worst(most: nat, n: nat): nat {
    if n == 0 then 0 else most + Worst(most, n - 1)
  }

  lemma {:induction false} WorstGrows(most: nat, n: nat, workers: nat)
    requires n <= workers
    ensures Worst(most, n) <= Worst(most, workers)
  {
    if n < workers {
      WorstGrows(most, n, workers - 1);
    }
  }

  lemma {:induction false} WorstIsProduct(most: nat, n: nat)
    ensures Worst(most, n) == n * most
  {
    if n > 0 {
      WorstIsProduct(most, n - 1);
    }
  }

  lemma InflightDrop(m: map<nat, string>, id: nat)
    ensures |m - {id}| == if id in m then |m| - 1 else |m|
  {
    if id in m {
      assert m == (m - {id})[id := m[id]];
    } else {
      assert m - {id} == m;
    }
  }

  lemma AdmitLedger(m: Meter, role: string)
    requires LedgerOk(m)
    ensures LedgerOk(Admit(m, role).0)
  {
    if Admit(m, role).1 == Go {
      var u := RoleUsage(m.roles, role);
      var v := u.(requests := u.requests + 1);
      RoleSums(m.roles, role, v);
      assert Admit(m, role).0.roles == m.roles[role := v];
    }
  }

  lemma ChargeLedger(m: Meter, role: string, r: Reported)
    requires LedgerOk(m)
    ensures LedgerOk(Charge(m, role, r))
  {
    RoleSums(m.roles, role, Charge(m, role, r).roles[role]);
  }

  lemma LedgerKeeps(cfg: Config, s: State, l: Label)
    requires LedgerOk(s.meter)
    ensures LedgerOk(Step(cfg, s, l).meter)
  {
    if l.ToolCall? {
      GuardedCounters(cfg, s, l.role, l.call, l.room, l.cancelled, l.late);
    }
    if l.BeginRequest? {
      AdmitLedger(s.meter, l.role);
    } else if l.ReportUsage? && l.id in s.inflight {
      ChargeLedger(s.meter, s.inflight[l.id], l.usage);
    }
  }

  lemma BeginQuota(cfg: Config, s: State, id: nat, role: string)
    requires QuotaOk(cfg, s)
    ensures QuotaOk(cfg, BeginStep(cfg, s, id, role))
  {
    if id !in s.inflight && |s.inflight| < cfg.workers {
      assert |s.inflight[id := role]| == |s.inflight| + 1;
      WorstGrows(cfg.most, |s.inflight| + 1, cfg.workers);
    }
  }

  lemma ReportQuota(cfg: Config, s: State, id: nat, usage: Reported)
    requires QuotaOk(cfg, s)
    ensures QuotaOk(cfg, ReportStep(cfg, s, id, usage))
  {
    InflightDrop(s.inflight, id);
  }

  /** A tool call moves no counter. */
  lemma GuardedCounters(cfg: Config, s: State, role: string, call: Call, room: bool, cancelled: bool, late: bool)
    ensures var s' := Guarded(cfg, s, role, call, room, cancelled, late);
            && s'.inflight == s.inflight && s'.hostPosted == s.hostPosted
            && s'.meter == s.meter.(verified := s'.meter.verified)
  {
  }

  lemma QuotaKeeps(cfg: Config, s: State, l: Label)
    requires QuotaOk(cfg, s)
    ensures QuotaOk(cfg, Step(cfg, s, l))
  {
    match l
    case BeginRequest(id, role) => BeginQuota(cfg, s, id, role);
    case ReportUsage(id, usage) => ReportQuota(cfg, s, id, usage);
    case EndRequest(id) => InflightDrop(s.inflight, id);
    case ToolCall(role, call, room, cancelled, late) => GuardedCounters(cfg, s, role, call, room, cancelled, late);
    case HostPost(_) =>
    case Failure(_, _) =>
  }

  /** A chain on the board shows that the host's one task post is there. */
  lemma ChainNeedsHost(board: seq<Post>)
    requires LiveChain(board)
    ensures exists i :: 0 <= i < |board| && board[i].author == "host"
  {
    FirstAnswerIs(board, LIVE_STEPS[0], 0);
  }

  lemma AgentIsNotHost(role: string)
    ensures "agent/" + role != "host"
  {
    assert ("agent/" + role)[0] == 'a' && "host"[0] == 'h';
  }

  lemma TrialKeeps(cfg: Config, s: State, l: Label)
    requires TrialOk(cfg, s)
    ensures TrialOk(cfg, Step(cfg, s, l))
  {
    if l.ToolCall? {
      AgentIsNotHost(l.role);
    }
    if s.meter.verified {
      ChainNeedsHost(s.board);
    }
  }

  lemma {:induction false} AlwaysMetered(cfg: Config, pattern: string, schedule: seq<Label>)
    ensures var s := Exec(cfg, Init(pattern), schedule); LedgerOk(s.meter) && QuotaOk(cfg, s)
  {
    if schedule == [] {
      WorstGrows(cfg.most, 0, cfg.workers);
    } else {
      var last := |schedule| - 1;
      AlwaysMetered(cfg, pattern, schedule[..last]);
      LedgerKeeps(cfg, Exec(cfg, Init(pattern), schedule[..last]), schedule[last]);
      QuotaKeeps(cfg, Exec(cfg, Init(pattern), schedule[..last]), schedule[last]);
    }
  }

  lemma {:induction false} AlwaysSound(cfg: Config, pattern: string, schedule: seq<Label>)
    ensures TrialOk(cfg, Exec(cfg, Init(pattern), schedule))
  {
    if schedule != [] {
      var last := |schedule| - 1;
      AlwaysSound(cfg, pattern, schedule[..last]);
      TrialKeeps(cfg, Exec(cfg, Init(pattern), schedule[..last]), schedule[last]);
    }
  }

  // ---------------------------------------------------------------- what every schedule guarantees

  /** The latch only closes over an approved, reviewed, edited candidate that passes the oracle and a complete chain. */
  lemma VerifiedIsEarned(cfg: Config, pattern: string, schedule: seq<Label>)
    requires Exec(cfg, Init(pattern), schedule).meter.verified
    ensures var s := Exec(cfg, Init(pattern), schedule);
            && s.candidate.approved && s.candidate.reviewed == s.candidate.version
            && 1 < s.candidate.version <= EDIT_LIMIT
            && cfg.trial.passes(s.candidate.pattern)
            && LiveChain(s.board) && Threaded(s.board, LIVE_STEPS, 0)
  {
    AlwaysSound(cfg, pattern, schedule);
    FollowsThread(Exec(cfg, Init(pattern), schedule).board, LIVE_STEPS, 0);
  }

  /** Everything the latch protects. */
  datatype Protected = Protected(candidate: Candidate, board: seq<Post>, verified: bool, requests: nat)

  function Guards(s: State): Protected {
    Protected(s.candidate, s.board, s.meter.verified, s.meter.requests)
  }

  lemma VerifiedStep(cfg: Config, s: State, l: Label)
    requires s.meter.verified && s.hostPosted
    ensures Guards(Step(cfg, s, l)) == Guards(s) && Step(cfg, s, l).hostPosted
  {
  }

  lemma {:induction false} VerifiedStays(cfg: Config, s: State, more: seq<Label>)
    requires s.meter.verified && s.hostPosted
    ensures var s' := Exec(cfg, s, more); Guards(s') == Guards(s) && s'.hostPosted
  {
    if more != [] {
      VerifiedStays(cfg, s, more[..|more| - 1]);
      VerifiedStep(cfg, Exec(cfg, s, more[..|more| - 1]), more[|more| - 1]);
    }
  }

  /** Once verified, no continuation changes the artifact or the board, admits a request, or reopens the latch. */
  lemma VerifiedIsFinal(cfg: Config, pattern: string, schedule: seq<Label>, more: seq<Label>)
    requires Exec(cfg, Init(pattern), schedule).meter.verified
    ensures var s := Exec(cfg, Init(pattern), schedule); Guards(Exec(cfg, s, more)) == Guards(s)
  {
    AlwaysSound(cfg, pattern, schedule);
    var s := Exec(cfg, Init(pattern), schedule);
    ChainNeedsHost(s.board);
    VerifiedStays(cfg, s, more);
  }

  lemma FailedStep(cfg: Config, s: State, l: Label)
    requires !s.meter.verified && s.meter.failures != []
    ensures !Step(cfg, s, l).meter.verified && Step(cfg, s, l).meter.failures != []
  {
  }

  /** A failure recorded before verification rules verification out for the rest of the run. */
  lemma {:induction false} FailureRulesOut(cfg: Config, s: State, more: seq<Label>)
    requires !s.meter.verified && s.meter.failures != []
    ensures !Exec(cfg, s, more).meter.verified && Exec(cfg, s, more).meter.failures != []
  {
    if more != [] {
      FailureRulesOut(cfg, s, more[..|more| - 1]);
      FailedStep(cfg, Exec(cfg, s, more[..|more| - 1]), more[|more| - 1]);
    }
  }

  /** At most 36 requests, and the per-role ledgers always add up to the global counters. */
  lemma LedgersAgree(cfg: Config, pattern: string, schedule: seq<Label>)
    ensures var m := Exec(cfg, Init(pattern), schedule).meter;
            && m.requests <= 36
            && Sum(Requests(m.roles)) == m.requests
            && Sum(Totals(m.roles)) == m.tokens
  {
    AlwaysMetered(cfg, pattern, schedule);
  }

  /** Concurrent requests can overshoot the token threshold by at most one report each. */
  lemma TokenOvershoot(cfg: Config, pattern: string, schedule: seq<Label>)
    ensures Exec(cfg, Init(pattern), schedule).meter.tokens <= 99_999 + cfg.workers * cfg.most
  {
    AlwaysMetered(cfg, pattern, schedule);
    WorstIsProduct(cfg.most, cfg.workers);
  }

  // ---------------------------------------------------------------- a trial stalled by a competing answer

  lemma ThenStep(cfg: Config, s0: State, ls: seq<Label>, s: State, l: Label) returns (more: seq<Label>)
    requires s == Exec(cfg, s0, ls)
    ensures Exec(cfg, s0, more) == Step(cfg, s, l)
  {
    more := ls + [l];
    assert more[..|ls|] == ls;
  }

  /** Before the approval a member's post only extends the board. */
  lemma Posts(cfg: Config, s0: State, ls: seq<Label>, s: State, role: string, post: Post)
    returns (more: seq<Label>, s': State)
    requires s == Exec(cfg, s0, ls) && !s.meter.verified && !s.candidate.approved
    requires post.id == |s.board| + 1 && post.replyTo <= |s.board| && post.author == "agent/" + role
    ensures s' == Exec(cfg, s0, more) && s' == s.(board := s.board + [post])
  {
    var l := ToolCall(role, PostCall(post.topic, post.replyTo, post.body), true, false, false);
    more := ThenStep(cfg, s0, ls, s, l);
    s' := Step(cfg, s, l);
  }

  /** The host and three members put the rival posts on the board. */
  lemma RivalsPosted(cfg: Config, pattern: string) returns (ls: seq<Label>, s: State)
    ensures s == Exec(cfg, Init(pattern), ls) && s == Init(pattern).(board := RIVALS, hostPosted := true)
  {
    var s0 := Init(pattern);
    AgentNames();
    ls := ThenStep(cfg, s0, [], s0, HostPost(""));
    s := s0.(board := RIVALS[..1], hostPosted := true);
    assert Step(cfg, s0, HostPost("")) == s;
    ls, s := Posts(cfg, s0, ls, s, "researcher", RIVALS[1]);
    ls, s := Posts(cfg, s0, ls, s, "researcher", RIVALS[2]);
    ls, s := Posts(cfg, s0, ls, s, "implementer", RIVALS[3]);
    ls, s := Posts(cfg, s0, ls, s, "reviewer", RIVALS[4]);
    assert s.board == RIVALS;
  }

  lemma AgentNames()
    ensures "agent/" + "researcher" == "agent/researcher" && "agent/" + "implementer" == "agent/implementer"
    ensures "agent/" + "reviewer" == "agent/reviewer"
  {
  }

  /** Everything a trial asks for is there, only the checker follows the wrong answer. */
  ghost predicate Stalled(cfg: Config, s: State) {
    && s.candidate.approved && 1 < s.candidate.version == s.candidate.reviewed && cfg.trial.passes(s.candidate.pattern)
    && InOrder(s.board) && Threaded(s.board, LIVE_STEPS, 0)
    && s.meter.failures == [] && !s.meter.verified
  }

  /** Whatever the trial, a run may reach an approved candidate that passes, with a real thread on the board and no
  failure, and still not be verified. */
  lemma CompetingAnswerStalls(cfg: Config, pattern: string, better: string)
    requires 0 < ByteLength(better) <= PATTERN_LIMIT && cfg.trial.compiles(better) && cfg.trial.passes(better)
    requires better != pattern
    ensures exists schedule :: Stalled(cfg, Exec(cfg, Init(pattern), schedule))
  {
    var s0 := Init(pattern);
    var ls, s := RivalsPosted(cfg, pattern);
    var submit := ToolCall("implementer", SubmitCall(better), true, false, false);
    ls := ThenStep(cfg, s0, ls, s, submit);
    var s1 := s.(candidate := Candidate(better, 2, 0, false));
    assert Step(cfg, s, submit) == s1;
    var review := ToolCall("reviewer", ReviewCall(2, true), true, false, false);
    ls := ThenStep(cfg, s0, ls, s1, review);
    var s2 := s.(candidate := Candidate(better, 2, 2, true));
    RivalsRejected();
    assert Step(cfg, s1, review) == s2;
    RivalsInOrder();
    RivalsThread();
    assert Stalled(cfg, s2);
  }
}
