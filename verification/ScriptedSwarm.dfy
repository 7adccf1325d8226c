/** The scripted hand-off protocol over a shared append-only board.

The host publishes a task; every other role waits for the post before its own, reads it, and publishes one reply. Each
activation of a member starts a fresh client that sees the board only through tool results, which may be stale, refused
or unreadable. `Step` interleaves the host and all members over any number of activations. */
module ScriptedSwarm {
  import opened Base
  import opened Findings

  const MAX_PAGE: nat := 32

  datatype Tool = NoTool | ListTool | ReadTool | PostTool

  /** A client's fields. Call identifiers are numbered within the activation; 0 stands for none. */
  datatype Client = Client(
    calls: nat,
    lastID: nat,
    lastTool: Tool,
    readID: nat,
    posted: bool,
    listObservations: nat)

  /** A tool result as the client can decode it. */
  datatype Content =
    | Page(posts: seq<Post>)
    | Full(posts: seq<Post>)
    | Receipt(id: nat, author: string, replyTo: nat)
    | Unreadable

  datatype Move =
    | Say
    | AskList
    | AskRead(id: nat)
    | AskPost(topic: string, body: string, replyTo: nat)
    | Fault

  const NEW_CLIENT := Client(0, 0, NoTool, 0, false, 0)

  function Called(c: Client, tool: Tool): Client {
    c.(calls := c.calls + 1, lastID := c.calls + 1, lastTool := tool)
  }

  /** Looks through a page for the client's own contribution and its prerequisite's identifier. */
  function Scan(posts: seq<Post>, me: Contribution, before: Contribution, readID: nat): (bool, nat) {
    if posts == [] then (false, readID)
    else if Matches(posts[0], me) then (true, readID)
    else Scan(posts[1..], me, before, if Matches(posts[0], before) then posts[0].id else readID)
  }

  function ReadPrerequisite(c: Client, me: Contribution, before: Contribution, posts: seq<Post>): (Client, Move) {
    var (own, id) := Scan(posts, me, before, c.readID);
    if own then (c.(posted := true, readID := id), Say)
    else if id != 0 then (Called(c.(readID := id), ReadTool), AskRead(id))
    else (c.(lastID := 0, readID := id), Say)
  }

  function Receive(c: Client, me: Contribution, before: Contribution, content: Content): (Client, Move) {
    match c.lastTool
    case ListTool => if content.Page? then ReadPrerequisite(c, me, before, content.posts) else (c, Fault)
    case ReadTool =>
      if content.Full? && |content.posts| == 1 && content.posts[0].id == c.readID && Matches(content.posts[0], before)
         && content.posts[0].body == before.body
      then (Called(c, PostTool), AskPost(me.topic, me.body, c.readID))
      else (c, Fault)
    case PostTool =>
      if content.Receipt? && content.id != 0 && content.author == Author(me.role) && content.replyTo == c.readID
      then (c.(posted := true), Say)
      else (c, Fault)
    case NoTool => (c, Fault)
  }

  /** One model response, from the observations in the history and the result of the last call, if it arrived. */
  function Next(c: Client, me: Contribution, before: Contribution, observations: nat, result: Option<Content>)
    : (Client, Move)
  {
    if c.posted then (c, Say)
    else if c.lastID == 0 || (c.lastTool == ListTool && observations > c.listObservations) then
      (Called(c.(listObservations := observations), ListTool), AskList)
    else if result.None? then (c, Fault)
    else Receive(c, me, before, result.value)
  }

  class ScriptedClient {
    const me: Contribution
    const before: Contribution
    var calls: nat
    var lastID: nat
    var lastTool: Tool
    var readID: nat
    var posted: bool
    var listObservations: nat

    constructor (before: Contribution, me: Contribution)
      ensures this.before == before && this.me == me && Value() == NEW_CLIENT
    {
      this.before, this.me := before, me;
      calls, lastID, lastTool, readID, posted, listObservations := 0, 0, NoTool, 0, false, 0;
    }

    ghost function Value(): Client
      reads this
    {
      Client(calls, lastID, lastTool, readID, posted, listObservations)
    }

    method Call(tool: Tool)
      modifies this
      ensures Value() == Called(old(Value()), tool)
    {
      calls := calls + 1;
      lastID := calls;
      lastTool := tool;
    }

    method Respond(observations: nat, result: Option<Content>) returns (move: Move)
      modifies this
      ensures (Value(), move) == Next(old(Value()), me, before, observations, result)
    {
      if posted { return Say; }
      if lastID == 0 || (lastTool == ListTool && observations > listObservations) {
        listObservations := observations;
        Call(ListTool);
        return AskList;
      }
      if result.None? { return Fault; }
      move := ReceiveResult(result.value);
    }

    method ReceiveResult(content: Content) returns (move: Move)
      modifies this
      ensures (Value(), move) == Receive(old(Value()), me, before, content)
    {
      match lastTool
      case ListTool =>
        if !content.Page? { return Fault; }
        move := FollowPage(content.posts);
      case ReadTool =>
        if !content.Full? { return Fault; }
        if |content.posts| != 1 || content.posts[0].id != readID || !Matches(content.posts[0], before)
           || content.posts[0].body != before.body { return Fault; }
        Call(PostTool);
        return AskPost(me.topic, me.body, readID);
      case PostTool =>
        if !content.Receipt? { return Fault; }
        if content.id == 0 || content.author != Author(me.role) || content.replyTo != readID { return Fault; }
        posted := true;
        return Say;
      case NoTool => return Fault;
    }

    method FollowPage(posts: seq<Post>) returns (move: Move)
      modifies this
      ensures (Value(), move) == ReadPrerequisite(old(Value()), me, before, posts)
    {
      var i := 0;
      while i < |posts|
        invariant 0 <= i <= |posts|
        invariant Value() == old(Value()).(readID := readID)
        invariant Scan(posts, me, before, old(readID)) == Scan(posts[i..], me, before, readID)
      {
        assert posts[i..][1..] == posts[i + 1..];
        if Matches(posts[i], me) {
          posted := true;
          return Say;
        }
        if Matches(posts[i], before) {
          readID := posts[i].id;
        }
        i := i + 1;
      }
      if readID != 0 {
        Call(ReadTool);
        return AskRead(readID);
      }
      lastID := 0;
      return Say;
    }
  }

  // ---------------------------------------------------------------- interleavings

  /** A member's activation: none, waiting for the model, or waiting for a tool. */
  datatype Phase = Idle | Thinking(client: Client, result: Option<Content>) | Calling(client: Client, move: Move)

  datatype State = State(board: seq<Post>, members: map<nat, Phase>)

  /** `refused` drops a call's effect; `garbled` applies it but loses the result. */
  datatype Label =
    | HostPost
    | Activate(m: nat)
    | Think(m: nat, observations: nat)
    | Execute(m: nat, refused: bool, garbled: bool)
    | End(m: nat)

  /** The board's append: identifiers count up and replies must name an existing post. */
  function Append(board: seq<Post>, author: string, topic: string, replyTo: nat, body: string): seq<Post> {
    if replyTo > |board| then board else board + [Post(|board| + 1, author, topic, replyTo, body)]
  }

  function Listing(board: seq<Post>): seq<Post> {
    if |board| <= MAX_PAGE then board else board[..MAX_PAGE]
  }

  function PhaseOf(s: State, m: nat): Phase {
    if m in s.members then s.members[m] else Idle
  }

  function Put(s: State, m: nat, p: Phase): State {
    s.(members := s.members[m := p])
  }

  function RunTool(s: State, steps: seq<Contribution>, m: nat, refused: bool, garbled: bool): (seq<Post>, Content)
    requires 0 < m < |steps| && PhaseOf(s, m).Calling?
  {
    if refused then (s.board, Unreadable)
    else
      match PhaseOf(s, m).move
      case AskList => (s.board, if garbled then Unreadable else Page(Listing(s.board)))
      case AskRead(id) =>
        (s.board, if garbled || id == 0 || id > |s.board| then Unreadable else Full([s.board[id - 1]]))
      case AskPost(topic, body, replyTo) =>
        var board := Append(s.board, Author(steps[m].role), topic, replyTo, body);
        (board, if garbled || board == s.board then Unreadable
                else Receipt(|board|, Author(steps[m].role), replyTo))
      case _ => (s.board, Unreadable)
  }

  /** One step of a schedule; a label that is not enabled leaves the state alone. Member `m` plays step `m`. */
  function Step(s: State, steps: seq<Contribution>, l: Label): State
    requires |steps| > 0
  {
    match l
    case HostPost =>
      if s.board == [] then s.(board := Append([], Author(steps[0].role), steps[0].topic, 0, steps[0].body)) else s
    case Activate(m) =>
      if 0 < m < |steps| && PhaseOf(s, m).Idle? then Put(s, m, Thinking(NEW_CLIENT, None)) else s
    case Think(m, observations) =>
      var p := PhaseOf(s, m);
      if !(0 < m < |steps|) || !p.Thinking? then s
      else
        var (c, move) := Next(p.client, steps[m], steps[m - 1], observations, p.result);
        Put(s, m, if move.Say? || move.Fault? then Thinking(c, p.result) else Calling(c, move))
    case Execute(m, refused, garbled) =>
      if !(0 < m < |steps|) || !PhaseOf(s, m).Calling? then s
      else
        var (board, content) := RunTool(s, steps, m, refused, garbled);
        Put(s.(board := board), m, Thinking(PhaseOf(s, m).client, Some(content)))
    case End(m) => Put(s, m, Idle)
  }

  function Exec(steps: seq<Contribution>, schedule: seq<Label>): State
    requires |steps| > 0
  {
    if schedule == [] then State([], map[])
    else Step(Exec(steps, schedule[..|schedule| - 1]), steps, schedule[|schedule| - 1])
  }

  // ---------------------------------------------------------------- the invariant

  /** The post step `i` contributes to an orderly board. */
  function Expected(steps: seq<Contribution>, i: nat): Post
    requires i < |steps|
  {
    Post(i + 1, Author(steps[i].role), steps[i].topic, i, steps[i].body)
  }

  /** The board is a prefix of the hand-off. */
  ghost predicate Orderly(board: seq<Post>, steps: seq<Contribution>) {
    |board| <= |steps| && forall i | 0 <= i < |board| :: board[i] == Expected(steps, i)
  }

  /** A client that is past the page scan knows that its turn to post has come and is not over. */
  ghost predicate ClientOk(board: seq<Post>, steps: seq<Contribution>, m: nat, p: Phase)
    requires 0 < m < |steps|
  {
    match p
    case Idle => true
    case Thinking(c, r) =>
      if c.posted then |board| > m
      else if c.lastID == 0 then c.readID == 0
      else
        && (c.lastTool.ListTool? ==>
              && c.readID == 0
              && (r.Some? && r.value.Page? ==> r.value.posts <= board && (|board| > m ==> |r.value.posts| > m)))
        && (c.lastTool.ReadTool? ==> c.readID == m && |board| == m)
        && (c.lastTool.PostTool? && r.Some? && r.value.Receipt? ==> |board| > m)
    case Calling(c, move) =>
      && !c.posted && c.lastID != 0
      && match move
         case AskList => c.lastTool == ListTool && c.readID == 0
         case AskRead(id) => c.lastTool == ReadTool && id == c.readID == m && |board| == m
         case AskPost(topic, body, replyTo) =>
           c.lastTool == PostTool && topic == steps[m].topic && body == steps[m].body && replyTo == m && |board| == m
         case _ => false
  }

  ghost predicate Inv(s: State, steps: seq<Contribution>) {
    && Orderly(s.board, steps)
    && forall m | m in s.members && 0 < m < |steps| :: ClientOk(s.board, steps, m, s.members[m])
  }

  ghost predicate Scenario(steps: seq<Contribution>) {
    0 < |steps| <= MAX_PAGE && DistinctSteps(steps)
  }

  /** On an orderly page a scan finds exactly what is there. */
  lemma {:induction false} ScanOrderly(posts: seq<Post>, steps: seq<Contribution>, m: nat, from: nat)
    requires DistinctSteps(steps) && Orderly(posts, steps) && 0 < m < |steps| && from <= |posts|
    requires from <= m
    ensures Scan(posts[from..], steps[m], steps[m - 1], if from >= m then m else 0)
            == (|posts| > m, if |posts| >= m then m else 0)
    decreases |posts| - from
  {
    if from < |posts| {
      assert posts[from] == Expected(steps, from);
      assert Matches(posts[from], steps[m]) <==> from == m;
      assert Matches(posts[from], steps[m - 1]) <==> from == m - 1;
      assert posts[from..][1..] == posts[from + 1..];
      if from < m {
        ScanOrderly(posts, steps, m, from + 1);
      }
    }
  }

  lemma PrefixOrderly(page: seq<Post>, board: seq<Post>, steps: seq<Contribution>)
    requires Orderly(board, steps) && page <= board
    ensures Orderly(page, steps)
  {
    assert forall i | 0 <= i < |page| :: page[i] == board[i];
  }

  function Thought(p: Phase, steps: seq<Contribution>, m: nat, observations: nat): Phase
    requires p.Thinking? && 0 < m < |steps|
  {
    var (c, move) := Next(p.client, steps[m], steps[m - 1], observations, p.result);
    if move.Say? || move.Fault? then Thinking(c, p.result) else Calling(c, move)
  }

  lemma ThoughtOk(board: seq<Post>, steps: seq<Contribution>, m: nat, p: Phase, observations: nat)
    requires Scenario(steps) && Orderly(board, steps) && 0 < m < |steps|
    requires p.Thinking? && ClientOk(board, steps, m, p)
    ensures ClientOk(board, steps, m, Thought(p, steps, m, observations))
  {
    var c, r := p.client, p.result;
    if !c.posted && c.lastID != 0 && c.lastTool == ListTool && r.Some? && r.value.Page? {
      PrefixOrderly(r.value.posts, board, steps);
      ScanOrderly(r.value.posts, steps, m, 0);
      assert r.value.posts[0..] == r.value.posts;
    }
  }

  lemma ThinkKeeps(s: State, steps: seq<Contribution>, m: nat, observations: nat)
    requires Scenario(steps) && Inv(s, steps)
    ensures Inv(Step(s, steps, Think(m, observations)), steps)
  {
    var p := PhaseOf(s, m);
    if 0 < m < |steps| && p.Thinking? {
      ThoughtOk(s.board, steps, m, p, observations);
      assert Step(s, steps, Think(m, observations)) == Put(s, m, Thought(p, steps, m, observations));
    }
  }

  lemma ExecuteKeeps(s: State, steps: seq<Contribution>, m: nat, refused: bool, garbled: bool)
    requires Scenario(steps) && Inv(s, steps)
    ensures Inv(Step(s, steps, Execute(m, refused, garbled)), steps)
  {
    var s' := Step(s, steps, Execute(m, refused, garbled));
    if 0 < m < |steps| && PhaseOf(s, m).Calling? {
      forall k | k in s'.members && 0 < k < |steps|
        ensures ClientOk(s'.board, steps, k, s'.members[k])
      {
        if k != m {
          assert ClientOk(s.board, steps, k, s.members[k]);
        }
      }
    }
  }

  lemma StepKeeps(s: State, steps: seq<Contribution>, l: Label)
    requires Scenario(steps) && Inv(s, steps)
    ensures Inv(Step(s, steps, l), steps)
  {
    match l
    case Think(m, observations) => ThinkKeeps(s, steps, m, observations);
    case Execute(m, refused, garbled) => ExecuteKeeps(s, steps, m, refused, garbled);
    case _ =>
  }

  lemma {:induction false} AlwaysInv(steps: seq<Contribution>, schedule: seq<Label>)
    requires Scenario(steps)
    ensures Inv(Exec(steps, schedule), steps)
  {
    if schedule != [] {
      AlwaysInv(steps, schedule[..|schedule| - 1]);
      StepKeeps(Exec(steps, schedule[..|schedule| - 1]), steps, schedule[|schedule| - 1]);
    }
  }

  // ---------------------------------------------------------------- what every schedule guarantees

  /** The board is always a prefix of the hand-off: one post per role, in order, each replying to the one before. */
  lemma BoardIsPrefix(steps: seq<Contribution>, schedule: seq<Label>)
    requires Scenario(steps)
    ensures var board := Exec(steps, schedule).board;
            && |board| <= |steps|
            && forall i | 0 <= i < |board| ::
                 board[i] == Post(i + 1, Author(steps[i].role), steps[i].topic, i, steps[i].body)
  {
    AlwaysInv(steps, schedule);
  }

  /** No role posts twice. */
  lemma PostsOnce(steps: seq<Contribution>, schedule: seq<Label>, m: nat)
    requires Scenario(steps) && m < |steps|
    ensures var board := Exec(steps, schedule).board;
            Count(board, steps[m]) == if m < |board| then 1 else 0
  {
    AlwaysInv(steps, schedule);
    var board := Exec(steps, schedule).board;
    if m < |board| {
      assert Sole(board, steps[m], m);
      SoleCount(board, steps[m], m);
    } else {
      CountNone(board, steps[m]);
    }
  }

  lemma OrderlyTranscript(board: seq<Post>, steps: seq<Contribution>)
    requires Orderly(board, steps) && |board| == |steps|
    ensures Transcript(board, steps)
  {
    forall i | 0 <= i < |board|
      ensures Placed(board, steps, i)
    {
      assert board[i] == Expected(steps, i);
      assert i > 0 ==> board[i - 1] == Expected(steps, i - 1);
    }
  }

  lemma NoLastNoChain(posts: seq<Post>, steps: seq<Contribution>)
    requires steps != [] && forall k | 0 <= k < |posts| :: !Matches(posts[k], steps[|steps| - 1])
    ensures !ChainExists(posts, steps)
  {
    var last := |steps| - 1;
    forall picks: seq<nat>
      ensures !IsChain(posts, steps, picks)
    {
      if |picks| == |steps| && picks[last] < |posts| {
        assert !Matches(posts[picks[last]], steps[last]);
      }
      assert !LinkOk(posts, steps, picks, last);
    }
  }

  /** The independent checker accepts the board of a run exactly when every step has been published. */
  lemma CheckerAgrees(steps: seq<Contribution>, schedule: seq<Label>)
    requires Scenario(steps)
    ensures var board := Exec(steps, schedule).board;
            && (ChainExists(board, steps) <==> |board| == |steps|)
            && Duplicates(board, steps) == 0
  {
    AlwaysInv(steps, schedule);
    var board := Exec(steps, schedule).board;
    if |board| == |steps| {
      OrderlyTranscript(board, steps);
      ChainIsTranscript(board, steps);
    } else {
      NoLastNoChain(board, steps);
    }
    NoDuplicates(steps, schedule, |steps|);
    assert steps[..|steps|] == steps;
  }

  lemma {:induction false} NoDuplicates(steps: seq<Contribution>, schedule: seq<Label>, n: nat)
    requires Scenario(steps) && n <= |steps|
    ensures Duplicates(Exec(steps, schedule).board, steps[..n]) == 0
  {
    if n > 0 {
      NoDuplicates(steps, schedule, n - 1);
      assert steps[..n][..n - 1] == steps[..n - 1];
      PostsOnce(steps, schedule, n - 1);
    }
  }

  // ---------------------------------------------------------------- the protocol makes progress

  function ThinkAndRun(s: State, steps: seq<Contribution>, m: nat): State
    requires |steps| > 0
  {
    Step(Step(s, steps, Think(m, 0)), steps, Execute(m, false, false))
  }

  /** An undisturbed activation of the member whose turn it is publishes its contribution. */
  lemma TurnPosts(steps: seq<Contribution>, schedule: seq<Label>, m: nat)
    requires Scenario(steps) && 0 < m < |steps|
    requires var s := Exec(steps, schedule); |s.board| == m && PhaseOf(s, m).Idle?
    ensures var s0 := Step(Exec(steps, schedule), steps, Activate(m));
            var s3 := ThinkAndRun(ThinkAndRun(ThinkAndRun(s0, steps, m), steps, m), steps, m);
            s3.board == Exec(steps, schedule).board + [Expected(steps, m)]
  {
    AlwaysInv(steps, schedule);
    var s := Exec(steps, schedule);
    var s0 := Step(s, steps, Activate(m));
    ListRound(s0, steps, m);
    var s1 := ThinkAndRun(s0, steps, m);
    ReadRound(s1, steps, m, Called(NEW_CLIENT, ListTool));
    PostRound(ThinkAndRun(s1, steps, m), steps, m);
  }

  lemma ListRound(s: State, steps: seq<Contribution>, m: nat)
    requires Scenario(steps) && 0 < m < |steps| && |s.board| <= |steps| && PhaseOf(s, m) == Thinking(NEW_CLIENT, None)
    ensures var s' := ThinkAndRun(s, steps, m);
            s'.board == s.board && PhaseOf(s', m) == Thinking(Called(NEW_CLIENT, ListTool), Some(Page(s.board)))
  {
    var s1 := Step(s, steps, Think(m, 0));
    assert PhaseOf(s1, m) == Calling(Called(NEW_CLIENT, ListTool), AskList);
  }

  lemma ReadRound(s: State, steps: seq<Contribution>, m: nat, c: Client)
    requires Scenario(steps) && 0 < m < |steps| && Orderly(s.board, steps) && |s.board| == m
    requires PhaseOf(s, m) == Thinking(c, Some(Page(s.board))) && c == Called(NEW_CLIENT, ListTool)
    ensures var s' := ThinkAndRun(s, steps, m);
            && s'.board == s.board
            && PhaseOf(s', m) == Thinking(Called(c.(readID := m), ReadTool), Some(Full([s.board[m - 1]])))
  {
    ScanOrderly(s.board, steps, m, 0);
    assert s.board[0..] == s.board;
    var s1 := Step(s, steps, Think(m, 0));
    assert PhaseOf(s1, m) == Calling(Called(c.(readID := m), ReadTool), AskRead(m));
  }

  lemma PostRound(s: State, steps: seq<Contribution>, m: nat)
    requires Scenario(steps) && 0 < m < |steps| && Orderly(s.board, steps) && |s.board| == m
    requires var p := PhaseOf(s, m);
             && p.Thinking? && p.result == Some(Full([s.board[m - 1]]))
             && !p.client.posted && p.client.lastID != 0 && p.client.lastTool == ReadTool && p.client.readID == m
    ensures ThinkAndRun(s, steps, m).board == s.board + [Expected(steps, m)]
  {
    assert s.board[m - 1] == Expected(steps, m - 1);
    var s1 := Step(s, steps, Think(m, 0));
    assert PhaseOf(s1, m) == Calling(Called(PhaseOf(s, m).client, PostTool), AskPost(steps[m].topic, steps[m].body, m));
  }
}
