/** The shared board's posts and the checker that assesses a finished hand-off protocol. */
module Findings {

  /** A retained post. Identifiers start at 1; 0 means no post. */
  datatype Post = Post(id: nat, author: string, topic: string, replyTo: nat, body: string)

  /** One step of the expected hand-off. */
  datatype Contribution = Contribution(role: string, topic: string, body: string)

  function Author(role: string): string {
    if role == "host" then "host" else "agent/" + role
  }

  /** `post` claims to be the contribution `step` asks for, by author and topic. */
  predicate Matches(post: Post, step: Contribution) {
    post.author == Author(step.role) && post.topic == step.topic
  }

  function Count(posts: seq<Post>, step: Contribution): nat {
    if posts == [] then 0
    else Count(posts[..|posts| - 1], step) + (if Matches(posts[|posts| - 1], step) then 1 else 0)
  }

  /** Surplus contributions over all steps. */
  function Duplicates(posts: seq<Post>, steps: seq<Contribution>): nat {
    if steps == [] then 0
    else
      var n := Count(posts, steps[|steps| - 1]);
      Duplicates(posts, steps[..|steps| - 1]) + (if n > 1 then n - 1 else 0)
  }

  /** Post `p` is the only one that matches `step`. */
  predicate Sole(posts: seq<Post>, step: Contribution, p: nat) {
    p < |posts| && forall k | 0 <= k < |posts| :: Matches(posts[k], step) <==> k == p
  }

  /** The identifier the first `i` picks end on, 0 when there is none. */
  function Tail(posts: seq<Post>, picks: seq<nat>, i: nat): nat {
    if 0 < i <= |picks| && picks[i - 1] < |posts| then posts[picks[i - 1]].id else 0
  }

  /** Post `p` carries the step's body and links to `previous`. */
  predicate Links(posts: seq<Post>, step: Contribution, p: nat, previous: nat) {
    p < |posts| && posts[p].body == step.body && posts[p].replyTo == previous && posts[p].id > previous
  }

  predicate LinkOk(posts: seq<Post>, steps: seq<Contribution>, picks: seq<nat>, i: nat) {
    && i < |picks| && i < |steps|
    && Sole(posts, steps[i], picks[i]) && Links(posts, steps[i], picks[i], Tail(posts, picks, i))
  }

  /** `picks` names, for every step, the only post that matches it: the right body, a reply to the previous pick and a
  larger identifier. */
  predicate IsChain(posts: seq<Post>, steps: seq<Contribution>, picks: seq<nat>) {
    |picks| == |steps| && forall i | 0 <= i < |picks| :: LinkOk(posts, steps, picks, i)
  }

  ghost predicate ChainExists(posts: seq<Post>, steps: seq<Contribution>) {
    exists picks :: IsChain(posts, steps, picks)
  }

  datatype Member = Member(stopped: bool, pending: nat, reactivations: nat, initialAssignments: nat, observations: nat)
  {
    predicate Settled() {
      stopped && pending == 0 && reactivations > 0 && initialAssignments == 1 && observations > 0
    }
  }

  // ---------------------------------------------------------------- lemmas the loops rely on

  lemma CountPrefix(posts: seq<Post>, step: Contribution, j: nat)
    requires j < |posts|
    ensures Count(posts[..j + 1], step) == Count(posts[..j], step) + (if Matches(posts[j], step) then 1 else 0)
  {
    assert posts[..j + 1][..j] == posts[..j];
  }

  lemma {:induction false} CountNone(posts: seq<Post>, step: Contribution)
    requires forall k | 0 <= k < |posts| :: !Matches(posts[k], step)
    ensures Count(posts, step) == 0
  {
    if posts != [] {
      CountNone(posts[..|posts| - 1], step);
    }
  }

  lemma {:induction false} NoneCounted(posts: seq<Post>, step: Contribution, k: nat)
    requires Count(posts, step) == 0 && k < |posts|
    ensures !Matches(posts[k], step)
  {
    if k < |posts| - 1 {
      NoneCounted(posts[..|posts| - 1], step, k);
    }
  }

  lemma {:induction false} SoleCount(posts: seq<Post>, step: Contribution, p: nat)
    requires Sole(posts, step, p)
    ensures Count(posts, step) == 1
  {
    var n := |posts| - 1;
    if p == n {
      CountNone(posts[..n], step);
    } else {
      SoleCount(posts[..n], step, p);
    }
  }

  lemma {:induction false} CountSole(posts: seq<Post>, step: Contribution) returns (p: nat)
    requires Count(posts, step) == 1
    ensures Sole(posts, step, p)
  {
    var n := |posts| - 1;
    if Matches(posts[n], step) {
      p := n;
      forall k | 0 <= k < n
        ensures !Matches(posts[k], step)
      {
        NoneCounted(posts[..n], step, k);
      }
    } else {
      p := CountSole(posts[..n], step);
      assert forall k | 0 <= k < n :: posts[k] == posts[..n][k];
    }
  }

  /** A chain over the first `i` steps extends by the sole match of the next step, if that match links up. */
  lemma ChainStep(posts: seq<Post>, steps: seq<Contribution>, picks: seq<nat>, i: nat, p: nat)
    requires i < |steps| && IsChain(posts, steps[..i], picks)
    requires Sole(posts, steps[i], p) && Links(posts, steps[i], p, Tail(posts, picks, i))
    ensures IsChain(posts, steps[..i + 1], picks + [p])
  {
    var taken, q := steps[..i + 1], picks + [p];
    forall m | 0 <= m <= i
      ensures LinkOk(posts, taken, q, m)
    {
      assert m < i ==> LinkOk(posts, steps[..i], picks, m);
    }
  }

  /** Picks are determined by the posts. */
  lemma ChainUnique(posts: seq<Post>, steps: seq<Contribution>, p: seq<nat>, q: seq<nat>)
    requires IsChain(posts, steps, p) && IsChain(posts, steps, q)
    ensures p == q
  {
    forall i | 0 <= i < |p|
      ensures p[i] == q[i]
    {
      assert LinkOk(posts, steps, p, i) && LinkOk(posts, steps, q, i);
      assert Matches(posts[p[i]], steps[i]);
    }
  }

  lemma ChainPrefix(posts: seq<Post>, steps: seq<Contribution>, picks: seq<nat>, i: nat)
    requires i <= |steps| && IsChain(posts, steps, picks)
    ensures IsChain(posts, steps[..i], picks[..i])
  {
    forall m | 0 <= m < i
      ensures LinkOk(posts, steps[..i], picks[..i], m)
    {
      assert LinkOk(posts, steps, picks, m);
    }
  }

  /** If the chain was broken before step `i`, or the step lacks a sole match that links up, no chain covers it. */
  lemma BrokenStep(posts: seq<Post>, steps: seq<Contribution>, picks: seq<nat>, i: nat, was: bool)
    requires i < |steps|
    requires if was then IsChain(posts, steps[..i], picks) else !ChainExists(posts, steps[..i])
    requires was ==> Count(posts, steps[i]) != 1 ||
                     exists p: nat :: Sole(posts, steps[i], p) && !Links(posts, steps[i], p, Tail(posts, picks, i))
    ensures !ChainExists(posts, steps[..i + 1])
  {
    if ChainExists(posts, steps[..i + 1]) {
      var q :| IsChain(posts, steps[..i + 1], q);
      ChainPrefix(posts, steps[..i + 1], q, i);
      assert steps[..i + 1][..i] == steps[..i];
      assert LinkOk(posts, steps[..i + 1], q, i);
      SoleCount(posts, steps[i], q[i]);
      if was {
        ChainUnique(posts, steps[..i], picks, q[..i]);
      }
    }
  }

  /** A chain has no surplus contribution. */
  lemma {:induction false} ChainNoDuplicates(posts: seq<Post>, steps: seq<Contribution>, picks: seq<nat>)
    requires IsChain(posts, steps, picks)
    ensures Duplicates(posts, steps) == 0
  {
    if steps != [] {
      var n := |steps| - 1;
      ChainPrefix(posts, steps, picks, n);
      ChainNoDuplicates(posts, steps[..n], picks[..n]);
      assert LinkOk(posts, steps, picks, n);
      SoleCount(posts, steps[n], picks[n]);
    }
  }

  // ---------------------------------------------------------------- the checker

  class Report {
    var complete: bool
    var initiallyIdle: bool
    var handoffs: nat
    var duplicates: nat
    const members: seq<Member>
    const findings: seq<Post>

    constructor (findings: seq<Post>, members: seq<Member>, initiallyIdle: bool)
      ensures this.findings == findings && this.members == members && this.initiallyIdle == initiallyIdle
      ensures handoffs == 0 && duplicates == 0 && !complete
    {
      this.findings, this.members, this.initiallyIdle := findings, members, initiallyIdle;
      handoffs, duplicates, complete := 0, 0, false;
    }

    /** One pass over the findings for one step: counts the matches and follows the chain through them. */
    method AssessStep(step: Contribution, first: bool, previous: nat, chain: bool)
      returns (count: nat, previous': nat, chain': bool)
      modifies this`handoffs
      ensures count == Count(findings, step)
      ensures count == 1 ==>
                exists p: nat :: Sole(findings, step, p)
                  && chain' == (chain && Links(findings, step, p, previous))
                  && (chain' ==> previous' == findings[p].id && handoffs == old(handoffs) + (if first then 0 else 1))
    {
      count, previous', chain' := 0, previous, chain;
      ghost var p: nat := 0;
      var j := 0;
      while j < |findings|
        invariant 0 <= j <= |findings|
        invariant count == Count(findings[..j], step)
        invariant count == 0 ==> previous' == previous && chain' == chain && handoffs == old(handoffs)
        invariant count == 1 ==>
                    && p < j && Matches(findings[p], step)
                    && chain' == (chain && Links(findings, step, p, previous))
                    && (chain' ==> previous' == findings[p].id && handoffs == old(handoffs) + (if first then 0 else 1))
      {
        CountPrefix(findings, step, j);
        var finding := findings[j];
        if Matches(finding, step) {
          if count == 0 {
            p := j;
          }
          count := count + 1;
          if chain' && finding.body == step.body && finding.replyTo == previous' && finding.id > previous' {
            previous' := finding.id;
            if !first {
              handoffs := handoffs + 1;
            }
          } else {
            chain' := false;
          }
        }
        j := j + 1;
      }
      assert findings[..|findings|] == findings;
      if count == 1 {
        ghost var q := CountSole(findings, step);
        assert p == q;
      }
    }

    /** Complete exactly when the findings are one unbroken chain of the steps with nothing extra, the members settled
    and the swarm started idle; then every step but the first is a hand-off and nothing is duplicated. */
    method Assess(steps: seq<Contribution>)
      requires handoffs == 0 && duplicates == 0
      modifies this
      ensures initiallyIdle == old(initiallyIdle)
      ensures complete == (ChainExists(findings, steps) && initiallyIdle && |findings| == |steps|
                           && forall k | 0 <= k < |members| :: members[k].Settled())
      ensures duplicates == Duplicates(findings, steps)
      ensures ChainExists(findings, steps) ==> duplicates == 0 && handoffs == if |steps| == 0 then 0 else |steps| - 1
    {
      var chain := AssessChain(steps);
      complete := chain && initiallyIdle && |findings| == |steps|;
      var k := 0;
      while k < |members|
        invariant 0 <= k <= |members|
        modifies this`complete
        invariant complete == (chain && initiallyIdle && |findings| == |steps|
                               && forall m | 0 <= m < k :: members[m].Settled())
      {
        complete := complete && members[k].Settled();
        k := k + 1;
      }
    }

    /** The loop over the steps. */
    method AssessChain(steps: seq<Contribution>) returns (chain: bool)
      requires handoffs == 0 && duplicates == 0
      modifies this`handoffs, this`duplicates
      ensures chain == ChainExists(findings, steps)
      ensures duplicates == Duplicates(findings, steps)
      ensures chain ==> duplicates == 0 && handoffs == if |steps| == 0 then 0 else |steps| - 1
    {
      var previous: nat := 0;
      chain := true;
      ghost var picks: seq<nat> := [];
      var i := 0;
      while i < |steps|
        invariant 0 <= i <= |steps|
        invariant duplicates == Duplicates(findings, steps[..i])
        invariant if chain then IsChain(findings, steps[..i], picks) else !ChainExists(findings, steps[..i])
        invariant chain ==> previous == Tail(findings, picks, i) && handoffs == if i == 0 then 0 else i - 1
      {
        ghost var before, was := previous, chain;
        var count;
        count, previous, chain := AssessStep(steps[i], i == 0, previous, chain);
        assert steps[..i + 1][..i] == steps[..i];
        duplicates := duplicates + (if count > 1 then count - 1 else 0);
        chain := chain && count == 1;
        if chain {
          ghost var p: nat :| Sole(findings, steps[i], p) && Links(findings, steps[i], p, before)
                         && previous == findings[p].id;
          ChainStep(findings, steps, picks, i, p);
          picks := picks + [p];
        } else {
          BrokenStep(findings, steps, picks, i, was);
        }
        i := i + 1;
      }
      assert steps[..|steps|] == steps;
      if chain {
        ChainNoDuplicates(findings, steps, picks);
      }
    }
  }

  // ---------------------------------------------------------------- what a complete report means

  predicate DistinctSteps(steps: seq<Contribution>) {
    forall i, j | 0 <= i < j < |steps| ::
      Author(steps[i].role) != Author(steps[j].role) || steps[i].topic != steps[j].topic
  }

  /** Post `i` is exactly what step `i` asks for, replying to post `i - 1`. */
  predicate Placed(posts: seq<Post>, steps: seq<Contribution>, i: nat)
    requires i < |posts| == |steps|
  {
    var previous := if i == 0 then 0 else posts[i - 1].id;
    Matches(posts[i], steps[i]) && posts[i].body == steps[i].body && posts[i].replyTo == previous
    && posts[i].id > previous
  }

  predicate Transcript(posts: seq<Post>, steps: seq<Contribution>) {
    |posts| == |steps| && forall i | 0 <= i < |posts| :: Placed(posts, steps, i)
  }

  predicate InOrder(posts: seq<Post>) {
    forall i, j | 0 <= i < j < |posts| :: posts[i].id < posts[j].id
  }

  lemma PicksGrow(posts: seq<Post>, steps: seq<Contribution>, picks: seq<nat>, i: nat)
    requires IsChain(posts, steps, picks) && InOrder(posts) && 0 < i < |picks|
    ensures picks[i - 1] < picks[i] < |posts|
  {
    assert LinkOk(posts, steps, picks, i) && LinkOk(posts, steps, picks, i - 1);
    assert posts[picks[i]].id > posts[picks[i - 1]].id;
  }

  lemma {:induction false} PicksFloor(posts: seq<Post>, steps: seq<Contribution>, picks: seq<nat>, i: nat)
    requires IsChain(posts, steps, picks) && InOrder(posts) && i < |picks|
    ensures i <= picks[i]
  {
    if i > 0 {
      PicksFloor(posts, steps, picks, i - 1);
      PicksGrow(posts, steps, picks, i);
    }
  }

  lemma {:induction false} PicksCeiling(posts: seq<Post>, steps: seq<Contribution>, picks: seq<nat>, i: nat)
    requires IsChain(posts, steps, picks) && InOrder(posts) && i < |picks|
    ensures picks[i] + |picks| <= |posts| + i
    decreases |picks| - i
  {
    if i + 1 < |picks| {
      PicksCeiling(posts, steps, picks, i + 1);
      PicksGrow(posts, steps, picks, i + 1);
    } else {
      assert LinkOk(posts, steps, picks, i);
    }
  }

  /** For findings listed in board order, a chain with nothing extra is the transcript itself, and conversely. */
  lemma ChainIsTranscript(posts: seq<Post>, steps: seq<Contribution>)
    requires InOrder(posts) && DistinctSteps(steps)
    ensures (ChainExists(posts, steps) && |posts| == |steps|) <==> Transcript(posts, steps)
  {
    if ChainExists(posts, steps) && |posts| == |steps| {
      var picks :| IsChain(posts, steps, picks);
      forall i | 0 <= i < |picks|
        ensures picks[i] == i
      {
        PicksFloor(posts, steps, picks, i);
        PicksCeiling(posts, steps, picks, i);
      }
      forall i | 0 <= i < |posts|
        ensures Placed(posts, steps, i)
      {
        assert LinkOk(posts, steps, picks, i);
      }
    }
    if Transcript(posts, steps) {
      var picks: seq<nat> := seq(|steps|, i requires 0 <= i => i);
      forall i | 0 <= i < |picks|
        ensures LinkOk(posts, steps, picks, i)
      {
        assert Placed(posts, steps, i);
        forall k | 0 <= k < |posts|
          ensures Matches(posts[k], steps[i]) <==> k == i
        {
          assert Placed(posts, steps, k);
        }
      }
      assert IsChain(posts, steps, picks);
    }
  }
}
