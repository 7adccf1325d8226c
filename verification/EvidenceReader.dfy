/** Reading a trial's evidence back: an order check over the decoded records and a metadata-only projection of the
tool executions they mention.

JSON decoding is a parameter: the reader is given the records the decoder yields, a record or message that does not
decode being `Garbled`. */
module EvidenceReader {
  import opened Base
  import opened Decimal
  import opened FirstSeen

  const MAX_BYTES := 64 * 1024 * 1024
  const MAX_EXECUTIONS := 256
  const MAX_PROMPT := 32768
  const MAX_GUIDANCE := 16384
  const REVISION := "test-file-policy-v1"

  /** Captured text: readable text, or opaque bytes when it was not UTF-8. */
  datatype Text = Text(text: string, utf8: bool, bytes: nat)

  datatype Message =
    | Unreadable
    | Chat
    | Tool(executionID: string, name: string, success: bool, kind: string, dispatched: Option<bool>)

  datatype Entry =
    | Garbled
    | Start(
        version: int, runID: string, taskID: string, prompt: Text, revision: string, driver: string, guidance: string)
    | Request(tools: seq<string>)
    | History(messages: seq<Message>)
    | Outcome(reason: string, error: Text, tokensIn: int, tokensOut: int)
    | Unsupported

  datatype Receipt = Receipt(file: string, sha256: string, runID: string, taskID: string, driver: string)

  datatype Observation = Observation(id: string, tool: string, success: bool, dispatched: Option<bool>, kind: string)

  datatype View = View(
    id: string, taskPrompt: string, guidance: string, revision: string,
    observations: seq<Observation>, reason: string, tokensIn: int, tokensOut: int)

  // ---------------------------------------------------------------- which logs are well formed

  predicate Admissible(e: Entry, receipt: Receipt)
    requires e.Start?
  {
    && e.version == 1 && e.runID == receipt.runID && e.taskID == receipt.taskID && e.driver == receipt.driver
    && e.revision == REVISION
    && e.prompt.bytes == 0 && e.prompt.utf8 && ByteLength(e.prompt.text) <= MAX_PROMPT
    && ByteLength(e.guidance) <= MAX_GUIDANCE
  }

  predicate Usable(e: Entry)
    requires e.Outcome?
  {
    (e.reason == "completed" || e.reason == "max_iterations") && e.error.text == "" && e.error.bytes == 0
  }

  predicate Legible(m: Message) {
    !m.Unreadable? && (m.Tool? ==> m.executionID != "")
  }

  /** A record that may stand between the start and the result. */
  predicate Inner(e: Entry) {
    e.Request? || (e.History? && forall i | 0 <= i < |e.messages| :: Legible(e.messages[i]))
  }

  /** One start, then requests and histories, then one result; at most 256 different executions. */
  predicate WellFormed(log: seq<Entry>, receipt: Receipt) {
    && |log| >= 2
    && log[0].Start? && Admissible(log[0], receipt)
    && log[|log| - 1].Outcome? && Usable(log[|log| - 1])
    && (forall i | 0 < i < |log| - 1 :: Inner(log[i]))
    && |ExecutionIDs(Calls(log, |log|))| <= MAX_EXECUTIONS
  }

  // ---------------------------------------------------------------- what is observed

  /** A tool execution mentioned in a history, and whether its tool had been advertised by then. */
  datatype Call = Call(
    executionID: string, name: string, success: bool, kind: string, dispatched: Option<bool>, advertised: bool)

  function CallOf(m: Message, advertised: bool): Call
    requires m.Tool?
  {
    Call(m.executionID, m.name, m.success, m.kind, m.dispatched, advertised)
  }

  predicate Advertised(log: seq<Entry>, at: nat, name: string) {
    exists j | 0 <= j < at && j < |log| && log[j].Request? :: name in log[j].tools
  }

  function MessagesOf(e: Entry): seq<Message> {
    if e.History? then e.messages else []
  }

  /** The executions mentioned by the records before `at` and by the first `k` messages of record `at`, in order, with
  repetitions. */
  function CallsWithin(log: seq<Entry>, at: nat, k: nat): seq<Call>
    requires at < |log| && k <= |MessagesOf(log[at])|
    decreases at, k + 1
  {
    if k == 0 then Calls(log, at)
    else
      var m := MessagesOf(log[at])[k - 1];
      CallsWithin(log, at, k - 1) + (if m.Tool? then [CallOf(m, Advertised(log, at, m.name))] else [])
  }

  /** The executions mentioned by the first `n` records. */
  function Calls(log: seq<Entry>, n: nat): seq<Call>
    requires n <= |log|
    decreases n, 0
  {
    if n == 0 then [] else CallsWithin(log, n - 1, |MessagesOf(log[n - 1])|)
  }

  function ExecutionIDs(calls: seq<Call>): set<string>
  {
    set i | 0 <= i < |calls| :: calls[i].executionID
  }

  /** The call at `p` is the first mention of its execution. */
  predicate FirstMention(calls: seq<Call>, p: nat)
    requires p < |calls|
  {
    forall q | 0 <= q < p :: calls[q].executionID != calls[p].executionID
  }

  /** How observations are worded: their identities by number, and what stands for a tool that was not advertised. */
  datatype Wording = Wording(cite: nat -> string, unadvertised: string)

  /** The wording of a view: numbered from 1 under the view's own identity. */
  function WordingOf(id: string): Wording {
    Wording((k: nat) => id + "/tool/" + Itoa(k + 1), "unadvertised")
  }

  /** How an execution reads as the `k`-th observation. */
  function Observe(w: Wording, c: Call, k: nat): Observation
  {
    Observation(w.cite(k), if c.advertised then c.name else w.unadvertised,
                c.success, c.dispatched, c.kind)
  }

  /** One observation for each execution among the first `n` calls, as it is first mentioned, numbered consecutively. */
  function Observations(w: Wording, calls: seq<Call>, n: nat): seq<Observation>
    requires n <= |calls|
  {
    if n == 0 then []
    else
      var obs := Observations(w, calls, n - 1);
      if FirstMention(calls, n - 1) then obs + [Observe(w, calls[n - 1], |obs|)] else obs
  }

  /** The projection of a log: everything the reader may pass on. */
  predicate Projects(log: seq<Entry>, receipt: Receipt, v: View)
    requires WellFormed(log, receipt)
  {
    var start, end := log[0], log[|log| - 1];
    && v.id == receipt.sha256
    && v.taskPrompt == start.prompt.text && v.guidance == start.guidance && v.revision == start.revision
    && v.reason == end.reason && v.tokensIn == end.tokensIn && v.tokensOut == end.tokensOut
    && v.observations == Observations(WordingOf(v.id), Calls(log, |log|), |Calls(log, |log|)|)
  }

  // ---------------------------------------------------------------- about first mentions

  lemma IDsExtend(calls: seq<Call>, c: Call)
    ensures ExecutionIDs(calls + [c]) == ExecutionIDs(calls) + {c.executionID}
    ensures FirstMention(calls + [c], |calls|) <==> c.executionID !in ExecutionIDs(calls)
  {
    var more := calls + [c];
    assert more[|calls|] == c && forall i | 0 <= i < |calls| :: more[i] == calls[i];
    forall x
      ensures x in ExecutionIDs(more) <==> x in ExecutionIDs(calls) + {c.executionID}
    {
      if x in ExecutionIDs(calls) {
        var i :| 0 <= i < |calls| && calls[i].executionID == x;
        assert more[i].executionID == x;
      }
    }
  }

  lemma {:induction false} ObservationsPrefix(w: Wording, calls: seq<Call>, more: seq<Call>, n: nat)
    requires calls <= more && n <= |calls|
    ensures Observations(w, more, n) == Observations(w, calls, n)
  {
    assert forall i | 0 <= i < |calls| :: more[i] == calls[i];
    if n > 0 {
      ObservationsPrefix(w, calls, more, n - 1);
    }
  }

  /** A repeated execution adds nothing, a new one adds the next observation. */
  lemma ObservationsExtend(w: Wording, calls: seq<Call>, c: Call)
    ensures var obs := Observations(w, calls, |calls|);
            var more := Observations(w, calls + [c], |calls| + 1);
            if c.executionID in ExecutionIDs(calls) then more == obs
            else more == obs + [Observe(w, c, |obs|)]
  {
    ObservationsPrefix(w, calls, calls + [c], |calls|);
    IDsExtend(calls, c);
  }

  function IDs(calls: seq<Call>): (r: seq<string>)
    ensures |r| == |calls| && forall i | 0 <= i < |r| :: r[i] == calls[i].executionID
  {
    seq(|calls|, i requires 0 <= i < |calls| => calls[i].executionID)
  }

  /** Observations of the calls at given positions. */
  predicate ObservedAt(w: Wording, calls: seq<Call>, firsts: seq<nat>, obs: seq<Observation>)
  {
    && |obs| == |firsts|
    && forall k | 0 <= k < |obs| :: firsts[k] < |calls| && obs[k] == Observe(w, calls[firsts[k]], k)
  }

  /** The observations are of the executions where they are first mentioned, in that order. */
  lemma {:induction false} ObservedFirst(w: Wording, calls: seq<Call>, n: nat)
    requires n <= |calls|
    ensures ObservedAt(w, calls, Firsts(IDs(calls), n), Observations(w, calls, n))
  {
    if n > 0 {
      ObservedFirst(w, calls, n - 1);
      MentionIsFirst(calls, n - 1);
      ObservedNext(w, calls, Firsts(IDs(calls), n - 1), Observations(w, calls, n - 1), n - 1);
    }
  }

  lemma MentionIsFirst(calls: seq<Call>, p: nat)
    requires p < |calls|
    ensures FirstMention(calls, p) <==> IsFirst(IDs(calls), p)
  {
  }

  lemma ObservedNext(w: Wording, calls: seq<Call>, firsts: seq<nat>, obs: seq<Observation>, p: nat)
    requires ObservedAt(w, calls, firsts, obs) && p < |calls|
    ensures ObservedAt(w, calls, firsts + [p], obs + [Observe(w, calls[p], |obs|)])
  {
  }

  /** There are as many observations as different executions. */
  lemma ObservedAsMany(w: Wording, calls: seq<Call>)
    ensures |Observations(w, calls, |calls|)| == |ExecutionIDs(calls)|
  {
    var ids := IDs(calls);
    ObservedFirst(w, calls, |calls|);
    FirstsCount(ids, |calls|);
    assert ids[..|calls|] == ids;
    assert KeySet(ids) == ExecutionIDs(calls);
  }

  /** Every execution mentioned is observed, as its first mention has it, and by one observation only. */
  lemma EveryExecutionObserved(w: Wording, calls: seq<Call>, p: nat) returns (k: nat)
    requires p < |calls|
    ensures var obs, f := Observations(w, calls, |calls|), Firsts(IDs(calls), |calls|);
            && |f| == |obs| && k < |obs|
            && calls[f[k]].executionID == calls[p].executionID
            && obs[k] == Observe(w, calls[f[k]], k)
            && forall j | 0 <= j < |obs| && j != k :: calls[f[j]].executionID != calls[p].executionID
  {
    var ids := IDs(calls);
    var f := Firsts(ids, |calls|);
    ObservedFirst(w, calls, |calls|);
    EveryKeyFirst(ids, |calls|, p);
    k :| 0 <= k < |f| && ids[f[k]] == ids[p];
    forall j | 0 <= j < |f| && j != k
      ensures calls[f[j]].executionID != calls[p].executionID
    {
      FirstsDiffer(ids, |calls|, j, k);
    }
  }

  lemma NumbersDiffer(prefix: string, i: nat, j: nat)
    requires i != j
    ensures prefix + Itoa(i) != prefix + Itoa(j)
  {
    AtoiItoa(i);
    AtoiItoa(j);
    assert (prefix + Itoa(i))[|prefix|..] == Itoa(i) && (prefix + Itoa(j))[|prefix|..] == Itoa(j);
  }

  /** Citations are unambiguous: different observations of one view have different identities. */
  lemma CitationsDiffer(id: string, calls: seq<Call>, i: nat, j: nat)
    requires i < j < |Observations(WordingOf(id), calls, |calls|)|
    ensures var obs := Observations(WordingOf(id), calls, |calls|); obs[i].id != obs[j].id
  {
    ObservedFirst(WordingOf(id), calls, |calls|);
    NumbersDiffer(id + "/tool/", i + 1, j + 1);
  }

  // ---------------------------------------------------------------- the reader

  lemma PrefixIDs(a: seq<Call>, b: seq<Call>)
    requires a <= b
    ensures ExecutionIDs(a) <= ExecutionIDs(b)
  {
    assert forall i | 0 <= i < |a| :: a[i] == b[i];
  }

  lemma {:induction false} CallsPrefix(log: seq<Entry>, at: nat, k: nat, n: nat)
    requires at < |log| && k <= n <= |MessagesOf(log[at])|
    ensures CallsWithin(log, at, k) <= CallsWithin(log, at, n)
  {
    if k < n {
      CallsPrefix(log, at, k, n - 1);
    }
  }

  lemma {:induction false} CallsGrow(log: seq<Entry>, m: nat, n: nat)
    requires m <= n <= |log|
    ensures Calls(log, m) <= Calls(log, n)
  {
    if m < n {
      CallsGrow(log, m, n - 1);
      CallsPrefix(log, n - 1, 0, |MessagesOf(log[n - 1])|);
    }
  }

  lemma SubsetBound(a: set<string>, b: set<string>)
    requires a <= b
    ensures |a| <= |b|
  {
    assert b == a + (b - a);
  }

  /** The executions seen so far bound those of the whole log from below. */
  lemma TooMany(log: seq<Entry>, at: nat, k: nat)
    requires at < |log| && k <= |MessagesOf(log[at])|
    ensures |ExecutionIDs(CallsWithin(log, at, k))| <= |ExecutionIDs(Calls(log, |log|))|
  {
    CallsPrefix(log, at, k, |MessagesOf(log[at])|);
    CallsGrow(log, at + 1, |log|);
    PrefixIDs(CallsWithin(log, at, k), Calls(log, |log|));
    SubsetBound(ExecutionIDs(CallsWithin(log, at, k)), ExecutionIDs(Calls(log, |log|)));
  }

  /** The reader's map of executions and its list of observations. */
  datatype Track = Track(seen: set<string>, obs: seq<Observation>)

  /** One message: a tool execution not seen before is marked and observed. */
  function Follow(w: Wording, t: Track, m: Message, known: bool): Track {
    if !m.Tool? || m.executionID in t.seen then t
    else Track(t.seen + {m.executionID}, t.obs + [Observe(w, CallOf(m, known), |t.obs|)])
  }

  /** Where the reader stands within record `at`. */
  function TrackWithin(w: Wording, log: seq<Entry>, at: nat, k: nat): Track
    requires at < |log| && k <= |MessagesOf(log[at])|
    decreases at, k + 1
  {
    if k == 0 then TrackAfter(w, log, at)
    else
      var m := MessagesOf(log[at])[k - 1];
      Follow(w, TrackWithin(w, log, at, k - 1), m, m.Tool? && Advertised(log, at, m.name))
  }

  function TrackAfter(w: Wording, log: seq<Entry>, n: nat): Track
    requires n <= |log|
    decreases n, 0
  {
    if n == 0 then Track({}, []) else TrackWithin(w, log, n - 1, |MessagesOf(log[n - 1])|)
  }

  /** A track holds exactly the executions of some calls, and their observations. */
  predicate Tracks(w: Wording, calls: seq<Call>, t: Track) {
    t.seen == ExecutionIDs(calls) && t.obs == Observations(w, calls, |calls|)
  }

  lemma TracksExtend(w: Wording, calls: seq<Call>, t: Track, m: Message, known: bool)
    requires m.Tool? && Tracks(w, calls, t)
    ensures Tracks(w, calls + [CallOf(m, known)], Follow(w, t, m, known))
  {
    var c := CallOf(m, known);
    IDsExtend(calls, c);
    ObservationsExtend(w, calls, c);
    assert c.executionID in t.seen ==> t.seen + {c.executionID} == t.seen;
  }

  /** Message by message, the reader's variables are what the executions mentioned so far determine. */
  lemma {:induction false} TracksWithin(w: Wording, log: seq<Entry>, at: nat, k: nat)
    requires at < |log| && k <= |MessagesOf(log[at])|
    ensures Tracks(w, CallsWithin(log, at, k), TrackWithin(w, log, at, k))
    decreases at, k + 1
  {
    if k == 0 {
      TracksAfter(w, log, at);
    } else {
      TracksWithin(w, log, at, k - 1);
      var m := MessagesOf(log[at])[k - 1];
      if m.Tool? {
        TracksExtend(w, CallsWithin(log, at, k - 1), TrackWithin(w, log, at, k - 1), m, Advertised(log, at, m.name));
      } else {
        assert CallsWithin(log, at, k) == CallsWithin(log, at, k - 1);
      }
    }
  }

  lemma {:induction false} TracksAfter(w: Wording, log: seq<Entry>, n: nat)
    requires n <= |log|
    ensures Tracks(w, Calls(log, n), TrackAfter(w, log, n))
    decreases n, 0
  {
    if n == 0 {
      assert ExecutionIDs([]) == {};
    } else {
      TracksWithin(w, log, n - 1, |MessagesOf(log[n - 1])|);
    }
  }

  /** A track within the limit. */
  predicate Bounded(t: Track) {
    |t.obs| == |t.seen| <= MAX_EXECUTIONS
  }

  /** One message of a history: refused when it cannot be read or would be the 257th execution. */
  method ReadMessage(w: Wording, log: seq<Entry>, at: nat, k: nat, advertised: set<string>, t: Track)
    returns (ok: bool, t': Track)
    requires at < |log| && k < |MessagesOf(log[at])| && AllAdvertised(log, at, advertised)
    requires t == TrackWithin(w, log, at, k) && Bounded(t)
    ensures ok ==> Legible(MessagesOf(log[at])[k]) && t' == TrackWithin(w, log, at, k + 1) && Bounded(t')
    ensures !ok ==> !Legible(MessagesOf(log[at])[k]) || |ExecutionIDs(Calls(log, |log|))| > MAX_EXECUTIONS
  {
    var m := MessagesOf(log[at])[k];
    if !Legible(m) { return false, t; }
    if !m.Tool? || m.executionID in t.seen { return true, t; }
    var seen := t.seen + {m.executionID};
    if |t.obs| >= MAX_EXECUTIONS {
      TracksWithin(w, log, at, k + 1);
      TooMany(log, at, k + 1);
      return false, t;
    }
    return true, Track(seen, t.obs + [Observe(w, CallOf(m, m.name in advertised), |t.obs|)]);
  }

  /** One history record. */
  method ReadHistory(w: Wording, log: seq<Entry>, at: nat, advertised: set<string>, t: Track)
    returns (ok: bool, t': Track)
    requires at < |log| && log[at].History? && AllAdvertised(log, at, advertised)
    requires t == TrackAfter(w, log, at) && Bounded(t)
    ensures ok ==> Inner(log[at]) && t' == TrackAfter(w, log, at + 1) && Bounded(t')
    ensures !ok ==> !Inner(log[at]) || |ExecutionIDs(Calls(log, |log|))| > MAX_EXECUTIONS
  {
    var messages := log[at].messages;
    t' := t;
    var k := 0;
    while k < |messages|
      invariant 0 <= k <= |messages|
      invariant forall i | 0 <= i < k :: Legible(messages[i])
      invariant t' == TrackWithin(w, log, at, k) && Bounded(t')
    {
      ok, t' := ReadMessage(w, log, at, k, advertised, t');
      if !ok { return; }
      k := k + 1;
    }
    ok := true;
  }

  /** The reader's variables. */
  datatype Scan = Scan(
    view: View, started: bool, finished: bool, advertised: set<string>, track: Track)

  /** The part of a log that has been read: a start, then inner records, then perhaps the result. */
  predicate ReadSoFar(log: seq<Entry>, receipt: Receipt, n: nat, finished: bool)
    requires n <= |log|
  {
    && (n > 0 ==> log[0].Start? && Admissible(log[0], receipt))
    && (finished ==> n >= 2 && log[n - 1].Outcome? && Usable(log[n - 1]))
    && (forall i | 0 < i < (if finished then n - 1 else n) :: Inner(log[i]))
  }

  /** What the view holds so far. */
  predicate Viewed(log: seq<Entry>, receipt: Receipt, n: nat, v: View, finished: bool)
    requires n <= |log| && ReadSoFar(log, receipt, n, finished)
  {
    && v.id == receipt.sha256
    && (n > 0 ==> v.taskPrompt == log[0].prompt.text && v.guidance == log[0].guidance && v.revision == log[0].revision)
    && (finished ==> v.reason == log[n - 1].reason && v.tokensIn == log[n - 1].tokensIn
                     && v.tokensOut == log[n - 1].tokensOut)
  }

  ghost predicate AllAdvertised(log: seq<Entry>, n: nat, advertised: set<string>) {
    forall x :: x in advertised <==> Advertised(log, n, x)
  }

  ghost predicate Scanned(w: Wording, log: seq<Entry>, receipt: Receipt, n: nat, s: Scan)
    requires n <= |log|
  {
    && s.started == (n > 0)
    && ReadSoFar(log, receipt, n, s.finished) && Viewed(log, receipt, n, s.view, s.finished)
    && AllAdvertised(log, n, s.advertised)
    && s.track == TrackAfter(w, log, n) && Bounded(s.track)
  }

  lemma AdvertisedGrows(log: seq<Entry>, at: nat, x: string)
    requires at < |log|
    ensures Advertised(log, at + 1, x) <==> Advertised(log, at, x) || (log[at].Request? && x in log[at].tools)
  {
    if Advertised(log, at, x) {
      var j :| 0 <= j < at && j < |log| && log[j].Request? && x in log[j].tools;
      assert 0 <= j < at + 1;
    }
    if Advertised(log, at + 1, x) && !(log[at].Request? && x in log[at].tools) {
      var j :| 0 <= j < at + 1 && j < |log| && log[j].Request? && x in log[j].tools;
      assert j < at;
    }
  }

  function ToolNames(tools: seq<string>): set<string> {
    set i | 0 <= i < |tools| :: tools[i]
  }

  lemma AdvertisedNext(log: seq<Entry>, n: nat, advertised: set<string>)
    requires n < |log| && AllAdvertised(log, n, advertised)
    ensures AllAdvertised(log, n + 1, advertised + (if log[n].Request? then ToolNames(log[n].tools) else {}))
  {
    var now := advertised + (if log[n].Request? then ToolNames(log[n].tools) else {});
    forall x
      ensures x in now <==> Advertised(log, n + 1, x)
    {
      AdvertisedGrows(log, n, x);
    }
  }

  lemma TrackSame(w: Wording, log: seq<Entry>, n: nat)
    requires n < |log| && !log[n].History?
    ensures TrackAfter(w, log, n + 1) == TrackAfter(w, log, n)
  {
  }

  /** A record after the result, before the start, or not allowed inside makes the log ill formed. */
  lemma Misplaced(log: seq<Entry>, receipt: Receipt, n: nat)
    requires n < |log|
    requires
      || (0 < n && log[n - 1].Outcome?)
      || (n == 0 && !(log[0].Start? && Admissible(log[0], receipt)))
      || (0 < n && !Inner(log[n]) && !(log[n].Outcome? && Usable(log[n])))
    ensures !WellFormed(log, receipt)
  {
  }

  /** The start record. */
  lemma StartScanned(w: Wording, log: seq<Entry>, receipt: Receipt, s: Scan)
    requires 0 < |log| && log[0].Start? && Admissible(log[0], receipt) && Scanned(w, log, receipt, 0, s)
    ensures var e := log[0];
            var view := s.view.(taskPrompt := e.prompt.text, guidance := e.guidance, revision := e.revision);
            Scanned(w, log, receipt, 1, s.(view := view, started := true))
  {
    AdvertisedNext(log, 0, s.advertised);
    assert s.advertised + {} == s.advertised;
    TrackSame(w, log, 0);
  }

  lemma RequestScanned(w: Wording, log: seq<Entry>, receipt: Receipt, n: nat, s: Scan)
    requires 0 < n < |log| && log[n].Request? && !s.finished && Scanned(w, log, receipt, n, s)
    ensures Scanned(w, log, receipt, n + 1, s.(advertised := s.advertised + ToolNames(log[n].tools)))
  {
    AdvertisedNext(log, n, s.advertised);
    TrackSame(w, log, n);
  }

  lemma HistoryScanned(w: Wording, log: seq<Entry>, receipt: Receipt, n: nat, s: Scan, t: Track)
    requires 0 < n < |log| && log[n].History? && Inner(log[n]) && !s.finished && Scanned(w, log, receipt, n, s)
    requires t == TrackAfter(w, log, n + 1) && Bounded(t)
    ensures Scanned(w, log, receipt, n + 1, s.(track := t))
  {
    AdvertisedNext(log, n, s.advertised);
    assert s.advertised + {} == s.advertised;
  }

  lemma OutcomeScanned(w: Wording, log: seq<Entry>, receipt: Receipt, n: nat, s: Scan)
    requires 0 < n < |log| && log[n].Outcome? && Usable(log[n]) && !s.finished && Scanned(w, log, receipt, n, s)
    ensures var e := log[n];
            var view := s.view.(reason := e.reason, tokensIn := e.tokensIn, tokensOut := e.tokensOut);
            Scanned(w, log, receipt, n + 1, s.(view := view, finished := true))
  {
    AdvertisedNext(log, n, s.advertised);
    assert s.advertised + {} == s.advertised;
    TrackSame(w, log, n);
  }

  /** One record. */
  method ReadEntry(w: Wording, log: seq<Entry>, receipt: Receipt, n: nat, s: Scan) returns (ok: bool, t: Scan)
    requires n < |log| && Scanned(w, log, receipt, n, s)
    ensures if ok then Scanned(w, log, receipt, n + 1, t) else !WellFormed(log, receipt)
  {
    var e := log[n];
    t := s;
    if s.finished || (!s.started && !e.Start?) {
      Misplaced(log, receipt, n);
      return false, t;
    }
    match e {
      case Start(_, _, _, _, _, _, _) =>
        if s.started || !Admissible(e, receipt) {
          Misplaced(log, receipt, n);
          return false, t;
        }
        StartScanned(w, log, receipt, s);
        var view := s.view.(taskPrompt := e.prompt.text, guidance := e.guidance, revision := e.revision);
        t := s.(view := view, started := true);
      case Request(tools) =>
        RequestScanned(w, log, receipt, n, s);
        t := s.(advertised := s.advertised + ToolNames(tools));
      case History(_) =>
        var track;
        ok, track := ReadHistory(w, log, n, s.advertised, s.track);
        if !ok {
          if !Inner(e) { Misplaced(log, receipt, n); }
          return;
        }
        HistoryScanned(w, log, receipt, n, s, track);
        t := s.(track := track);
      case Outcome(_, _, _, _) =>
        if !Usable(e) {
          Misplaced(log, receipt, n);
          return false, t;
        }
        OutcomeScanned(w, log, receipt, n, s);
        var view := s.view.(reason := e.reason, tokensIn := e.tokensIn, tokensOut := e.tokensOut);
        t := s.(view := view, finished := true);
      case _ =>
        Misplaced(log, receipt, n);
        return false, t;
    }
    ok := true;
  }

  /** Before the first record. */
  function FirstScan(receipt: Receipt): Scan {
    Scan(View(receipt.sha256, "", "", "", [], "", 0, 0), false, false, {}, Track({}, []))
  }

  lemma NothingScanned(w: Wording, log: seq<Entry>, receipt: Receipt)
    ensures Scanned(w, log, receipt, 0, FirstScan(receipt))
  {
  }

  /** A log read to its end is well formed exactly when its result was reached, and then the view is its projection. */
  lemma AllScanned(w: Wording, log: seq<Entry>, receipt: Receipt, s: Scan)
    requires Scanned(w, log, receipt, |log|, s) && w == WordingOf(receipt.sha256)
    ensures s.started && s.finished <==> WellFormed(log, receipt)
    ensures WellFormed(log, receipt) ==> Projects(log, receipt, s.view.(observations := s.track.obs))
  {
    TracksAfter(w, log, |log|);
  }

  /** How the loop over the log ended: at its end, at a cancelled context, or at a record it refuses. */
  datatype Reading = Finished(scan: Scan) | Stopped(at: nat) | Refused

  method ReadLog(w: Wording, log: seq<Entry>, receipt: Receipt, cancelled: nat -> bool) returns (r: Reading)
    ensures r.Finished? ==> Scanned(w, log, receipt, |log|, r.scan) && forall i: nat | i < |log| :: !cancelled(i)
    ensures r.Stopped? ==> r.at < |log| && cancelled(r.at)
    ensures r.Refused? ==> !WellFormed(log, receipt)
  {
    var s := FirstScan(receipt);
    NothingScanned(w, log, receipt);
    var n := 0;
    while n < |log|
      invariant 0 <= n <= |log|
      invariant Scanned(w, log, receipt, n, s)
      invariant forall i: nat | i < n :: !cancelled(i)
    {
      if cancelled(n) { return Stopped(n); }
      var ok, t := ReadEntry(w, log, receipt, n, s);
      if !ok { return Refused; }
      s, n := t, n + 1;
    }
    return Finished(s);
  }

  /** The whole log. It is accepted exactly when it is well formed and the context outlived the reading, and what is
  passed on is its projection. */
  method ProjectEvidence(log: seq<Entry>, receipt: Receipt, cancelled: nat -> bool) returns (r: Option<View>)
    ensures r.Some? <==> WellFormed(log, receipt) && forall i: nat | i <= |log| :: !cancelled(i)
    ensures r.Some? ==> Projects(log, receipt, r.value)
  {
    var reading := ReadLog(WordingOf(receipt.sha256), log, receipt, cancelled);
    if !reading.Finished? { return None; }
    var s := reading.scan;
    AllScanned(WordingOf(receipt.sha256), log, receipt, s);
    if cancelled(|log|) || !s.started || !s.finished { return None; }
    r := Some(s.view.(observations := s.track.obs));
  }
}
