/** File-name stems made from display names. */
module Slugs {
  import opened Base

  predicate IsWord(c: char) {
    'a' <= c <= 'z' || '0' <= c <= '9'
  }

  predicate IsSeparator(c: char) {
    c == '-' || c == '_' || c == ' ' || c == '.'
  }

  /** Runs of `[a-z0-9]` with single hyphens between them, or nothing. */
  predicate IsSlug(s: string) {
    && (forall i | 0 <= i < |s| :: IsWord(s[i]) || s[i] == '-')
    && (forall i | 0 < i < |s| :: s[i - 1] == '-' ==> s[i] != '-')
    && (s != "" ==> s[0] != '-' && s[|s| - 1] != '-')
  }

  /** A slug that may still end in a hyphen. */
  predicate Building(s: string) {
    && (forall i | 0 <= i < |s| :: IsWord(s[i]) || s[i] == '-')
    && (forall i | 0 < i < |s| :: s[i - 1] == '-' ==> s[i] != '-')
    && (s != "" ==> s[0] != '-')
  }

  // ---------------------------------------------------------------- what a slug is

  /** The runs of word characters between separators: those that ended, and the one at the end, which may be empty. */
  datatype Runs = Runs(ended: seq<string>, last: string)

  /** Characters that are neither word characters nor separators are left out. */
  function RunsOf(s: string): Runs {
    if s == "" then Runs([], "")
    else
      var r, c := RunsOf(s[..|s| - 1]), s[|s| - 1];
      if IsWord(c) then Runs(r.ended, r.last + [c])
      else if IsSeparator(c) then Runs(r.ended + [r.last], "")
      else r
  }

  /** Two pieces with a hyphen between them, unless one is empty. */
  function Glue(a: string, b: string): string {
    if b == "" then a else if a == "" then b else a + "-" + b
  }

  /** The runs that are not empty, with a hyphen between any two. */
  function Hyphenated(rs: seq<string>): string {
    if rs == [] then "" else Glue(Hyphenated(rs[..|rs| - 1]), rs[|rs| - 1])
  }

  /** The slug of a text: its runs, hyphenated. */
  function SlugOf(s: string): string {
    Glue(Hyphenated(RunsOf(s).ended), RunsOf(s).last)
  }

  lemma RunsNext(s: string, c: char)
    ensures var r := RunsOf(s);
            RunsOf(s + [c])
            == if IsWord(c) then Runs(r.ended, r.last + [c])
               else if IsSeparator(c) then Runs(r.ended + [r.last], "")
               else r
  {
    assert (s + [c])[..|s|] == s;
  }

  lemma HyphenatedNext(rs: seq<string>, w: string)
    ensures Hyphenated(rs + [w]) == Glue(Hyphenated(rs), w)
  {
    assert (rs + [w])[..|rs|] == rs;
  }

  // ---------------------------------------------------------------- the builder

  /** The builder after some characters: the slug so far, and a hyphen when a new run is about to start. */
  predicate BuiltFrom(head: string, last: string, b: string, hyphen: bool) {
    && (hyphen ==> last == "" && head != "")
    && (!hyphen ==> last != "" || head == "")
    && b == Glue(head, last) + (if hyphen then "-" else "")
  }

  /** The slug of the runs that ended. */
  function Head(s: string): string {
    Hyphenated(RunsOf(s).ended)
  }

  /** The run a text ends with. */
  function LastRun(s: string): string {
    RunsOf(s).last
  }

  predicate Built(s: string, b: string, hyphen: bool) {
    BuiltFrom(Head(s), LastRun(s), b, hyphen)
  }

  /** What one more character makes of head and last run, and of the builder. */
  function NextHead(head: string, last: string, c: char): string {
    if IsSeparator(c) then Glue(head, last) else head
  }

  function NextLast(last: string, c: char): string {
    if IsWord(c) then last + [c] else if IsSeparator(c) then "" else last
  }

  predicate Parts(b: string, hyphen: bool, c: char) {
    IsSeparator(c) && !hyphen && |b| > 0
  }

  function NextBuilder(b: string, hyphen: bool, c: char): string {
    if IsWord(c) then b + [c] else if Parts(b, hyphen, c) then b + "-" else b
  }

  predicate NextHyphen(b: string, hyphen: bool, c: char) {
    !IsWord(c) && (hyphen || Parts(b, hyphen, c))
  }

  lemma BuiltNext(head: string, last: string, c: char, b: string, hyphen: bool)
    requires BuiltFrom(head, last, b, hyphen)
    ensures BuiltFrom(NextHead(head, last, c), NextLast(last, c), NextBuilder(b, hyphen, c), NextHyphen(b, hyphen, c))
  {
    if IsWord(c) {
      if last == "" {
        assert last + [c] == [c];
      } else if head != "" {
        assert head + "-" + (last + [c]) == head + "-" + last + [c];
      }
    }
  }

  /** Head and last run move as the builder supposes. */
  lemma ShapeNext(s: string, c: char, more: string)
    requires more == s + [c]
    ensures Head(more) == NextHead(Head(s), LastRun(s), c) && LastRun(more) == NextLast(LastRun(s), c)
  {
    RunsNext(s, c);
    HyphenatedNext(RunsOf(s).ended, RunsOf(s).last);
  }

  /** Strips hyphens off both ends. */
  function TrimHyphens(s: string): string {
    if s == "" then s
    else if s[0] == '-' then TrimHyphens(s[1..])
    else if s[|s| - 1] == '-' then TrimHyphens(s[..|s| - 1])
    else s
  }

  /** The builder loop over an already lowered and trimmed name. */
  method BuildSlug(s: string) returns (r: string)
    ensures r == SlugOf(s)
  {
    var b, hyphen := "", false;
    ghost var head, last := "", "";
    var i := 0;
    while i < |s|
      invariant 0 <= i <= |s|
      invariant head == Head(s[..i]) && last == LastRun(s[..i])
      invariant BuiltFrom(head, last, b, hyphen)
    {
      ShapeNext(s[..i], s[i], s[..i + 1]);
      BuiltNext(head, last, s[i], b, hyphen);
      head, last := NextHead(head, last, s[i]), NextLast(last, s[i]);
      if IsWord(s[i]) {
        b := b + [s[i]];
        hyphen := false;
      } else if IsSeparator(s[i]) && !hyphen && |b| > 0 {
        b := b + "-";
        hyphen := true;
      }
      i := i + 1;
    }
    assert s[..i] == s;
    BuiltTrims(s, b, hyphen);
    r := TrimHyphens(b);
  }

  lemma BuiltTrims(s: string, b: string, hyphen: bool)
    requires Built(s, b, hyphen)
    ensures TrimHyphens(b) == SlugOf(s)
  {
    SlugOfIsSlug(s);
    TrimOne(SlugOf(s), hyphen);
  }

  lemma TrimOne(s: string, hyphen: bool)
    requires IsSlug(s) && (hyphen ==> s != "")
    ensures TrimHyphens(s + (if hyphen then "-" else "")) == s
  {
    assert s + "" == s;
    assert (s + "-")[..|s|] == s;
  }

  // ---------------------------------------------------------------- slugs are exactly the fixed points

  predicate WordRun(w: string) {
    forall i | 0 <= i < |w| :: IsWord(w[i])
  }

  predicate WordRuns(rs: seq<string>) {
    forall k | 0 <= k < |rs| :: WordRun(rs[k])
  }

  lemma {:induction false} RunsAreWords(s: string)
    ensures WordRuns(RunsOf(s).ended) && WordRun(RunsOf(s).last)
  {
    if s != "" {
      RunsAreWords(s[..|s| - 1]);
    }
  }

  lemma GlueIsSlug(a: string, w: string)
    requires IsSlug(a) && WordRun(w)
    ensures IsSlug(Glue(a, w))
  {
    if a != "" && w != "" {
      JoinIsSlug(a, w);
    }
  }

  lemma {:induction false} HyphenatedIsSlug(rs: seq<string>)
    requires WordRuns(rs)
    ensures IsSlug(Hyphenated(rs))
  {
    if rs != [] {
      HyphenatedIsSlug(rs[..|rs| - 1]);
      GlueIsSlug(Hyphenated(rs[..|rs| - 1]), rs[|rs| - 1]);
    }
  }

  lemma JoinIsSlug(a: string, w: string)
    requires IsSlug(a) && a != "" && w != "" && WordRun(w)
    ensures IsSlug(a + "-" + w)
  {
    var s := a + "-" + w;
    forall i | 0 <= i < |s|
      ensures IsWord(s[i]) || s[i] == '-'
    {
      assert i > |a| ==> s[i] == w[i - |a| - 1];
    }
    forall i | 0 < i < |s|
      ensures s[i - 1] == '-' ==> s[i] != '-'
    {
      assert i > |a| ==> s[i] == w[i - |a| - 1];
      assert i == |a| ==> s[i - 1] == a[|a| - 1];
    }
    assert s[|s| - 1] == w[|w| - 1];
  }

  lemma SlugOfIsSlug(s: string)
    ensures IsSlug(SlugOf(s))
  {
    RunsAreWords(s);
    HyphenatedIsSlug(RunsOf(s).ended);
    GlueIsSlug(Hyphenated(RunsOf(s).ended), RunsOf(s).last);
  }

  /** On text that could be a slug in the making, the builder changes nothing. */
  lemma {:induction false} BuildingStays(s: string)
    requires Building(s)
    ensures Built(s, s, s != "" && s[|s| - 1] == '-')
  {
    if s != "" {
      var init, c := s[..|s| - 1], s[|s| - 1];
      var hyphen := init != "" && init[|init| - 1] == '-';
      BuildingStays(init);
      ShapeNext(init, c, s);
      BuiltNext(Head(init), LastRun(init), c, init, hyphen);
      assert s == NextBuilder(init, hyphen, c);
    }
  }

  lemma SlugStays(s: string)
    requires IsSlug(s)
    ensures SlugOf(s) == s
  {
    BuildingStays(s);
    assert SlugOf(s) + "" == SlugOf(s);
  }

  // ---------------------------------------------------------------- unsupported characters

  lemma GlueAssociates(a: string, b: string, c: string)
    ensures Glue(Glue(a, b), c) == Glue(a, Glue(b, c))
  {
    if a != "" && b != "" && c != "" {
      assert a + "-" + b + "-" + c == a + "-" + (b + "-" + c);
    }
  }

  lemma {:induction false} HyphenatedConcat(x: seq<string>, y: seq<string>)
    ensures Hyphenated(x + y) == Glue(Hyphenated(x), Hyphenated(y))
  {
    if y == [] {
      assert x + y == x;
    } else {
      var n := |y| - 1;
      HyphenatedConcat(x, y[..n]);
      assert x + y == x + y[..n] + [y[n]];
      HyphenatedNext(x + y[..n], y[n]);
      GlueAssociates(Hyphenated(x), Hyphenated(y[..n]), y[n]);
    }
  }

  /** The run a text starts with, and the slug of the runs behind it. */
  function FirstRun(s: string): string {
    var r := RunsOf(s);
    if r.ended == [] then r.last else r.ended[0]
  }

  function RestOf(r: Runs): string {
    if r.ended == [] then "" else Glue(Hyphenated(r.ended[1..]), r.last)
  }

  /** The runs of two texts one after the other: the last of the first joins the first of the second. */
  function Joined(a: Runs, b: Runs): Runs {
    if b.ended == [] then Runs(a.ended, a.last + b.last)
    else Runs(a.ended + [a.last + b.ended[0]] + b.ended[1..], b.last)
  }

  lemma JoinedWord(a: Runs, b: Runs, c: char)
    ensures var j := Joined(a, b);
            Joined(a, Runs(b.ended, b.last + [c])) == Runs(j.ended, j.last + [c])
  {
    assert a.last + (b.last + [c]) == a.last + b.last + [c];
  }

  lemma JoinedSeparator(a: Runs, b: Runs)
    ensures var j := Joined(a, b);
            Joined(a, Runs(b.ended + [b.last], "")) == Runs(j.ended + [j.last], "")
  {
    var more := b.ended + [b.last];
    if b.ended == [] {
      assert more[1..] == [];
    } else {
      assert more[1..] == b.ended[1..] + [b.last];
    }
  }

  lemma {:induction false} RunsConcat(a: string, b: string)
    ensures RunsOf(a + b) == Joined(RunsOf(a), RunsOf(b))
  {
    if b == "" {
      assert a + b == a;
    } else {
      var n := |b| - 1;
      RunsConcat(a, b[..n]);
      assert a + b == a + b[..n] + [b[n]] && b == b[..n] + [b[n]];
      RunsNext(a + b[..n], b[n]);
      RunsNext(b[..n], b[n]);
      JoinedWord(RunsOf(a), RunsOf(b[..n]), b[n]);
      JoinedSeparator(RunsOf(a), RunsOf(b[..n]));
    }
  }

  /** The slug of two texts one after the other. */
  lemma SlugConcat(a: string, b: string)
    ensures SlugOf(a + b)
         == Glue(Glue(Hyphenated(RunsOf(a).ended), LastRun(a) + FirstRun(b)), RestOf(RunsOf(b)))
  {
    RunsConcat(a, b);
    JoinedSlug(RunsOf(a), RunsOf(b));
  }

  lemma JoinedSlug(a: Runs, b: Runs)
    ensures var j := Joined(a, b);
            var first := if b.ended == [] then b.last else b.ended[0];
            Glue(Hyphenated(j.ended), j.last) == Glue(Glue(Hyphenated(a.ended), a.last + first), RestOf(b))
  {
    if b.ended != [] {
      var middle, tail := a.last + b.ended[0], b.ended[1..];
      HyphenatedConcat(a.ended + [middle], tail);
      HyphenatedNext(a.ended, middle);
      GlueAssociates(Glue(Hyphenated(a.ended), middle), Hyphenated(tail), b.last);
    }
  }

  /** An unsupported character leaves no trace, wherever it stands. */
  lemma UnsupportedIsDropped(a: string, c: char, b: string)
    requires !IsWord(c) && !IsSeparator(c)
    ensures SlugOf(a + [c] + b) == SlugOf(a + b)
  {
    RunsNext(a, c);
    RunsConcat(a + [c], b);
    RunsConcat(a, b);
  }

  /** A hyphen between two runs shows exactly when neither is empty. */
  lemma GluesApart(head: string, l: string, f: string, rest: string)
    ensures Glue(Glue(head, l + f), rest) == Glue(Glue(Glue(head, l), f), rest) <==> l == "" || f == ""
  {
    if l == "" {
      assert l + f == f;
    } else if f == "" {
      assert l + f == l;
    }
  }

  /** The comment on the code says that an unsupported character becomes a hyphen. It reads so exactly when there is no
  run on one side of it that the hyphen would part from a run on the other. */
  lemma CollapsesAsDocumented(a: string, c: char, b: string)
    requires !IsWord(c) && !IsSeparator(c)
    ensures SlugOf(a + [c] + b) == SlugOf(a + ['-'] + b) <==> LastRun(a) == "" || FirstRun(b) == ""
  {
    var r := RunsOf(a);
    UnsupportedIsDropped(a, c, b);
    SlugConcat(a, b);
    RunsNext(a, '-');
    SlugConcat(a + ['-'], b);
    HyphenatedNext(r.ended, r.last);
    assert "" + FirstRun(b) == FirstRun(b);
    GluesApart(Hyphenated(r.ended), r.last, FirstRun(b), RestOf(RunsOf(b)));
  }

  /** In particular it does not become a hyphen between two letters. */
  lemma NotHyphenated()
    ensures SlugOf(['a'] + ['!'] + ['b']) == "ab"
  {
    UnsupportedIsDropped(['a'], '!', ['b']);
    var s := ['a'] + ['b'];
    assert s == "ab";
    SlugStays(s);
  }

  // ---------------------------------------------------------------- from display names

  function MapChars(s: string, f: char -> char): (r: string)
    ensures |r| == |s| && forall i | 0 <= i < |s| :: r[i] == f(s[i])
  {
    seq(|s|, i requires 0 <= i < |s| => f(s[i]))
  }

  /** Lowering leaves the characters of a slug alone. */
  ghost predicate Lowers(lower: char -> char) {
    forall c: char :: IsWord(c) || c == '-' ==> lower(c) == c
  }

  function Slugified(name: string, lower: char -> char): string {
    SlugOf(MapChars(TrimSpace(name), lower))
  }

  method Slugify(name: string, lower: char -> char) returns (r: string)
    ensures r == Slugified(name, lower)
  {
    r := BuildSlug(MapChars(TrimSpace(name), lower));
  }

  /** The fixed points of `Slugify` are exactly the slugs. */
  lemma FixedPoints(name: string, lower: char -> char)
    requires Lowers(lower)
    ensures Slugified(name, lower) == name <==> IsSlug(name)
  {
    if IsSlug(name) {
      assert name != "" ==> !IsSpace(name[0]) && !IsSpace(name[|name| - 1]);
      assert TrimSpace(name) == name;
      assert MapChars(name, lower) == name;
      SlugStays(name);
    }
    SlugOfIsSlug(MapChars(TrimSpace(name), lower));
  }

  lemma Idempotent(name: string, lower: char -> char)
    requires Lowers(lower)
    ensures Slugified(Slugified(name, lower), lower) == Slugified(name, lower)
  {
    SlugOfIsSlug(MapChars(TrimSpace(name), lower));
    FixedPoints(Slugified(name, lower), lower);
  }
}
