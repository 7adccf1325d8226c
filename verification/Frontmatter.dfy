/** Markdown front matter: how a file is split, and the skill file whose layout the split must undo. */
module Frontmatter {
  import opened Base
  import opened Slugs

  const OPENER := "---\n"
  const OPENER_CR := "---\r\n"
  const CLOSER := "\n---\n"
  const CLOSER_CR := "\n---\r\n"
  const LAST_LINE := "\n---"

  datatype Parts = Parts(front: string, body: string)

  predicate Absent(s: string, part: string, upto: nat) {
    forall k: nat | k < upto :: !OccursAt(s, part, k)
  }

  /** The first place `part` occurs at or after `from`, if any. */
  function IndexFrom(s: string, part: string, from: nat): (r: Option<nat>)
    requires from <= |s| + 1 && Absent(s, part, from)
    ensures r.Some? ==> OccursAt(s, part, r.value) && Absent(s, part, r.value)
    ensures r.None? ==> Absent(s, part, |s| + 1)
    decreases |s| + 1 - from
  {
    if from == |s| + 1 then None
    else if OccursAt(s, part, from) then Some(from)
    else IndexFrom(s, part, from + 1)
  }

  function Index(s: string, part: string): (r: Option<nat>)
    ensures r.Some? ==> OccursAt(s, part, r.value) && Absent(s, part, r.value)
    ensures r.None? ==> Absent(s, part, |s| + 1)
  {
    IndexFrom(s, part, 0)
  }

  function TrimPrefix(s: string, prefix: string): string {
    if HasPrefix(s, prefix) then s[|prefix|..] else s
  }

  /** What follows the opening delimiter. Both spellings are trimmed, one after the other. */
  function AfterOpener(s: string): string {
    TrimPrefix(TrimPrefix(s, OPENER), OPENER_CR)
  }

  /** The body behind a closing delimiter. Again both spellings are trimmed. */
  function AfterCloser(s: string): string {
    TrimPrefix(TrimPrefix(TrimPrefix(s, "\n"), OPENER), OPENER_CR)
  }

  function SplitRest(rest: string): Option<Parts> {
    var at := Index(rest, CLOSER);
    if at.Some? then Some(Parts(rest[..at.value], AfterCloser(rest[at.value..])))
    else
      var cr := Index(rest, CLOSER_CR);
      if cr.Some? then Some(Parts(rest[..cr.value], AfterCloser(rest[cr.value..])))
      else if |rest| >= 4 && rest[|rest| - 4..] == LAST_LINE then Some(Parts(rest[..|rest| - 4], ""))
      else None
  }

  function Split(s: string): Option<Parts> {
    if !HasPrefix(s, OPENER) && !HasPrefix(s, OPENER_CR) then None else SplitRest(AfterOpener(s))
  }

  // ---------------------------------------------------------------- splitting undoes writing

  function Write(front: string, body: string): string {
    OPENER + (front + CLOSER + body)
  }

  /** What a front block must not look like: an opening delimiter with a carriage return, or something with a delimiter
  line of its own. */
  predicate PlainFront(front: string) {
    !HasPrefix(front + "\n", OPENER_CR) && Absent(front + LAST_LINE, CLOSER, |front|)
  }

  predicate PlainBody(body: string) {
    !HasPrefix(body, OPENER_CR)
  }

  lemma Opened(front: string, body: string)
    ensures HasPrefix(Write(front, body), OPENER)
    ensures AfterOpener(Write(front, body)) == TrimPrefix(front + CLOSER + body, OPENER_CR)
  {
    var rest := front + CLOSER + body;
    assert (OPENER + rest)[..4] == OPENER && (OPENER + rest)[4..] == rest;
  }

  /** Whether the second trim bites depends on the front block and the line break behind it only. */
  lemma SecondTrim(front: string, body: string)
    ensures HasPrefix(front + CLOSER + body, OPENER_CR) <==> HasPrefix(front + "\n", OPENER_CR)
  {
    var rest, line := front + CLOSER + body, front + "\n";
    assert line == rest[..|line|];
    assert rest[|front|] == '\n';
    assert HasPrefix(rest, OPENER_CR) && |front| < 5 ==> rest[|front|] == OPENER_CR[|front|];
  }

  lemma CloserThere(front: string, body: string)
    ensures OccursAt(front + CLOSER + body, CLOSER, |front|)
  {
    var rest := front + CLOSER + body;
    assert rest[|front|..|front| + 5] == CLOSER;
  }

  /** An earlier closing delimiter would lie in the front block and the closing line. */
  lemma EarlierCloser(front: string, body: string, k: nat)
    requires k < |front|
    ensures OccursAt(front + CLOSER + body, CLOSER, k) <==> OccursAt(front + LAST_LINE, CLOSER, k)
  {
    var rest, line := front + CLOSER + body, front + LAST_LINE;
    assert line == rest[..|line|];
    assert k + 5 <= |line| ==> line[k..k + 5] == rest[k..k + 5];
  }

  lemma FirstCloser(front: string, body: string)
    ensures var at := Index(front + CLOSER + body, CLOSER);
            && at.Some? && at.value <= |front|
            && (at.value == |front| <==> Absent(front + LAST_LINE, CLOSER, |front|))
  {
    CloserThere(front, body);
    var at := Index(front + CLOSER + body, CLOSER);
    forall k: nat | k < |front|
      ensures OccursAt(front + CLOSER + body, CLOSER, k) <==> OccursAt(front + LAST_LINE, CLOSER, k)
    {
      EarlierCloser(front, body, k);
    }
  }

  lemma BodyBack(body: string)
    ensures AfterCloser(CLOSER + body) == TrimPrefix(body, OPENER_CR)
  {
    var s := CLOSER + body;
    assert s[..1] == "\n" && s[1..] == OPENER + body;
    assert (OPENER + body)[..4] == OPENER && (OPENER + body)[4..] == body;
  }

  /** When the second trim bites, the front block does not come back. */
  lemma BittenFront(front: string, body: string)
    requires HasPrefix(front + "\n", OPENER_CR)
    ensures var p := SplitRest((front + CLOSER + body)[5..]);
            p.None? || p.value.front != front
  {
    if |front| >= 5 {
      BittenLong(front, body);
    } else {
      BittenShort(front, body);
    }
  }

  lemma BittenLong(front: string, body: string)
    requires |front| >= 5
    ensures var p := SplitRest((front + CLOSER + body)[5..]);
            p.Some? && |p.value.front| < |front|
  {
    assert (front + CLOSER + body)[5..] == front[5..] + CLOSER + body;
    FirstCloser(front[5..], body);
  }

  lemma BittenShort(front: string, body: string)
    requires |front| < 5 && HasPrefix(front + "\n", OPENER_CR)
    ensures var p := SplitRest((front + CLOSER + body)[5..]);
            p.None? || p.value.front != front
  {
    assert |front| == 4 && front[3] == (front + "\n")[3] == '\r';
    var rest := (front + CLOSER + body)[5..];
    assert rest[3] == (front + CLOSER + body)[8] == CLOSER[4] == '\n';
    FrontIsPrefix(rest);
  }

  lemma FrontIsPrefix(rest: string)
    ensures var p := SplitRest(rest);
            p.None? || p.value.front <= rest
  {
  }

  /** Writing then splitting gives the parts back exactly when neither looks like a delimiter where it must not. */
  lemma SplitUndoesWrite(front: string, body: string)
    ensures Split(Write(front, body)) == Some(Parts(front, body)) <==> PlainFront(front) && PlainBody(body)
  {
    var rest := front + CLOSER + body;
    Opened(front, body);
    SecondTrim(front, body);
    if HasPrefix(front + "\n", OPENER_CR) {
      BittenFront(front, body);
    } else {
      FirstCloser(front, body);
      assert rest[..|front|] == front && rest[|front|..] == CLOSER + body;
      BodyBack(body);
    }
  }

  /** A body, or a front block, that starts like a delimiter with a carriage return is lost. */
  lemma LookalikesAreLost()
    ensures Split(Write("name: x", "---\r\ntext")) != Some(Parts("name: x", "---\r\ntext"))
    ensures Split(Write("---\r\nname: x", "text")) != Some(Parts("---\r\nname: x", "text"))
  {
    SplitUndoesWrite("name: x", "---\r\ntext");
    assert "---\r\ntext"[..5] == OPENER_CR;
    SplitUndoesWrite("---\r\nname: x", "text");
    assert ("---\r\nname: x" + "\n")[..5] == OPENER_CR;
  }

  // ---------------------------------------------------------------- skill files

  const MAX_NAME := 64
  const MAX_DESCRIPTION := 1024

  /** Quoting puts a text on one line. */
  predicate OneLine(s: string) {
    '\n' !in s
  }

  function SkillFront(slug: string, quoted: string): string {
    "name: " + slug + "\ndescription: " + quoted
  }

  function SkillText(slug: string, quoted: string, instructions: string): string {
    Write(SkillFront(slug, quoted), "\n" + instructions + "\n")
  }

  /** The file written for an accepted skill, if it is accepted. */
  method CreateSkill(
    name: string, description: string, instructions: string, lower: char -> char, quote: string -> string)
    returns (text: Option<string>)
    ensures text.Some? <==> && Slugified(name, lower) == name && 0 < ByteLength(name) <= MAX_NAME
                            && 0 < ByteLength(TrimSpace(description)) <= MAX_DESCRIPTION
                            && TrimSpace(instructions) != ""
    ensures text.Some? ==> text.value == SkillText(name, quote(TrimSpace(description)), TrimSpace(instructions))
  {
    var slug := Slugify(name, lower);
    if slug == "" || slug != name || ByteLength(slug) > MAX_NAME { return None; }
    var trimmed := TrimSpace(description);
    if trimmed == "" || ByteLength(trimmed) > MAX_DESCRIPTION { return None; }
    var guide := TrimSpace(instructions);
    if guide == "" { return None; }
    var layout := "---\nname: " + slug + "\ndescription: " + quote(trimmed) + "\n---\n\n" + guide + "\n";
    SkillLayout(slug, quote(trimmed), guide);
    text := Some(layout);
  }

  /** The file's layout is its front block and its instructions between delimiters. */
  lemma SkillLayout(slug: string, quoted: string, guide: string)
    ensures "---\nname: " + slug + "\ndescription: " + quoted + "\n---\n\n" + guide + "\n"
         == SkillText(slug, quoted, guide)
  {
    assert "---\nname: " == OPENER + "name: ";
    assert "\n---\n\n" == CLOSER + "\n";
    var front := SkillFront(slug, quoted);
    assert "---\nname: " + slug + "\ndescription: " + quoted == OPENER + front;
    assert OPENER + front + "\n---\n\n" + guide + "\n" == OPENER + (front + CLOSER + ("\n" + guide + "\n"));
  }

  /** The front block's only line break is followed by the description, so it hides no delimiter line. */
  lemma SkillFrontPlain(slug: string, quoted: string)
    requires OneLine(slug) && OneLine(quoted)
    ensures PlainFront(SkillFront(slug, quoted))
  {
    var front := SkillFront(slug, quoted);
    assert (front + "\n")[0] == 'n' && OPENER_CR[0] == '-';
    forall k: nat | k < |front|
      ensures !OccursAt(front + LAST_LINE, CLOSER, k)
    {
      SkillBreak(slug, quoted, k);
    }
  }

  lemma CloserStarts(s: string, k: nat)
    ensures OccursAt(s, CLOSER, k) ==> s[k] == '\n' && s[k + 1] == '-'
  {
    if OccursAt(s, CLOSER, k) {
      assert s[k..k + 5][0] == CLOSER[0] && s[k..k + 5][1] == CLOSER[1];
    }
  }

  lemma SkillBreak(slug: string, quoted: string, k: nat)
    requires OneLine(slug) && OneLine(quoted) && k < |SkillFront(slug, quoted)|
    ensures !OccursAt(SkillFront(slug, quoted) + LAST_LINE, CLOSER, k)
  {
    var front := SkillFront(slug, quoted);
    var line := front + LAST_LINE;
    var head, tag := "name: " + slug, "\ndescription: ";
    assert front == head + tag + quoted;
    CloserStarts(line, k);
    if k == |head| {
      assert line[k + 1] == tag[1] == 'd';
    } else {
      assert line[k] != '\n' by {
        if k < 6 {
          assert line[k] == "name: "[k];
        } else if k < |head| {
          assert line[k] == slug[k - 6];
        } else if k < |head| + 14 {
          assert line[k] == tag[k - |head|];
        } else {
          assert line[k] == quoted[k - |head| - 14];
        }
      }
    }
  }

  /** Every accepted skill file splits into exactly the front block and the instructions that went in, whatever
  delimiter lines the instructions contain. */
  lemma SkillRoundTrip(name: string, quoted: string, guide: string, lower: char -> char)
    requires Lowers(lower) && Slugified(name, lower) == name && OneLine(quoted)
    ensures Split(SkillText(name, quoted, guide)) == Some(Parts(SkillFront(name, quoted), "\n" + guide + "\n"))
  {
    FixedPoints(name, lower);
    SkillFrontPlain(name, quoted);
    assert ("\n" + guide + "\n")[0] == '\n';
    SplitUndoesWrite(SkillFront(name, quoted), "\n" + guide + "\n");
  }
}
