/** The catalogue of definitions: merging what the directories hold, and the snapshot readers look names up in. */
module Catalogue {
  import opened Base
  import opened FirstSeen

  /** A parsed definition file. */
  datatype Def = Def(name: string, content: string)

  /** What a discovered file turned out to be. */
  datatype File = Good(def: Def) | Bad(error: string)

  // ---------------------------------------------------------------- the merge

  function NamesOf(ds: seq<Def>): (r: seq<string>)
    ensures |r| == |ds| && forall i | 0 <= i < |r| :: r[i] == ds[i].name
  {
    seq(|ds|, i requires 0 <= i < |ds| => ds[i].name)
  }

  predicate Names(ds: seq<Def>, name: string) {
    name in NamesOf(ds)
  }

  /** Among the first `n`, the definition at `i` is the last of its name. */
  predicate IsLast(ds: seq<Def>, n: nat, i: nat)
    requires i < n <= |ds|
  {
    forall j | i < j < n :: ds[j].name != ds[i].name
  }

  ghost predicate LastFor(ds: seq<Def>, n: nat, d: Def)
    requires n <= |ds|
  {
    exists i: nat :: i < n && ds[i] == d && IsLast(ds, n, i)
  }

  /** Entries for names first seen at the given positions, each being the last definition of its name so far. */
  ghost predicate MergedAt(ds: seq<Def>, n: nat, firsts: seq<nat>, out: seq<Def>)
    requires n <= |ds|
  {
    && |out| == |firsts|
    && forall k | 0 <= k < |out| :: firsts[k] < n && out[k].name == ds[firsts[k]].name && LastFor(ds, n, out[k])
  }

  /** Of the first `n` definitions, one entry for each name, in first-seen order, each being the last of its name. */
  ghost predicate MergedTo(ds: seq<Def>, n: nat, out: seq<Def>)
    requires n <= |ds|
  {
    MergedAt(ds, n, Firsts(NamesOf(ds), n), out)
  }

  ghost predicate Merged(ds: seq<Def>, out: seq<Def>) {
    MergedTo(ds, |ds|, out)
  }

  lemma LastStays(ds: seq<Def>, n: nat, x: Def)
    requires n < |ds| && LastFor(ds, n, x) && x.name != ds[n].name
    ensures LastFor(ds, n + 1, x)
  {
    var i: nat :| i < n && ds[i] == x && IsLast(ds, n, i);
    assert IsLast(ds, n + 1, i);
  }

  lemma NewestIsLast(ds: seq<Def>, n: nat)
    requires n < |ds|
    ensures LastFor(ds, n + 1, ds[n])
  {
    assert IsLast(ds, n + 1, n);
  }

  lemma AppendAt(ds: seq<Def>, n: nat, firsts: seq<nat>, out: seq<Def>)
    requires n < |ds| && MergedAt(ds, n, firsts, out) && forall k | 0 <= k < |out| :: out[k].name != ds[n].name
    ensures MergedAt(ds, n + 1, firsts + [n], out + [ds[n]])
  {
    NewestIsLast(ds, n);
    forall k | 0 <= k < |out|
      ensures LastFor(ds, n + 1, out[k])
    {
      LastStays(ds, n, out[k]);
    }
  }

  lemma ReplaceAt(ds: seq<Def>, n: nat, firsts: seq<nat>, out: seq<Def>, k: nat)
    requires n < |ds| && MergedAt(ds, n, firsts, out) && k < |out| && out[k].name == ds[n].name
    requires forall j | 0 <= j < |out| && j != k :: out[j].name != ds[n].name
    ensures MergedAt(ds, n + 1, firsts, out[k := ds[n]])
  {
    NewestIsLast(ds, n);
    var out' := out[k := ds[n]];
    forall j | 0 <= j < |out'|
      ensures LastFor(ds, n + 1, out'[j])
    {
      if j != k {
        LastStays(ds, n, out[j]);
      }
    }
  }

  /** Everything listed was seen. */
  lemma ListedWasSeen(ds: seq<Def>, n: nat, firsts: seq<nat>, out: seq<Def>, k: nat)
    requires n < |ds| && MergedAt(ds, n, firsts, out) && k < |out| && out[k].name == ds[n].name
    ensures !IsFirst(NamesOf(ds), n)
  {
    assert NamesOf(ds)[firsts[k]] == NamesOf(ds)[n];
  }

  /** A definition whose name is not listed goes to the end. */
  lemma MergeNew(ds: seq<Def>, n: nat, out: seq<Def>)
    requires n < |ds| && MergedTo(ds, n, out) && !Names(out, ds[n].name)
    ensures MergedTo(ds, n + 1, out + [ds[n]])
  {
    var f := Firsts(NamesOf(ds), n);
    forall k | 0 <= k < |out|
      ensures out[k].name != ds[n].name
    {
      assert NamesOf(out)[k] == out[k].name;
    }
    AppendAt(ds, n, f, out);
    UnlistedIsFirst(ds, n, out);
  }

  lemma UnlistedIsFirst(ds: seq<Def>, n: nat, out: seq<Def>)
    requires n < |ds| && MergedTo(ds, n, out) && !Names(out, ds[n].name)
    ensures IsFirst(NamesOf(ds), n)
  {
    var names := NamesOf(ds);
    forall q | 0 <= q < n
      ensures names[q] != names[n]
    {
      ListedWhenSeen(ds, n, out, q);
    }
  }

  /** Everything seen is listed. */
  lemma ListedWhenSeen(ds: seq<Def>, n: nat, out: seq<Def>, q: nat)
    requires q < n <= |ds| && MergedTo(ds, n, out)
    ensures Names(out, ds[q].name)
  {
    var names := NamesOf(ds);
    var f := Firsts(names, n);
    EveryKeyFirst(names, n, q);
    var k :| 0 <= k < |f| && names[f[k]] == names[q];
    assert NamesOf(out)[k] == names[q];
  }

  /** A definition whose name is listed takes its predecessor's place. */
  lemma MergeAgain(ds: seq<Def>, n: nat, out: seq<Def>, k: nat)
    requires n < |ds| && MergedTo(ds, n, out) && k < |out| && out[k].name == ds[n].name
    ensures MergedTo(ds, n + 1, out[k := ds[n]])
  {
    var f := Firsts(NamesOf(ds), n);
    OthersDiffer(ds, n, out, k);
    ReplaceAt(ds, n, f, out, k);
    ListedWasSeen(ds, n, f, out, k);
  }

  lemma OthersDiffer(ds: seq<Def>, n: nat, out: seq<Def>, k: nat)
    requires n <= |ds| && MergedTo(ds, n, out) && k < |out|
    ensures forall j | 0 <= j < |out| && j != k :: out[j].name != out[k].name
  {
    forall j | 0 <= j < |out| && j != k
      ensures out[j].name != out[k].name
    {
      FirstsDiffer(NamesOf(ds), n, j, k);
    }
  }

  /** The merge never lists a name twice. */
  lemma MergedDistinct(ds: seq<Def>, out: seq<Def>, j: nat, k: nat)
    requires Merged(ds, out) && j < |out| && k < |out| && j != k
    ensures out[j].name != out[k].name
  {
    OthersDiffer(ds, |ds|, out, k);
  }

  /** The merge lists exactly the names it was given. */
  lemma MergedNames(ds: seq<Def>, out: seq<Def>, name: string)
    requires Merged(ds, out)
    ensures Names(out, name) <==> Names(ds, name)
  {
    if Names(ds, name) {
      var p :| 0 <= p < |ds| && NamesOf(ds)[p] == name;
      ListedWhenSeen(ds, |ds|, out, p);
    }
    if Names(out, name) {
      var k :| 0 <= k < |out| && NamesOf(out)[k] == name;
      assert NamesOf(ds)[Firsts(NamesOf(ds), |ds|)[k]] == name;
    }
  }

  /** The loader's index: where each listed name stands. */
  ghost predicate Indexes(out: seq<Def>, idx: map<string, nat>) {
    && (forall k | 0 <= k < |out| :: out[k].name in idx && idx[out[k].name] == k)
    && (forall x | x in idx :: idx[x] < |out| && out[idx[x]].name == x)
  }

  lemma IndexedNames(out: seq<Def>, idx: map<string, nat>, name: string)
    requires Indexes(out, idx)
    ensures name in idx <==> Names(out, name)
  {
    if name in idx {
      assert NamesOf(out)[idx[name]] == name;
    }
  }

  /** One definition: it replaces its name's entry, or goes last. */
  method Place(out: seq<Def>, idx: map<string, nat>, d: Def, ghost ds: seq<Def>, ghost n: nat)
    returns (out': seq<Def>, idx': map<string, nat>)
    requires n < |ds| && ds[n] == d && MergedTo(ds, n, out) && Indexes(out, idx)
    ensures MergedTo(ds, n + 1, out') && Indexes(out', idx')
  {
    IndexedNames(out, idx, d.name);
    if d.name in idx {
      MergeAgain(ds, n, out, idx[d.name]);
      IndexReplaced(out, idx, d);
      return out[idx[d.name] := d], idx;
    }
    MergeNew(ds, n, out);
    IndexAppended(out, idx, d);
    return out + [d], idx[d.name := |out|];
  }

  lemma IndexReplaced(out: seq<Def>, idx: map<string, nat>, d: Def)
    requires Indexes(out, idx) && d.name in idx
    ensures Indexes(out[idx[d.name] := d], idx)
  {
  }

  lemma IndexAppended(out: seq<Def>, idx: map<string, nat>, d: Def)
    requires Indexes(out, idx) && d.name !in idx
    ensures Indexes(out + [d], idx[d.name := |out|])
  {
    var out' := out + [d];
    assert forall k | 0 <= k < |out| :: out'[k] == out[k];
  }

  /** The definitions among the first `n` files. */
  function Parsed(files: seq<File>, n: nat): seq<Def>
    requires n <= |files|
  {
    if n == 0 then [] else Parsed(files, n - 1) + (if files[n - 1].Good? then [files[n - 1].def] else [])
  }

  /** The errors of those that did not parse, in order. */
  function Errors(files: seq<File>, n: nat): seq<string>
    requires n <= |files|
  {
    if n == 0 then [] else Errors(files, n - 1) + (if files[n - 1].Bad? then [files[n - 1].error] else [])
  }

  function AllParsed(files: seq<File>): seq<Def> {
    Parsed(files, |files|)
  }

  function AllErrors(files: seq<File>): seq<string> {
    Errors(files, |files|)
  }

  lemma {:induction false} ParsedPrefix(files: seq<File>, m: nat, n: nat)
    requires m <= n <= |files|
    ensures Parsed(files, m) <= Parsed(files, n)
  {
    if m < n {
      ParsedPrefix(files, m, n - 1);
    }
  }

  /** The next good file is the next definition. */
  lemma NextParsed(files: seq<File>, n: nat)
    requires n < |files|
    ensures |Parsed(files, n + 1)| == |Parsed(files, n)| + (if files[n].Good? then 1 else 0) <= |AllParsed(files)|
    ensures files[n].Good? ==> AllParsed(files)[|Parsed(files, n)|] == files[n].def
  {
    ParsedPrefix(files, n + 1, |files|);
    if files[n].Good? {
      assert Parsed(files, n + 1)[|Parsed(files, n)|] == files[n].def;
    }
  }

  /** The definitions of all directories in discovery order: one malformed file hides none of the others. */
  method LoadMerged(files: seq<File>) returns (out: seq<Def>, errs: seq<string>)
    ensures Merged(AllParsed(files), out) && errs == AllErrors(files)
  {
    out, errs := [], [];
    var idx: map<string, nat> := map[];
    ghost var ds := AllParsed(files);
    ghost var k := 0;
    var n := 0;
    while n < |files|
      invariant 0 <= n <= |files| && errs == Errors(files, n)
      invariant k == |Parsed(files, n)| <= |ds|
      invariant MergedTo(ds, k, out) && Indexes(out, idx)
    {
      NextParsed(files, n);
      match files[n] {
        case Good(d) =>
          out, idx := Place(out, idx, d, ds, k);
          k := k + 1;
        case Bad(error) =>
          errs := errs + [error];
      }
      n := n + 1;
    }
  }

  // ---------------------------------------------------------------- the snapshot

  /** Looking a name up in the list. */
  function Find(ds: seq<Def>, name: string): Option<Def> {
    if ds == [] then None else if ds[0].name == name then Some(ds[0]) else Find(ds[1..], name)
  }

  predicate Distinct(ds: seq<Def>) {
    forall i, j | 0 <= i < j < |ds| :: ds[i].name != ds[j].name
  }

  lemma {:induction false} FindIs(ds: seq<Def>, k: nat)
    requires Distinct(ds) && k < |ds|
    ensures Find(ds, ds[k].name) == Some(ds[k])
  {
    if k > 0 {
      FindIs(ds[1..], k - 1);
    }
  }

  lemma {:induction false} FindNone(ds: seq<Def>, name: string)
    ensures Find(ds, name).None? <==> !Names(ds, name)
    ensures Find(ds, name).Some? ==> Find(ds, name).value.name == name
  {
    if ds != [] {
      FindNone(ds[1..], name);
      assert NamesOf(ds) == [ds[0].name] + NamesOf(ds[1..]);
    }
  }

  /** The map and the list tell the same about every name. */
  ghost predicate Agrees(ds: seq<Def>, byName: map<string, Def>) {
    forall name :: Find(ds, name) == if name in byName then Some(byName[name]) else None
  }

  method IndexByName(ds: seq<Def>) returns (byName: map<string, Def>)
    requires Distinct(ds)
    ensures Agrees(ds, byName)
  {
    byName := map[];
    var n := 0;
    while n < |ds|
      invariant 0 <= n <= |ds|
      invariant forall k | 0 <= k < n :: ds[k].name in byName && byName[ds[k].name] == ds[k]
      invariant forall x | x in byName :: x in NamesOf(ds)[..n]
    {
      byName := byName[ds[n].name := ds[n]];
      n := n + 1;
    }
    forall name
      ensures Find(ds, name) == if name in byName then Some(byName[name]) else None
    {
      Lookup(ds, byName, name);
    }
  }

  lemma Lookup(ds: seq<Def>, byName: map<string, Def>, name: string)
    requires Distinct(ds)
    requires forall k | 0 <= k < |ds| :: ds[k].name in byName && byName[ds[k].name] == ds[k]
    requires forall x | x in byName :: x in NamesOf(ds)
    ensures Find(ds, name) == if name in byName then Some(byName[name]) else None
  {
    FindNone(ds, name);
    if Names(ds, name) {
      var k :| 0 <= k < |ds| && NamesOf(ds)[k] == name;
      FindIs(ds, k);
    }
  }

  /** A load that sees its context cancelled, before or after, gives up with nothing but errors. */
  method Load(files: seq<File>, before: bool, after: bool) returns (out: seq<Def>, errs: seq<string>)
    ensures !before && !after ==> Merged(AllParsed(files), out) && errs == AllErrors(files)
    ensures before || after ==> out == [] && |errs| > 0
    ensures Distinct(out)
  {
    if before { return [], ["cancelled"]; }
    out, errs := LoadMerged(files);
    forall i, j | 0 <= i < j < |out|
      ensures out[i].name != out[j].name
    {
      MergedDistinct(AllParsed(files), out, i, j);
    }
    if after { return [], errs + ["cancelled"]; }
  }

  /** Whether the context is cancelled at each of the moments it is looked at. A context stays cancelled. */
  predicate StaysCancelled(cancelled: seq<bool>) {
    |cancelled| == 7 && forall i, j | 0 <= i < j < 7 :: cancelled[i] ==> cancelled[j]
  }

  class RuntimeCatalog {
    var root: string
    var skills: seq<Def>
    var agents: seq<Def>
    var hooks: seq<Def>
    var skillByName: map<string, Def>
    var agentByName: map<string, Def>
    var lastErrs: seq<string>

    /** The name maps agree with the lists. */
    ghost predicate Valid()
      reads this
    {
      Agrees(skills, skillByName) && Agrees(agents, agentByName)
    }

    constructor ()
      ensures Valid() && skills == [] && agents == [] && hooks == [] && lastErrs == []
    {
      root, skills, agents, hooks, skillByName, agentByName, lastErrs := "", [], [], [], map[], map[], [];
    }

    /** A reload publishes the whole merges of what it was given, with all their errors, or nothing at all. */
    method Reload(
      where: string, skillFiles: seq<File>, agentFiles: seq<File>, hookFiles: seq<File>, cancelled: seq<bool>)
      returns (errs: seq<string>)
      requires Valid() && StaysCancelled(cancelled)
      modifies this
      ensures Valid()
      ensures !cancelled[6] ==>
                && root == where
                && Merged(AllParsed(skillFiles), skills) && Merged(AllParsed(agentFiles), agents)
                && Merged(AllParsed(hookFiles), hooks)
                && errs == lastErrs == AllErrors(skillFiles) + AllErrors(agentFiles) + AllErrors(hookFiles)
      ensures cancelled[6] ==> unchanged(this) && errs == ["cancelled"]
    {
      var newSkills, skillErrs := Load(skillFiles, cancelled[0], cancelled[1]);
      var newAgents, agentErrs := Load(agentFiles, cancelled[2], cancelled[3]);
      var newHooks, hookErrs := Load(hookFiles, cancelled[4], cancelled[5]);
      var bySkill := IndexByName(newSkills);
      var byAgent := IndexByName(newAgents);
      errs := skillErrs + agentErrs + hookErrs;
      if cancelled[6] { return ["cancelled"]; }
      root, skills, agents, hooks := where, newSkills, newAgents, newHooks;
      skillByName, agentByName, lastErrs := bySkill, byAgent, errs;
    }

    /** Looks a skill up: the name is trimmed first. */
    method Skill(name: string) returns (r: Option<Def>)
      requires Valid()
      ensures r == Find(skills, TrimSpace(name))
    {
      var key := TrimSpace(name);
      r := if key in skillByName then Some(skillByName[key]) else None;
    }

    method Agent(name: string) returns (r: Option<Def>)
      requires Valid()
      ensures r == Find(agents, TrimSpace(name))
    {
      var key := TrimSpace(name);
      r := if key in agentByName then Some(agentByName[key]) else None;
    }
  }

  // ---------------------------------------------------------------- what a trimmed lookup finds

  /** A listed definition is found under its own name exactly when that name has no outer white space. */
  lemma FoundByOwnName(ds: seq<Def>, k: nat)
    requires Distinct(ds) && k < |ds|
    ensures Find(ds, TrimSpace(ds[k].name)) == Some(ds[k]) <==> TrimSpace(ds[k].name) == ds[k].name
  {
    FindIs(ds, k);
    FindNone(ds, TrimSpace(ds[k].name));
  }

  /** Lookup is list search exactly when the name is trimmed already, or neither spelling is listed. */
  lemma LookupIsSearch(ds: seq<Def>, name: string)
    ensures Find(ds, TrimSpace(name)) == Find(ds, name) <==>
            TrimSpace(name) == name || (!Names(ds, name) && !Names(ds, TrimSpace(name)))
  {
    FindNone(ds, name);
    FindNone(ds, TrimSpace(name));
  }

  /** A definition listed with a leading space is never found, and a padded name finds what list search does not. */
  lemma PaddedNameIsLost()
    ensures exists ds, d: Def :: Distinct(ds) && d in ds && Find(ds, TrimSpace(d.name)).None?
    ensures exists ds, name :: Distinct(ds) && Find(ds, TrimSpace(name)).Some? && Find(ds, name).None?
  {
    var padded, plain := Def(" x", ""), Def("x", "");
    TrimPadded();
    FindNone([padded], "x");
    FindNone([plain], " x");
    assert NamesOf([padded]) == [" x"] && NamesOf([plain]) == ["x"];
    assert padded in [padded];
    assert Find([plain], "x") == Some(plain);
  }

  lemma TrimPadded()
    ensures TrimSpace(" x") == "x" && " x" != "x"
  {
    assert " x"[1..] == "x";
    assert TrimLeft("x") == "x" && TrimLeft(" x") == TrimLeft("x");
  }
}
