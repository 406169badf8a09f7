/**
 What an inventory text means, said without a scan: which lines are entries, which section
 each stands in, and what a host's groups and variables are in terms of those lines.
 The lemmas show that the scan computes exactly that, for every text.
 */
module InventoryMeaning {
  import opened Wrappers
  import opened Text
  import opened Inventory

  // A host entry: its hostname, the words after it, and the section it stands in.
  datatype Entry = Entry(name: string, words: seq<string>, section: string)

  // The section in force after these lines: that of the nearest header above, None when it is
  // qualified by a colon, and the unnamed section when there is no header yet.
  function Section(lines: seq<string>): (section: Option<string>)
    ensures section.Some? ==> ':' !in section.value
  {
    if lines == [] then Some("")
    else
      var line := TrimSpace(lines[|lines| - 1]);
      if !Ignored(line) && LooksLikeHeader(line) then
        if ':' in SectionName(line) then None else Some(SectionName(line))
      else Section(lines[..|lines| - 1])
  }

  // The entry a line makes under a section, if it makes one.
  function EntryOf(raw: string, section: Option<string>): Option<Entry> {
    var line := TrimSpace(raw);
    if Ignored(line) || LooksLikeHeader(line) || section.None? then None
    else Some(Entry(Fields(line)[0], Fields(line)[1..], section.value))
  }

  function Entries(lines: seq<string>): (es: seq<Option<Entry>>)
    ensures |es| == |lines|
    ensures forall i | 0 <= i < |lines| :: es[i] == EntryOf(lines[i], Section(lines[..i]))
  {
    seq(|lines|, i requires 0 <= i < |lines| => EntryOf(lines[i], Section(lines[..i])))
  }

  // The table that entries build, one after another.
  function Replay(es: seq<Option<Entry>>): HostTable {
    if es == [] then map[]
    else
      var before := Replay(es[..|es| - 1]);
      match es[|es| - 1]
      case None => before
      case Some(e) =>
        var h := Lookup(before, e.name);
        before[e.name := HostData(AssignAll(h.vars, e.words), Join(h.groups, e.section))]
  }

  lemma {:induction false} ScanReplays(lines: seq<string>)
    ensures var st := ScanLines(START, lines);
            && st.skip == Section(lines).None?
            && st.group == (if st.skip then "" else Section(lines).value)
            && st.hosts == Replay(Entries(lines))
  {
    if lines != [] {
      var front := lines[..|lines| - 1];
      ScanReplays(front);
      assert Entries(lines)[..|lines| - 1] == Entries(front) by {
        assert forall i | 0 <= i < |front| :: front[..i] == lines[..i];
      }
    }
  }

  predicate EntryFor(es: seq<Option<Entry>>, i: int, name: string) {
    0 <= i < |es| && es[i].Some? && es[i].value.name == name
  }

  predicate EntryUnder(es: seq<Option<Entry>>, i: int, name: string, group: string) {
    EntryFor(es, i, name) && es[i].value.section == group
  }

  // A host exists exactly when some entry begins with it.
  lemma {:induction false} HostsMeaning(es: seq<Option<Entry>>, name: string)
    ensures name in Replay(es) <==> exists i :: EntryFor(es, i, name)
  {
    if es != [] {
      var n := |es| - 1;
      HostsMeaning(es[..n], name);
      if i :| EntryFor(es[..n], i, name) {
        assert EntryFor(es, i, name);
      } else if i :| EntryFor(es, i, name) {
        assert i < n ==> EntryFor(es[..n], i, name);
      } else {
        assert !EntryFor(es, n, name);
      }
    }
  }

  predicate IsGroup(g: string) {
    g != "" && g != "all"
  }

  // The host is seen under g before it is ever seen under later.
  ghost predicate FirstUnderBefore(es: seq<Option<Entry>>, name: string, g: string, later: string) {
    exists i :: EntryUnder(es, i, name, g) && forall j | j <= i :: !EntryUnder(es, j, name, later)
  }

  function GroupsOf(es: seq<Option<Entry>>, name: string): seq<string> {
    Lookup(Replay(es), name).groups
  }

  lemma {:induction false} GroupMembership(es: seq<Option<Entry>>, name: string, g: string)
    ensures g in GroupsOf(es, name) <==> IsGroup(g) && exists i :: EntryUnder(es, i, name, g)
  {
    if es != [] {
      var n := |es| - 1;
      GroupMembership(es[..n], name, g);
      if i :| EntryUnder(es[..n], i, name, g) {
        assert EntryUnder(es, i, name, g);
      } else if i :| EntryUnder(es, i, name, g) {
        assert i < n ==> EntryUnder(es[..n], i, name, g);
      } else {
        assert !EntryUnder(es, n, name, g);
      }
    }
  }

  lemma {:induction false} GroupOrder(es: seq<Option<Entry>>, name: string, a: nat, b: nat)
    requires a < b < |GroupsOf(es, name)|
    ensures var groups := GroupsOf(es, name);
            groups[a] != groups[b] && FirstUnderBefore(es, name, groups[a], groups[b])
  {
    var n := |es| - 1;
    var earlier, groups := GroupsOf(es[..n], name), GroupsOf(es, name);
    var i;
    if b < |earlier| {
      GroupOrder(es[..n], name, a, b);
      i :| EntryUnder(es[..n], i, name, groups[a]) && forall j | j <= i :: !EntryUnder(es[..n], j, name, groups[b]);
    } else {
      GroupMembership(es[..n], name, groups[a]);
      GroupMembership(es[..n], name, groups[b]);
      i :| EntryUnder(es[..n], i, name, groups[a]);
    }
    assert EntryUnder(es, i, name, groups[a]);
    assert forall j | j <= i :: EntryUnder(es, j, name, groups[b]) ==> EntryUnder(es[..n], j, name, groups[b]);
  }

  // A host's groups are the named, unqualified sections it has an entry under, each once, in
  // the order of its first entry under them.
  lemma GroupsMeaning(es: seq<Option<Entry>>, name: string)
    ensures var groups := GroupsOf(es, name);
            && (forall g :: g in groups <==> IsGroup(g) && exists i :: EntryUnder(es, i, name, g))
            && (forall a, b | 0 <= a < b < |groups| ::
                groups[a] != groups[b] && FirstUnderBefore(es, name, groups[a], groups[b]))
  {
    var groups := GroupsOf(es, name);
    forall g
      ensures g in groups <==> IsGroup(g) && exists i :: EntryUnder(es, i, name, g)
    {
      GroupMembership(es, name, g);
    }
    forall a, b | 0 <= a < b < |groups|
      ensures groups[a] != groups[b] && FirstUnderBefore(es, name, groups[a], groups[b])
    {
      GroupOrder(es, name, a, b);
    }
  }

  // A word of the form k=value.
  predicate SetsKey(word: string, k: string) {
    Index(word, '=') > 0 && word[..Index(word, '=')] == k
  }

  function ValueOf(word: string): string {
    word[Index(word, '=') + 1..]
  }

  // The last word of a list that sets k, or -1.
  function LastSetter(ws: seq<string>, k: string): (p: int)
    ensures -1 <= p < |ws|
    ensures 0 <= p ==> SetsKey(ws[p], k)
    ensures forall q | p < q < |ws| :: !SetsKey(ws[q], k)
  {
    if ws == [] then -1
    else if SetsKey(ws[|ws| - 1], k) then |ws| - 1
    else LastSetter(ws[..|ws| - 1], k)
  }

  lemma {:induction false} AssignAllMeaning(vars: map<string, string>, ws: seq<string>, k: string)
    ensures var p, r := LastSetter(ws, k), AssignAll(vars, ws);
            if 0 <= p then k in r && r[k] == ValueOf(ws[p])
            else if k in vars then k in r && r[k] == vars[k]
            else k !in r
  {
    if ws != [] {
      AssignAllMeaning(vars, ws[..|ws| - 1], k);
    }
  }

  // Word p of entry i sets variable k of the host.
  predicate SetsVar(es: seq<Option<Entry>>, i: int, p: int, name: string, k: string) {
    EntryFor(es, i, name) && 0 <= p < |es[i].value.words| && SetsKey(es[i].value.words[p], k)
  }

  // ... and no later word of the text does.
  ghost predicate LastSetting(es: seq<Option<Entry>>, i: int, p: int, name: string, k: string) {
    SetsVar(es, i, p, name, k)
    && forall j, q | SetsVar(es, j, q, name, k) :: j < i || (j == i && q <= p)
  }

  function VarsOf(es: seq<Option<Entry>>, name: string): map<string, string> {
    Lookup(Replay(es), name).vars
  }

  // Where the last word of the text that sets the variable is: entry and word, or (-1, -1).
  function LastSetterOf(es: seq<Option<Entry>>, name: string, k: string): (int, int) {
    if es == [] then (-1, -1)
    else
      var n := |es| - 1;
      var last := if EntryFor(es, n, name) then LastSetter(es[n].value.words, k) else -1;
      if 0 <= last then (n, last) else LastSetterOf(es[..n], name, k)
  }

  lemma {:induction false} LastSetterIsLast(es: seq<Option<Entry>>, name: string, k: string)
    ensures var (i, p) := LastSetterOf(es, name, k);
            && (0 <= i ==> LastSetting(es, i, p, name, k))
            && (i < 0 ==> forall j, q :: !SetsVar(es, j, q, name, k))
  {
    if es != [] {
      LastSetterIsLast(es[..|es| - 1], name, k);
      forall j, q | SetsVar(es, j, q, name, k) && j < |es| - 1
        ensures SetsVar(es[..|es| - 1], j, q, name, k)
      {
      }
    }
  }

  lemma {:induction false} LastSetterValue(es: seq<Option<Entry>>, name: string, k: string)
    ensures var (i, p), vars := LastSetterOf(es, name, k), VarsOf(es, name);
            && (k in vars <==> 0 <= i)
            && (0 <= i ==>
                  && i < |es| && es[i].Some? && 0 <= p < |es[i].value.words|
                  && vars[k] == ValueOf(es[i].value.words[p]))
  {
    if es != [] {
      var n := |es| - 1;
      LastSetterValue(es[..n], name, k);
      if EntryFor(es, n, name) {
        AssignAllMeaning(VarsOf(es[..n], name), es[n].value.words, k);
      }
    }
  }

  // A host has a variable exactly when some word of an entry of it sets the variable, and the
  // value is that of the last such word.
  lemma VarsMeaning(es: seq<Option<Entry>>, name: string, k: string)
    ensures var vars := VarsOf(es, name);
            && (k in vars <==> exists i, p :: SetsVar(es, i, p, name, k))
            && (k in vars ==> exists i, p :: LastSetting(es, i, p, name, k) && vars[k] == ValueOf(es[i].value.words[p]))
  {
    LastSetterIsLast(es, name, k);
    LastSetterValue(es, name, k);
  }

  // The parsed table of any text, in terms of its entry lines.
  lemma ParsedMeaning(text: string, name: string)
    ensures var es := Entries(Lines(text));
            && (name in ParsedHosts(text) <==> exists i :: EntryFor(es, i, name))
            && (name in ParsedHosts(text) ==> ParsedHosts(text)[name] == HostData(VarsOf(es, name), GroupsOf(es, name)))
  {
    ScanReplays(Lines(text));
    HostsMeaning(Entries(Lines(text)), name);
  }
}
