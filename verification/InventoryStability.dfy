/**
 What the parser produces can be printed and read back, from any text whatsoever; and which
 sections of a text can be dropped without changing what it means.
 */
module InventoryStability {
  import opened Text
  import opened Inventory
  import opened InventoryRoundTrip

  predicate PrintableData(d: HostData) {
    PrintableVars(d.vars) && forall g | g in d.groups :: PrintableGroup(g)
  }

  predicate PrintableTable(t: HostTable) {
    forall name | name in t :: PrintableName(name) && PrintableData(t[name])
  }

  predicate PlainGroup(g: string) {
    ':' !in g && '\n' !in g
  }

  lemma AssignPrintable(vars: map<string, string>, kv: string)
    requires PrintableVars(vars) && IsWord(kv)
    ensures PrintableVars(Assign(vars, kv))
  {
    var idx := Index(kv, '=');
    if idx > 0 {
      var k, v := kv[..idx], kv[idx + 1..];
      assert forall i | 0 <= i < |k| :: k[i] == kv[i];
      assert forall i | 0 <= i < |v| :: v[i] == kv[idx + 1 + i];
    }
  }

  lemma {:induction false} AssignAllPrintable(vars: map<string, string>, kvs: seq<string>)
    requires PrintableVars(vars) && AllWords(kvs)
    ensures PrintableVars(AssignAll(vars, kvs))
  {
    if kvs != [] {
      AssignAllPrintable(vars, kvs[..|kvs| - 1]);
      AssignPrintable(AssignAll(vars, kvs[..|kvs| - 1]), kvs[|kvs| - 1]);
    }
  }

  lemma LinePrintable(st: Scan, raw: string)
    requires PrintableTable(st.hosts) && PlainGroup(st.group) && '\n' !in raw
    ensures PrintableTable(ScanLine(st, raw).hosts) && PlainGroup(ScanLine(st, raw).group)
  {
    var line := TrimSpace(raw);
    TrimKeeps(raw, '\n');
    if Ignored(line) || LooksLikeHeader(line) {
      if LooksLikeHeader(line) {
        assert forall c | c in SectionName(line) :: c in line;
      }
    } else if !st.skip {
      var parts := Fields(line);
      AssignAllPrintable(Lookup(st.hosts, parts[0]).vars, parts[1..]);
    }
  }

  lemma {:induction false} LinesPrintable(st: Scan, lines: seq<string>)
    requires PrintableTable(st.hosts) && PlainGroup(st.group)
    requires forall l | l in lines :: '\n' !in l
    ensures PrintableTable(ScanLines(st, lines).hosts) && PlainGroup(ScanLines(st, lines).group)
  {
    if lines != [] {
      var n := |lines| - 1;
      assert lines == lines[..n] + [lines[n]];
      LinesPrintable(st, lines[..n]);
      LinePrintable(ScanLines(st, lines[..n]), lines[n]);
    }
  }

  lemma {:induction false} ListedPrintable(hosts: seq<InventoryHost>)
    requires DistinctNames(hosts) && PrintableTable(TableOf(hosts))
    ensures AllPrintable(hosts)
  {
    if hosts != [] {
      var n := |hosts| - 1;
      var h, front := hosts[n], hosts[..n];
      assert hosts == front + [h];
      forall name | name in TableOf(front)
        ensures PrintableName(name) && PrintableData(TableOf(front)[name])
      {
        assert TableOf(hosts)[name] == TableOf(front)[name];
      }
      ListedPrintable(front);
      assert PrintableData(TableOf(hosts)[h.hostname]);
    }
  }

  // Every host list the parser returns can be printed.
  lemma ParsedPrintable(text: string, projectID: nat, hosts: seq<InventoryHost>)
    requires Lists(hosts, projectID, ParsedHosts(text))
    ensures AllPrintable(hosts)
  {
    LinesPrintable(START, Lines(text));
    ListedPrintable(hosts);
  }

  // Printing and reading back what any text parsed to only fills in ansible_host, under any
  // iteration orders, exactly when no printed host line looks like a header.
  lemma ReprintParsed(text: string, projectID: nat, hosts: seq<InventoryHost>, varOrders: seq<seq<string>>,
                      groupOrder: seq<string>)
    requires Lists(hosts, projectID, ParsedHosts(text)) && ValidOrders(hosts, varOrders, groupOrder)
    ensures SameHosts(ParsedHosts(Unlines(PrintedLines(hosts, varOrders, groupOrder))), Fill(ParsedHosts(text)))
       <==> NoHeaderLines(hosts, varOrders)
  {
    ParsedPrintable(text, projectID, hosts);
    RoundTrip(hosts, varOrders, groupOrder);
  }

  // Names that start with '[' are the only danger.
  predicate NoBracketNames(t: HostTable) {
    forall name | name in t :: name == "" || name[0] != '['
  }

  lemma {:induction false} NoBracketsClean(hosts: seq<InventoryHost>, varOrders: seq<seq<string>>)
    requires |varOrders| == |hosts| && DistinctNames(hosts) && AllPrintable(hosts) && NoBracketNames(TableOf(hosts))
    ensures NoHeaderLines(hosts, varOrders)
  {
    if hosts != [] {
      var n := |hosts| - 1;
      var h := hosts[n];
      PrintableFront(hosts);
      assert forall name | name in TableOf(hosts[..n]) :: name in TableOf(hosts);
      NoBracketsClean(hosts[..n], varOrders[..n]);
      assert h.hostname in TableOf(hosts);
      assert HostLine(h, varOrders[n])[0] == h.hostname[0];
    }
  }

  // With no such name, a second round of printing and parsing changes nothing at all.
  lemma SecondRoundStable(text: string, projectID: nat,
                          hosts: seq<InventoryHost>, varOrders: seq<seq<string>>, groupOrder: seq<string>,
                          hosts': seq<InventoryHost>, varOrders': seq<seq<string>>, groupOrder': seq<string>)
    requires NoBracketNames(ParsedHosts(text))
    requires Lists(hosts, projectID, ParsedHosts(text)) && ValidOrders(hosts, varOrders, groupOrder)
    requires Lists(hosts', projectID, ParsedHosts(Unlines(PrintedLines(hosts, varOrders, groupOrder))))
    requires ValidOrders(hosts', varOrders', groupOrder')
    ensures SameHosts(TableOf(hosts'), Fill(ParsedHosts(text)))
    ensures SameHosts(ParsedHosts(Unlines(PrintedLines(hosts', varOrders', groupOrder'))), TableOf(hosts'))
  {
    ParsedPrintable(text, projectID, hosts);
    NoBracketsClean(hosts, varOrders);
    ReprintParsed(text, projectID, hosts, varOrders, groupOrder);
    var text' := Unlines(PrintedLines(hosts, varOrders, groupOrder));
    ParsedPrintable(text', projectID, hosts');
    NoBracketsClean(hosts', varOrders');
    ReprintParsed(text', projectID, hosts', varOrders', groupOrder');
    FillTwice(ParsedHosts(text), TableOf(hosts'));
  }

  lemma FillTwice(t: HostTable, u: HostTable)
    requires SameHosts(u, Fill(t))
    ensures SameHosts(Fill(u), u)
  {
    forall name | name in u
      ensures Fill(u)[name].vars == u[name].vars
    {
      assert u[name].vars == FilledVars(name, t[name].vars);
    }
  }

  // Every iteration order ------------------------------------------------------------------

  function Last(s: string): char
    requires s != ""
  {
    s[|s| - 1]
  }

  // A host line that no iteration order can end in ']', or that does not begin with '['; and
  // likewise the bare name, if it is printed under some group.
  predicate Unmistakable(h: InventoryHost)
    requires h.hostname != ""
  {
    h.hostname[0] != '['
    || ((h.vars == map[] || h.groups != [] ==> Last(h.hostname) != ']')
        && forall k | k in h.vars :: Last(Pair(h.vars, k)) != ']')
  }

  predicate AllUnmistakable(hosts: seq<InventoryHost>) {
    forall h | h in hosts :: h.hostname != "" && Unmistakable(h)
  }

  lemma HostLineEnds(h: InventoryHost, order: seq<string>)
    requires h.hostname != ""
    ensures var line := HostLine(h, order);
            && line != "" && line[0] == h.hostname[0]
            && Last(line) == if order == [] then Last(h.hostname) else Last(Pair(h.vars, order[|order| - 1]))
  {
    if order == [] {
      assert HostArgs(h, order) == ["ansible_host=" + h.hostname];
      assert Spaced(HostArgs(h, order)) == " ansible_host=" + h.hostname;
    } else {
      var n := |order| - 1;
      var kv := Pair(h.vars, order[n]);
      assert HostArgs(h, order) == HostArgs(h, order[..n]) + [kv];
      SpacedConcat(HostArgs(h, order[..n]), [kv]);
      assert Spaced([kv]) == " " + kv;
    }
  }

  lemma SomeOrder(keys: set<string>) returns (order: seq<string>)
    ensures Iterates(order, keys)
  {
    if keys == {} {
      order := [];
    } else {
      var k :| k in keys;
      order := SomeOrder(keys - {k});
      order := order + [k];
    }
  }

  lemma OrderEndingIn(keys: set<string>, k: string) returns (order: seq<string>)
    requires k in keys
    ensures Iterates(order, keys) && order != [] && order[|order| - 1] == k
  {
    order := SomeOrder(keys - {k});
    order := order + [k];
  }

  lemma LineMistakable(h: InventoryHost, order: seq<string>)
    requires h.hostname != "" && Unmistakable(h) && Iterates(order, h.vars.Keys)
    ensures !LooksLikeHeader(HostLine(h, order))
    ensures h.groups == [] || !LooksLikeHeader(h.hostname)
  {
    HostLineEnds(h, order);
    InOrder(order, h.vars.Keys);
    if order == [] {
      assert multiset(order) == multiset{};
      assert forall k :: k !in h.vars.Keys;
    } else {
      assert order[|order| - 1] in order;
    }
  }

  // The iteration order that makes a mistakable host's lines look like a header.
  lemma MistakingOrder(h: InventoryHost) returns (order: seq<string>)
    requires h.hostname != "" && !Unmistakable(h)
    ensures Iterates(order, h.vars.Keys)
    ensures LooksLikeHeader(HostLine(h, order)) || (h.groups != [] && LooksLikeHeader(h.hostname))
  {
    if k :| k in h.vars && Last(Pair(h.vars, k)) == ']' {
      order := OrderEndingIn(h.vars.Keys, k);
    } else if h.vars == map[] {
      order := [];
    } else {
      order := SomeOrder(h.vars.Keys);
    }
    HostLineEnds(h, order);
  }

  lemma {:induction false} OrdersFor(hosts: seq<InventoryHost>) returns (varOrders: seq<seq<string>>)
    requires AllPrintable(hosts)
    ensures VarOrders(hosts, varOrders)
    ensures !AllUnmistakable(hosts) ==> !NoHeaderLines(hosts, varOrders)
  {
    if hosts == [] {
      varOrders := [];
    } else {
      var n := |hosts| - 1;
      PrintableFront(hosts);
      assert hosts == hosts[..n] + [hosts[n]];
      var front := OrdersFor(hosts[..n]);
      var order;
      if Unmistakable(hosts[n]) {
        order := SomeOrder(hosts[n].vars.Keys);
      } else {
        order := MistakingOrder(hosts[n]);
      }
      varOrders := front + [order];
      assert varOrders[..n] == front;
    }
  }

  lemma {:induction false} UnmistakableClean(hosts: seq<InventoryHost>, varOrders: seq<seq<string>>)
    requires AllUnmistakable(hosts) && VarOrders(hosts, varOrders)
    ensures NoHeaderLines(hosts, varOrders)
  {
    if hosts != [] {
      var n := |hosts| - 1;
      assert hosts == hosts[..n] + [hosts[n]];
      UnmistakableClean(hosts[..n], varOrders[..n]);
      LineMistakable(hosts[n], varOrders[n]);
    }
  }

  ghost predicate RoundTrips(hosts: seq<InventoryHost>, varOrders: seq<seq<string>>, groupOrder: seq<string>)
    requires |varOrders| == |hosts|
  {
    SameHosts(ParsedHosts(Unlines(PrintedLines(hosts, varOrders, groupOrder))), Fill(TableOf(hosts)))
  }

  // Whatever orders the maps yield, the round trip succeeds, exactly when no host's name begins
  // with '[' while something that can end one of its lines ends with ']'.
  lemma EveryOrderRoundTrips(hosts: seq<InventoryHost>)
    requires AllPrintable(hosts) && DistinctNames(hosts)
    ensures (forall varOrders, groupOrder | ValidOrders(hosts, varOrders, groupOrder) ::
        RoundTrips(hosts, varOrders, groupOrder))
       <==> AllUnmistakable(hosts)
  {
    if AllUnmistakable(hosts) {
      forall varOrders, groupOrder | ValidOrders(hosts, varOrders, groupOrder)
        ensures RoundTrips(hosts, varOrders, groupOrder)
      {
        UnmistakableClean(hosts, varOrders);
        RoundTrip(hosts, varOrders, groupOrder);
      }
    } else {
      var varOrders := OrdersFor(hosts);
      var groupOrder := SomeOrder(AllGroups(hosts));
      RoundTrip(hosts, varOrders, groupOrder);
      assert ValidOrders(hosts, varOrders, groupOrder) && !RoundTrips(hosts, varOrders, groupOrder);
    }
  }

  // A printable host that no printed inventory brings back.
  lemma UnfaithfulHost() returns (hosts: seq<InventoryHost>)
    ensures hosts == [InventoryHost(0, "[a]", [], map[])] && AllPrintable(hosts) && DistinctNames(hosts)
    ensures ValidOrders(hosts, [[]], []) && !RoundTrips(hosts, [[]], [])
  {
    var h := InventoryHost(0, "[a]", [], map[]);
    hosts := [h];
    assert hosts[..0] == [];
    assert AllGroups(hosts) == {};
    assert IsWord("[a]");
    var order: seq<string> := [];
    HostLineEnds(h, order);
    assert LooksLikeHeader(HostLine(h, [[]][0]));
    RoundTrip(hosts, [[]], []);
  }

  const BRACKETED := "[a] x"

  // It is what a text of one line parses to, a line that does not look like a header itself.
  lemma UnfaithfulText() returns (hosts: seq<InventoryHost>)
    ensures Lists(hosts, 0, ParsedHosts(BRACKETED)) && ValidOrders(hosts, [[]], [])
    ensures !SameHosts(ParsedHosts(Unlines(PrintedLines(hosts, [[]], []))), Fill(ParsedHosts(BRACKETED)))
  {
    hosts := UnfaithfulHost();
    BracketedTable();
    assert hosts[..0] == [];
    assert TableOf(hosts) == map["[a]" := HostData(map[], [])];
  }

  lemma BracketedTable()
    ensures ParsedHosts(BRACKETED) == map["[a]" := HostData(map[], [])]
  {
    var ws := ["x"];
    BracketedLine();
    assert AllWords(ws) by {
      assert IsWord("x");
    }
    assert PrintableName("[a]");
    ScanWords(START, "[a]", ws);
    ScanOne(START, BRACKETED);
    assert ws[..0] == [] && Index("x", '=') < 0;
    assert AssignAll(map[], ws) == map[];
  }

  lemma BracketedLine()
    ensures BRACKETED == "[a]" + Spaced(["x"]) && Lines(BRACKETED) == [BRACKETED] && !LooksLikeHeader(BRACKETED)
  {
    assert Spaced(["x"]) == " x";
    assert Index(BRACKETED, '\n') < 0;
  }

  // Qualified sections ----------------------------------------------------------------------

  predicate Header(raw: string) {
    LooksLikeHeader(TrimSpace(raw))
  }

  predicate QualifiedHeader(raw: string) {
    Header(raw) && ':' in SectionName(TrimSpace(raw))
  }

  lemma {:induction false} SkippedLines(st: Scan, body: seq<string>)
    requires st.skip && forall l | l in body :: !Header(l)
    ensures ScanLines(st, body) == st
  {
    if body != [] {
      var n := |body| - 1;
      assert body == body[..n] + [body[n]];
      assert !Header(body[n]);
      SkippedLines(st, body[..n]);
    }
  }

  // A header forgets the section before it.
  lemma HeaderForgets(st: Scan, st': Scan, after: seq<string>)
    requires st.hosts == st'.hosts && (after == [] || Header(after[0]))
    ensures ScanLines(st, after).hosts == ScanLines(st', after).hosts
  {
    if after != [] {
      assert after == [after[0]] + after[1..];
      ScanConcat(st, [after[0]], after[1..]);
      ScanConcat(st', [after[0]], after[1..]);
      ScanOne(st, after[0]);
      ScanOne(st', after[0]);
    }
  }

  lemma SkippedBlock(st: Scan, block: seq<string>)
    requires block != [] && QualifiedHeader(block[0]) && forall l | l in block[1..] :: !Header(l)
    ensures ScanLines(st, block).hosts == st.hosts
  {
    assert block == [block[0]] + block[1..];
    ScanConcat(st, [block[0]], block[1..]);
    ScanOne(st, block[0]);
    SkippedLines(ScanLine(st, block[0]), block[1..]);
  }

  lemma SectionLinesInert(before: seq<string>, block: seq<string>, after: seq<string>)
    requires block != [] && QualifiedHeader(block[0]) && forall l | l in block[1..] :: !Header(l)
    requires after == [] || Header(after[0])
    ensures ScanLines(START, before + (block + after)).hosts == ScanLines(START, before + after).hosts
  {
    var st := ScanLines(START, before);
    ScanConcat(START, before, block + after);
    ScanConcat(START, before, after);
    ScanConcat(st, block, after);
    SkippedBlock(st, block);
    HeaderForgets(ScanLines(st, block), st, after);
  }

  predicate EndsLine(s: string) {
    s == "" || Last(s) == '\n'
  }

  // Inserting or deleting a whole [x:vars] or [x:children] section directly before another
  // header, or at the end of the file, leaves the parse of the surrounding text unchanged.
  lemma QualifiedSectionInert(before: string, block: string, after: string)
    requires EndsLine(before) && (after == "" || EndsLine(block))
    requires Lines(block) != [] && QualifiedHeader(Lines(block)[0])
    requires forall l | l in Lines(block)[1..] :: !Header(l)
    requires Lines(after) == [] || Header(Lines(after)[0])
    ensures ParsedHosts(before + (block + after)) == ParsedHosts(before + after)
  {
    LinesConcat(before, after);
    LinesConcat(before, block + after);
    if after == "" {
      assert block + after == block;
      assert Lines(block) + Lines(after) == Lines(block);
    } else {
      LinesConcat(block, after);
    }
    SectionLinesInert(Lines(before), Lines(block), Lines(after));
  }
}
