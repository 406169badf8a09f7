/**
 Printing and parsing are inverse. For every host list and every map iteration order, parsing
 the printed text gives the hosts back, with ansible_host filled in, exactly when no printed
 host line can be taken for a section header; and then a second round changes nothing.
 */
module InventoryRoundTrip {
  import opened Text
  import opened Inventory

  // A hostname that is one word and does not start a comment.
  predicate PrintableName(name: string) {
    IsWord(name) && name[0] != '#' && name[0] != ';'
  }

  predicate PrintableVars(vars: map<string, string>) {
    forall k | k in vars :: IsWord(k) && '=' !in k && SpaceFree(vars[k])
  }

  predicate PrintableGroup(g: string) {
    g != "" && g != "all" && ':' !in g && '\n' !in g
  }

  predicate Printable(h: InventoryHost) {
    PrintableName(h.hostname) && PrintableVars(h.vars) && forall g | g in h.groups :: PrintableGroup(g)
  }

  predicate AllPrintable(hosts: seq<InventoryHost>) {
    forall h | h in hosts :: Printable(h)
  }

  const ANSIBLE_HOST := "ansible_host"

  // The variables a printed host line carries: ansible_host first, the host's own after it.
  function FilledVars(name: string, vars: map<string, string>): map<string, string> {
    map[ANSIBLE_HOST := name] + vars
  }

  function Fill(table: HostTable): HostTable {
    map name | name in table :: HostData(FilledVars(name, table[name].vars), table[name].groups)
  }

  // Equal hosts, equal variables and equal group sets.
  predicate SameHosts(t: HostTable, u: HostTable) {
    t.Keys == u.Keys && forall name | name in t ::
        t[name].vars == u[name].vars && ToSet(t[name].groups) == ToSet(u[name].groups)
  }

  // One assignment ------------------------------------------------------------------------

  lemma AssignPair(vars: map<string, string>, k: string, v: string)
    requires k != "" && '=' !in k
    ensures Assign(vars, k + "=" + v) == vars[k := v]
  {
    var kv := k + "=" + v;
    assert kv[..|k|] == k && kv[|k| + 1..] == v;
    IndexAt(kv, '=', |k|);
  }

  lemma {:induction false} AssignFirst(vars: map<string, string>, kv: string, kvs: seq<string>)
    ensures AssignAll(vars, [kv] + kvs) == AssignAll(Assign(vars, kv), kvs)
  {
    var all := [kv] + kvs;
    if kvs == [] {
      assert all == [kv] && all[..0] == [];
    } else {
      AssignFirst(vars, kv, kvs[..|kvs| - 1]);
      assert all[..|all| - 1] == [kv] + kvs[..|kvs| - 1];
    }
  }

  lemma {:induction false} PairsAssign(start: map<string, string>, vars: map<string, string>, order: seq<string>,
                                       key: string)
    requires PrintableVars(vars) && forall k | k in order :: k in vars
    ensures var r := AssignAll(start, Pairs(vars, order));
            if key in order then key in r && r[key] == vars[key]
            else if key in start then key in r && r[key] == start[key]
            else key !in r
  {
    if order != [] {
      var n := |order| - 1;
      assert order == order[..n] + [order[n]];
      PairsAssign(start, vars, order[..n], key);
      AssignPair(AssignAll(start, Pairs(vars, order[..n])), order[n], vars[order[n]]);
      assert Pairs(vars, order)[..n] == Pairs(vars, order[..n]);
    }
  }

  lemma ArgsAssignAt(h: InventoryHost, order: seq<string>, key: string)
    requires PrintableVars(h.vars) && Iterates(order, h.vars.Keys)
    ensures var r, e := AssignAll(map[], HostArgs(h, order)), FilledVars(h.hostname, h.vars);
            (key in r <==> key in e) && (key in r ==> r[key] == e[key])
  {
    var first := ANSIBLE_HOST + "=" + h.hostname;
    assert first == "ansible_host=" + h.hostname;
    AssignFirst(map[], first, Pairs(h.vars, order));
    AssignPair(map[], ANSIBLE_HOST, h.hostname);
    InOrder(order, h.vars.Keys);
    PairsAssign(map[ANSIBLE_HOST := h.hostname], h.vars, order, key);
  }

  // The words of a printed host line assign ansible_host overridden by the host's own variables.
  lemma ArgsAssign(h: InventoryHost, order: seq<string>)
    requires PrintableVars(h.vars) && Iterates(order, h.vars.Keys)
    ensures AssignAll(map[], HostArgs(h, order)) == FilledVars(h.hostname, h.vars)
  {
    var r, e := AssignAll(map[], HostArgs(h, order)), FilledVars(h.hostname, h.vars);
    forall key
      ensures (key in r <==> key in e) && (key in r ==> r[key] == e[key])
    {
      ArgsAssignAt(h, order, key);
    }
  }

  lemma InOrder(order: seq<string>, keys: set<string>)
    requires Iterates(order, keys)
    ensures forall k :: k in order <==> k in keys
  {
    assert forall k :: k in order <==> k in multiset(order);
  }

  lemma PairIsWord(k: string, v: string)
    requires IsWord(k) && SpaceFree(v)
    ensures IsWord(k + "=" + v)
  {
  }

  lemma HostWords(h: InventoryHost, order: seq<string>)
    requires Printable(h) && Iterates(order, h.vars.Keys)
    ensures AllWords(HostArgs(h, order))
  {
    InOrder(order, h.vars.Keys);
    forall i | 0 <= i < |order|
      ensures IsWord(Pairs(h.vars, order)[i])
    {
      assert order[i] in order;
      PairIsWord(order[i], h.vars[order[i]]);
    }
  }

  // One line ------------------------------------------------------------------------------

  lemma ScanWords(st: Scan, w: string, ws: seq<string>)
    requires PrintableName(w) && AllWords(ws)
    ensures PlainLine(w + Spaced(ws))
    ensures LooksLikeHeader(w + Spaced(ws)) ==> ScanLine(st, w + Spaced(ws)).hosts == st.hosts
    ensures !LooksLikeHeader(w + Spaced(ws)) ==>
              ScanLine(st, w + Spaced(ws))
              == if st.skip then st else st.(hosts := AddEntry(st.hosts, [w] + ws, st.group))
  {
    WordsLine(w, ws);
    FieldsOfWords(w, ws);
    assert (w + Spaced(ws))[0] == w[0];
  }

  lemma ScanHeader(st: Scan, g: string)
    requires ':' !in g && '\n' !in g
    ensures PlainLine("[" + g + "]")
    ensures ScanLine(st, "[" + g + "]") == Scan(st.hosts, g, false)
  {
    var line := "[" + g + "]";
    assert line[0] == '[' && line[|line| - 1] == ']' && SectionName(line) == g;
  }

  // The [all] section ---------------------------------------------------------------------

  // No line of the [all] section can be taken for a header.
  predicate CleanHosts(hosts: seq<InventoryHost>, varOrders: seq<seq<string>>)
    requires |varOrders| == |hosts|
  {
    hosts != [] ==>
      var n := |hosts| - 1;
      !LooksLikeHeader(HostLine(hosts[n], varOrders[n])) && CleanHosts(hosts[..n], varOrders[..n])
  }

  // No member line of a group can be taken for a header.
  predicate CleanMembers(hosts: seq<InventoryHost>) {
    hosts != [] ==>
      var h := hosts[|hosts| - 1];
      (h.groups == [] || !LooksLikeHeader(h.hostname)) && CleanMembers(hosts[..|hosts| - 1])
  }

  // The hosts with their printed variables, before any group.
  function BareTable(hosts: seq<InventoryHost>): HostTable {
    if hosts == [] then map[]
    else
      var h := hosts[|hosts| - 1];
      BareTable(hosts[..|hosts| - 1])[h.hostname := HostData(FilledVars(h.hostname, h.vars), [])]
  }

  lemma {:induction false} BareTableAt(hosts: seq<InventoryHost>, name: string)
    ensures name in BareTable(hosts) <==> name in TableOf(hosts)
    ensures name in TableOf(hosts) ==>
        BareTable(hosts)[name] == HostData(FilledVars(name, TableOf(hosts)[name].vars), [])
  {
    if hosts != [] {
      BareTableAt(hosts[..|hosts| - 1], name);
    }
  }

  lemma PrintableFront(hosts: seq<InventoryHost>)
    requires AllPrintable(hosts) && hosts != []
    ensures AllPrintable(hosts[..|hosts| - 1]) && Printable(hosts[|hosts| - 1])
  {
    var n := |hosts| - 1;
    assert hosts == hosts[..n] + [hosts[n]];
  }

  const IN_ALL := Scan(map[], "all", false)

  lemma {:induction false} AllSectionScan(hosts: seq<InventoryHost>, varOrders: seq<seq<string>>)
    requires AllPrintable(hosts) && DistinctNames(hosts) && VarOrders(hosts, varOrders)
    ensures AllPlain(HostLines(hosts, varOrders))
    ensures CleanHosts(hosts, varOrders) ==>
        ScanLines(IN_ALL, HostLines(hosts, varOrders)) == Scan(BareTable(hosts), "all", false)
  {
    if hosts != [] {
      var n := |hosts| - 1;
      var h, front, orders := hosts[n], hosts[..n], varOrders[..n];
      PrintableFront(hosts);
      AllSectionScan(front, orders);
      BareTableAt(front, h.hostname);
      HostWords(h, varOrders[n]);
      ArgsAssign(h, varOrders[n]);
      var st := ScanLines(IN_ALL, HostLines(front, orders));
      ScanWords(st, h.hostname, HostArgs(h, varOrders[n]));
      assert ([h.hostname] + HostArgs(h, varOrders[n]))[1..] == HostArgs(h, varOrders[n]);
      assert HostLines(hosts, varOrders)[..n] == HostLines(front, orders);
    }
  }

  // The group sections --------------------------------------------------------------------

  function JoinAll(t: HostTable, names: seq<string>, g: string): HostTable {
    if names == [] then t
    else
      var name, u := names[|names| - 1], JoinAll(t, names[..|names| - 1], g);
      u[name := HostData(Lookup(u, name).vars, Join(Lookup(u, name).groups, g))]
  }

  lemma {:induction false} JoinAllAt(t: HostTable, names: seq<string>, g: string, name: string, group: string)
    requires PrintableGroup(g)
    ensures var r := JoinAll(t, names, g);
            && (name in r <==> name in t || name in names)
            && Lookup(r, name).vars == Lookup(t, name).vars
            && (group in Lookup(r, name).groups <==> group in Lookup(t, name).groups || (group == g && name in names))
  {
    if names != [] {
      var n := |names| - 1;
      assert names == names[..n] + [names[n]];
      JoinAllAt(t, names[..n], g, name, group);
      JoinAllAt(t, names[..n], g, name, g);
    }
  }

  predicate CleanName(name: string) {
    PrintableName(name) && !LooksLikeHeader(name)
  }

  lemma ScanMember(st: Scan, name: string)
    requires !st.skip && CleanName(name)
    ensures ScanLine(st, name) == st.(hosts := JoinAll(st.hosts, [name], st.group))
  {
    var none: seq<string> := [];
    assert name + Spaced(none) == name;
    ScanWords(st, name, none);
    assert ([name] + none)[1..] == none && [name][..0] == none;
  }

  lemma {:induction false} MembersScan(st: Scan, names: seq<string>)
    requires !st.skip && forall m | m in names :: CleanName(m)
    ensures ScanLines(st, names) == st.(hosts := JoinAll(st.hosts, names, st.group))
  {
    if names != [] {
      var n := |names| - 1;
      assert names == names[..n] + [names[n]];
      MembersScan(st, names[..n]);
      assert CleanName(names[n]);
      ScanMember(ScanLines(st, names[..n]), names[n]);
      assert [names[n]][..0] == [];
    }
  }

  lemma {:induction false} MentionsOnly(groups: seq<string>, g: string, name: string, m: string)
    ensures m in Mentions(groups, g, name) <==> m == name && g in groups
  {
    if groups != [] {
      var n := |groups| - 1;
      assert groups == groups[..n] + [groups[n]];
      MentionsOnly(groups[..n], g, name, m);
    }
  }

  // Exactly the hosts in group g are printed under it.
  lemma {:induction false} MembersMeaning(hosts: seq<InventoryHost>, g: string, name: string)
    requires DistinctNames(hosts)
    ensures name in Members(hosts, g) <==> name in TableOf(hosts) && g in TableOf(hosts)[name].groups
    ensures name in Members(hosts, g) ==> g in AllGroups(hosts)
    ensures AllPrintable(hosts) && name in Members(hosts, g) ==> PrintableName(name) && PrintableGroup(g)
    ensures CleanMembers(hosts) && name in Members(hosts, g) ==> !LooksLikeHeader(name)
  {
    if hosts != [] {
      var h, front := hosts[|hosts| - 1], hosts[..|hosts| - 1];
      if AllPrintable(hosts) {
        PrintableFront(hosts);
      }
      MembersMeaning(front, g, name);
      MentionsOnly(h.groups, g, h.hostname, name);
    }
  }

  lemma MembersClean(hosts: seq<InventoryHost>, g: string)
    requires AllPrintable(hosts) && DistinctNames(hosts)
    ensures forall m | m in Members(hosts, g) :: PrintableName(m) && (CleanMembers(hosts) ==> CleanName(m))
    ensures AllPlain(Members(hosts, g))
  {
    forall m | m in Members(hosts, g)
      ensures PrintableName(m) && (CleanMembers(hosts) ==> CleanName(m)) && PlainLine(m)
    {
      MembersMeaning(hosts, g, m);
    }
  }

  lemma BlockPlain(hosts: seq<InventoryHost>, g: string)
    requires AllPrintable(hosts) && DistinctNames(hosts) && PrintableGroup(g)
    ensures AllPlain(GroupBlock(hosts, g))
  {
    MembersClean(hosts, g);
    ScanHeader(START, g);
  }

  // A group section puts exactly its members into the group.
  lemma BlockScan(st: Scan, hosts: seq<InventoryHost>, g: string)
    requires AllPrintable(hosts) && DistinctNames(hosts) && CleanMembers(hosts) && PrintableGroup(g)
    ensures ScanLines(st, GroupBlock(hosts, g)) == Scan(JoinAll(st.hosts, Members(hosts, g), g), g, false)
  {
    var header, names := "[" + g + "]", Members(hosts, g);
    MembersClean(hosts, g);
    ScanHeader(st, g);
    ScanOne(st, header);
    var inGroup := Scan(st.hosts, g, false);
    MembersScan(inGroup, names);
    ScanOne(ScanLines(inGroup, names), "");
    ScanConcat(st, [header], names);
    ScanConcat(st, [header] + names, [""]);
  }

  predicate AllGroupNames(order: seq<string>) {
    forall g | g in order :: PrintableGroup(g)
  }

  // After the group sections, one host and one group.
  lemma {:induction false} BlocksAt(st: Scan, hosts: seq<InventoryHost>, order: seq<string>, name: string, g: string)
    requires AllPrintable(hosts) && DistinctNames(hosts) && CleanMembers(hosts) && AllGroupNames(order)
    requires forall n | n in TableOf(hosts) :: n in st.hosts
    ensures var r := ScanLines(st, GroupBlocks(hosts, order)).hosts;
            && (name in r <==> name in st.hosts)
            && Lookup(r, name).vars == Lookup(st.hosts, name).vars
            && (g in Lookup(r, name).groups <==>
                g in Lookup(st.hosts, name).groups || (g in order && name in Members(hosts, g)))
  {
    if order != [] {
      var n := |order| - 1;
      assert order == order[..n] + [order[n]];
      assert PrintableGroup(order[n]);
      BlocksAt(st, hosts, order[..n], name, g);
      var mid := ScanLines(st, GroupBlocks(hosts, order[..n]));
      ScanConcat(st, GroupBlocks(hosts, order[..n]), GroupBlock(hosts, order[n]));
      BlockScan(mid, hosts, order[n]);
      JoinAllAt(mid.hosts, Members(hosts, order[n]), order[n], name, g);
      MembersMeaning(hosts, order[n], name);
    }
  }

  // What goes wrong otherwise -------------------------------------------------------------

  lemma ScanOther(st: Scan, h: InventoryHost, order: seq<string>, name: string)
    requires Printable(h) && Iterates(order, h.vars.Keys)
    requires h.hostname != name || LooksLikeHeader(HostLine(h, order))
    ensures Lookup(ScanLine(st, HostLine(h, order)).hosts, name) == Lookup(st.hosts, name)
  {
    HostWords(h, order);
    ScanWords(st, h.hostname, HostArgs(h, order));
  }

  lemma {:induction false} OthersUntouched(st: Scan, hosts: seq<InventoryHost>, varOrders: seq<seq<string>>,
                                           name: string)
    requires AllPrintable(hosts) && VarOrders(hosts, varOrders) && name !in TableOf(hosts)
    ensures Lookup(ScanLines(st, HostLines(hosts, varOrders)).hosts, name) == Lookup(st.hosts, name)
  {
    if hosts != [] {
      var n := |hosts| - 1;
      PrintableFront(hosts);
      OthersUntouched(st, hosts[..n], varOrders[..n], name);
      ScanOther(ScanLines(st, HostLines(hosts[..n], varOrders[..n])), hosts[n], varOrders[n], name);
      assert HostLines(hosts, varOrders)[..n] == HostLines(hosts[..n], varOrders[..n]);
    }
  }

  // A host whose line is taken for a header is never entered by the [all] section.
  lemma {:induction false} BrokenHost(st: Scan, hosts: seq<InventoryHost>, varOrders: seq<seq<string>>)
    returns (name: string)
    requires AllPrintable(hosts) && DistinctNames(hosts) && VarOrders(hosts, varOrders)
    requires !CleanHosts(hosts, varOrders)
    ensures name in TableOf(hosts)
    ensures Lookup(ScanLines(st, HostLines(hosts, varOrders)).hosts, name) == Lookup(st.hosts, name)
  {
    var n := |hosts| - 1;
    var front, orders := hosts[..n], varOrders[..n];
    PrintableFront(hosts);
    assert HostLines(hosts, varOrders)[..n] == HostLines(front, orders);
    if LooksLikeHeader(HostLine(hosts[n], varOrders[n])) {
      name := hosts[n].hostname;
      OthersUntouched(st, front, orders, name);
    } else {
      name := BrokenHost(st, front, orders);
    }
    ScanOther(ScanLines(st, HostLines(front, orders)), hosts[n], varOrders[n], name);
  }

  lemma {:induction false} BrokenMember(hosts: seq<InventoryHost>) returns (name: string)
    requires DistinctNames(hosts) && !CleanMembers(hosts)
    ensures name in TableOf(hosts) && TableOf(hosts)[name].groups != [] && LooksLikeHeader(name)
  {
    var h, front := hosts[|hosts| - 1], hosts[..|hosts| - 1];
    if h.groups != [] && LooksLikeHeader(h.hostname) {
      name := h.hostname;
    } else {
      name := BrokenMember(front);
    }
  }

  // Member lines never change variables, and one taken for a header enters nothing at all.
  predicate Kept(before: HostTable, after: HostTable, name: string) {
    Lookup(after, name).vars == Lookup(before, name).vars
    && (LooksLikeHeader(name) ==> Lookup(after, name) == Lookup(before, name))
  }

  lemma {:induction false} MembersKeep(st: Scan, names: seq<string>, name: string)
    requires forall m | m in names :: PrintableName(m)
    ensures Kept(st.hosts, ScanLines(st, names).hosts, name)
  {
    if names != [] {
      var n := |names| - 1;
      assert names == names[..n] + [names[n]];
      MembersKeep(st, names[..n], name);
      assert PrintableName(names[n]);
      var none: seq<string> := [];
      assert names[n] + Spaced(none) == names[n] && ([names[n]] + none)[1..] == none;
      ScanWords(ScanLines(st, names[..n]), names[n], none);
    }
  }

  lemma {:induction false} BlocksKeep(st: Scan, hosts: seq<InventoryHost>, order: seq<string>, name: string)
    requires AllPrintable(hosts) && DistinctNames(hosts) && AllGroupNames(order)
    ensures Kept(st.hosts, ScanLines(st, GroupBlocks(hosts, order)).hosts, name)
  {
    if order != [] {
      var n := |order| - 1;
      assert order == order[..n] + [order[n]];
      BlocksKeep(st, hosts, order[..n], name);
      var mid, g := ScanLines(st, GroupBlocks(hosts, order[..n])), order[n];
      assert PrintableGroup(g);
      ScanConcat(st, GroupBlocks(hosts, order[..n]), GroupBlock(hosts, g));
      var header, names := "[" + g + "]", Members(hosts, g);
      ScanHeader(mid, g);
      ScanOne(mid, header);
      MembersClean(hosts, g);
      var inGroup := Scan(mid.hosts, g, false);
      MembersKeep(inGroup, names, name);
      ScanOne(ScanLines(inGroup, names), "");
      ScanConcat(mid, [header], names);
      ScanConcat(mid, [header] + names, [""]);
    }
  }

  // The round trip ------------------------------------------------------------------------

  // No printed host line begins with '[' and ends with ']'.
  predicate NoHeaderLines(hosts: seq<InventoryHost>, varOrders: seq<seq<string>>)
    requires |varOrders| == |hosts|
  {
    CleanHosts(hosts, varOrders) && CleanMembers(hosts)
  }

  lemma {:induction false} GroupNamesPrintable(hosts: seq<InventoryHost>)
    requires AllPrintable(hosts)
    ensures forall g | g in AllGroups(hosts) :: PrintableGroup(g)
  {
    if hosts != [] {
      PrintableFront(hosts);
      GroupNamesPrintable(hosts[..|hosts| - 1]);
    }
  }

  lemma {:induction false} BlocksPlain(hosts: seq<InventoryHost>, order: seq<string>)
    requires AllPrintable(hosts) && DistinctNames(hosts) && AllGroupNames(order)
    ensures AllPlain(GroupBlocks(hosts, order))
  {
    if order != [] {
      var n := |order| - 1;
      assert order == order[..n] + [order[n]];
      BlocksPlain(hosts, order[..n]);
      BlockPlain(hosts, order[n]);
    }
  }

  // Reading the printed text back goes section by section.
  lemma ScanPrinted(hosts: seq<InventoryHost>, varOrders: seq<seq<string>>, groupOrder: seq<string>)
    requires AllPrintable(hosts) && DistinctNames(hosts) && ValidOrders(hosts, varOrders, groupOrder)
    ensures AllGroupNames(groupOrder)
    ensures ParsedHosts(Unlines(PrintedLines(hosts, varOrders, groupOrder)))
         == ScanLines(ScanLines(IN_ALL, HostLines(hosts, varOrders)), GroupBlocks(hosts, groupOrder)).hosts
  {
    InOrder(groupOrder, AllGroups(hosts));
    GroupNamesPrintable(hosts);
    BlocksPlain(hosts, groupOrder);
    AllSectionScan(hosts, varOrders);
    ScanHeader(START, "all");
    assert "[" + "all" + "]" == "[all]";
    var all, blocks := HostLines(hosts, varOrders), GroupBlocks(hosts, groupOrder);
    var printed := PrintedLines(hosts, varOrders, groupOrder);
    LinesOfUnlines(printed);
    ScanOne(START, "[all]");
    ScanOne(ScanLines(IN_ALL, all), "");
    ScanConcat(START, ["[all]"], all);
    ScanConcat(START, ["[all]"] + all, [""]);
    ScanConcat(START, ["[all]"] + all + [""], blocks);
  }

  lemma RoundTripAt(st: Scan, hosts: seq<InventoryHost>, groupOrder: seq<string>, name: string)
    requires AllPrintable(hosts) && DistinctNames(hosts) && CleanMembers(hosts)
    requires Iterates(groupOrder, AllGroups(hosts)) && AllGroupNames(groupOrder)
    requires st.hosts == BareTable(hosts)
    ensures var r, e := ScanLines(st, GroupBlocks(hosts, groupOrder)).hosts, Fill(TableOf(hosts));
            && (name in r <==> name in e)
            && (name in e ==> r[name].vars == e[name].vars && ToSet(r[name].groups) == ToSet(e[name].groups))
  {
    InOrder(groupOrder, AllGroups(hosts));
    forall n
      ensures n in TableOf(hosts) ==> n in st.hosts
    {
      BareTableAt(hosts, n);
    }
    BareTableAt(hosts, name);
    BlocksAt(st, hosts, groupOrder, name, "");
    forall g
      ensures g in Lookup(ScanLines(st, GroupBlocks(hosts, groupOrder)).hosts, name).groups <==>
          g in Lookup(TableOf(hosts), name).groups
    {
      BlocksAt(st, hosts, groupOrder, name, g);
      MembersMeaning(hosts, g, name);
    }
  }

  lemma RoundTripClean(hosts: seq<InventoryHost>, varOrders: seq<seq<string>>, groupOrder: seq<string>)
    requires AllPrintable(hosts) && DistinctNames(hosts) && ValidOrders(hosts, varOrders, groupOrder)
    requires NoHeaderLines(hosts, varOrders)
    ensures SameHosts(ParsedHosts(Unlines(PrintedLines(hosts, varOrders, groupOrder))), Fill(TableOf(hosts)))
  {
    ScanPrinted(hosts, varOrders, groupOrder);
    AllSectionScan(hosts, varOrders);
    var st := ScanLines(IN_ALL, HostLines(hosts, varOrders));
    forall name
      ensures var r, e := ScanLines(st, GroupBlocks(hosts, groupOrder)).hosts, Fill(TableOf(hosts));
              && (name in r <==> name in e)
              && (name in e ==> r[name].vars == e[name].vars && ToSet(r[name].groups) == ToSet(e[name].groups))
    {
      RoundTripAt(st, hosts, groupOrder, name);
    }
  }

  lemma RoundTripBroken(hosts: seq<InventoryHost>, varOrders: seq<seq<string>>, groupOrder: seq<string>)
    requires AllPrintable(hosts) && DistinctNames(hosts) && ValidOrders(hosts, varOrders, groupOrder)
    requires !NoHeaderLines(hosts, varOrders)
    ensures !SameHosts(ParsedHosts(Unlines(PrintedLines(hosts, varOrders, groupOrder))), Fill(TableOf(hosts)))
  {
    ScanPrinted(hosts, varOrders, groupOrder);
    var st := ScanLines(IN_ALL, HostLines(hosts, varOrders));
    var r, e := ScanLines(st, GroupBlocks(hosts, groupOrder)).hosts, Fill(TableOf(hosts));
    if !CleanHosts(hosts, varOrders) {
      var name := BrokenHost(IN_ALL, hosts, varOrders);
      BlocksKeep(st, hosts, groupOrder, name);
      assert ANSIBLE_HOST in e[name].vars && ANSIBLE_HOST !in Lookup(r, name).vars;
    } else {
      AllSectionScan(hosts, varOrders);
      var name := BrokenMember(hosts);
      BareTableAt(hosts, name);
      BlocksKeep(st, hosts, groupOrder, name);
      assert e[name].groups[0] in ToSet(e[name].groups) && Lookup(r, name).groups == [];
    }
  }

  // Parsing what was printed, under any iteration orders, gives the same hosts and group sets
  // with ansible_host filled in, exactly when no printed host line looks like a header.
  lemma RoundTrip(hosts: seq<InventoryHost>, varOrders: seq<seq<string>>, groupOrder: seq<string>)
    requires AllPrintable(hosts) && DistinctNames(hosts) && ValidOrders(hosts, varOrders, groupOrder)
    ensures SameHosts(ParsedHosts(Unlines(PrintedLines(hosts, varOrders, groupOrder))), Fill(TableOf(hosts)))
       <==> NoHeaderLines(hosts, varOrders)
  {
    if NoHeaderLines(hosts, varOrders) {
      RoundTripClean(hosts, varOrders, groupOrder);
    } else {
      RoundTripBroken(hosts, varOrders, groupOrder);
    }
  }
}
