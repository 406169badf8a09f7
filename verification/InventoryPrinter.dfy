/** agent/internal/runner/inventory.go: the printer, appending to a builder and to a map of slices. */
module InventoryPrinter {
  import opened Text
  import opened Inventory

  lemma HostLineGrows(h: InventoryHost, order: seq<string>, k: string)
    requires k in h.vars
    ensures HostLine(h, order + [k]) == HostLine(h, order) + " " + k + "=" + h.vars[k]
  {
    assert (order + [k])[..|order|] == order;
    assert HostArgs(h, order + [k]) == HostArgs(h, order) + [Pair(h.vars, k)];
    SpacedConcat(HostArgs(h, order), [Pair(h.vars, k)]);
    assert Spaced([Pair(h.vars, k)]) == " " + k + "=" + h.vars[k];
  }

  lemma HostLineStart(h: InventoryHost)
    ensures HostLine(h, []) == h.hostname + " ansible_host=" + h.hostname
  {
    assert HostArgs(h, []) == ["ansible_host=" + h.hostname];
    assert Spaced(HostArgs(h, [])) == " ansible_host=" + h.hostname;
  }

  // One line of the [all] section; the variables come in the order the map yields them.
  method WriteHost(h: InventoryHost) returns (line: string, ghost order: seq<string>)
    ensures Iterates(order, h.vars.Keys)
    ensures line == HostLine(h, order)
  {
    line := h.hostname + " ansible_host=" + h.hostname;
    order := [];
    HostLineStart(h);
    var rest := h.vars.Keys;
    while rest != {}
      invariant rest <= h.vars.Keys
      invariant Iterates(order, h.vars.Keys - rest)
      invariant line == HostLine(h, order)
      decreases rest
    {
      var k :| k in rest;
      HostLineGrows(h, order, k);
      line := line + " " + k + "=" + h.vars[k];
      rest := rest - {k};
      order := order + [k];
    }
  }

  function Get(groups: map<string, seq<string>>, g: string): seq<string> {
    if g in groups then groups[g] else []
  }

  // groups[g] = append(groups[g], name) for each g in turn.
  function Gather(groups: map<string, seq<string>>, gs: seq<string>, name: string): map<string, seq<string>> {
    if gs == [] then groups
    else
      var g, before := gs[|gs| - 1], Gather(groups, gs[..|gs| - 1], name);
      before[g := Get(before, g) + [name]]
  }

  function GroupMap(hosts: seq<InventoryHost>): map<string, seq<string>> {
    if hosts == [] then map[]
    else
      var h := hosts[|hosts| - 1];
      Gather(GroupMap(hosts[..|hosts| - 1]), h.groups, h.hostname)
  }

  lemma {:induction false} GatherMeaning(groups: map<string, seq<string>>, gs: seq<string>, name: string, g: string)
    ensures Get(Gather(groups, gs, name), g) == Get(groups, g) + Mentions(gs, g, name)
    ensures g in Gather(groups, gs, name) <==> g in groups || g in gs
  {
    if gs != [] {
      GatherMeaning(groups, gs[..|gs| - 1], name, g);
    }
  }

  // What the nested loops collect: for every group mentioned by some host, its members.
  lemma {:induction false} GroupMapMeaning(hosts: seq<InventoryHost>, g: string)
    ensures Get(GroupMap(hosts), g) == Members(hosts, g)
    ensures g in GroupMap(hosts) <==> g in AllGroups(hosts)
  {
    if hosts != [] {
      var h, front := hosts[|hosts| - 1], hosts[..|hosts| - 1];
      GroupMapMeaning(front, g);
      GatherMeaning(GroupMap(front), h.groups, h.hostname, g);
    }
  }

  method CollectGroups(hosts: seq<InventoryHost>) returns (groups: map<string, seq<string>>)
    ensures groups == GroupMap(hosts)
  {
    groups := map[];
    for i := 0 to |hosts|
      invariant groups == GroupMap(hosts[..i])
    {
      var h := hosts[i];
      ghost var before := groups;
      for j := 0 to |h.groups|
        invariant groups == Gather(before, h.groups[..j], h.hostname)
      {
        assert h.groups[..j + 1][..j] == h.groups[..j];
        groups := groups[h.groups[j] := Get(groups, h.groups[j]) + [h.hostname]];
      }
      assert h.groups[..|h.groups|] == h.groups;
      assert hosts[..i + 1][..i] == hosts[..i];
    }
    assert hosts[..|hosts|] == hosts;
  }

  // The text of the [all] section up to host i.
  function AllSection(hosts: seq<InventoryHost>, varOrders: seq<seq<string>>): string
    requires |varOrders| == |hosts|
  {
    Unlines(["[all]"] + HostLines(hosts, varOrders))
  }

  lemma AllSectionGrows(hosts: seq<InventoryHost>, i: nat, varOrders: seq<seq<string>>, order: seq<string>)
    requires |varOrders| == i < |hosts|
    ensures AllSection(hosts[..i + 1], varOrders + [order])
         == AllSection(hosts[..i], varOrders) + HostLine(hosts[i], order) + "\n"
  {
    var ls, line := HostLines(hosts[..i], varOrders), HostLine(hosts[i], order);
    assert hosts[..i + 1][..i] == hosts[..i] && (varOrders + [order])[..i] == varOrders;
    assert ["[all]"] + (ls + [line]) == (["[all]"] + ls) + [line];
    UnlinesSnoc(["[all]"] + ls, line);
  }

  method WriteHosts(hosts: seq<InventoryHost>) returns (text: string, ghost varOrders: seq<seq<string>>)
    ensures VarOrders(hosts, varOrders)
    ensures text == AllSection(hosts, varOrders)
  {
    text := "[all]\n";
    varOrders := [];
    UnlinesOne("[all]");
    for i := 0 to |hosts|
      invariant VarOrders(hosts[..i], varOrders)
      invariant text == AllSection(hosts[..i], varOrders)
    {
      var line, order := WriteHost(hosts[i]);
      text := text + line + "\n";
      AllSectionGrows(hosts, i, varOrders, order);
      assert hosts[..i + 1][..i] == hosts[..i] && (varOrders + [order])[..i] == varOrders;
      varOrders := varOrders + [order];
    }
    assert hosts[..|hosts|] == hosts;
  }

  method WriteGroup(group: string, members: seq<string>) returns (text: string)
    ensures text == Unlines(["[" + group + "]"] + members + [""])
  {
    var header := ["[" + group + "]"];
    text := "[" + group + "]\n";
    for m := 0 to |members|
      invariant text == Unlines(header + members[..m])
    {
      text := text + members[m] + "\n";
      assert header + members[..m + 1] == (header + members[..m]) + [members[m]];
      UnlinesSnoc(header + members[..m], members[m]);
    }
    assert members[..|members|] == members;
    UnlinesBlank(header + members);
    text := text + "\n";
  }

  // A print of the hosts: the text under some iteration order of every map involved.
  ghost predicate Prints(hosts: seq<InventoryHost>, text: string) {
    exists varOrders, groupOrder ::
        ValidOrders(hosts, varOrders, groupOrder) && text == Unlines(PrintedLines(hosts, varOrders, groupOrder))
  }

  method WriteInventory(hosts: seq<InventoryHost>) returns (text: string)
    ensures Prints(hosts, text)
  {
    ghost var varOrders, groupOrder;
    text, varOrders := WriteHosts(hosts);
    UnlinesBlank(["[all]"] + HostLines(hosts, varOrders));
    text := text + "\n";
    var groups := CollectGroups(hosts);
    forall g
      ensures g in groups <==> g in AllGroups(hosts)
    {
      GroupMapMeaning(hosts, g);
    }
    assert groups.Keys == AllGroups(hosts);
    text, groupOrder := WriteGroups(hosts, groups, text, varOrders);
  }

  // The range over the group map.
  method WriteGroups(hosts: seq<InventoryHost>, groups: map<string, seq<string>>, head: string,
                     ghost varOrders: seq<seq<string>>)
    returns (text: string, ghost groupOrder: seq<string>)
    requires groups == GroupMap(hosts)
    requires |varOrders| == |hosts| && head == Unlines(["[all]"] + HostLines(hosts, varOrders) + [""])
    ensures Iterates(groupOrder, groups.Keys)
    ensures text == Unlines(PrintedLines(hosts, varOrders, groupOrder))
  {
    text := head;
    groupOrder := [];
    assert PrintedLines(hosts, varOrders, []) == ["[all]"] + HostLines(hosts, varOrders) + [""];
    var rest := groups.Keys;
    while rest != {}
      invariant rest <= groups.Keys
      invariant Iterates(groupOrder, groups.Keys - rest)
      invariant text == Unlines(PrintedLines(hosts, varOrders, groupOrder))
      decreases rest
    {
      var group :| group in rest;
      GroupMapMeaning(hosts, group);
      var block := WriteGroup(group, groups[group]);
      text := text + block;
      PrintedGrows(hosts, varOrders, groupOrder, group);
      rest := rest - {group};
      groupOrder := groupOrder + [group];
    }
  }

  lemma PrintedGrows(hosts: seq<InventoryHost>, varOrders: seq<seq<string>>, order: seq<string>, group: string)
    requires |varOrders| == |hosts|
    ensures Unlines(PrintedLines(hosts, varOrders, order + [group]))
         == Unlines(PrintedLines(hosts, varOrders, order)) + Unlines(GroupBlock(hosts, group))
  {
    assert (order + [group])[..|order|] == order;
    assert PrintedLines(hosts, varOrders, order + [group])
        == PrintedLines(hosts, varOrders, order) + GroupBlock(hosts, group);
    UnlinesConcat(PrintedLines(hosts, varOrders, order), GroupBlock(hosts, group));
  }

  // What a print looks like: two hosts, the first with a variable, and a group of both.
  function Layout(a: string, b: string, k: string, v: string, g: string): seq<string> {
    ["[all]", a + " ansible_host=" + a + " " + k + "=" + v, b + " ansible_host=" + b, "", "[" + g + "]", a, b, ""]
  }

  lemma PrintedExactly(project: nat, a: string, b: string, k: string, v: string, g: string, text: string)
    ensures var x := InventoryHost(project, a, [g], map[k := v]);
            var y := InventoryHost(project, b, [g], map[]);
            Prints([x, y], text) <==> text == Unlines(Layout(a, b, k, v, g))
  {
    var x, y := InventoryHost(project, a, [g], map[k := v]), InventoryHost(project, b, [g], map[]);
    LayoutLines(x, y, k, g);
    GroupsOfBoth(x, y, g);
    if Prints([x, y], text) {
      var varOrders, groupOrder :|
        ValidOrders([x, y], varOrders, groupOrder) && text == Unlines(PrintedLines([x, y], varOrders, groupOrder));
      OrdersOfBoth(x, y, k, varOrders);
      OrderOfOne(groupOrder, g);
    }
    SomeOrders(x, y, k);
    assert text == Unlines(Layout(a, b, k, v, g)) ==> ValidOrders([x, y], [[k], []], [g]);
  }

  lemma LayoutLines(x: InventoryHost, y: InventoryHost, k: string, g: string)
    requires x.groups == [g] && y.groups == [g] && k in x.vars
    ensures PrintedLines([x, y], [[k], []], [g]) == Layout(x.hostname, y.hostname, k, x.vars[k], g)
  {
    var orders := [[k], []];
    HostLineStart(x);
    HostLineGrows(x, [], k);
    HostLineStart(y);
    assert [] + [k] == [k];
    assert HostLines([x, y], orders) == [HostLine(x, orders[0]), HostLine(y, orders[1])];
    MembersOfBoth(x, y, g);
    assert [g][..0] == [];
    assert GroupBlocks([x, y], [g]) == GroupBlock([x, y], g);
  }

  lemma GroupsOfBoth(x: InventoryHost, y: InventoryHost, g: string)
    requires x.groups == [g] && y.groups == [g]
    ensures AllGroups([x, y]) == {g}
  {
    assert [x, y][..1] == [x] && [x][..0] == [];
    assert AllGroups([x]) == AllGroups([]) + ToSet([g]);
  }

  lemma MentionsOnce(g: string, name: string)
    ensures Mentions([g], g, name) == [name]
  {
    assert [g][..0] == [];
  }

  lemma MembersOfBoth(x: InventoryHost, y: InventoryHost, g: string)
    requires x.groups == [g] && y.groups == [g]
    ensures Members([x, y], g) == [x.hostname, y.hostname]
  {
    assert [x, y][..1] == [x] && [x][..0] == [];
    MentionsOnce(g, x.hostname);
    MentionsOnce(g, y.hostname);
    assert Members([x], g) == Members([], g) + [x.hostname];
  }

  lemma OrderOfOne(order: seq<string>, k: string)
    requires Iterates(order, {k})
    ensures order == [k]
  {
    assert |order| == |multiset(order)| == 1;
    assert order[0] in multiset(order);
  }

  lemma OrdersOfBoth(x: InventoryHost, y: InventoryHost, k: string, varOrders: seq<seq<string>>)
    requires VarOrders([x, y], varOrders) && x.vars.Keys == {k} && y.vars == map[]
    ensures varOrders == [[k], []]
  {
    assert [x, y][..1] == [x];
    assert VarOrders([x], varOrders[..1]);
    OrderOfOne(varOrders[0], k);
    assert |varOrders[1]| == |multiset(varOrders[1])| == 0;
  }

  lemma SomeOrders(x: InventoryHost, y: InventoryHost, k: string)
    requires x.vars.Keys == {k} && y.vars == map[]
    ensures VarOrders([x, y], [[k], []])
  {
    assert [x, y][..1] == [x] && [x][..0] == [] && [[k], []][..1] == [[k]] && [[k]][..0] == [];
    assert VarOrders([x], [[k]]);
  }
}
