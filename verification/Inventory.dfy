/**
 The inventory entity and the meaning of inventory text: what each line does to the scan
 state (controller/inventory/gitfile.go) and which text a host list is printed as
 (agent/internal/runner/inventory.go).
 */
module Inventory {
  import opened Text

  // One row of inventory_hosts; the parser and the printer only ever see string values.
  datatype InventoryHost =
    InventoryHost(projectID: nat, hostname: string, groups: seq<string>, vars: map<string, string>)

  // What is known about one hostname during a scan.
  datatype HostData = HostData(vars: map<string, string>, groups: seq<string>)

  type HostTable = map<string, HostData>

  datatype Scan = Scan(hosts: HostTable, group: string, skip: bool)

  const START := Scan(map[], "", false)

  predicate Ignored(line: string) {
    line == "" || line[0] == '#' || line[0] == ';'
  }

  // strings.HasPrefix(line, "[") && strings.HasSuffix(line, "]").
  predicate LooksLikeHeader(line: string) {
    line != "" && line[0] == '[' && line[|line| - 1] == ']'
  }

  function SectionName(line: string): string
    requires LooksLikeHeader(line)
  {
    line[1..|line| - 1]
  }

  function Assign(vars: map<string, string>, kv: string): map<string, string> {
    var idx := Index(kv, '=');
    if idx > 0 then vars[kv[..idx] := kv[idx + 1..]] else vars
  }

  // Assignments left to right.
  function AssignAll(vars: map<string, string>, kvs: seq<string>): map<string, string> {
    if kvs == [] then vars
    else Assign(AssignAll(vars, kvs[..|kvs| - 1]), kvs[|kvs| - 1])
  }

  function Join(groups: seq<string>, group: string): seq<string> {
    if group == "" || group == "all" || group in groups then groups else groups + [group]
  }

  function Lookup(hosts: HostTable, name: string): HostData {
    if name in hosts then hosts[name] else HostData(map[], [])
  }

  function AddEntry(hosts: HostTable, parts: seq<string>, group: string): HostTable
    requires parts != []
  {
    var h := Lookup(hosts, parts[0]);
    hosts[parts[0] := HostData(AssignAll(h.vars, parts[1..]), Join(h.groups, group))]
  }

  // The effect of one line of text.
  function ScanLine(st: Scan, raw: string): Scan {
    var line := TrimSpace(raw);
    if Ignored(line) then st
    else if LooksLikeHeader(line) then
      if ':' in SectionName(line) then st.(group := "", skip := true)
      else st.(group := SectionName(line), skip := false)
    else if st.skip then st
    else st.(hosts := AddEntry(st.hosts, Fields(line), st.group))
  }

  function ScanLines(st: Scan, lines: seq<string>): Scan {
    if lines == [] then st
    else ScanLine(ScanLines(st, lines[..|lines| - 1]), lines[|lines| - 1])
  }

  // The host table that a text denotes.
  function ParsedHosts(text: string): HostTable {
    ScanLines(START, Lines(text)).hosts
  }

  lemma {:induction false} ScanConcat(st: Scan, a: seq<string>, b: seq<string>)
    ensures ScanLines(st, a + b) == ScanLines(ScanLines(st, a), b)
    decreases |b|
  {
    if b == [] {
      assert a + b == a;
    } else {
      ScanConcat(st, a, b[..|b| - 1]);
      assert (a + b)[..|a + b| - 1] == a + b[..|b| - 1];
    }
  }

  lemma ScanNext(st: Scan, lines: seq<string>, i: nat)
    requires i < |lines|
    ensures ScanLines(st, lines[..i + 1]) == ScanLine(ScanLines(st, lines[..i]), lines[i])
  {
    assert lines[..i + 1][..i] == lines[..i];
  }

  lemma ScanOne(st: Scan, line: string)
    ensures ScanLines(st, [line]) == ScanLine(st, line)
  {
    assert [line][..0] == [];
  }

  // The table a list of host rows holds.
  function TableOf(hosts: seq<InventoryHost>): HostTable {
    if hosts == [] then map[]
    else
      var h := hosts[|hosts| - 1];
      TableOf(hosts[..|hosts| - 1])[h.hostname := HostData(h.vars, h.groups)]
  }

  predicate DistinctNames(hosts: seq<InventoryHost>) {
    hosts != [] ==>
      hosts[|hosts| - 1].hostname !in TableOf(hosts[..|hosts| - 1]) && DistinctNames(hosts[..|hosts| - 1])
  }

  // A list of host rows has every entry of a table exactly once, in some order.
  predicate Lists(hosts: seq<InventoryHost>, projectID: nat, table: HostTable) {
    DistinctNames(hosts) && TableOf(hosts) == table && forall h | h in hosts :: h.projectID == projectID
  }

  // Printing ------------------------------------------------------------------------------

  // " %s=%s" for one variable.
  function Pair(vars: map<string, string>, k: string): string {
    k + "=" + if k in vars then vars[k] else ""
  }

  function Pairs(vars: map<string, string>, order: seq<string>): (kvs: seq<string>)
    ensures |kvs| == |order|
    ensures forall i | 0 <= i < |order| :: kvs[i] == Pair(vars, order[i])
  {
    if order == [] then [] else Pairs(vars, order[..|order| - 1]) + [Pair(vars, order[|order| - 1])]
  }

  function HostArgs(h: InventoryHost, order: seq<string>): seq<string> {
    ["ansible_host=" + h.hostname] + Pairs(h.vars, order)
  }

  function HostLine(h: InventoryHost, order: seq<string>): string {
    h.hostname + Spaced(HostArgs(h, order))
  }

  // A map iteration visits every key once, in an order of its own.
  predicate Iterates(order: seq<string>, keys: set<string>) {
    multiset(order) == multiset(keys)
  }

  // One iteration order per host, over its variables.
  predicate VarOrders(hosts: seq<InventoryHost>, varOrders: seq<seq<string>>) {
    |varOrders| == |hosts|
    && (hosts != [] ==>
          var n := |hosts| - 1;
          Iterates(varOrders[n], hosts[n].vars.Keys) && VarOrders(hosts[..n], varOrders[..n]))
  }

  // The iteration orders taken while printing: over each host's variables and over the groups.
  predicate ValidOrders(hosts: seq<InventoryHost>, varOrders: seq<seq<string>>, groupOrder: seq<string>) {
    VarOrders(hosts, varOrders) && Iterates(groupOrder, AllGroups(hosts))
  }

  function ToSet(groups: seq<string>): set<string> {
    set g | g in groups
  }

  function AllGroups(hosts: seq<InventoryHost>): set<string> {
    if hosts == [] then {}
    else AllGroups(hosts[..|hosts| - 1]) + ToSet(hosts[|hosts| - 1].groups)
  }

  // The members collected for group g: each host once per mention of g, in host order.
  function Members(hosts: seq<InventoryHost>, g: string): seq<string> {
    if hosts == [] then []
    else
      var h := hosts[|hosts| - 1];
      Members(hosts[..|hosts| - 1], g) + Mentions(h.groups, g, h.hostname)
  }

  function Mentions(groups: seq<string>, g: string, name: string): seq<string> {
    if groups == [] then []
    else if groups[|groups| - 1] == g then Mentions(groups[..|groups| - 1], g, name) + [name]
    else Mentions(groups[..|groups| - 1], g, name)
  }

  function HostLines(hosts: seq<InventoryHost>, varOrders: seq<seq<string>>): (ls: seq<string>)
    requires |varOrders| == |hosts|
    ensures |ls| == |hosts|
    ensures forall i | 0 <= i < |hosts| :: ls[i] == HostLine(hosts[i], varOrders[i])
  {
    if hosts == [] then []
    else
      var n := |hosts| - 1;
      HostLines(hosts[..n], varOrders[..n]) + [HostLine(hosts[n], varOrders[n])]
  }

  function GroupBlock(hosts: seq<InventoryHost>, g: string): seq<string> {
    ["[" + g + "]"] + Members(hosts, g) + [""]
  }

  function GroupBlocks(hosts: seq<InventoryHost>, order: seq<string>): seq<string> {
    if order == [] then []
    else GroupBlocks(hosts, order[..|order| - 1]) + GroupBlock(hosts, order[|order| - 1])
  }

  function PrintedLines(hosts: seq<InventoryHost>, varOrders: seq<seq<string>>, groupOrder: seq<string>): seq<string>
    requires |varOrders| == |hosts|
  {
    ["[all]"] + HostLines(hosts, varOrders) + [""] + GroupBlocks(hosts, groupOrder)
  }
}
