/** controller/inventory/gitfile.go: the line scanner that fills the host map in place. */
module InventoryParser {
  import opened Wrappers
  import opened Text
  import opened Inventory

  // The *types.InventoryHost values that hostMap points to while the file is scanned.
  class HostRecord {
    const projectID: nat
    const hostname: string
    var vars: map<string, string>
    var groups: seq<string>

    constructor (projectID: nat, hostname: string)
      ensures this.projectID == projectID && this.hostname == hostname
      ensures vars == map[] && groups == []
    {
      this.projectID, this.hostname := projectID, hostname;
      vars, groups := map[], [];
    }

    function Data(): HostData
      reads this
    {
      HostData(vars, groups)
    }

    // The loop over parts[1:].
    method AssignVars(kvs: seq<string>)
      modifies this`vars
      ensures vars == AssignAll(old(vars), kvs)
    {
      for i := 0 to |kvs|
        invariant vars == AssignAll(old(vars), kvs[..i])
      {
        assert kvs[..i + 1][..i] == kvs[..i];
        var idx := Index(kvs[i], '=');
        if idx > 0 {
          vars := vars[kvs[i][..idx] := kvs[i][idx + 1..]];
        }
      }
      assert kvs[..|kvs|] == kvs;
    }

    // The duplicate search and the append.
    method JoinGroup(group: string)
      modifies this`groups
      ensures groups == Join(old(groups), group)
    {
      if group != "" && group != "all" {
        var found := false;
        var i := 0;
        while i < |groups| && !found
          invariant i <= |groups|
          invariant found <==> group in groups[..i]
        {
          found := groups[i] == group;
          i := i + 1;
        }
        assert !found ==> groups[..i] == groups;
        if !found {
          groups := groups + [group];
        }
      }
    }
  }

  // hostMap and the table it stands for: one record of its own per hostname.
  ghost predicate Represents(hostMap: map<string, HostRecord>, projectID: nat, table: HostTable)
    reads hostMap.Values
  {
    && hostMap.Keys == table.Keys
    && forall name | name in hostMap ::
         && hostMap[name].projectID == projectID
         && hostMap[name].hostname == name
         && hostMap[name].Data() == table[name]
  }

  // The body of the scan loop for a host entry.
  method EnterHost(projectID: nat, hostMap: map<string, HostRecord>, parts: seq<string>, group: string,
                   ghost table: HostTable)
    returns (hostMap': map<string, HostRecord>)
    requires parts != []
    requires Represents(hostMap, projectID, table)
    modifies hostMap.Values
    ensures Represents(hostMap', projectID, AddEntry(table, parts, group))
    ensures fresh(hostMap'.Values - hostMap.Values)
  {
    var hostname := parts[0];
    hostMap' := hostMap;
    if hostname !in hostMap {
      var h := new HostRecord(projectID, hostname);
      hostMap' := hostMap[hostname := h];
    }
    var h := hostMap'[hostname];
    h.AssignVars(parts[1..]);
    h.JoinGroup(group);
    forall name | name in hostMap' && name != hostname
      ensures hostMap'[name] != h
    {
      assert hostMap'[name].hostname == name;
    }
  }

  // The loop body: one line, in section `group` or in a skipped one.
  method ReadLine(projectID: nat, hostMap: map<string, HostRecord>, raw: string, group: string, skip: bool,
                  ghost table: HostTable)
    returns (hostMap': map<string, HostRecord>, group': string, skip': bool)
    requires Represents(hostMap, projectID, table)
    modifies hostMap.Values
    ensures ScanLine(Scan(table, group, skip), raw).group == group'
    ensures ScanLine(Scan(table, group, skip), raw).skip == skip'
    ensures Represents(hostMap', projectID, ScanLine(Scan(table, group, skip), raw).hosts)
    ensures fresh(hostMap'.Values - hostMap.Values)
  {
    hostMap', group', skip' := hostMap, group, skip;
    var line := TrimSpace(raw);
    if line == "" || line[0] == '#' || line[0] == ';' {
      return;
    }
    if line[0] == '[' && line[|line| - 1] == ']' {
      var section := line[1..|line| - 1];
      if ':' in section {
        group' := "";
        skip' := true;
      } else {
        group' := section;
        skip' := false;
      }
      return;
    }
    if skip {
      return;
    }
    var parts := Fields(line);
    hostMap' := EnterHost(projectID, hostMap, parts, group, table);
  }

  // file is None when the file cannot be opened.
  method ParseINIInventory(projectID: nat, file: Option<string>) returns (r: Result<seq<InventoryHost>>)
    ensures r.Err? <==> file.None? || TooLong(file.value)
    ensures r.Ok? ==> Lists(r.value, projectID, ParsedHosts(file.value))
  {
    if file.None? {
      return Err("open");
    }
    var hostMap: map<string, HostRecord> := map[];
    var currentGroup := "";
    var skipSection := false;

    var lines := Lines(file.value);
    ghost var st := START;
    for i := 0 to |lines|
      invariant st == ScanLines(START, lines[..i])
      invariant st.group == currentGroup && st.skip == skipSection
      invariant Represents(hostMap, projectID, st.hosts)
      invariant fresh(hostMap.Values)
    {
      hostMap, currentGroup, skipSection := ReadLine(projectID, hostMap, lines[i], currentGroup, skipSection, st.hosts);
      st := ScanLine(st, lines[i]);
      ScanNext(START, lines, i);
    }
    assert lines[..|lines|] == lines;
    if TooLong(file.value) {
      return Err("scan inventory");
    }
    var hosts := CollectHosts(projectID, hostMap, st.hosts);
    r := Ok(hosts);
  }

  // The final range over hostMap, in whatever order the map yields.
  method CollectHosts(projectID: nat, hostMap: map<string, HostRecord>, ghost table: HostTable)
    returns (hosts: seq<InventoryHost>)
    requires Represents(hostMap, projectID, table)
    ensures Lists(hosts, projectID, table)
  {
    hosts := [];
    var rest := hostMap.Keys;
    while rest != {}
      invariant rest <= hostMap.Keys
      invariant Lists(hosts, projectID, table - rest)
      decreases rest
    {
      var name :| name in rest;
      var h := hostMap[name];
      var row := InventoryHost(h.projectID, h.hostname, h.groups, h.vars);
      assert (hosts + [row])[..|hosts|] == hosts;
      assert table - (rest - {name}) == (table - rest)[name := table[name]];
      assert h.Data() == table[name];
      hosts := hosts + [row];
      rest := rest - {name};
    }
    assert table - {} == table;
  }
}
