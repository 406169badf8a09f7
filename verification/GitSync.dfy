/**
 From a project's inventory file through the inventory_hosts table to the file an agent writes:
 syncProject (controller/inventory/gitfile.go) and the two table methods it rests on
 (controller/internal/store/store.go).
 */
module GitSync {
  import opened Wrappers
  import opened Text
  import opened Inventory
  import opened InventoryParser
  import opened InventoryPrinter
  import opened InventoryRoundTrip
  import opened InventoryStability

  datatype SyncStatus = Never | Synced | SyncFailed

  // The rows of each project, in no order.
  type HostRows = map<nat, multiset<InventoryHost>>

  function RowsOf(rows: HostRows, project: nat): multiset<InventoryHost> {
    if project in rows then rows[project] else multiset{}
  }

  function Owned(hosts: seq<InventoryHost>, project: nat): (r: seq<InventoryHost>)
    ensures |r| == |hosts| && forall i | 0 <= i < |hosts| :: r[i] == hosts[i].(projectID := project)
  {
    if hosts == [] then [] else Owned(hosts[..|hosts| - 1], project) + [hosts[|hosts| - 1].(projectID := project)]
  }

  lemma OwnedNext(hosts: seq<InventoryHost>, project: nat, i: nat)
    requires i < |hosts|
    ensures multiset(Owned(hosts[..i + 1], project))
         == multiset(Owned(hosts[..i], project)) + multiset{hosts[i].(projectID := project)}
  {
    assert hosts[..i + 1][..i] == hosts[..i];
  }

  class HostStore {
    var rows: HostRows
    var status: map<nat, SyncStatus>
    ghost var faults: nat  // statements that reported an error

    method Fault() returns (error: bool)
      modifies this`faults
      ensures faults == old(faults) + if error then 1 else 0
    {
      error := *;
      if error {
        faults := faults + 1;
      }
    }

    // One transaction: DELETE, one INSERT per host, COMMIT. Any statement can fail, and then
    // nothing of it stays; a commit may also succeed although its reply is lost.
    method UpsertInventoryHosts(project: nat, hosts: seq<InventoryHost>) returns (error: bool, ghost committed: bool)
      modifies this`rows, this`faults
      ensures committed || error
      ensures faults == old(faults) + if error then 1 else 0
      ensures rows == if committed then old(rows)[project := multiset(Owned(hosts, project))] else old(rows)
    {
      committed := false;
      error := Fault();
      if error {
        return;
      }
      error := Fault();
      if error {
        return;
      }
      var tx := multiset{};
      for i := 0 to |hosts|
        invariant rows == old(rows) && faults == old(faults) && !committed && tx == multiset(Owned(hosts[..i], project))
      {
        error := Fault();
        if error {
          return;
        }
        var h := hosts[i];
        OwnedNext(hosts, project, i);
        tx := tx + multiset{InventoryHost(project, h.hostname, h.groups, h.vars)};
      }
      assert hosts[..|hosts|] == hosts;
      error := Fault();
      var reached := *;
      if error && !reached {
        return;
      }
      rows := rows[project := tx];
      committed := true;
    }

    // SELECT without ORDER BY: the rows in any order.
    method GetInventoryHosts(project: nat) returns (hosts: Option<seq<InventoryHost>>)
      modifies this`faults
      ensures hosts.Some? ==> multiset(hosts.value) == RowsOf(rows, project)
      ensures faults == old(faults) + if hosts.None? then 1 else 0
    {
      var error := Fault();
      if error {
        return None;
      }
      var list: seq<InventoryHost> := [];
      var rest := if project in rows then rows[project] else multiset{};
      while rest != multiset{}
        invariant multiset(list) + rest == RowsOf(rows, project) && faults == old(faults)
        decreases rest
      {
        var h :| h in rest;
        list := list + [h];
        rest := rest - multiset{h};
      }
      hosts := Some(list);
    }

    method UpdateProjectSyncStatus(project: nat, to: SyncStatus)
      modifies this`status, this`faults
      ensures old(faults) <= faults <= old(faults) + 1
      ensures status == old(status)[project := to] || (status == old(status) && faults > old(faults))
    {
      var error := Fault();
      var reached := *;
      if !error || reached {
        status := status[project := to];
      }
    }

    // syncProject after the checkout, whose outcome is `checkedOut`; file is None when it cannot
    // be opened. A sync that fails leaves the rows of the last one that did not; one of a readable
    // file fails only if the store reports an error.
    method SyncProject(project: nat, checkedOut: bool, file: Option<string>)
      returns (error: bool, ghost committed: bool)
      modifies this
      ensures committed || error
      ensures !Readable(checkedOut, file) ==> error && !committed
      ensures Readable(checkedOut, file) && error ==> faults > old(faults)
      ensures committed ==> Readable(checkedOut, file) && Holds(rows, project, ParsedHosts(file.value))
      ensures committed ==> project in rows && rows == old(rows)[project := rows[project]]
      ensures !committed ==> rows == old(rows)
      ensures status == old(status)[project := if error then SyncFailed else Synced]
              || (status == old(status)
                  && faults > old(faults) + if error && Readable(checkedOut, file) then 1 else 0)
    {
      error, committed := true, false;
      if !checkedOut {
        UpdateProjectSyncStatus(project, SyncFailed);
        return;
      }
      var hosts := ParseINIInventory(project, file);
      if hosts.Err? {
        UpdateProjectSyncStatus(project, SyncFailed);
        return;
      }
      error, committed := UpsertInventoryHosts(project, hosts.value);
      if committed {
        assert Owned(hosts.value, project) == hosts.value;
      }
      if error {
        UpdateProjectSyncStatus(project, SyncFailed);
        return;
      }
      UpdateProjectSyncStatus(project, Synced);
    }
  }

  // The file was fetched, exists, and has no line that the scanner cannot hold.
  predicate Readable(checkedOut: bool, file: Option<string>) {
    checkedOut && file.Some? && !TooLong(file.value)
  }

  // The rows of a project are those of a host table.
  ghost predicate Holds(rows: HostRows, project: nat, table: HostTable) {
    exists hosts :: Lists(hosts, project, table) && multiset(hosts) == RowsOf(rows, project)
  }

  // Any order ------------------------------------------------------------------------------------

  lemma {:induction false} TableAt(hosts: seq<InventoryHost>, i: nat)
    requires DistinctNames(hosts) && i < |hosts|
    ensures var h := hosts[i]; h.hostname in TableOf(hosts) && TableOf(hosts)[h.hostname] == HostData(h.vars, h.groups)
    ensures forall j | i < j < |hosts| :: hosts[i].hostname != hosts[j].hostname
  {
    var n := |hosts| - 1;
    if i < n {
      TableAt(hosts[..n], i);
      forall j | i < j < n
        ensures hosts[i].hostname != hosts[j].hostname
      {
        assert hosts[..n][i] == hosts[i] && hosts[..n][j] == hosts[j];
      }
    }
  }

  lemma {:induction false} NameListed(hosts: seq<InventoryHost>, name: string) returns (i: nat)
    requires name in TableOf(hosts)
    ensures i < |hosts| && hosts[i].hostname == name
  {
    i := |hosts| - 1;
    if name != hosts[i].hostname {
      i := NameListed(hosts[..i], name);
    }
  }

  lemma {:induction false} DistinctFrom(hosts: seq<InventoryHost>)
    requires forall i, j | 0 <= i < j < |hosts| :: hosts[i].hostname != hosts[j].hostname
    ensures DistinctNames(hosts)
  {
    if hosts != [] {
      var n := |hosts| - 1;
      DistinctFrom(hosts[..n]);
      if hosts[n].hostname in TableOf(hosts[..n]) {
        var i := NameListed(hosts[..n], hosts[n].hostname);
      }
    }
  }

  lemma {:induction false} OnceOnly(hosts: seq<InventoryHost>, h: InventoryHost)
    requires DistinctNames(hosts)
    ensures multiset(hosts)[h] <= 1
  {
    if hosts != [] {
      var n := |hosts| - 1;
      OnceOnly(hosts[..n], h);
      assert hosts == hosts[..n] + [hosts[n]];
      if h in hosts[..n] {
        var i :| 0 <= i < n && hosts[..n][i] == h;
        TableAt(hosts[..n], i);
      }
    }
  }

  lemma Twice(hosts: seq<InventoryHost>, i: nat, j: nat)
    requires i < j < |hosts| && hosts[i] == hosts[j]
    ensures multiset(hosts)[hosts[i]] >= 2
  {
    assert hosts == hosts[..j] + [hosts[j]] + hosts[j + 1..];
    assert hosts[i] in hosts[..j];
  }

  lemma SameElements(a: seq<InventoryHost>, b: seq<InventoryHost>)
    requires multiset(a) == multiset(b)
    ensures forall h :: h in a <==> h in b
  {
    assert forall h :: h in a <==> h in multiset(a);
    assert forall h :: h in b <==> h in multiset(b);
  }

  lemma PermutedDistinct(a: seq<InventoryHost>, b: seq<InventoryHost>)
    requires DistinctNames(a) && multiset(a) == multiset(b)
    ensures DistinctNames(b)
  {
    SameElements(a, b);
    forall i, j | 0 <= i < j < |b|
      ensures b[i].hostname != b[j].hostname
    {
      assert b[i] in a && b[j] in a;
      var m: nat :| m < |a| && a[m] == b[i];
      var n: nat :| n < |a| && a[n] == b[j];
      TableAt(a, m);
      TableAt(a, n);
      if m == n {
        OnceOnly(a, b[i]);
        Twice(b, i, j);
      }
    }
    DistinctFrom(b);
  }

  lemma PermutedTable(a: seq<InventoryHost>, b: seq<InventoryHost>, name: string)
    requires DistinctNames(a) && DistinctNames(b) && multiset(a) == multiset(b) && name in TableOf(a)
    ensures name in TableOf(b) && TableOf(b)[name] == TableOf(a)[name]
  {
    var i := NameListed(a, name);
    TableAt(a, i);
    SameElements(a, b);
    assert a[i] in b;
    var j: nat :| j < |b| && b[j] == a[i];
    TableAt(b, j);
  }

  // The order of the rows does not matter.
  lemma Permuted(a: seq<InventoryHost>, b: seq<InventoryHost>, project: nat, table: HostTable)
    requires Lists(a, project, table) && multiset(a) == multiset(b)
    ensures Lists(b, project, table)
  {
    PermutedDistinct(a, b);
    SameElements(a, b);
    forall name | name in table
      ensures name in TableOf(b) && TableOf(b)[name] == table[name]
    {
      PermutedTable(a, b, name);
    }
    forall name | name in TableOf(b)
      ensures name in table
    {
      PermutedTable(b, a, name);
    }
    assert TableOf(b) == table;
  }

  // End to end -----------------------------------------------------------------------------------

  // What an agent's inventory file says, for any order of the rows and of the maps, is what the
  // project's file said at its last sync, with ansible_host filled in, exactly when no host line
  // of the agent's file looks like a header.
  lemma AgentSeesProject(rows: HostRows, project: nat, file: string, hosts: seq<InventoryHost>,
                         varOrders: seq<seq<string>>, groupOrder: seq<string>)
    requires Holds(rows, project, ParsedHosts(file)) && multiset(hosts) == RowsOf(rows, project)
    requires ValidOrders(hosts, varOrders, groupOrder)
    ensures SameHosts(ParsedHosts(Unlines(PrintedLines(hosts, varOrders, groupOrder))), Fill(ParsedHosts(file)))
       <==> NoHeaderLines(hosts, varOrders)
    ensures NoBracketNames(ParsedHosts(file)) ==> NoHeaderLines(hosts, varOrders)
  {
    var listed :| Lists(listed, project, ParsedHosts(file)) && multiset(listed) == RowsOf(rows, project);
    Permuted(listed, hosts, project, ParsedHosts(file));
    ReprintParsed(file, project, hosts, varOrders, groupOrder);
    if NoBracketNames(ParsedHosts(file)) {
      ParsedPrintable(file, project, hosts);
      NoBracketsClean(hosts, varOrders);
    }
  }

  // So with no such name, any file an agent can write is faithful.
  lemma AgentFileFaithful(rows: HostRows, project: nat, file: string, hosts: seq<InventoryHost>, text: string)
    requires Holds(rows, project, ParsedHosts(file)) && multiset(hosts) == RowsOf(rows, project)
    requires Prints(hosts, text) && NoBracketNames(ParsedHosts(file))
    ensures SameHosts(ParsedHosts(text), Fill(ParsedHosts(file)))
  {
    var varOrders, groupOrder :|
      ValidOrders(hosts, varOrders, groupOrder) && text == Unlines(PrintedLines(hosts, varOrders, groupOrder));
    AgentSeesProject(rows, project, file, hosts, varOrders, groupOrder);
  }
}
