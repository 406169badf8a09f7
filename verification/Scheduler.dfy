/** controller/internal/scheduler/scheduler.go: the registry of schedules against the cron entries. */
module Scheduling {
  import opened Wrappers
  import Text

  type ScheduleId = nat
  type EntryId = nat

  // A row of the schedules table, as far as a firing uses it.
  datatype Schedule = Schedule(id: ScheduleId, templateId: nat, cronExpr: string, timezone: string,
                               extraVars: map<string, string>)

  // The decisions of time.LoadLocation, of the five-field parser and of the cron library.
  datatype Library = Library(loads: string -> bool, parses: string -> bool, adds: (string, string) -> bool)

  predicate Accepted(lib: Library, sc: Schedule) {
    lib.loads(sc.timezone) && lib.parses(sc.cronExpr) && lib.adds(sc.timezone, sc.cronExpr)
  }

  // Schedules by id, each in the version it was registered in.
  type Registry = map<ScheduleId, Schedule>

  predicate Active(list: seq<Schedule>, id: ScheduleId) {
    exists i :: 0 <= i < |list| && list[i].id == id
  }

  function Kept(reg: Registry, list: seq<Schedule>): Registry {
    map id | id in reg && Active(list, id) :: reg[id]
  }

  function Entered(lib: Library, reg: Registry, list: seq<Schedule>): Registry {
    if list == [] then reg
    else
      var before, sc := Entered(lib, reg, list[..|list| - 1]), list[|list| - 1];
      if sc.id !in before && Accepted(lib, sc) then before[sc.id := sc] else before
  }

  // What sync makes of the registry.
  function Synced(lib: Library, reg: Registry, list: seq<Schedule>): Registry {
    Entered(lib, Kept(reg, list), list)
  }

  // The cron library's entries.
  class Cron {
    var entries: map<EntryId, Schedule>
    var nextId: EntryId
    const lib: Library

    constructor (lib: Library)
      ensures entries == map[] && nextId == 0 && this.lib == lib
    {
      this.lib := lib;
      entries, nextId := map[], 0;
    }

    // AddFunc, with the schedule that the callback captures.
    method AddFunc(sc: Schedule) returns (id: Option<EntryId>)
      modifies this
      ensures id.Some? <==> lib.adds(sc.timezone, sc.cronExpr)
      ensures id.Some? ==> id.value == old(nextId) + 1 == nextId && entries == old(entries)[id.value := sc]
      ensures id.None? ==> entries == old(entries) && nextId == old(nextId)
    {
      if !lib.adds(sc.timezone, sc.cronExpr) {
        return None;
      }
      nextId := nextId + 1;
      entries := entries[nextId := sc];
      return Some(nextId);
    }

    method Remove(id: EntryId)
      modifies this
      ensures entries == old(entries) - {id} && nextId == old(nextId)
    {
      entries := entries - {id};
    }
  }

  // The cron entries are exactly the values of entryIds, no two schedules share one, and the
  // entry of a schedule is the version in the registry.
  predicate Agree(entryIds: map<ScheduleId, EntryId>, entries: map<EntryId, Schedule>, reg: Registry) {
    && entryIds.Keys == reg.Keys
    && (forall id | id in entryIds :: reg[id].id == id && entryIds[id] in entries && entries[entryIds[id]] == reg[id])
    && (forall e | e in entries :: entries[e].id in entryIds && entryIds[entries[e].id] == e)
  }

  lemma AgreeExactly(entryIds: map<ScheduleId, EntryId>, entries: map<EntryId, Schedule>, reg: Registry)
    requires Agree(entryIds, entries, reg)
    ensures entries.Keys == entryIds.Values
    ensures forall a, b | a in entryIds && b in entryIds && entryIds[a] == entryIds[b] :: a == b
    ensures |entries| == |reg|
  {
    EntriesSize(entryIds, entries, reg);
  }

  lemma {:induction false} EntriesSize(entryIds: map<ScheduleId, EntryId>, entries: map<EntryId, Schedule>,
                                       reg: Registry)
    requires Agree(entryIds, entries, reg)
    ensures |entries| == |reg|
    decreases |reg|
  {
    if reg != map[] {
      var id :| id in reg;
      AgreeRemove(entryIds, entries, reg, id);
      EntriesSize(entryIds - {id}, entries - {entryIds[id]}, reg - {id});
      assert reg == (reg - {id})[id := reg[id]];
      assert entries == (entries - {entryIds[id]})[entryIds[id] := reg[id]];
    } else {
      assert entries == map[];
    }
  }

  lemma AgreeRemove(entryIds: map<ScheduleId, EntryId>, entries: map<EntryId, Schedule>, reg: Registry, id: ScheduleId)
    requires Agree(entryIds, entries, reg) && id in entryIds
    ensures Agree(entryIds - {id}, entries - {entryIds[id]}, reg - {id})
  {
  }

  lemma AgreeAdd(entryIds: map<ScheduleId, EntryId>, entries: map<EntryId, Schedule>, reg: Registry, sc: Schedule,
                 e: EntryId)
    requires Agree(entryIds, entries, reg) && sc.id !in entryIds && e !in entries
    ensures Agree(entryIds[sc.id := e], entries[e := sc], reg[sc.id := sc])
  {
  }

  predicate Extends(before: map<ScheduleId, EntryId>, entryIds: map<ScheduleId, EntryId>) {
    forall id | id in before && id in entryIds :: entryIds[id] == before[id]
  }

  class Scheduler {
    const cron: Cron
    var entryIds: map<ScheduleId, EntryId>
    ghost var registry: Registry

    constructor (cron: Cron)
      requires cron.entries == map[]
      ensures this.cron == cron && Valid() && registry == map[]
    {
      this.cron := cron;
      entryIds, registry := map[], map[];
    }

    ghost predicate Valid()
      reads this, cron
    {
      Agree(entryIds, cron.entries, registry) && forall e | e in cron.entries :: e <= cron.nextId
    }

    // sync; the list is None when it could not be read. Entries that stay keep their number.
    method Sync(schedules: Option<seq<Schedule>>)
      requires Valid()
      modifies this, cron
      ensures Valid()
      ensures schedules.None? ==> entryIds == old(entryIds) && cron.entries == old(cron.entries)
      ensures schedules.Some? ==> registry == Synced(cron.lib, old(registry), schedules.value)
      ensures Extends(old(entryIds), entryIds)
    {
      if schedules.None? {
        return;
      }
      var list := schedules.value;
      var active := ActiveIds(list);
      RemoveInactive(list, active);
      ghost var kept := registry;
      RegisterNew(list);
      forall id | id in old(entryIds) && id in entryIds
        ensures id in kept
      {
        SyncedKeys(cron.lib, old(registry), list, id);
        assert kept == Kept(old(registry), list);
      }
    }

    method RemoveInactive(ghost list: seq<Schedule>, active: set<ScheduleId>)
      requires Valid() && forall id :: id in active <==> Active(list, id)
      modifies this, cron
      ensures Valid() && registry == Kept(old(registry), list)
      ensures Extends(old(entryIds), entryIds) && entryIds.Keys <= old(entryIds).Keys
    {
      var rest := entryIds.Keys;
      while rest != {}
        invariant Valid() && rest <= entryIds.Keys <= old(entryIds).Keys
        invariant Extends(old(entryIds), entryIds)
        invariant registry == KeptBut(old(registry), active, rest)
        decreases rest
      {
        var id :| id in rest;
        KeptButLess(old(registry), active, rest, id);
        rest := rest - {id};
        if id !in active {
          RemoveEntry(id);
        }
      }
    }

    method RemoveEntry(id: ScheduleId)
      requires Valid() && id in entryIds
      modifies this, cron
      ensures Valid() && registry == old(registry) - {id} && entryIds == old(entryIds) - {id}
    {
      AgreeRemove(entryIds, cron.entries, registry, id);
      cron.Remove(entryIds[id]);
      entryIds := entryIds - {id};
      registry := registry - {id};
    }

    method RegisterNew(list: seq<Schedule>)
      requires Valid()
      modifies this, cron
      ensures Valid() && registry == Entered(cron.lib, old(registry), list)
      ensures forall id | id in old(entryIds) :: id in entryIds && entryIds[id] == old(entryIds)[id]
    {
      for i := 0 to |list|
        invariant Valid() && registry == Entered(cron.lib, old(registry), list[..i])
        invariant forall id | id in old(entryIds) :: id in entryIds && entryIds[id] == old(entryIds)[id]
      {
        assert list[..i + 1][..i] == list[..i];
        if list[i].id in entryIds {
          continue;
        }
        var ok := Register(list[i]);
      }
      assert list[..|list|] == list;
    }

    // register
    method Register(sc: Schedule) returns (ok: bool)
      requires Valid() && sc.id !in entryIds
      modifies this, cron
      ensures Valid() && (ok <==> Accepted(cron.lib, sc))
      ensures ok <==>
                cron.lib.loads(sc.timezone) && cron.lib.parses(sc.cronExpr) && cron.lib.adds(sc.timezone, sc.cronExpr)
      ensures registry == if ok then old(registry)[sc.id := sc] else old(registry)
      ensures if ok then entryIds == old(entryIds)[sc.id := cron.nextId] else entryIds == old(entryIds)
    {
      if !cron.lib.loads(sc.timezone) {
        return false;
      }
      if !cron.lib.parses(sc.cronExpr) {
        return false;
      }
      AgreeAdd(entryIds, cron.entries, registry, sc, cron.nextId + 1);
      var entry := cron.AddFunc(sc);
      if entry.None? {
        return false;
      }
      entryIds := entryIds[sc.id := entry.value];
      registry := registry[sc.id := sc];
      return true;
    }
  }

  // The removal loop part of the way.
  function KeptBut(reg: Registry, active: set<ScheduleId>, rest: set<ScheduleId>): Registry {
    map id | id in reg && (id in active || id in rest) :: reg[id]
  }

  lemma KeptButLess(reg: Registry, active: set<ScheduleId>, rest: set<ScheduleId>, id: ScheduleId)
    requires id in rest
    ensures KeptBut(reg, active, rest - {id})
         == if id in active then KeptBut(reg, active, rest) else KeptBut(reg, active, rest) - {id}
  {
  }

  method ActiveIds(list: seq<Schedule>) returns (active: set<ScheduleId>)
    ensures forall id :: id in active <==> Active(list, id)
  {
    active := {};
    for i := 0 to |list|
      invariant forall id :: id in active <==> Active(list[..i], id)
    {
      assert list[..i + 1] == list[..i] + [list[i]];
      ActiveSnoc(list[..i], list[i]);
      active := active + {list[i].id};
    }
    assert list[..|list|] == list;
  }

  lemma ActiveSnoc(list: seq<Schedule>, sc: Schedule)
    ensures forall id :: Active(list + [sc], id) <==> Active(list, id) || sc.id == id
  {
    forall id
      ensures Active(list + [sc], id) <==> Active(list, id) || sc.id == id
    {
      if Active(list, id) {
        var i :| 0 <= i < |list| && list[i].id == id;
        assert (list + [sc])[i].id == id;
      }
      assert (list + [sc])[|list|] == sc;
    }
  }

  // What a sync makes of the registry --------------------------------------------------------

  predicate AcceptedIn(lib: Library, list: seq<Schedule>, id: ScheduleId) {
    exists i :: 0 <= i < |list| && list[i].id == id && Accepted(lib, list[i])
  }

  lemma {:induction false} EnteredKeys(lib: Library, reg: Registry, list: seq<Schedule>, id: ScheduleId)
    ensures id in Entered(lib, reg, list) <==> id in reg || AcceptedIn(lib, list, id)
    ensures id in reg ==> Entered(lib, reg, list)[id] == reg[id]
    ensures id !in reg && id in Entered(lib, reg, list) ==>
              Entered(lib, reg, list)[id] in list && Entered(lib, reg, list)[id].id == id
                && Accepted(lib, Entered(lib, reg, list)[id])
  {
    if list != [] {
      var n := |list| - 1;
      EnteredKeys(lib, reg, list[..n], id);
      AcceptedNext(lib, list, id);
      assert list == list[..n] + [list[n]];
    }
  }

  lemma AcceptedNext(lib: Library, list: seq<Schedule>, id: ScheduleId)
    requires list != []
    ensures var n := |list| - 1;
            AcceptedIn(lib, list, id)
            <==> AcceptedIn(lib, list[..n], id) || (list[n].id == id && Accepted(lib, list[n]))
  {
    var n := |list| - 1;
    if AcceptedIn(lib, list[..n], id) {
      var i :| 0 <= i < n && list[..n][i].id == id && Accepted(lib, list[..n][i]);
      assert list[i].id == id;
    }
    if AcceptedIn(lib, list, id) && !(list[n].id == id && Accepted(lib, list[n])) {
      var i :| 0 <= i < |list| && list[i].id == id && Accepted(lib, list[i]);
      assert list[..n][i].id == id;
    }
  }

  // After a sync the registry holds exactly the active schedules that were registered already or
  // are accepted now, and what was registered already keeps its version.
  lemma SyncedKeys(lib: Library, reg: Registry, list: seq<Schedule>, id: ScheduleId)
    ensures id in Synced(lib, reg, list) <==> Active(list, id) && (id in reg || AcceptedIn(lib, list, id))
    ensures id in reg && Active(list, id) ==> Synced(lib, reg, list)[id] == reg[id]
    ensures id !in reg && id in Synced(lib, reg, list) ==>
              Synced(lib, reg, list)[id] in list && Synced(lib, reg, list)[id].id == id
                && Accepted(lib, Synced(lib, reg, list)[id])
  {
    EnteredKeys(lib, Kept(reg, list), list, id);
  }

  lemma {:induction false} EnteredAgain(lib: Library, reg: Registry, list: seq<Schedule>)
    requires forall id | AcceptedIn(lib, list, id) :: id in reg
    ensures Entered(lib, reg, list) == reg
  {
    if list != [] {
      var n := |list| - 1;
      forall id | AcceptedIn(lib, list[..n], id)
        ensures id in reg
      {
        var i :| 0 <= i < n && list[..n][i].id == id && Accepted(lib, list[..n][i]);
        assert list[i].id == id;
      }
      EnteredAgain(lib, reg, list[..n]);
      assert Accepted(lib, list[n]) ==> AcceptedIn(lib, list, list[n].id);
    }
  }

  // Syncing twice with the same list is syncing once.
  lemma SyncIdempotent(lib: Library, reg: Registry, list: seq<Schedule>)
    ensures Synced(lib, Synced(lib, reg, list), list) == Synced(lib, reg, list)
  {
    var once := Synced(lib, reg, list);
    forall id | id in once || AcceptedIn(lib, list, id)
      ensures id in once && Active(list, id)
    {
      SyncedKeys(lib, reg, list, id);
    }
    assert Kept(once, list) == once;
    EnteredAgain(lib, once, list);
  }

  predicate DistinctIds(list: seq<Schedule>) {
    forall i, j | 0 <= i < j < |list| :: list[i].id != list[j].id
  }

  // The registry that the list itself asks for.
  ghost predicate UpToDate(lib: Library, reg: Registry, list: seq<Schedule>) {
    && (forall sc | sc in list && Accepted(lib, sc) :: sc.id in reg && reg[sc.id] == sc)
    && (forall id | id in reg :: AcceptedIn(lib, list, id))
  }

  // A schedule that is active but no longer what was registered: edited since, or edited into
  // something that would not be accepted.
  predicate Edited(lib: Library, reg: Registry, sc: Schedule) {
    sc.id in reg && (reg[sc.id] != sc || !Accepted(lib, sc))
  }

  lemma SameSchedule(list: seq<Schedule>, a: Schedule, b: Schedule)
    requires DistinctIds(list) && a in list && b in list && a.id == b.id
    ensures a == b
  {
  }

  // A sync brings the registry up to date exactly when no active schedule was edited since it
  // was registered: edits of a schedule that stays enabled are not picked up.
  lemma UpToDateIff(lib: Library, reg: Registry, list: seq<Schedule>)
    requires DistinctIds(list)
    ensures UpToDate(lib, Synced(lib, reg, list), list) <==> forall sc | sc in list :: !Edited(lib, reg, sc)
  {
    var synced := Synced(lib, reg, list);
    if UpToDate(lib, synced, list) {
      forall sc | sc in list
        ensures !Edited(lib, reg, sc)
      {
        SyncedKeys(lib, reg, list, sc.id);
        if sc.id in reg {
          assert Active(list, sc.id);
          var i :| 0 <= i < |list| && list[i].id == sc.id && Accepted(lib, list[i]);
          SameSchedule(list, list[i], sc);
        }
      }
    }
    if forall sc | sc in list :: !Edited(lib, reg, sc) {
      forall sc | sc in list && Accepted(lib, sc)
        ensures sc.id in synced && synced[sc.id] == sc
      {
        SyncedKeys(lib, reg, list, sc.id);
        var i :| 0 <= i < |list| && list[i] == sc;
        assert Active(list, sc.id) && AcceptedIn(lib, list, sc.id);
        if sc.id !in reg {
          SameSchedule(list, synced[sc.id], sc);
        }
      }
      forall id | id in synced
        ensures AcceptedIn(lib, list, id)
      {
        SyncedKeys(lib, reg, list, id);
        if id in reg {
          var i :| 0 <= i < |list| && list[i].id == id;
          assert !Edited(lib, reg, list[i]);
        }
      }
    }
  }

  // A sync that runs while the schedule is disabled makes the next one register it afresh.
  lemma DisableThenEnable(lib: Library, reg: Registry, without: seq<Schedule>, list: seq<Schedule>, sc: Schedule)
    requires DistinctIds(list) && sc in list && Accepted(lib, sc) && !Active(without, sc.id)
    ensures var after := Synced(lib, Synced(lib, reg, without), list); sc.id in after && after[sc.id] == sc
  {
    var between := Synced(lib, reg, without);
    SyncedKeys(lib, reg, without, sc.id);
    SyncedKeys(lib, between, list, sc.id);
    var i :| 0 <= i < |list| && list[i] == sc;
    assert Active(list, sc.id) && AcceptedIn(lib, list, sc.id);
    SameSchedule(list, Synced(lib, between, list)[sc.id], sc);
  }

  // A series of syncs from an empty registry.
  function SyncedAll(lib: Library, lists: seq<seq<Schedule>>): Registry {
    if lists == [] then map[] else Synced(lib, SyncedAll(lib, lists[..|lists| - 1]), lists[|lists| - 1])
  }

  ghost predicate ReadAt(lib: Library, lists: seq<seq<Schedule>>, m: nat, sc: Schedule) {
    && m < |lists| && sc in lists[m] && Accepted(lib, sc)
    && (forall n | m <= n < |lists| :: Active(lists[n], sc.id))
    && sc.id !in SyncedAll(lib, lists[..m])
  }

  // After any series of syncs, an entry's version is the one that was read when the schedule was
  // last registered, and the schedule has been active in every sync since.
  lemma {:induction false} VersionRead(lib: Library, lists: seq<seq<Schedule>>, id: ScheduleId)
    requires id in SyncedAll(lib, lists)
    ensures SyncedAll(lib, lists)[id].id == id
    ensures exists m: nat :: ReadAt(lib, lists, m, SyncedAll(lib, lists)[id])
  {
    var n := |lists| - 1;
    var before := SyncedAll(lib, lists[..n]);
    SyncedKeys(lib, before, lists[n], id);
    if id in before {
      VersionRead(lib, lists[..n], id);
      var m: nat :| ReadAt(lib, lists[..n], m, before[id]);
      assert lists[..n][..m] == lists[..m];
      forall i | m <= i < |lists|
        ensures Active(lists[i], id)
      {
        if i < n {
          assert Active(lists[..n][i], id);
        }
      }
      assert ReadAt(lib, lists, m, SyncedAll(lib, lists)[id]);
    } else {
      assert ReadAt(lib, lists, n, SyncedAll(lib, lists)[id]);
    }
  }

  // Editing a registered schedule that stays active leaves the old version registered.
  lemma EditMissed(lib: Library, old': Schedule, new': Schedule)
    requires Accepted(lib, old') && new'.id == old'.id && new' != old'
    ensures var reg := SyncedAll(lib, [[old'], [new']]);
            old'.id in reg && reg[old'.id] == old' && !UpToDate(lib, reg, [new'])
  {
    var before := SyncedAll(lib, [[old']]);
    assert [[old']][..0] == [] && [[old'], [new']][..1] == [[old']];
    var id := old'.id;
    assert [old'][0].id == id && [new'][0].id == id;
    assert Active([old'], id) && Active([new'], id) && AcceptedIn(lib, [old'], id);
    assert SyncedAll(lib, []) == map[] && before == Synced(lib, map[], [old']);
    SyncedKeys(lib, map[], [old'], id);
    SyncedKeys(lib, before, [new'], id);
    assert before[id] == old';
    assert Edited(lib, before, new') && new' in [new'];
    UpToDateIff(lib, before, [new']);
  }

  // The fields of cron expressions --------------------------------------------------------------

  // What follows a zone prefix.
  function AfterZone(expr: string): string {
    if "TZ=" <= expr || "CRON_TZ=" <= expr then
      var i := Text.Index(expr, ' ');
      if i < 0 then "" else expr[i..]
    else expr
  }

  predicate Descriptor(expr: string) {
    var trimmed := Text.TrimSpace(expr);
    trimmed != "" && trimmed[0] == '@'
  }

  // What register's own parser demands, built without seconds and without descriptors.
  predicate FiveFields(expr: string) {
    !Descriptor(AfterZone(expr)) && |Text.Fields(AfterZone(expr))| == 5
  }

  // What the library's parser, built with seconds, demands of the text after the zone that
  // register puts in front: six fields, which begin with a number and not with another zone, or
  // a descriptor.
  predicate SixFields(expr: string) {
    AfterZone(expr) == expr && (Descriptor(expr) || |Text.Fields(expr)| == 6)
  }

  ghost predicate CountsFields(lib: Library) {
    (forall expr :: lib.parses(expr) ==> FiveFields(expr))
    && (forall timezone, expr :: lib.adds(timezone, expr) ==> SixFields(expr))
  }

  // With those two parsers no schedule is ever accepted, so nothing is ever registered.
  lemma NothingRegistered(lib: Library, lists: seq<seq<Schedule>>)
    requires CountsFields(lib)
    ensures forall sc :: !Accepted(lib, sc)
    ensures SyncedAll(lib, lists) == map[]
  {
    forall sc
      ensures !Accepted(lib, sc)
    {
      assert !(FiveFields(sc.cronExpr) && SixFields(sc.cronExpr));
    }
    if exists id :: id in SyncedAll(lib, lists) {
      var id :| id in SyncedAll(lib, lists);
      VersionRead(lib, lists, id);
    }
  }
}
