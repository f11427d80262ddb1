/** The retention policy for the snapshots of one project (backend/internal/snapshot/retain.go). */
module Retain {
  import opened Wrappers

  const DEFAULT_RETENTION_DAYS := 30
  const DEFAULT_MAX_STORAGE_BYTES := 5 * 1024 * 1024 * 1024
  const SECONDS_PER_DAY := 24 * 3600

  datatype SnapshotInfo = SnapshotInfo(id: string, created: int, size: nat, complete: bool)

  /**
   * What a listing says of a directory that a removal has left in part: it is no larger, and if it still passes for
   * complete, it did before and has the same manifest; otherwise the directory's own time stands for the manifest's.
   */
  predicate Reduced(left: SnapshotInfo, was: SnapshotInfo) {
    && left.id == was.id && left.size <= was.size
    && (left.complete ==> was.complete && left.created == was.created)
  }

  function TotalSize(infos: seq<SnapshotInfo>): nat {
    if infos == [] then 0 else infos[0].size + TotalSize(infos[1..])
  }

  /** Ascending by creation time, each id once. */
  ghost predicate Chronological(infos: seq<SnapshotInfo>) {
    && (forall i, j :: 0 <= i < j < |infos| ==> infos[i].created <= infos[j].created)
    && (forall i, j :: 0 <= i < j < |infos| ==> infos[i].id != infos[j].id)
  }

  ghost predicate Lists(infos: seq<SnapshotInfo>, s: set<SnapshotInfo>) {
    forall info :: info in infos <==> info in s
  }

  /** How many of the oldest snapshots capacity retention removes. */
  function Evicted(infos: seq<SnapshotInfo>, cap: nat): (n: nat)
    ensures n <= |infos|
  {
    if TotalSize(infos) > cap && |infos| > 1 then 1 + Evicted(infos[1..], cap) else 0
  }

  /**
   * Capacity retention keeps the newest snapshot, ends within the cap or with that one alone,
   * and each snapshot it removed had to go.
   */
  lemma {:induction false} EvictionExact(infos: seq<SnapshotInfo>, cap: nat)
    ensures var n := Evicted(infos, cap);
            && n <= |infos| && (infos != [] ==> n < |infos|)
            && (TotalSize(infos[n..]) <= cap || n == |infos| - 1)
            && forall j :: 0 <= j < n ==> TotalSize(infos[j..]) > cap
    decreases |infos|
  {
    assert infos[0..] == infos;
    if TotalSize(infos) > cap && |infos| > 1 {
      var rest := infos[1..];
      EvictionExact(rest, cap);
      assert forall j :: 1 <= j <= |infos| ==> infos[j..] == rest[j - 1..];
    }
  }

  /** No fewer removals would do, so the number is the least that meets the cap while one snapshot stays. */
  lemma EvictionLeast(infos: seq<SnapshotInfo>, cap: nat, n: nat)
    requires n < |infos| && TotalSize(infos[n..]) <= cap
    ensures Evicted(infos, cap) <= n
  {
    EvictionExact(infos, cap);
  }

  /** A second cleanup at the same moment finds nothing more to evict. */
  lemma EvictionSettles(infos: seq<SnapshotInfo>, cap: nat)
    ensures Evicted(infos[Evicted(infos, cap)..], cap) == 0
  {
    EvictionExact(infos, cap);
  }

  lemma {:induction false} EarliestExists(s: set<SnapshotInfo>) returns (e: SnapshotInfo)
    requires s != {}
    ensures e in s && forall x :: x in s ==> e.created <= x.created
  {
    e :| e in s;
    var rest := s - {e};
    if rest != {} {
      var x := EarliestExists(rest);
      if x.created < e.created { e := x; }
    }
  }

  /** Sorting by creation time. Snapshots of the same instant come out in any order. */
  method SortByCreated(s: set<SnapshotInfo>) returns (sorted: seq<SnapshotInfo>)
    requires forall a, b :: a in s && b in s && a.id == b.id ==> a == b
    ensures Chronological(sorted) && Lists(sorted, s)
  {
    hide Chronological, Lists, NoneLater;
    sorted := [];
    ghost var listed: set<SnapshotInfo> := {};
    NothingListed(s);
    var pending := s;
    while pending != {}
      invariant listed !! pending && listed + pending == s
      invariant Chronological(sorted) && Lists(sorted, listed) && NoneLater(listed, pending)
      decreases |pending|
    {
      ghost var earliest := EarliestExists(pending);
      var e :| e in pending && forall x :: x in pending ==> e.created <= x.created;
      ListNext(sorted, listed, pending, e);
      sorted := sorted + [e];
      pending := pending - {e};
      listed := listed + {e};
    }
  }

  ghost predicate NoneLater(listed: set<SnapshotInfo>, pending: set<SnapshotInfo>) {
    forall y, x :: y in listed && x in pending ==> y.created <= x.created
  }

  lemma NothingListed(s: set<SnapshotInfo>)
    ensures Chronological([]) && Lists([], {}) && NoneLater({}, s)
  {
  }

  lemma ListNext(sorted: seq<SnapshotInfo>, listed: set<SnapshotInfo>, pending: set<SnapshotInfo>, e: SnapshotInfo)
    requires Chronological(sorted) && Lists(sorted, listed) && NoneLater(listed, pending)
    requires e in pending && forall x :: x in pending ==> e.created <= x.created
    requires forall y :: y in listed ==> y.id != e.id
    ensures Chronological(sorted + [e]) && Lists(sorted + [e], listed + {e}) && NoneLater(listed + {e}, pending - {e})
  {
    assert forall i :: 0 <= i < |sorted| ==> sorted[i] in listed;
  }

  /** The snapshot directories of one project, by name. */
  class Shelf {
    var dirs: map<string, SnapshotInfo>

    constructor (dirs: map<string, SnapshotInfo>)
      ensures this.dirs == dirs
    {
      this.dirs := dirs;
    }

    ghost predicate Valid()
      reads this
    {
      forall id :: id in dirs ==> dirs[id].id == id
    }

    /** os.RemoveAll, which may fail or be cut short after any number of entries, and then leaves the rest in place. */
    method RemoveAll(id: string) returns (ok: bool)
      requires Valid() && id in dirs
      modifies this
      ensures Valid() && dirs - {id} == old(dirs) - {id}
      ensures if ok then id !in dirs else id in dirs && Reduced(dirs[id], old(dirs)[id])
    {
      var left: SnapshotInfo := *;
      ok := !Reduced(left, dirs[id]);
      dirs := if ok then dirs - {id} else dirs[id := left];
    }

    /** Removes every listed directory, up to a removal that stops; `deleted` grows by those that are gone. */
    method RemoveEach(doomed: set<string>, deletedSoFar: seq<string>)
      returns (deleted: seq<string>, ok: bool, ghost stopped: Option<string>)
      requires Valid() && doomed <= dirs.Keys
      requires forall i, j :: 0 <= i < j < |deletedSoFar| ==> deletedSoFar[i] != deletedSoFar[j]
      requires forall id :: id in deletedSoFar ==> id !in dirs
      modifies this
      ensures Valid() && Removal(old(dirs), dirs, deletedSoFar, deleted, stopped)
      ensures ok ==> dirs == old(dirs) - doomed
      ensures ok <==> stopped.None?
      ensures forall id :: id in deleted[|deletedSoFar|..] || stopped == Some(id) ==> id in doomed
    {
      assert Removal(dirs, dirs, deletedSoFar, deletedSoFar, None) by { NothingRemoved(dirs, deletedSoFar); }
      hide Removal, Reduced;
      deleted, ok, stopped := deletedSoFar, true, None;
      var pending := doomed;
      while pending != {}
        invariant ok && stopped.None? && Valid() && pending <= doomed
        invariant dirs == old(dirs) - (doomed - pending)
        invariant Removal(old(dirs), dirs, deletedSoFar, deleted, None)
        invariant forall id :: id in deleted[|deletedSoFar|..] ==> id in doomed
        decreases |pending|
      {
        var id :| id in pending;
        ghost var before, was := dirs, deleted;
        ok := RemoveAll(id);
        if !ok {
          stopped := Some(id);
          RemovalStops(old(dirs), before, dirs, deletedSoFar, deleted, id);
          return;
        }
        deleted := deleted + [id];
        pending := pending - {id};
        RemovalStep(old(dirs), before, dirs, deletedSoFar, was, id);
      }
    }

    /** Removes the incomplete snapshots, and then those past the cutoff. */
    method RemoveStale(cutoff: int) returns (deleted: seq<string>, ok: bool, ghost stopped: Option<string>)
      requires Valid()
      modifies this
      ensures Valid() && Removal(old(dirs), dirs, [], deleted, stopped) && (ok <==> stopped.None?)
      ensures ok ==> forall id :: id in dirs <==> id in old(dirs) && !Stale(old(dirs)[id], cutoff)
      ensures forall id :: id in deleted || stopped == Some(id) ==> id in old(dirs) && Stale(old(dirs)[id], cutoff)
    {
      hide Removal;
      deleted, ok, stopped := RemoveEach((set id | id in dirs && !dirs[id].complete), []);
      RemovalExtends(old(dirs), dirs, [], deleted, stopped);
      if !ok { return; }
      ghost var start, soFar := dirs, deleted;
      deleted, ok, stopped := RemoveEach((set id | id in dirs && dirs[id].created < cutoff), deleted);
      RemovalTrans(old(dirs), start, dirs, soFar, deleted, stopped);
      RemovalExtends(start, dirs, soFar, deleted, stopped);
    }

    /**
     * One cleanup at time `now`: incomplete snapshots go first, then those past the cutoff, then the oldest
     * ones until the rest fits. `unexpired` lists the unexpired complete snapshots, oldest first, and `stopped` is
     * the directory whose removal failed or was cut short. Nothing but what has to go is ever touched.
     */
    method Cleanup(now: int, retentionDays: int, maxStorageBytes: int)
      returns (deleted: seq<string>, ok: bool, ghost unexpired: seq<SnapshotInfo>, ghost stopped: Option<string>)
      requires Valid()
      modifies this
      ensures Valid() && Removal(old(dirs), dirs, [], deleted, stopped) && (ok <==> stopped.None?)
      ensures Chronological(unexpired) && Lists(unexpired, Unexpired(old(dirs), now, EffectiveDays(retentionDays)))
      ensures ok ==> OnShelf(dirs, unexpired, Evicted(unexpired, EffectiveCap(maxStorageBytes)))
      ensures forall id :: id in deleted || stopped == Some(id) ==>
                Condemned(old(dirs), unexpired, Evicted(unexpired, EffectiveCap(maxStorageBytes)),
                          now - EffectiveDays(retentionDays) * SECONDS_PER_DAY, id)
    {
      hide Removal, OnShelf, Chronological, Evicted, AmongOldest;
      var days, cap := EffectiveDays(retentionDays), EffectiveCap(maxStorageBytes);
      var cutoff := now - days * SECONDS_PER_DAY;
      var infos := set id | id in dirs :: dirs[id];
      var sorted := SortByCreated((set info | info in infos && info.complete && info.created >= cutoff));
      unexpired := sorted;
      assert Lists(unexpired, Unexpired(old(dirs), now, days));

      deleted, ok, stopped := RemoveStale(cutoff);
      if !ok { return; }
      RemovalExtends(old(dirs), dirs, [], deleted, stopped);
      UnexpiredIds(old(dirs), dirs, unexpired, now, days);
      ghost var kept, gone := dirs, deleted;
      deleted, ok, stopped := EvictOldest(sorted, cap, deleted);
      RemovalTrans(old(dirs), kept, dirs, gone, deleted, stopped);
      RemovalExtends(kept, dirs, gone, deleted, stopped);
    }

    /** Capacity retention over the given snapshots, oldest first. */
    method EvictOldest(infos: seq<SnapshotInfo>, cap: nat, deletedSoFar: seq<string>)
      returns (deleted: seq<string>, ok: bool, ghost stopped: Option<string>)
      requires Valid() && Chronological(infos) && OnShelf(dirs, infos, 0)
      requires forall i, j :: 0 <= i < j < |deletedSoFar| ==> deletedSoFar[i] != deletedSoFar[j]
      requires forall id :: id in deletedSoFar ==> id !in dirs
      modifies this
      ensures Valid() && Removal(old(dirs), dirs, deletedSoFar, deleted, stopped) && (ok <==> stopped.None?)
      ensures ok ==> OnShelf(dirs, infos, Evicted(infos, cap))
      ensures forall id :: id in deleted[|deletedSoFar|..] || stopped == Some(id) ==>
                AmongOldest(infos, Evicted(infos, cap), id)
    {
      hide Chronological, OnShelf, Removal;
      var remaining := infos;
      var total := SumSizes(remaining);
      ghost var n := 0;
      deleted, ok, stopped := deletedSoFar, true, None;
      NothingRemoved(dirs, deletedSoFar);
      assert infos[0..] == infos;
      while total > cap && |remaining| > 0
        invariant ok && stopped.None? && Valid() && Removal(old(dirs), dirs, deletedSoFar, deleted, None)
        invariant n <= |infos| && remaining == infos[n..] && total == TotalSize(remaining)
        invariant deleted == deletedSoFar + Ids(infos[..n])
        invariant Evicted(infos, cap) == n + Evicted(remaining, cap)
        invariant OnShelf(dirs, infos, n)
        decreases |remaining|
      {
        var oldest := remaining[0];
        if oldest.size > cap && |remaining| == 1 {
          break;
        }
        ghost var before, was := dirs, deleted;
        OldestLeaves(dirs, infos, n);
        ok := RemoveAll(oldest.id);
        deleted := if ok then deleted + [oldest.id] else deleted;
        if !ok {
          stopped := Some(oldest.id);
          RemovalStops(old(dirs), before, dirs, deletedSoFar, was, oldest.id);
          return;
        }
        assert infos[..n + 1] == infos[..n] + [oldest];
        RemovalStep(old(dirs), before, dirs, deletedSoFar, was, oldest.id);
        total := total - oldest.size;
        remaining := remaining[1..];
        n := n + 1;
      }
    }
  }

  function Ids(infos: seq<SnapshotInfo>): seq<string> {
    seq(|infos|, i requires 0 <= i < |infos| => infos[i].id)
  }

  predicate AmongOldest(infos: seq<SnapshotInfo>, n: nat, id: string) {
    exists i :: 0 <= i < n && i < |infos| && infos[i].id == id
  }

  predicate Stale(info: SnapshotInfo, cutoff: int) { !info.complete || info.created < cutoff }

  /** The snapshot has to go: it is incomplete, or past the cutoff, or one of the evicted. */
  predicate Condemned(dirs: map<string, SnapshotInfo>, unexpired: seq<SnapshotInfo>, evicted: nat, cutoff: int,
                      id: string) {
    id in dirs && (Stale(dirs[id], cutoff) || AmongOldest(unexpired, evicted, id))
  }

  /** Exactly the snapshots from position n on are left. */
  ghost predicate OnShelf(dirs: map<string, SnapshotInfo>, infos: seq<SnapshotInfo>, n: nat) {
    forall id :: id in dirs <==> exists i :: n <= i < |infos| && infos[i].id == id
  }

  lemma OldestLeaves(dirs: map<string, SnapshotInfo>, infos: seq<SnapshotInfo>, n: nat)
    requires Chronological(infos) && OnShelf(dirs, infos, n) && n < |infos|
    ensures infos[n].id in dirs && OnShelf(dirs - {infos[n].id}, infos, n + 1)
  {
  }

  lemma NothingRemoved(dirs: map<string, SnapshotInfo>, soFar: seq<string>)
    requires forall i, j :: 0 <= i < j < |soFar| ==> soFar[i] != soFar[j]
    requires forall id :: id in soFar ==> id !in dirs
    ensures Removal(dirs, dirs, soFar, soFar, None)
  {
  }

  function EffectiveDays(retentionDays: int): int {
    if retentionDays <= 0 then DEFAULT_RETENTION_DAYS else retentionDays
  }

  function EffectiveCap(maxStorageBytes: int): nat {
    if maxStorageBytes <= 0 then DEFAULT_MAX_STORAGE_BYTES else maxStorageBytes
  }

  function Unexpired(dirs: map<string, SnapshotInfo>, now: int, days: int): set<SnapshotInfo> {
    set id | id in dirs && dirs[id].complete && dirs[id].created >= now - days * SECONDS_PER_DAY :: dirs[id]
  }

  method SumSizes(infos: seq<SnapshotInfo>) returns (total: nat)
    ensures total == TotalSize(infos)
  {
    total := 0;
    for i := 0 to |infos|
      invariant total + TotalSize(infos[i..]) == TotalSize(infos)
    {
      assert infos[i..][1..] == infos[i + 1..];
      total := total + infos[i].size;
    }
  }

  /**
   * `deleted` extends `soFar` by exactly the names that left the shelf, each once; of the rest only the directory whose
   * removal stopped may have changed.
   */
  ghost predicate Removal(before: map<string, SnapshotInfo>, after: map<string, SnapshotInfo>, soFar: seq<string>,
                          deleted: seq<string>, stopped: Option<string>) {
    && soFar <= deleted
    && (forall i, j :: 0 <= i < j < |deleted| ==> deleted[i] != deleted[j])
    && (forall id :: id in deleted ==> id !in after)
    && (forall id :: id in after ==>
          id in before && (after[id] == before[id] || (stopped == Some(id) && Reduced(after[id], before[id]))))
    && (forall id :: id in before && id !in after ==> id in deleted[|soFar|..])
    && (forall id :: id in deleted[|soFar|..] ==> id in before)
    && (stopped.Some? ==> stopped.value in after)
  }

  lemma RemovalStep(before: map<string, SnapshotInfo>, mid: map<string, SnapshotInfo>, after: map<string, SnapshotInfo>,
                    soFar: seq<string>, deleted: seq<string>, id: string)
    requires Removal(before, mid, soFar, deleted, None) && id in mid && after == mid - {id}
    ensures Removal(before, after, soFar, deleted + [id], None)
  {
    assert (deleted + [id])[|soFar|..] == deleted[|soFar|..] + [id];
  }

  lemma RemovalStops(before: map<string, SnapshotInfo>, mid: map<string, SnapshotInfo>,
                     after: map<string, SnapshotInfo>, soFar: seq<string>, deleted: seq<string>, id: string)
    requires Removal(before, mid, soFar, deleted, None)
    requires id in mid && id in after && after - {id} == mid - {id} && Reduced(after[id], mid[id])
    ensures Removal(before, after, soFar, deleted, Some(id))
  {
    assert forall d :: d in after && d != id ==> d in after - {id};
    assert forall d :: d in mid && d != id ==> d in mid - {id};
  }

  lemma RemovalExtends(before: map<string, SnapshotInfo>, after: map<string, SnapshotInfo>, soFar: seq<string>,
                       deleted: seq<string>, stopped: Option<string>)
    requires Removal(before, after, soFar, deleted, stopped)
    ensures soFar <= deleted && forall id :: id in deleted <==> id in soFar || id in deleted[|soFar|..]
    ensures forall i, j :: 0 <= i < j < |deleted| ==> deleted[i] != deleted[j]
    ensures forall id :: id in deleted ==> id !in after
  {
    assert deleted == soFar + deleted[|soFar|..];
  }

  lemma RemovalTrans(before: map<string, SnapshotInfo>, mid: map<string, SnapshotInfo>,
                     after: map<string, SnapshotInfo>,
                     soFar: seq<string>, deleted: seq<string>, stopped: Option<string>)
    requires Removal(before, mid, [], soFar, None) && Removal(mid, after, soFar, deleted, stopped)
    ensures Removal(before, after, [], deleted, stopped)
  {
    assert deleted[0..] == deleted && soFar[0..] == soFar;
    assert deleted == soFar + deleted[|soFar|..];
  }

  lemma UnexpiredIds(before: map<string, SnapshotInfo>, after: map<string, SnapshotInfo>, unexpired: seq<SnapshotInfo>,
                     now: int, days: int)
    requires forall id :: id in before ==> before[id].id == id
    requires Lists(unexpired, Unexpired(before, now, days))
    requires forall id :: id in after <==>
               id in before && before[id].complete && before[id].created >= now - days * SECONDS_PER_DAY
    ensures OnShelf(after, unexpired, 0)
  {
    forall id | id in after
      ensures exists i :: 0 <= i < |unexpired| && unexpired[i].id == id
    {
      assert before[id] in Unexpired(before, now, days);
    }
    forall i | 0 <= i < |unexpired|
      ensures unexpired[i].id in after
    {
      assert unexpired[i] in unexpired;
    }
  }
}
