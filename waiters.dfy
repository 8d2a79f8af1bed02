/**
 * The bookkeeping records of the virtual clock: one `ThreadInfo` per
 * suspended wait or park, kept in an arena keyed by `InfoId` so that the
 * same record can be referred to from a monitor's waiting list and from
 * the per-thread table at once (the Java code shares one object between
 * the two). The functions here are the pure meaning of the bulk updates the
 * clock performs on that arena and on the monitor lists.
 */
module Waiters {
  import opened JavaTypes

  type InfoId = nat

  /**
   * Monitor identities. `UserMonitor` is an object of the program under
   * test; `SleepMonitor` is the private object `sleep` allocates, which no
   * other code can see and therefore never notifies.
   */
  datatype Monitor = UserMonitor(n: nat) | SleepMonitor(n: nat)

  /** One registration; `monitor` is `None` for a park. */
  datatype ThreadInfo = ThreadInfo(thread: ThreadId, monitor: Option<Monitor>, resumeTime: Long, resumed: bool)

  type Arena = map<InfoId, ThreadInfo>

  /** Every entry of `list` names a record of the arena. */
  ghost predicate AllIn(list: seq<InfoId>, infos: Arena) {
    forall i :: 0 <= i < |list| ==> list[i] in infos
  }

  /** No entry of `list` is resumed. */
  ghost predicate NoneResumed(list: seq<InfoId>, infos: Arena)
    requires AllIn(list, infos)
  {
    forall i :: 0 <= i < |list| ==> !infos[list[i]].resumed
  }

  /** Every entry of `list` is resumed. */
  ghost predicate AllResumed(list: seq<InfoId>, infos: Arena)
    requires AllIn(list, infos)
  {
    forall i :: 0 <= i < |list| ==> infos[list[i]].resumed
  }

  /**
   * The arena after `ti.resumed = true` has been executed for every record
   * named in `ids`: the flag is raised for exactly those records and
   * nothing else in any record changes.
   */
  function Resume(infos: Arena, ids: set<InfoId>): (r: Arena)
    ensures r.Keys == infos.Keys
    ensures forall id :: id in infos ==> r[id].resumed == (infos[id].resumed || id in ids)
    ensures forall id :: id in infos ==> r[id].thread == infos[id].thread && r[id].monitor == infos[id].monitor
    ensures forall id :: id in infos ==> r[id].resumeTime == infos[id].resumeTime
    ensures forall id :: id in infos && id !in ids ==> r[id] == infos[id]
  {
    map id | id in infos :: if id in ids then infos[id].(resumed := true) else infos[id]
  }

  /** The records among `registered` whose resume time has been reached at `now`. */
  function DueIds(infos: Arena, registered: set<InfoId>, now: Long): (due: set<InfoId>)
    ensures due <= registered
    ensures forall id :: id in registered && id in infos ==> (id in due <==> now >= infos[id].resumeTime)
  {
    set id | id in registered && id in infos && now >= infos[id].resumeTime
  }

  /** `list` with every resumed entry removed, in the original order (`removeIf(ti -> ti.resumed)`). */
  function Unresumed(list: seq<InfoId>, infos: Arena): (r: seq<InfoId>)
    requires AllIn(list, infos)
    ensures AllIn(r, infos) && NoneResumed(r, infos)
    ensures forall id :: id in r <==> id in list && !infos[id].resumed
    ensures |r| <= |list|
  {
    if list == [] then []
    else
      var rest := Unresumed(list[1..], infos);
      if infos[list[0]].resumed then rest else [list[0]] + rest
  }

  /** Filtering distributes over concatenation, so the relative order of the kept entries is the original one. */
  lemma {:induction false} UnresumedAppend(a: seq<InfoId>, b: seq<InfoId>, infos: Arena)
    requires AllIn(a, infos) && AllIn(b, infos)
    ensures AllIn(a + b, infos)
    ensures Unresumed(a + b, infos) == Unresumed(a, infos) + Unresumed(b, infos)
  {
    if a == [] {
      assert a + b == b;
    } else {
      assert (a + b)[1..] == a[1..] + b;
      UnresumedAppend(a[1..], b, infos);
    }
  }

  /** A list none of whose entries is resumed is left as it is. */
  lemma {:induction false} UnresumedOfNoneResumed(list: seq<InfoId>, infos: Arena)
    requires AllIn(list, infos) && NoneResumed(list, infos)
    ensures Unresumed(list, infos) == list
  {
    if list != [] {
      UnresumedOfNoneResumed(list[1..], infos);
    }
  }

  /**
   * The monitor table after `tis.removeIf(ti -> ti.resumed)` on every list
   * followed by removing the monitors whose list became empty.
   */
  function PruneResumed(waiting: map<Monitor, seq<InfoId>>, infos: Arena): (r: map<Monitor, seq<InfoId>>)
    requires forall m :: m in waiting ==> AllIn(waiting[m], infos)
    ensures r.Keys <= waiting.Keys
    ensures forall m :: m in r <==> m in waiting && Unresumed(waiting[m], infos) != []
    ensures forall m :: m in r ==> r[m] != [] && AllIn(r[m], infos) && NoneResumed(r[m], infos)
    ensures forall m :: m in r ==> r[m] == Unresumed(waiting[m], infos)
    ensures forall m :: m in waiting && m !in r ==> AllResumed(waiting[m], infos)
  {
    var r := map m | m in waiting && Unresumed(waiting[m], infos) != [] :: Unresumed(waiting[m], infos);
    assert forall m :: m in waiting && m !in r ==> AllResumed(waiting[m], infos) by {
      forall m | m in waiting && m !in r ensures AllResumed(waiting[m], infos) {
        var l := waiting[m];
        assert AllIn(l, infos);
        forall i | 0 <= i < |l| ensures infos[l[i]].resumed {
          assert l[i] in l;
        }
      }
    }
    r
  }
}
