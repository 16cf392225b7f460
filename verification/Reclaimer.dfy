/** The globals of UPF-C behind publication and reclamation, updated in place: the retire queue
    of deferred PDRs, the ACK tracker, and the steps that use both
    (5gc/upf_c/n4_onvm_pfcp_handler.c:161-277, 484-548). */
module Reclaimer {
  import opened Common
  import opened Snapshot
  import Runs = SnapshotRuns

  const FIRST_CAPACITY := 64
  const COMPACT_HEAD := 4096

  class RetireQueue {
    var buf: array<Retired>
    var head: nat
    var len: nat

    ghost predicate Valid() reads this { head <= len <= buf.Length }

    ghost function Contents(): seq<Retired>
      requires Valid()
      reads this, buf
    {
      buf[head..len]
    }

    constructor ()
      ensures Valid() && Contents() == [] && fresh(buf)
    {
      buf := new Retired[0];
      head, len := 0, 0;
    }

    /** Room for `extra` more entries by doubling from 64, unless memory runs out. */
    method Ensure(extra: nat, oom: bool)
      requires Valid()
      modifies this`buf
      ensures Valid() && Contents() == old(Contents())
      ensures buf == old(buf) || fresh(buf)
      ensures buf != old(buf) <==> !oom && len + extra > old(buf.Length)
      ensures !oom ==> len + extra <= buf.Length
      ensures buf != old(buf) ==>
        buf.Length <= FIRST_CAPACITY || buf.Length == old(buf.Length) || buf.Length < 2 * (len + extra)
    {
      var need := len + extra;
      if need <= buf.Length { return; }
      var cap := if buf.Length != 0 then buf.Length else FIRST_CAPACITY;
      while cap < need
        invariant 0 < cap && (cap <= FIRST_CAPACITY || cap == buf.Length || cap < 2 * need)
        decreases need - cap
      {
        cap := 2 * cap;
      }
      if !oom {
        var bigger := new Retired[cap](_ => Retired(0, 0));
        var i := 0;
        while i < len
          invariant 0 <= i <= len && buf == old(buf) && buf[..] == old(buf[..])
          invariant bigger[..i] == buf[..i]
        {
          bigger[i] := buf[i];
          i := i + 1;
        }
        assert buf[head..len] == buf[..len][head..];
        assert bigger[head..len] == bigger[..len][head..];
        buf := bigger;
      }
    }

    /** Entries move to the front once enough of the array has been consumed. */
    method MaybeCompact()
      requires Valid()
      modifies this`head, this`len, buf
      ensures Valid() && Contents() == old(Contents())
      ensures head == 0 || (head < COMPACT_HEAD && 2 * head < len)
    {
      if head == 0 { return; }
      if head < len / 2 && head < COMPACT_HEAD { return; }
      var tail := len - head;
      var i := 0;
      while i < tail
        invariant 0 <= i <= tail && head == old(head) && len == old(len) && buf == old(buf)
        invariant forall k :: 0 <= k < i ==> buf[k] == old(buf[head + k])
        invariant forall k :: i <= k < buf.Length ==> buf[k] == old(buf[k])
      {
        buf[i] := buf[head + i];
        i := i + 1;
      }
      len, head := tail, 0;
    }

    /** Defers a PDR; it is forgotten only when the queue is full and cannot grow. */
    method DeferFree(p: Pdr, ver: nat, oom: bool) returns (kept: bool)
      requires Valid()
      modifies this`buf, this`len, buf
      ensures Valid() && (buf == old(buf) || fresh(buf)) && head == old(head)
      ensures kept <==> !oom || old(len < buf.Length)
      ensures Contents() == old(Contents()) + (if kept then [Retired(ver, p)] else [])
    {
      Ensure(1, oom);
      kept := len < buf.Length;
      if kept {
        ghost var before := buf[head..len];
        buf[len] := Retired(ver, p);
        len := len + 1;
        assert buf[head..len] == before + [Retired(ver, p)];
      }
    }

    /** Frees the entries at the front that are due, and keeps the array at most half wasted. */
    method FreeUpTo(ver: nat) returns (freed: seq<Retired>)
      requires Valid()
      modifies this`head, this`len, buf
      ensures Valid()
      ensures var n := Due(old(Contents()), ver); freed == old(Contents())[..n] && Contents() == old(Contents())[n..]
      ensures len <= 2 * |Contents()|
    {
      freed := [];
      ghost var q := Contents();
      while head < len && buf[head].ver <= ver
        invariant old(head) <= head <= len <= buf.Length && len == old(len)
        invariant buf == old(buf) && buf[..] == old(buf[..])
        invariant q == old(Contents()) && freed == q[..head - old(head)]
        invariant Due(q, ver) == head - old(head) + Due(q[head - old(head)..], ver)
      {
        ghost var k := head - old(head);
        assert q[k] == buf[head] && q[k..][1..] == q[k + 1..];
        freed := freed + [buf[head]];
        head := head + 1;
      }
      ghost var k := head - old(head);
      assert q[k..] == buf[head..len];
      MaybeCompact();
    }
  }

  /** The four globals of the ACK tracker. */
  class AckTracker {
    var ver: nat
    var expected: nat
    var received: nat
    const sids: array<nat>

    ghost predicate Valid() reads this { received <= sids.Length == MAX_WORKERS }

    ghost function Value(): Tracker
      requires Valid()
      reads this, sids
    {
      Tracker(ver, expected, sids[..received])
    }

    constructor ()
      ensures Valid() && fresh(sids) && Value() == Tracker(0, 0, [])
    {
      sids := new nat[MAX_WORKERS];
      ver, expected, received := 0, 0, 0;
    }

    method Reset(v: nat, n: nat)
      requires Valid()
      modifies this, sids
      ensures Valid() && Value() == Tracker(v, n, [])
    {
      ver, expected, received := v, n, 0;
      for i := 0 to sids.Length
        invariant received == 0 && ver == v && expected == n
      {
        sids[i] := 0;
      }
    }

    /** The three stores at the end of UpfClsOnAckFree. */
    method Forget()
      requires Valid()
      modifies this
      ensures Valid() && Value() == Tracker(0, 0, [])
    {
      ver, expected, received := 0, 0, 0;
    }

    method MarkOne(v: nat, sid: nat) returns (last: bool)
      requires Valid()
      modifies this`received, sids
      ensures Valid() && (Value(), last) == Mark(old(Value()), v, sid)
    {
      if v != ver || sid == INVALID_SID { return false; }
      var i := 0;
      while i < received
        invariant 0 <= i <= received == old(received) && sid !in sids[..i] && sids[..] == old(sids[..])
      {
        if sids[i] == sid {
          assert sid in sids[..received];
          return false;
        }
        i := i + 1;
      }
      if received >= MAX_WORKERS { return false; }
      ghost var was := sids[..received];
      sids[received] := sid;
      received := received + 1;
      assert sids[..received] == was + [sid];
      last := received >= expected;
    }
  }

  /** UPF-C's side of the protocol: its globals, and what a publication under way holds in
      local variables. Ghost `s` is the state of the whole system; the object shows its part of
      it, and `s` is always one that the protocol reaches. */
  class Collector {
    ghost const c: Config
    ghost var s: State
    const tracker: AckTracker
    const queue: RetireQueue
    var version: nat
    var active: Option<Snap>
    var retiredSnap: Option<Snap>
    var retiredVer: nat
    var handle: Snap
    var prev: Option<Snap>
    var drop: Option<Pdr>
    var fanout: nat

    ghost predicate Valid()
      reads this, tracker, tracker.sids, queue, queue.buf
    {
      tracker.Valid() && queue.Valid() && Shows(s) && ValidConfig(c) && Reachable(c, s)
    }

    /** These variables are the ones of protocol state `t`. */
    ghost predicate Shows(t: State)
      requires tracker.Valid() && queue.Valid()
      reads this, tracker, tracker.sids, queue, queue.buf
    {
      ShowsRest(t) && tracker.Value() == t.tracker
    }

    /** All but the tracker. */
    ghost predicate ShowsRest(t: State)
      requires queue.Valid()
      reads this, queue, queue.buf
    {
      && version == t.version && active == t.active && ShowsWork(t.ctl)
      && retiredSnap == t.retiredSnap && retiredVer == t.retiredVer && queue.Contents() == t.retireQ
    }

    ghost predicate ShowsWork(ctl: Ctl)
      reads this
    {
      match ctl
      case Ready => true
      case Built(snap, d) => handle == snap && drop == d
      case Writing(snap, d) => handle == snap && drop == d
      case Swapped(snap, p, d) => handle == snap && prev == p && drop == d
      case Announcing(_, reached, p, d) => prev == p && drop == d && fanout == |reached|
    }

    constructor (ghost c: Config)
      requires ValidConfig(c)
      ensures Valid() && this.c == c && s == Init(c)
      ensures fresh(tracker) && fresh(tracker.sids) && fresh(queue) && fresh(queue.buf)
    {
      this.c, s := c, Init(c);
      tracker := new AckTracker();
      queue := new RetireQueue();
      version, active, retiredSnap, retiredVer := 0, None, None, 0;
      handle, prev, drop, fanout := 0, None, None, 0;
      new;
      assert Leads(c, Init(c), [], Init(c));
    }

    // ----- publication

    /** A rebuild has made a new snapshot; `d` is the PDR that the message removes. */
    method Rebuilt(ghost a: Action, snap: Snap, d: Option<Pdr>)
      requires Valid() && Enabled(c, s, a) && (a.Create? || a.Update? || a.Withdraw?) && a.b.Complete?
      requires snap == s.nextSnap && d == if a.Withdraw? then Some(a.p) else None
      modifies this
      ensures Valid() && s == Do(c, old(s), a)
    {
      hide Reachable;
      Runs.Step(c, s, a);
      handle, drop := snap, d;
      s := Do(c, s, a);
    }

    method StoreOdd()
      requires Valid() && Enabled(c, s, Action.StoreOdd)
      modifies this
      ensures Valid() && s == Do(c, old(s), Action.StoreOdd)
    {
      hide Reachable;
      Runs.Step(c, s, Action.StoreOdd);
      version := version + 1;
      s := Do(c, s, Action.StoreOdd);
    }

    method Exchange()
      requires Valid() && Enabled(c, s, Action.Exchange)
      modifies this
      ensures Valid() && s == Do(c, old(s), Action.Exchange)
    {
      hide Reachable;
      Runs.Step(c, s, Action.Exchange);
      prev := active;
      active := Some(handle);
      s := Do(c, s, Action.Exchange);
    }

    /** The even version is stored, and the snapshot it replaces is cached as retired. */
    method StoreEven()
      requires Valid() && Enabled(c, s, Action.StoreEven)
      modifies this
      ensures Valid() && s == Do(c, old(s), Action.StoreEven)
    {
      hide Reachable;
      Runs.Step(c, s, Action.StoreEven);
      version := version + 1;
      if prev.Some? { retiredSnap, retiredVer := prev, version; }
      fanout := 0;
      s := Do(c, s, Action.StoreEven);
    }

    /** One send of the broadcast, and whether it succeeded. */
    method Send(w: nat, arrived: bool)
      requires Valid() && Enabled(c, s, Action.Send(w)) && arrived == c.delivers(w, s.version)
      modifies this
      ensures Valid() && s == Do(c, old(s), Action.Send(w))
    {
      hide Reachable, Inv;
      Runs.Step(c, s, Action.Send(w));
      NotTwice(c, s, w);
      if arrived { fanout := fanout + 1; }
      s := Do(c, s, Action.Send(w));
    }

    /** The end of a publication: the tracker is set, a snapshot that nobody was told about is
        freed at once, and a removed PDR is deferred unless the queue cannot grow. */
    method Finish(oom: bool) returns (snap: Option<Snap>, kept: bool)
      requires Valid() && s.ctl.Announcing? && s.ctl.todo == {}
      modifies this, tracker, tracker.sids, queue, queue.buf
      ensures Valid() && (queue.buf == old(queue.buf) || fresh(queue.buf))
      ensures kept <==> !oom || old(queue.len < queue.buf.Length) || drop.None?
      ensures s == Do(c, old(s), Action.Finish(!kept))
      ensures s.freedSnaps == old(s).freedSnaps + (if snap.Some? then [snap.value] else [])
    {
      hide Reachable, Do, Enabled, Inv, DoFinish;
      snap, kept := WindUp(oom);
      StepsAre(c, s);
      Runs.Step(c, s, Action.Finish(!kept));
      s := Do(c, s, Action.Finish(!kept));
    }

    method WindUp(oom: bool) returns (snap: Option<Snap>, kept: bool)
      requires tracker.Valid() && queue.Valid() && Shows(s) && s.ctl.Announcing?
      modifies this`retiredSnap, this`retiredVer, tracker, tracker.sids, queue, queue.buf
      ensures tracker.Valid() && queue.Valid() && (queue.buf == old(queue.buf) || fresh(queue.buf))
      ensures kept <==> !oom || old(queue.len < queue.buf.Length) || drop.None?
      ensures Shows(DoFinish(s, !kept))
      ensures DoFinish(s, !kept).freedSnaps == s.freedSnaps + (if snap.Some? then [snap.value] else [])
    {
      tracker.Reset(version, fanout);
      snap, kept := None, true;
      NoneReached(s.ctl.reached);
      if prev.Some? && fanout == 0 {
        snap := prev;
        retiredSnap, retiredVer := None, 0;
      }
      if drop.Some? { kept := queue.DeferFree(drop.value, version, oom); }
    }

    // ----- reclamation

    /** The handler does to its globals, and frees, what the protocol's ACK step says. */
    method OnAckFree(ver: nat, sid: nat) returns (snap: Option<Snap>, pdrs: seq<Retired>)
      requires Valid() && Enabled(c, s, TakeAck(sid, ver))
      modifies this, tracker, tracker.sids, queue, queue.buf
      ensures Valid() && s == Do(c, old(s), TakeAck(sid, ver)) && queue.buf == old(queue.buf)
      ensures s.freedSnaps == old(s).freedSnaps + (if snap.Some? then [snap.value] else [])
      ensures s.freedPdrs == old(s).freedPdrs + pdrs
    {
      hide Reachable, Do, Enabled, Inv, DoAck;
      Runs.Step(c, s, TakeAck(sid, ver));
      StepsAre(c, s);
      snap, pdrs := Collect(ver, sid);
      s := Do(c, s, TakeAck(sid, ver));
    }

    method Collect(ver: nat, sid: nat) returns (snap: Option<Snap>, pdrs: seq<Retired>)
      requires tracker.Valid() && queue.Valid() && Shows(s) && s.ctl.Ready?
      modifies this`retiredSnap, this`retiredVer, tracker, tracker.sids, queue, queue.buf
      ensures tracker.Valid() && queue.Valid() && Shows(DoAck(s, sid, ver)) && queue.buf == old(queue.buf)
      ensures DoAck(s, sid, ver).freedSnaps == s.freedSnaps + (if snap.Some? then [snap.value] else [])
      ensures DoAck(s, sid, ver).freedPdrs == s.freedPdrs + pdrs
    {
      hide Due, Reclaim;
      snap, pdrs := None, [];
      if ver != retiredVer { return; }
      if tracker.expected > 0 {
        var last := tracker.MarkOne(ver, sid);
        if !last { return; }
      }
      snap, pdrs := Release(ver);
    }

    /** The retired snapshot and all PDRs that are due are freed. */
    method Release(ver: nat) returns (snap: Option<Snap>, pdrs: seq<Retired>)
      requires tracker.Valid() && queue.Valid() && ShowsRest(s)
      modifies this`retiredSnap, this`retiredVer, tracker, queue, queue.buf
      ensures tracker.Valid() && queue.Valid() && Shows(Reclaim(s, ver)) && queue.buf == old(queue.buf)
      ensures Reclaim(s, ver).freedSnaps == s.freedSnaps + (if snap.Some? then [snap.value] else [])
      ensures Reclaim(s, ver).freedPdrs == s.freedPdrs + pdrs
    {
      hide Due, Reclaim;
      ReclaimIs(s, ver);
      snap := retiredSnap;
      retiredSnap := None;
      retiredVer := 0;
      tracker.Forget();
      assert queue.Contents() == s.retireQ;
      pdrs := queue.FreeUpTo(ver);
    }

    // ----- whole runs

    /** Steps of the workers, and rebuilds that fail, change none of these variables. */
    ghost method Elsewhere(a: Action)
      requires Valid() && Enabled(c, s, a)
      requires a.TakeReq? || a.ReadVersion? || a.ReadPointer? || a.Recheck?
        || ((a.Create? || a.Update? || a.Withdraw?) && !a.b.Complete?)
      modifies this`s
      ensures Valid() && s == Do(c, old(s), a)
    {
      hide Reachable;
      Runs.Step(c, s, a);
      s := Do(c, s, a);
    }

    /** Over every run, through growth and compaction, the array holds its entries in the order
        of their versions, and when requests keep arriving nothing in use has been freed. */
    lemma QueueStaysSorted()
      requires Valid()
      ensures forall i, j :: queue.head <= i < j < queue.len ==> queue.buf[i].ver <= queue.buf[j].ver
      ensures forall i :: queue.head <= i < queue.len ==> queue.buf[i].pdr !in s.pdrs && queue.buf[i] !in s.freedPdrs
      ensures OnceHeardAlwaysHeard(c) ==> Safe(c, s)
    {
      hide Reachable, Safe, NoDup;
      Runs.ListsAgree(c, s);
      Runs.SafeIffRequestsKeepArriving(c);
      ghost var q := queue.Contents();
      forall i, j | queue.head <= i < j < queue.len ensures queue.buf[i].ver <= queue.buf[j].ver {
        assert q[i - queue.head].ver <= q[j - queue.head].ver;
      }
      QueuedAreGone(c, s);
      forall i | queue.head <= i < queue.len
        ensures queue.buf[i].pdr !in s.pdrs && queue.buf[i] !in s.freedPdrs
      {
        assert q[i - queue.head] in s.retireQ;
      }
    }
  }

  lemma NotTwice(c: Config, s: State, w: nat)
    requires ValidConfig(c) && Reachable(c, s) && s.ctl.Announcing? && w in s.ctl.todo
    ensures w !in s.ctl.reached && |s.ctl.reached + {w}| == |s.ctl.reached| + 1
  {
    hide Reachable;
    ReachableInv(c, s);
  }

  lemma StepsAre(c: Config, s: State)
    ensures forall w, v :: Enabled(c, s, TakeAck(w, v)) ==> s.ctl.Ready? && Do(c, s, TakeAck(w, v)) == DoAck(s, w, v)
    ensures
      s.ctl.Announcing? && s.ctl.todo == {} ==>
        forall full :: Enabled(c, s, Finish(full)) && Do(c, s, Finish(full)) == DoFinish(s, full)
  {
    hide DoAck, DoFinish;
  }

  lemma ReclaimIs(s: State, ver: nat)
    ensures
      var t, n := Reclaim(s, ver), Due(s.retireQ, ver);
      && t.version == s.version && t.active == s.active && t.ctl == s.ctl
      && t.retiredSnap == None && t.retiredVer == 0 && t.tracker == Tracker(0, 0, [])
      && t.retireQ == s.retireQ[n..] && t.freedPdrs == s.freedPdrs + s.retireQ[..n]
      && t.freedSnaps == s.freedSnaps + (if s.retiredSnap.Some? then [s.retiredSnap.value] else [])
  {
    hide Due;
  }

  lemma NoneReached(reached: set<nat>)
    ensures |reached| == 0 <==> reached == {}
  {}

  /** A deferred PDR is neither listed nor freed yet. */
  lemma QueuedAreGone(c: Config, s: State)
    requires ValidConfig(c) && Reachable(c, s)
    ensures forall r :: r in s.retireQ ==> r.pdr !in s.pdrs && r !in s.freedPdrs
  {
    hide Reachable;
    ReachableInv(c, s);
    var gone := s.freedPdrs + s.retireQ + Pending(s.version, s.ctl);
    assert DistinctPdrs(gone);
    forall r | r in s.retireQ ensures r.pdr !in s.pdrs && r !in s.freedPdrs {
      var i :| 0 <= i < |s.retireQ| && s.retireQ[i] == r;
      assert gone[|s.freedPdrs| + i] == r && r in gone;
      forall j | 0 <= j < |s.freedPdrs| ensures s.freedPdrs[j] != r { assert gone[j] == s.freedPdrs[j]; }
    }
  }
}
