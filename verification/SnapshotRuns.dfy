/** What holds in every run of the snapshot protocol, and the exact condition on delivery
    under which no worker is left with a freed snapshot. */
module SnapshotRuns {
  import opened Common
  import opened Snapshot

  // ----- every reachable state, whatever is delivered

  /** A worker's (pointer, version) pair is the snapshot published with that even version,
      and an ACK(v), in flight or recorded, comes from a worker at v or later. */
  lemma CommitsArePublished(c: Config, s: State)
    requires ValidConfig(c) && Reachable(c, s)
    ensures forall w :: w in c.workers ==>
      w in s.locals && s.locals[w].ver % 2 == 0 && At(s.published, s.locals[w].ver, s.locals[w].ptr)
    ensures forall w, v :: (w, v) in s.acks ==> w in c.workers && v in s.published && v <= s.locals[w].ver
    ensures forall w :: w in s.tracker.sids ==> w in c.workers && s.tracker.ver <= s.locals[w].ver
  {
    hide GoneInv, FreedInv, QueueInv, FreedPdrInv, ContentsInv, PdrInv, NoDup, SlotInv, BuildInv, SendInv;
    ReachableInv(c, s);
    forall w | w in c.workers
      ensures w in s.locals && s.locals[w].ver % 2 == 0 && At(s.published, s.locals[w].ver, s.locals[w].ptr)
    {
      assert LocalInv(s.version, s.published, s.locals[w]);
    }
    forall w | w in s.tracker.sids ensures w in c.workers && s.tracker.ver <= s.locals[w].ver {
      assert (w, s.tracker.ver) in s.acks;
    }
  }

  /** Versions, publications, snapshots and what was freed only ever grow. */
  ghost predicate Advances(s: State, r: State) {
    && (forall w :: w in s.locals ==> w in r.locals && s.locals[w].ver <= r.locals[w].ver)
    && (forall v :: v in s.published ==> v in r.published && r.published[v] == s.published[v])
    && (forall x :: x in s.contents && x < s.nextSnap ==> x in r.contents && r.contents[x] == s.contents[x])
    && s.nextSnap <= r.nextSnap && s.freedSnaps <= r.freedSnaps && s.freedPdrs <= r.freedPdrs
  }

  lemma WorkerAdvances(c: Config, s: State, a: Action)
    requires LocalsInv(c, s.version, s.published, s.reqs, s.locals) && Enabled(c, s, a)
    requires a.TakeReq? || a.ReadVersion? || a.ReadPointer? || a.Recheck?
    ensures Advances(s, Do(c, s, a))
  {
    assert LocalInv(s.version, s.published, s.locals[a.w]);
  }

  lemma StoreAdvances(c: Config, s: State)
    requires TableInv(Stable(s.version), s.published, s.contents, s.nextSnap) && s.ctl.Swapped?
    requires SlotInv(s.version, s.ctl, s.active, s.published)
    ensures Advances(s, DoStoreEven(c, s))
  {
    assert s.version + 1 !in s.published;
  }

  lemma RebuildAdvances(c: Config, s: State, a: Action)
    requires Enabled(c, s, a) && (a.Create? || a.Update? || a.Withdraw?)
    ensures Advances(s, Do(c, s, a))
  {
    hide Without, Elements;
  }

  lemma ControlAdvances(c: Config, s: State, a: Action)
    requires Enabled(c, s, a) && (a.StoreOdd? || a.Exchange? || a.Send?)
    ensures Advances(s, Do(c, s, a))
  {}

  lemma FinishAdvances(s: State, queueFull: bool)
    requires s.ctl.Announcing?
    ensures Advances(s, DoFinish(s, queueFull))
  {}

  lemma AckAdvances(s: State, w: nat, v: nat)
    ensures Advances(s, DoAck(s, w, v))
  {
    hide Due, Mark;
  }

  /** No step takes a worker's version back, republishes a version, or changes a snapshot. */
  lemma StepsOnlyAdvance(c: Config, s: State, a: Action)
    requires ValidConfig(c) && Reachable(c, s) && Enabled(c, s, a)
    ensures Advances(s, Do(c, s, a))
  {
    hide TableInv, LocalsInv, SlotInv, Advances, DoStoreEven;
    ReachableInv(c, s);
    hide Inv;
    match a
    case StoreEven => StoreAdvances(c, s);
    case TakeReq(_, _) => WorkerAdvances(c, s, a);
    case ReadVersion(_) => WorkerAdvances(c, s, a);
    case ReadPointer(_) => WorkerAdvances(c, s, a);
    case Recheck(_) => WorkerAdvances(c, s, a);
    case Create(_) => RebuildAdvances(c, s, a);
    case Update(_) => RebuildAdvances(c, s, a);
    case Withdraw(_, _) => RebuildAdvances(c, s, a);
    case Finish(queueFull) => FinishAdvances(s, queueFull);
    case TakeAck(w, v) => AckAdvances(s, w, v);
    case _ => ControlAdvances(c, s, a);
  }

  /** Whenever UPF-C is not publishing, the active snapshot describes exactly the PDR list,
      after failed rebuilds too; the retire queue is in version order; nothing was freed twice. */
  lemma ListsAgree(c: Config, s: State)
    requires ValidConfig(c) && Reachable(c, s)
    ensures s.ctl.Ready? || s.ctl.Announcing? ==> Mirrors(s.active, s.contents, s.pdrs)
    ensures NoDup(s.pdrs) && Sorted(s.retireQ) && FreedOnce(s)
    ensures forall p :: p in s.pdrs ==> (forall r :: r in s.freedPdrs ==> r.pdr != p)
    ensures s.active.Some? ==> s.active.value !in s.freedSnaps
  {
    hide AckInv, ReqInv, TrackerInv, RetiredInv, SendInv, NoDup, Unmentioned, DistinctPdrs, Sorted, MovedPast, Mirrors;
    ReachableInv(c, s);
    InvFreedOnce(c, s);
    var gone := s.freedPdrs + s.retireQ + Pending(s.version, s.ctl);
    forall p, r | p in s.pdrs && r in s.freedPdrs ensures r.pdr != p {
      assert r in gone;
    }
  }

  // ----- runs grow at the end

  lemma {:induction false} LeadsAppend(c: Config, s: State, acts: seq<Action>, t: State, a: Action)
    requires Leads(c, s, acts, t) && Enabled(c, t, a)
    ensures Leads(c, s, acts + [a], Do(c, t, a))
    decreases |acts|
  {
    hide Do, Enabled;
    if acts == [] {
      assert [] + [a] == [a] && [a][1..] == [];
    } else {
      assert (acts + [a])[1..] == acts[1..] + [a];
      LeadsAppend(c, Do(c, s, acts[0]), acts[1..], t, a);
    }
  }

  lemma Step(c: Config, s: State, a: Action)
    requires Reachable(c, s) && Enabled(c, s, a)
    ensures Reachable(c, Do(c, s, a))
  {
    hide Do, Enabled;
    var acts :| Leads(c, Init(c), acts, s);
    LeadsAppend(c, Init(c), acts, s, a);
  }

  // ----- when a request is lost

  ghost predicate AllIdle(s: State) { forall w :: w in s.locals ==> s.locals[w].reader.Idle? }

  /** The rest of a broadcast. */
  lemma {:induction false} SendAll(c: Config, s: State) returns (t: State)
    requires ValidConfig(c) && Reachable(c, s) && s.ctl.Announcing?
    ensures Reachable(c, t) && t == s.(reqs := t.reqs, ctl := t.ctl) && s.reqs <= t.reqs
    ensures t.ctl.Announcing? && t.ctl == s.ctl.(todo := {}, reached := t.ctl.reached)
    ensures forall w :: w in s.ctl.todo && c.delivers(w, s.version) ==> (w, s.version) in t.reqs
    decreases |s.ctl.todo|
  {
    hide Reachable;
    if s.ctl.todo == {} {
      t := s;
    } else {
      var w :| w in s.ctl.todo;
      Step(c, s, Send(w));
      t := SendAll(c, DoSend(c, s, w));
    }
  }

  /** What one more publication of the same PDR list leaves behind. */
  ghost predicate PublishedOver(c: Config, s: State, t: State) {
    && t.version == s.version + 2 && t.ctl.Ready? && t.locals == s.locals && t.active.Some?
    && (forall w :: w in Reached(c, t.version) ==> (w, t.version) in t.reqs)
    && (s.active.Some? ==>
          if Reached(c, t.version) == {} then s.active.value in t.freedSnaps
          else
            && t.retiredSnap == s.active && t.retiredVer == t.version
            && t.tracker == Tracker(t.version, |Reached(c, t.version)|, []))
  }

  lemma PublishAgain(c: Config, s: State) returns (t: State)
    requires ValidConfig(c) && Reachable(c, s) && s.ctl.Ready?
    ensures Reachable(c, t) && PublishedOver(c, s, t)
  {
    hide Reachable, Inv;
    Step(c, s, Update(Complete));
    var s1 := Do(c, s, Update(Complete));
    Step(c, s1, StoreOdd);
    var s2 := Do(c, s1, StoreOdd);
    Step(c, s2, Exchange);
    var s3 := Do(c, s2, Exchange);
    Step(c, s3, StoreEven);
    var s4 := DoStoreEven(c, s3);
    var s5 := SendAll(c, s4);
    ReachableInv(c, s5);
    FinishReached(c, s5);
    Step(c, s5, Finish(false));
    t := DoFinish(s5, false);
  }

  /** From the start, any even version can be reached with every worker still idle. */
  lemma {:induction false} PublishUpTo(c: Config, v: nat) returns (s: State)
    requires ValidConfig(c) && v % 2 == 0
    ensures Reachable(c, s) && s.version == v && s.ctl.Ready? && s.locals == Init(c).locals
    ensures v >= 2 ==> s.active.Some? && forall w :: w in Reached(c, v) ==> (w, v) in s.reqs
  {
    hide Do, Enabled;
    if v == 0 {
      s := Init(c);
      assert Leads(c, Init(c), [], s);
    } else {
      s := PublishUpTo(c, v - 2);
      s := PublishAgain(c, s);
    }
  }

  /** A worker with a request in flight flips to the active snapshot and acknowledges it. */
  lemma FlipNow(c: Config, s: State, w: nat, v: nat) returns (t: State)
    requires ValidConfig(c) && Reachable(c, s) && s.ctl.Ready? && s.active.Some?
    requires w in s.locals && s.locals[w].reader.Idle? && (w, v) in s.reqs
    ensures Reachable(c, t)
    ensures
      var now := Worker(s.active, s.version, false, Idle);
      t == s.(locals := s.locals[w := now], acks := s.acks + {(w, s.version)})
  {
    hide Reachable;
    StableWhenReady(c, s);
    Step(c, s, TakeReq(w, v));
    var s1 := Do(c, s, TakeReq(w, v));
    Step(c, s1, ReadVersion(w));
    var s2 := Do(c, s1, ReadVersion(w));
    Step(c, s2, ReadPointer(w));
    var s3 := Do(c, s2, ReadPointer(w));
    Step(c, s3, Recheck(w));
    t := Do(c, s3, Recheck(w));
    assert t.locals == s.locals[w := Worker(s.active, s.version, false, Idle)];
  }

  lemma StableWhenReady(c: Config, s: State)
    requires ValidConfig(c) && Reachable(c, s) && s.ctl.Ready?
    ensures s.version % 2 == 0 && s.locals.Keys == c.workers
  {
    ReachableInv(c, s);
  }

  /** Collecting the ACKs of the workers in `left`, the last of which reclaims. */
  lemma {:induction false} CollectAcks(c: Config, s: State, left: set<nat>) returns (t: State)
    requires ValidConfig(c) && Reachable(c, s) && s.ctl.Ready? && s.active.Some? && s.retiredSnap.Some?
    requires s.version == s.retiredVer == s.tracker.ver && AllIdle(s)
    requires left != {} && left <= c.workers && s.tracker.expected == |s.tracker.sids| + |left| <= |c.workers|
    requires forall w :: w in left ==> w !in s.tracker.sids && (w, s.version) in s.reqs
    ensures Reachable(c, t) && s.retiredSnap.value in t.freedSnaps
    ensures forall w :: w in s.locals && w !in left ==> w in t.locals && t.locals[w] == s.locals[w]
    decreases |left|
  {
    hide Reachable;
    StableWhenReady(c, s);
    var w :| w in left;
    var rest := left - {w};
    assert |rest| == |left| - 1;
    var s1 := FlipNow(c, s, w, s.version);
    Step(c, s1, TakeAck(w, s.version));
    t := DoAck(s1, w, s.version);
    if rest != {} {
      assert t.tracker == s.tracker.(sids := s.tracker.sids + [w]);
      t := CollectAcks(c, t, rest);
    }
  }

  /** Where a worker's requests stop arriving, two consecutive versions show it. */
  lemma {:induction false} LastHeard(c: Config, w: nat, u: nat, v: nat) returns (t: nat)
    requires 2 <= u <= v && u % 2 == 0 && v % 2 == 0 && c.delivers(w, u) && !c.delivers(w, v)
    ensures t % 2 == 0 && 2 <= t && c.delivers(w, t) && !c.delivers(w, t + 2)
    decreases v - u
  {
    if c.delivers(w, u + 2) { t := LastHeard(c, w, u + 2, v); } else { t := u; }
  }

  /** If a request is lost after an earlier one arrived, some run frees the snapshot that
      the unreached worker is using. */
  lemma LostRequestIsUnsafe(c: Config) returns (s: State)
    requires ValidConfig(c) && !OnceHeardAlwaysHeard(c)
    ensures Reachable(c, s) && !Safe(c, s)
  {
    hide Reachable, Inv, Do, Enabled;
    var w, u, v :| w in c.workers && 2 <= u <= v && u % 2 == 0 && v % 2 == 0 && c.delivers(w, u) && !c.delivers(w, v);
    var n := LastHeard(c, w, u, v);
    var s0 := PublishUpTo(c, n);
    assert w in Reached(c, n);
    var s1 := FlipNow(c, s0, w, n);
    var s2 := PublishAgain(c, s1);
    s := s2;
    if Reached(c, n + 2) != {} {
      ReachedFits(c, n + 2);
      s := CollectAcks(c, s2, Reached(c, n + 2));
    }
    assert s.locals[w].ptr == s0.active && s0.active.value in s.freedSnaps;
    assert !Usable(s, w);
  }

  lemma ReachedFits(c: Config, v: nat)
    ensures Reached(c, v) <= c.workers && |Reached(c, v)| <= |c.workers|
  {
    SubsetSize(Reached(c, v), c.workers);
  }

  lemma {:induction false} SubsetSize(a: set<nat>, b: set<nat>)
    requires a <= b
    ensures |a| <= |b|
  {
    if a != {} {
      var x :| x in a;
      SubsetSize(a - {x}, b - {x});
    }
  }

  /** The reclamation is safe in every run exactly when requests, once they reach a worker,
      keep reaching it. */
  lemma SafeIffRequestsKeepArriving(c: Config)
    requires ValidConfig(c)
    ensures (forall s :: Reachable(c, s) ==> Safe(c, s)) <==> OnceHeardAlwaysHeard(c)
  {
    hide Reachable, Inv, Safe;
    if OnceHeardAlwaysHeard(c) {
      forall s | Reachable(c, s) ensures Safe(c, s) {
        ReachableInv(c, s);
        InvSafe(c, s);
      }
    } else {
      var s := LostRequestIsUnsafe(c);
    }
  }

  lemma InvSafe(c: Config, s: State)
    requires Inv(c, s) && OnceHeardAlwaysHeard(c)
    ensures Safe(c, s)
  {
    forall w | w in c.workers ensures w in s.locals && Usable(s, w) {
      assert LocalsInv(c, s.version, s.published, s.reqs, s.locals);
      InvUsable(c, s, w);
    }
  }

  /** With a fan-out that covers every worker, as the broadcast means to, it is always safe. */
  lemma FullFanOutIsSafe(c: Config, s: State)
    requires ValidConfig(c) && Reachable(c, s)
    requires forall w, v :: w in c.workers ==> c.delivers(w, v)
    ensures Safe(c, s) && FreedOnce(s)
  {
    ReachableInv(c, s);
    InvSafe(c, s);
    InvFreedOnce(c, s);
  }
}
