/** Where every PDR and every classifier snapshot is, in every state of the publication protocol:
    nothing disappears but what the code overwrites or cannot queue, and what was deferred is
    freed when the last worker has answered
    (5gc/upf_c/n4_onvm_pfcp_handler.c:187-203, 489-548, 1736-1771). */
module Ledger {
  import opened Common
  import opened Snapshot
  import opened SnapshotRuns

  // ----- PDRs

  /** How often p is in a list. */
  function Times(q: seq<nat>, p: nat): nat {
    if q == [] then 0 else Times(q[..|q| - 1], p) + if q[|q| - 1] == p then 1 else 0
  }

  function Entries(q: seq<Retired>, p: Pdr): nat {
    if q == [] then 0 else Entries(q[..|q| - 1], p) + if q[|q| - 1].pdr == p then 1 else 0
  }

  function InDrop(ctl: Ctl, p: Pdr): nat { if !ctl.Ready? && ctl.drop == Some(p) then 1 else 0 }

  /** In how many places p is: listed, freed, deferred, being removed, or lost because the queue
      could not take it. */
  function Places(s: State, p: Pdr): nat {
    Times(s.pdrs, p) + Entries(s.freedPdrs, p) + Entries(s.retireQ, p) + InDrop(s.ctl, p) + Times(s.lost, p)
  }

  lemma {:induction false} TimesConcat(q: seq<nat>, r: seq<nat>, p: nat)
    ensures Times(q + r, p) == Times(q, p) + Times(r, p)
    decreases |r|
  {
    if r == [] {
      assert q + r == q;
    } else {
      var n := |r| - 1;
      assert (q + r)[..|q| + n] == q + r[..n] && (q + r)[|q| + n] == r[n];
      TimesConcat(q, r[..n], p);
    }
  }

  lemma TimesAppend(q: seq<nat>, x: nat, p: nat)
    ensures Times(q + [x], p) == Times(q, p) + if x == p then 1 else 0
  {
    assert (q + [x])[..|q|] == q;
  }

  lemma {:induction false} EntriesConcat(q: seq<Retired>, r: seq<Retired>, p: Pdr)
    ensures Entries(q + r, p) == Entries(q, p) + Entries(r, p)
    decreases |r|
  {
    if r == [] {
      assert q + r == q;
    } else {
      var n := |r| - 1;
      assert (q + r)[..|q| + n] == q + r[..n] && (q + r)[|q| + n] == r[n];
      EntriesConcat(q, r[..n], p);
    }
  }

  lemma EntriesAppend(q: seq<Retired>, x: Retired, p: Pdr)
    ensures Entries(q + [x], p) == Entries(q, p) + if x.pdr == p then 1 else 0
  {
    assert (q + [x])[..|q|] == q;
  }

  lemma {:induction false} EntriesIff(q: seq<Retired>, p: Pdr)
    ensures Entries(q, p) > 0 <==> exists r :: r in q && r.pdr == p
    decreases |q|
  {
    if q != [] {
      var n := |q| - 1;
      EntriesIff(q[..n], p);
      assert q == q[..n] + [q[n]];
      forall r | r in q[..n] ensures r in q {}
      assert q[n] in q;
    }
  }

  lemma {:induction false} WithoutTimes(q: seq<Pdr>, x: Pdr, p: Pdr)
    requires x in q
    ensures Times(Without(q, x), p) == Times(q, p) - if x == p then 1 else 0
  {
    assert q == [q[0]] + q[1..];
    TimesConcat([q[0]], q[1..], p);
    TimesAppend([], q[0], p);
    assert [] + [q[0]] == [q[0]];
    if q[0] != x {
      WithoutTimes(q[1..], x, p);
      TimesConcat([q[0]], Without(q[1..], x), p);
    }
  }

  /** A rebuild moves no PDR but the one it is told to drop. */
  lemma RebuildPdrs(s: State, b: Build, drop: Option<Pdr>)
    requires s.ctl.Ready?
    ensures
      var r := Rebuild(s, b, drop);
      && r.pdrs == s.pdrs && r.freedPdrs == s.freedPdrs && r.retireQ == s.retireQ && r.lost == s.lost
      && r.nextPdr == s.nextPdr && if b.Complete? then !r.ctl.Ready? && r.ctl.drop == drop else r.ctl == s.ctl
  {}

  lemma CreatePdrs(s: State, b: Build, p: Pdr)
    requires s.ctl.Ready?
    ensures
      var r := DoCreate(s, b);
      Places(r, p) == Places(s, p) + (if p == s.nextPdr then 1 else 0) && r.nextPdr == s.nextPdr + 1
  {
    hide Rebuild, Times, Entries;
    var x := s.nextPdr;
    var s1 := s.(pdrs := s.pdrs + [x], nextPdr := x + 1);
    RebuildPdrs(s1, b, None);
    TimesAppend(s.pdrs, x, p);
    WithoutTimes(s1.pdrs, x, p);
    EntriesAppend(s.freedPdrs, Retired(0, x), p);
  }

  lemma WithdrawPdrs(s: State, x: Pdr, b: Build, p: Pdr)
    requires s.ctl.Ready? && x in s.pdrs
    ensures var r := DoWithdraw(s, x, b); Places(r, p) == Places(s, p) && r.nextPdr == s.nextPdr
  {
    hide Rebuild, Times, Entries, Without;
    RebuildPdrs(s.(pdrs := Without(s.pdrs, x)), b, Some(x));
    WithoutTimes(s.pdrs, x, p);
    TimesAppend(Without(s.pdrs, x), x, p);
  }

  lemma FinishPdrs(s: State, queueFull: bool, p: Pdr)
    requires s.ctl.Announcing?
    ensures var r := DoFinish(s, queueFull); Places(r, p) == Places(s, p) && r.nextPdr == s.nextPdr
  {
    hide Times, Entries;
    if s.ctl.drop.Some? {
      EntriesAppend(s.retireQ, Retired(s.version, s.ctl.drop.value), p);
      TimesAppend(s.lost, s.ctl.drop.value, p);
    }
  }

  lemma AckPdrs(s: State, w: nat, v: nat, p: Pdr)
    ensures var r := DoAck(s, w, v); Places(r, p) == Places(s, p) && r.nextPdr == s.nextPdr
  {
    hide Mark, Due, Times, Entries;
    var n := Due(s.retireQ, v);
    assert s.retireQ == s.retireQ[..n] + s.retireQ[n..];
    EntriesConcat(s.retireQ[..n], s.retireQ[n..], p);
    EntriesConcat(s.freedPdrs, s.retireQ[..n], p);
  }

  lemma StepPdrs(c: Config, s: State, a: Action, p: Pdr)
    requires Enabled(c, s, a)
    ensures
      var r := Do(c, s, a);
      && Places(r, p) == Places(s, p) + (if a.Create? && p == s.nextPdr then 1 else 0)
      && r.nextPdr == s.nextPdr + if a.Create? then 1 else 0
  {
    hide DoCreate, DoWithdraw, DoFinish, DoAck, Rebuild, Times, Entries;
    match a
    case Create(b) => CreatePdrs(s, b, p);
    case Update(b) => RebuildPdrs(s, b, None);
    case Withdraw(x, b) => WithdrawPdrs(s, x, b, p);
    case Finish(queueFull) => FinishPdrs(s, queueFull, p);
    case TakeAck(w, v) => AckPdrs(s, w, v, p);
    case _ =>
  }

  lemma {:induction false} RunPdrs(c: Config, s: State, acts: seq<Action>, t: State, p: Pdr)
    requires Leads(c, s, acts, t) && Places(s, p) == if p < s.nextPdr then 1 else 0
    ensures Places(t, p) == if p < t.nextPdr then 1 else 0
    decreases |acts|
  {
    hide Enabled, Do, Places;
    if acts != [] {
      StepPdrs(c, s, acts[0], p);
      RunPdrs(c, Do(c, s, acts[0]), acts[1..], t, p);
    }
  }

  /** In every reachable state each PDR that was ever created is in exactly one place. */
  lemma PdrsConserved(c: Config, s: State, p: Pdr)
    requires Reachable(c, s)
    ensures Places(s, p) == if p < s.nextPdr then 1 else 0
  {
    var acts :| Leads(c, Init(c), acts, s);
    RunPdrs(c, Init(c), acts, s, p);
  }

  /** Rebuilds and ACKs lose nothing and overwrite nothing. */
  lemma NothingGone(s: State, b: Build, p: Pdr, w: nat, v: nat)
    ensures DoCreate(s, b).lost == s.lost && DoCreate(s, b).leaked == s.leaked
    ensures DoWithdraw(s, p, b).lost == s.lost && DoWithdraw(s, p, b).leaked == s.leaked
    ensures Rebuild(s, b, None).lost == s.lost && Rebuild(s, b, None).leaked == s.leaked
    ensures DoAck(s, w, v).lost == s.lost && DoAck(s, w, v).leaked == s.leaked
  {
    hide Mark, Due, Without;
  }

  /** A PDR is lost exactly when a removal ends and the queue is full; a snapshot leaks exactly
      when one is retired while another one still waits for ACKs. */
  lemma GoneOnlyWhen(c: Config, s: State, a: Action)
    requires Enabled(c, s, a)
    ensures
      var full := a == Finish(true) && s.ctl.drop.Some?;
      Do(c, s, a).lost == s.lost + if full then [s.ctl.drop.value] else []
    ensures
      var overwrites := a.StoreEven? && s.ctl.prev.Some? && s.retiredSnap.Some?;
      Do(c, s, a).leaked == s.leaked + if overwrites then [s.retiredSnap.value] else []
  {
    hide DoCreate, DoWithdraw, DoAck, Rebuild;
    match a
    case Create(b) => NothingGone(s, b, 0, 0, 0);
    case Update(b) => NothingGone(s, b, 0, 0, 0);
    case Withdraw(p, b) => NothingGone(s, b, p, 0, 0);
    case TakeAck(w, v) => NothingGone(s, NoHandle, 0, w, v);
    case _ =>
  }

  // ----- snapshots

  function Is(o: Option<Snap>, n: Snap): nat { if o == Some(n) then 1 else 0 }

  /** In how many places snapshot n is: active, being built, just replaced, retired, freed, or
      leaked because another one was retired before the workers had answered. */
  function SnapPlaces(s: State, n: Snap): nat {
    Is(s.active, n) + Is(s.retiredSnap, n) + Times(s.freedSnaps, n) + Times(s.leaked, n)
    + (if (s.ctl.Built? || s.ctl.Writing?) && s.ctl.snap == n then 1 else 0)
    + (if s.ctl.Swapped? then Is(s.ctl.prev, n) else 0)
  }

  lemma RebuildSnaps(s: State, b: Build, drop: Option<Pdr>, n: Snap)
    requires s.ctl.Ready?
    ensures
      var r := Rebuild(s, b, drop);
      && r.nextSnap == s.nextSnap + (if b.NoHandle? then 0 else 1)
      && SnapPlaces(r, n) == SnapPlaces(s, n) + if !b.NoHandle? && n == s.nextSnap then 1 else 0
  {
    hide Times;
    TimesAppend(s.freedSnaps, s.nextSnap, n);
  }

  lemma CreateSnaps(s: State, b: Build, n: Snap)
    requires s.ctl.Ready?
    ensures
      var r := DoCreate(s, b);
      && r.nextSnap == s.nextSnap + (if b.NoHandle? then 0 else 1)
      && SnapPlaces(r, n) == SnapPlaces(s, n) + if !b.NoHandle? && n == s.nextSnap then 1 else 0
  {
    hide Times, Rebuild, Without;
    RebuildSnaps(s.(pdrs := s.pdrs + [s.nextPdr], nextPdr := s.nextPdr + 1), b, None, n);
  }

  lemma WithdrawSnaps(s: State, x: Pdr, b: Build, n: Snap)
    requires s.ctl.Ready?
    ensures
      var r := DoWithdraw(s, x, b);
      && r.nextSnap == s.nextSnap + (if b.NoHandle? then 0 else 1)
      && SnapPlaces(r, n) == SnapPlaces(s, n) + if !b.NoHandle? && n == s.nextSnap then 1 else 0
  {
    hide Times, Rebuild, Without;
    RebuildSnaps(s.(pdrs := Without(s.pdrs, x)), b, Some(x), n);
  }

  lemma FinishSnaps(c: Config, s: State, queueFull: bool, n: Snap)
    requires Inv(c, s) && s.ctl.Announcing?
    ensures SnapPlaces(DoFinish(s, queueFull), n) == SnapPlaces(s, n) && DoFinish(s, queueFull).nextSnap == s.nextSnap
  {
    hide Times, TableInv, ContentsInv, BuildInv, LocalsInv, ReqInv, AckInv, TrackerInv, FreedInv, PdrInv, GoneInv,
      QueueInv, FreedPdrInv, SendInv;
    if s.ctl.prev.Some? { TimesAppend(s.freedSnaps, s.ctl.prev.value, n); }
  }

  lemma StoreEvenSnaps(c: Config, s: State, n: Snap)
    requires s.ctl.Swapped?
    ensures SnapPlaces(DoStoreEven(c, s), n) == SnapPlaces(s, n) && DoStoreEven(c, s).nextSnap == s.nextSnap
  {
    hide Times;
    if s.retiredSnap.Some? { TimesAppend(s.leaked, s.retiredSnap.value, n); }
  }

  lemma AckSnaps(s: State, w: nat, v: nat, n: Snap)
    ensures SnapPlaces(DoAck(s, w, v), n) == SnapPlaces(s, n) && DoAck(s, w, v).nextSnap == s.nextSnap
  {
    hide Mark, Due, Times;
    if s.retiredSnap.Some? { TimesAppend(s.freedSnaps, s.retiredSnap.value, n); }
  }

  lemma ControlSnaps(c: Config, s: State, a: Action, n: Snap)
    requires Enabled(c, s, a) && (a.StoreOdd? || a.Exchange? || a.Send?)
    ensures SnapPlaces(Do(c, s, a), n) == SnapPlaces(s, n) && Do(c, s, a).nextSnap == s.nextSnap
  {
    hide Times;
  }

  lemma WorkerSnaps(c: Config, s: State, a: Action)
    requires Enabled(c, s, a) && (a.TakeReq? || a.ReadVersion? || a.ReadPointer? || a.Recheck?)
    ensures var t := Do(c, s, a); t == s.(locals := t.locals, acks := t.acks)
  {}

  lemma StepSnaps(c: Config, s: State, a: Action, n: Snap)
    requires Inv(c, s) && Enabled(c, s, a)
    requires SnapPlaces(s, n) == if n < s.nextSnap then 1 else 0
    ensures SnapPlaces(Do(c, s, a), n) == if n < Do(c, s, a).nextSnap then 1 else 0
  {
    hide Inv, DoFinish, DoAck, DoStoreEven, DoCreate, DoWithdraw, Rebuild, Times;
    match a
    case Create(b) => CreateSnaps(s, b, n);
    case Update(b) => RebuildSnaps(s, b, None, n);
    case Withdraw(x, b) => WithdrawSnaps(s, x, b, n);
    case StoreEven => StoreEvenSnaps(c, s, n);
    case Finish(queueFull) => FinishSnaps(c, s, queueFull, n);
    case TakeAck(w, v) => AckSnaps(s, w, v, n);
    case StoreOdd => ControlSnaps(c, s, a, n);
    case Exchange => ControlSnaps(c, s, a, n);
    case Send(_) => ControlSnaps(c, s, a, n);
    case _ => WorkerSnaps(c, s, a);
  }

  lemma {:induction false} RunSnaps(c: Config, s: State, acts: seq<Action>, t: State, n: Snap)
    requires ValidConfig(c) && Inv(c, s) && Leads(c, s, acts, t) && SnapPlaces(s, n) == if n < s.nextSnap then 1 else 0
    ensures SnapPlaces(t, n) == if n < t.nextSnap then 1 else 0
    decreases |acts|
  {
    hide Enabled, Do, SnapPlaces, Inv;
    if acts != [] {
      StepInv(c, s, acts[0]);
      StepSnaps(c, s, acts[0], n);
      RunSnaps(c, Do(c, s, acts[0]), acts[1..], t, n);
    }
  }

  /** In every reachable state each snapshot that was ever made is in exactly one place. */
  lemma SnapsConserved(c: Config, s: State, n: Snap)
    requires ValidConfig(c) && Reachable(c, s)
    ensures SnapPlaces(s, n) == if n < s.nextSnap then 1 else 0
  {
    hide Inv;
    InitInv(c);
    var acts :| Leads(c, Init(c), acts, s);
    RunSnaps(c, Init(c), acts, s, n);
  }

  // ----- the last answer

  lemma {:induction false} AllDue(q: seq<Retired>, v: nat)
    requires forall r :: r in q ==> r.ver <= v
    ensures Due(q, v) == |q|
  {
    if q != [] {
      assert q[0] in q;
      forall r | r in q[1..] ensures r in q {}
      AllDue(q[1..], v);
    }
  }

  lemma {:induction false} NoDupFits(q: seq<nat>, d: set<nat>)
    requires NoDup(q) && forall x :: x in q ==> x in d
    ensures |q| <= |d|
    decreases |q|
  {
    if q != [] {
      var n := |q| - 1;
      assert q[n] in q;
      forall x | x in q[..n] ensures x in d - {q[n]} {
        var i :| 0 <= i < n && q[i] == x;
        assert x in q;
      }
      NoDupFits(q[..n], d - {q[n]});
    }
  }

  /** The answer of the last worker that was told frees the retired snapshot and every deferred
      PDR. */
  lemma LastAnswerFrees(c: Config, s: State, w: nat)
    requires ValidConfig(c) && Reachable(c, s) && Enabled(c, s, TakeAck(w, s.retiredVer)) && s.retiredVer != 0
    requires w !in s.tracker.sids && |s.tracker.sids| + 1 >= s.tracker.expected
    ensures
      var t := Do(c, s, TakeAck(w, s.retiredVer));
      && t.retiredSnap == None && t.retiredVer == 0 && t.retireQ == [] && s.retiredSnap.Some?
      && t.freedSnaps == s.freedSnaps + [s.retiredSnap.value] && t.freedPdrs == s.freedPdrs + s.retireQ
  {
    hide TableInv, ContentsInv, BuildInv, SlotInv, ReqInv, FreedInv, PdrInv, GoneInv, FreedPdrInv, SendInv, Due,
      Reachable;
    ReachableInv(c, s);
    var v := s.retiredVer;
    AllDue(s.retireQ, v);
    assert s.retireQ[..|s.retireQ|] == s.retireQ && s.retireQ[|s.retireQ|..] == [];
    Room(c, s, w);
  }

  /** The tracker has room for one more worker, and the worker has a valid number. */
  lemma Room(c: Config, s: State, w: nat)
    requires ValidConfig(c) && Inv(c, s) && (w, s.retiredVer) in s.acks && w !in s.tracker.sids
    ensures w != INVALID_SID && |s.tracker.sids| < MAX_WORKERS
  {
    hide TableInv, ContentsInv, BuildInv, SlotInv, ReqInv, FreedInv, PdrInv, GoneInv, FreedPdrInv, SendInv, RetiredInv,
      QueueInv;
    var sids := s.tracker.sids;
    forall x | x in sids ensures x in c.workers { assert (x, s.tracker.ver) in s.acks; }
    forall i | 0 <= i < |sids| ensures sids[i] != w { assert sids[i] in sids; }
    NoDupFits(sids + [w], c.workers);
  }

  // ----- when all have answered

  /** As long as a snapshot is retired, some worker that was told has not answered. */
  ghost predicate Waits(s: State) {
    s.retiredVer != 0 && !s.ctl.Announcing? ==> |s.tracker.sids| < s.tracker.expected
  }

  lemma StepWaits(c: Config, s: State, a: Action)
    requires Inv(c, s) && Enabled(c, s, a) && Waits(s)
    ensures Waits(Do(c, s, a))
  {
    hide TableInv, ContentsInv, BuildInv, LocalsInv, ReqInv, AckInv, FreedInv, PdrInv, GoneInv, QueueInv, FreedPdrInv,
      SendInv, Due;
    if a.Finish? && s.ctl.reached != {} { assert |s.ctl.reached| > 0; }
  }

  lemma {:induction false} RunWaits(c: Config, s: State, acts: seq<Action>, t: State)
    requires ValidConfig(c) && Inv(c, s) && Waits(s) && Leads(c, s, acts, t)
    ensures Waits(t)
    decreases |acts|
  {
    hide Enabled, Do, Waits, Inv;
    if acts != [] {
      StepInv(c, s, acts[0]);
      StepWaits(c, s, acts[0]);
      RunWaits(c, Do(c, s, acts[0]), acts[1..], t);
    }
  }

  lemma ReachableWaits(c: Config, s: State)
    requires ValidConfig(c) && Reachable(c, s)
    ensures Waits(s)
  {
    hide Inv;
    InitInv(c);
    var acts :| Leads(c, Init(c), acts, s);
    RunWaits(c, Init(c), acts, s);
  }

  /** Steps other than those of a publication. */
  predicate Calm(a: Action) {
    || a.TakeAck? || a.TakeReq? || a.ReadVersion? || a.ReadPointer? || a.Recheck?
    || ((a.Create? || a.Update? || a.Withdraw?) && !a.b.Complete?)
  }

  /** What calm steps leave alone: nothing is retired or deferred anew, and what was freed stays
      so. */
  lemma CalmStep(c: Config, s: State, a: Action)
    requires Enabled(c, s, a) && Calm(a)
    ensures
      var t := Do(c, s, a);
      && t.version == s.version && (s.ctl.Ready? ==> t.ctl.Ready?) && s.freedSnaps <= t.freedSnaps
      && s.freedPdrs <= t.freedPdrs
      && (!a.TakeAck? ==> t.retiredVer == s.retiredVer && t.retireQ == s.retireQ && t.retiredSnap == s.retiredSnap
                          && t.tracker == s.tracker)
  {
    hide DoAck, Without;
    if a.TakeAck? { AckFrees(s, a.w, a.v); }
  }

  lemma AckFrees(s: State, w: nat, v: nat)
    ensures
      var t := DoAck(s, w, v);
      t.version == s.version && t.ctl == s.ctl && s.freedSnaps <= t.freedSnaps && s.freedPdrs <= t.freedPdrs
  {
    hide Mark, Due;
  }

  /** Nothing is left to reclaim. */
  ghost predicate Clean(s: State) { s.retiredVer == 0 && s.retireQ == [] && s.retiredSnap == None }

  lemma CleanAck(c: Config, s: State, w: nat, v: nat)
    requires Clean(s)
    ensures Clean(DoAck(s, w, v))
  {
    hide Mark;
  }

  lemma {:induction false} StaysClean(c: Config, s: State, acts: seq<Action>, t: State)
    requires Clean(s) && Leads(c, s, acts, t) && forall i :: 0 <= i < |acts| ==> Calm(acts[i])
    ensures Clean(t) && s.freedSnaps <= t.freedSnaps && s.freedPdrs <= t.freedPdrs
    decreases |acts|
  {
    if acts != [] {
      var a := acts[0];
      hide Do, Enabled, DoAck;
      CalmStep(c, s, a);
      if a.TakeAck? {
        AckIs(c, s, a.w, a.v);
        CleanAck(c, s, a.w, a.v);
      }
      StaysClean(c, Do(c, s, a), acts[1..], t);
    }
  }

  lemma AckIs(c: Config, s: State, w: nat, v: nat)
    requires Enabled(c, s, TakeAck(w, v))
    ensures Do(c, s, TakeAck(w, v)) == DoAck(s, w, v)
  {
    hide DoAck;
  }

  /** Every worker that was told of version v has answered or does so in the run. */
  ghost predicate Answered(c: Config, s: State, acts: seq<Action>, v: nat) {
    forall w :: w in Reached(c, v) ==> w in s.tracker.sids || TakeAck(w, v) in acts
  }

  /** An answer that is not the last one is written down. */
  lemma OneAnswer(c: Config, s: State, w: nat, v: nat)
    requires ValidConfig(c) && Reachable(c, s) && Enabled(c, s, TakeAck(w, v)) && s.retiredVer != 0
    requires !(v == s.retiredVer && w !in s.tracker.sids && |s.tracker.sids| + 1 >= s.tracker.expected)
    ensures
      var t := Do(c, s, TakeAck(w, v));
      && t.retiredVer == s.retiredVer && t.retireQ == s.retireQ && t.retiredSnap == s.retiredSnap
      && t.freedSnaps == s.freedSnaps && t.freedPdrs == s.freedPdrs
      && (forall x :: x in s.tracker.sids || (x == w && v == s.retiredVer) ==> x in t.tracker.sids)
  {
    hide TableInv, ContentsInv, BuildInv, LocalsInv, SlotInv, ReqInv, FreedInv, PdrInv, GoneInv, QueueInv, FreedPdrInv,
      SendInv, Due, Reachable;
    ReachableInv(c, s);
    if w !in s.tracker.sids && v == s.retiredVer { Room(c, s, w); }
  }

  /** Once every worker that was told of the latest version has answered, in whatever order and
      however often, the retired snapshot and all deferred PDRs are freed. */
  lemma {:induction false} AllAnsweredFrees(c: Config, s: State, acts: seq<Action>, t: State)
    requires ValidConfig(c) && Reachable(c, s) && s.ctl.Ready? && s.retiredVer != 0 && Leads(c, s, acts, t)
    requires (forall i :: 0 <= i < |acts| ==> Calm(acts[i])) && Answered(c, s, acts, s.retiredVer)
    ensures Clean(t) && s.retiredSnap.Some? && s.retiredSnap.value in t.freedSnaps
    ensures forall r :: r in s.retireQ ==> r in t.freedPdrs
    decreases |acts|
  {
    hide Reachable, Do, Enabled, Clean;
    var v := s.retiredVer;
    if acts == [] {
      SomeoneMissing(c, s);
    } else {
      var a, rest := acts[0], acts[1..];
      Step(c, s, a);
      CalmStep(c, s, a);
      var s1 := Do(c, s, a);
      if a.TakeAck? && a.v == v && a.w !in s.tracker.sids && |s.tracker.sids| + 1 >= s.tracker.expected {
        LastAnswerFrees(c, s, a.w);
        NowClean(s1);
        StaysClean(c, s1, rest, t);
        Grown(s, s1, t);
      } else {
        if a.TakeAck? { OneAnswer(c, s, a.w, a.v); }
        forall w | w in Reached(c, v) ensures w in s1.tracker.sids || TakeAck(w, v) in rest {
          if w !in s.tracker.sids && TakeAck(w, v) !in rest { assert TakeAck(w, v) == a; }
        }
        AllAnsweredFrees(c, s1, rest, t);
      }
    }
  }

  lemma NowClean(s: State)
    requires s.retiredVer == 0 && s.retireQ == [] && s.retiredSnap == None
    ensures Clean(s)
  {}

  lemma Grown(s: State, s1: State, t: State)
    requires s.retiredSnap.Some? && s1.freedSnaps == s.freedSnaps + [s.retiredSnap.value]
    requires s1.freedSnaps <= t.freedSnaps
    requires s1.freedPdrs == s.freedPdrs + s.retireQ && s1.freedPdrs <= t.freedPdrs
    ensures s.retiredSnap.value in t.freedSnaps && forall r :: r in s.retireQ ==> r in t.freedPdrs
  {
    assert t.freedSnaps[|s.freedSnaps|] == s.retiredSnap.value;
    forall r | r in s.retireQ ensures r in t.freedPdrs {
      var i :| 0 <= i < |s.retireQ| && s.retireQ[i] == r;
      assert t.freedPdrs[|s.freedPdrs| + i] == r;
    }
  }

  /** While a snapshot is retired, not all that were told have answered. */
  lemma SomeoneMissing(c: Config, s: State)
    requires ValidConfig(c) && Reachable(c, s) && s.ctl.Ready? && s.retiredVer != 0
    ensures exists w :: w in Reached(c, s.retiredVer) && w !in s.tracker.sids
  {
    hide TableInv, ContentsInv, BuildInv, LocalsInv, SlotInv, ReqInv, AckInv, FreedInv, PdrInv, GoneInv, QueueInv,
      FreedPdrInv, SendInv, Reachable;
    ReachableInv(c, s);
    ReachableWaits(c, s);
    var d, sids := Reached(c, s.retiredVer), s.tracker.sids;
    if forall w :: w in d ==> w in sids {
      var all := set w | w in sids;
      SetFits(sids, all);
      Subset(d, all);
    }
  }

  lemma {:induction false} SetFits(q: seq<nat>, d: set<nat>)
    requires forall x :: x in d ==> x in q
    ensures |d| <= |q|
    decreases |q|
  {
    if q == [] {
      assert d == {};
    } else {
      var n := |q| - 1;
      forall x | x in d - {q[n]} ensures x in q[..n] {
        var i :| 0 <= i < |q| && q[i] == x;
        assert i < n;
        assert x == q[..n][i];
      }
      SetFits(q[..n], d - {q[n]});
    }
  }

  lemma {:induction false} Subset(a: set<nat>, b: set<nat>)
    requires a <= b
    ensures |a| <= |b|
    decreases a
  {
    if a != {} {
      var x :| x in a;
      Subset(a - {x}, b - {x});
    }
  }

  // ----- a removed PDR

  /** The removal of p is under way and will retire a snapshot. */
  ghost predicate Removing(s: State, p: Pdr) {
    && !s.ctl.Ready? && s.ctl.drop == Some(p)
    && (if s.ctl.Built? || s.ctl.Writing? then s.active.Some? else s.ctl.prev.Some?)
  }

  lemma StartsRemoving(c: Config, s: State, p: Pdr)
    requires ValidConfig(c) && Reachable(c, s) && Enabled(c, s, Withdraw(p, Complete))
    ensures Removing(Do(c, s, Withdraw(p, Complete)), p)
  {
    hide Reachable, Without;
    ListsAgree(c, s);
  }

  lemma StepRemoving(c: Config, s: State, a: Action, p: Pdr)
    requires Enabled(c, s, a) && Removing(s, p) && !a.Finish?
    ensures Removing(Do(c, s, a), p)
  {
    hide DoCreate, DoWithdraw, DoAck, Rebuild;
  }

  lemma {:induction false} RunRemoving(c: Config, s: State, acts: seq<Action>, t: State, p: Pdr)
    requires ValidConfig(c) && Reachable(c, s) && Removing(s, p) && Leads(c, s, acts, t)
    requires forall i :: 0 <= i < |acts| ==> !acts[i].Finish?
    ensures Removing(t, p) && Reachable(c, t)
    decreases |acts|
  {
    hide Reachable, Do, Enabled, Removing;
    if acts != [] {
      Step(c, s, acts[0]);
      StepRemoving(c, s, acts[0], p);
      RunRemoving(c, Do(c, s, acts[0]), acts[1..], t, p);
    }
  }

  /** At its end the PDR is deferred, under the version that dropped it, with the snapshot that it
      was in retired, if anybody was told and the queue has room. */
  lemma RemovalDefers(c: Config, s: State, p: Pdr)
    requires ValidConfig(c) && Reachable(c, s) && Removing(s, p) && Enabled(c, s, Finish(false))
    ensures
      var t := Do(c, s, Finish(false));
      && Retired(s.version, p) in t.retireQ && t.ctl.Ready?
      && (s.ctl.reached != {} ==>
            t.retiredVer == s.version != 0 && t.tracker.sids == [] && Reached(c, s.version) == s.ctl.reached)
  {
    hide TableInv, ContentsInv, BuildInv, LocalsInv, ReqInv, AckInv, FreedInv, PdrInv, GoneInv, QueueInv, FreedPdrInv,
      TrackerInv, Reachable;
    ReachableInv(c, s);
    assert Retired(s.version, p) == (s.retireQ + [Retired(s.version, p)])[|s.retireQ|];
    if s.ctl.reached != {} { assert Reached(c, s.version) == s.ctl.reached; }
  }

  /** A PDR that was removed is freed: after its removal was published, with room in the queue,
      and every worker that was told has answered, before another publication. */
  lemma WithdrawnIsFreed(c: Config, s: State, p: Pdr, acts: seq<Action>, s1: State, more: seq<Action>, t: State)
    requires ValidConfig(c) && Reachable(c, s) && Enabled(c, s, Withdraw(p, Complete))
    requires Leads(c, Do(c, s, Withdraw(p, Complete)), acts, s1) && Enabled(c, s1, Finish(false))
    requires (forall i :: 0 <= i < |acts| ==> !acts[i].Finish?) && s1.ctl.reached != {}
    requires Leads(c, Do(c, s1, Finish(false)), more, t) && forall i :: 0 <= i < |more| ==> Calm(more[i])
    requires forall w :: w in s1.ctl.reached ==> TakeAck(w, s1.version) in more
    ensures Retired(s1.version, p) in t.freedPdrs && Clean(t)
  {
    hide Reachable, Do, Enabled, Clean, Calm, Removing;
    Step(c, s, Withdraw(p, Complete));
    StartsRemoving(c, s, p);
    RunRemoving(c, Do(c, s, Withdraw(p, Complete)), acts, s1, p);
    Step(c, s1, Finish(false));
    RemovalDefers(c, s1, p);
    AllAnsweredFrees(c, Do(c, s1, Finish(false)), more, t);
  }
}
