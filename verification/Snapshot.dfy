/** How classifier snapshots are published to the workers and reclaimed: UPF-C of
    5gc/upf_c/n4_onvm_pfcp_handler.c and UPF-U of 5gc/upf_u/upf_u.c as one state machine.

    UPF-C handles one message at a time, but its seqlock stores and its sends interleave
    with every worker's seqlock reads. Messages in flight are sets from which any element
    may be delivered at any time, any number of times and in any order. Atomics are
    sequentially consistent, versions do not wrap, and allocations get fresh identities. */
module Snapshot {
  import opened Common

  type Snap = nat
  type Pdr = nat

  const INVALID_SID := 0xFFFF
  const MAX_WORKERS := 32

  /** The configured workers, and whether the send of REQ(ver) to a worker succeeds. */
  datatype Config = Config(workers: set<nat>, delivers: (nat, nat) -> bool)

  predicate ValidConfig(c: Config) {
    INVALID_SID !in c.workers && |c.workers| <= MAX_WORKERS
  }

  // ----- the ACK tracker and the retire queue

  datatype Tracker = Tracker(ver: nat, expected: nat, sids: seq<nat>)

  /** UpfClsAckTrackerMark: counts each worker once; true when the last one is in. */
  function Mark(t: Tracker, ver: nat, sid: nat): (Tracker, bool) {
    if ver != t.ver || sid == INVALID_SID || sid in t.sids || |t.sids| >= MAX_WORKERS then (t, false)
    else var t1 := t.(sids := t.sids + [sid]); (t1, |t1.sids| >= t.expected)
  }

  /** A PDR that snapshots from version `ver` on no longer mention. */
  datatype Retired = Retired(ver: nat, pdr: Pdr)

  /** How many entries PdrFreeUpTo takes off the front of the queue. */
  function Due(q: seq<Retired>, ver: nat): (n: nat)
    ensures n <= |q|
  {
    if q == [] || q[0].ver > ver then 0 else 1 + Due(q[1..], ver)
  }

  // ----- state

  /** Where a worker is in its seqlock read. */
  datatype Reader = Idle | SawVersion(v1: nat) | SawPointer(v1: nat, p: Option<Snap>)

  datatype Worker = Worker(ptr: Option<Snap>, ver: nat, pending: bool, reader: Reader)

  /** Where UPF-C is in UpfClsRebuildAndPublish; `drop` is the PDR that a removal defers. */
  datatype Ctl =
    | Ready
    | Built(snap: Snap, drop: Option<Pdr>)
    | Writing(snap: Snap, drop: Option<Pdr>)
    | Swapped(snap: Snap, prev: Option<Snap>, drop: Option<Pdr>)
    | Announcing(todo: set<nat>, reached: set<nat>, prev: Option<Snap>, drop: Option<Pdr>)

  datatype State = State(
    version: nat, active: Option<Snap>,
    ctl: Ctl, retiredSnap: Option<Snap>, retiredVer: nat, tracker: Tracker,
    pdrs: seq<Pdr>, retireQ: seq<Retired>,
    locals: map<nat, Worker>, reqs: set<(nat, nat)>, acks: set<(nat, nat)>,
    contents: map<Snap, set<Pdr>>, published: map<nat, Snap>,
    nextSnap: Snap, nextPdr: Pdr, freedSnaps: seq<Snap>, freedPdrs: seq<Retired>,
    leaked: seq<Snap>, lost: seq<Pdr>)

  function Init(c: Config): State {
    State(0, None, Ready, None, 0, Tracker(0, 0, []), [], [],
          map w | w in c.workers :: Worker(None, 0, false, Idle), {}, {}, map[], map[], 0, 0, [], [], [], [])
  }

  // ----- actions

  /** Whether a rebuild got its handle and all its rules. */
  datatype Build = NoHandle | InsertFails | Complete

  datatype Action =
    | Create(b: Build)
    | Update(b: Build)
    | Withdraw(p: Pdr, b: Build)
    | StoreOdd
    | Exchange
    | StoreEven
    | Send(w: nat)
    | Finish(queueFull: bool)
    | TakeAck(w: nat, v: nat)
    | TakeReq(w: nat, v: nat)
    | ReadVersion(w: nat)
    | ReadPointer(w: nat)
    | Recheck(w: nat)

  predicate Enabled(c: Config, s: State, a: Action) {
    match a
    case Create(_) => s.ctl.Ready?
    case Update(_) => s.ctl.Ready?
    case Withdraw(p, _) => s.ctl.Ready? && p in s.pdrs
    case StoreOdd => s.ctl.Built?
    case Exchange => s.ctl.Writing?
    case StoreEven => s.ctl.Swapped?
    case Send(w) => s.ctl.Announcing? && w in s.ctl.todo
    case Finish(_) => s.ctl.Announcing? && s.ctl.todo == {}
    case TakeAck(w, v) => s.ctl.Ready? && (w, v) in s.acks
    case TakeReq(w, v) => w in s.locals && (w, v) in s.reqs
    case ReadVersion(w) => w in s.locals && s.locals[w].pending && s.locals[w].reader.Idle?
    case ReadPointer(w) => w in s.locals && s.locals[w].reader.SawVersion?
    case Recheck(w) => w in s.locals && s.locals[w].reader.SawPointer?
  }

  function Elements(q: seq<Pdr>): set<Pdr> { set p | p in q }

  function Without(q: seq<Pdr>, p: Pdr): seq<Pdr> {
    if q == [] then [] else if q[0] == p then q[1..] else [q[0]] + Without(q[1..], p)
  }

  /** A rebuild over the list `s.pdrs`: a fresh snapshot, or a handle that is destroyed again. */
  function Rebuild(s: State, b: Build, drop: Option<Pdr>): State {
    match b
    case NoHandle => s
    case InsertFails => s.(nextSnap := s.nextSnap + 1, freedSnaps := s.freedSnaps + [s.nextSnap])
    case Complete => s.(nextSnap := s.nextSnap + 1, ctl := Built(s.nextSnap, drop),
                        contents := s.contents[s.nextSnap := Elements(s.pdrs)])
  }

  /** UpfN4HandleCreatePdr: a failed rebuild takes the new PDR back and frees it. */
  function DoCreate(s: State, b: Build): State {
    var p := s.nextPdr;
    var r := Rebuild(s.(pdrs := s.pdrs + [p], nextPdr := p + 1), b, None);
    if b.Complete? then r
    else r.(pdrs := Without(r.pdrs, p), freedPdrs := r.freedPdrs + [Retired(0, p)])
  }

  /** UpfN4HandleRemovePdr: a failed rebuild puts the PDR back, at the tail. */
  function DoWithdraw(s: State, p: Pdr, b: Build): State {
    var r := Rebuild(s.(pdrs := Without(s.pdrs, p)), b, Some(p));
    if b.Complete? then r else r.(pdrs := r.pdrs + [p])
  }

  /** The third store of upf_cls_publish, and the retired slot that only UPF-C reads; what it
      still held is overwritten. */
  function DoStoreEven(c: Config, s: State): State
    requires s.ctl.Swapped?
  {
    var ver := s.version + 1;
    s.(version := ver, published := s.published[ver := s.ctl.snap],
       retiredSnap := if s.ctl.prev.Some? then s.ctl.prev else s.retiredSnap,
       retiredVer := if s.ctl.prev.Some? then ver else s.retiredVer,
       leaked := if s.ctl.prev.Some? && s.retiredSnap.Some? then s.leaked + [s.retiredSnap.value] else s.leaked,
       ctl := Announcing(c.workers, {}, s.ctl.prev, s.ctl.drop))
  }

  function DoSend(c: Config, s: State, w: nat): State
    requires s.ctl.Announcing?
  {
    var todo := s.ctl.todo - {w};
    if c.delivers(w, s.version) then
      s.(reqs := s.reqs + {(w, s.version)}, ctl := s.ctl.(todo := todo, reached := s.ctl.reached + {w}))
    else s.(ctl := s.ctl.(todo := todo))
  }

  /** After the broadcast: reset the tracker, reclaim at once if nobody was reached, and
      defer a removed PDR; if the queue cannot grow it is forgotten. */
  function DoFinish(s: State, queueFull: bool): State
    requires s.ctl.Announcing?
  {
    var s1 := s.(tracker := Tracker(s.version, |s.ctl.reached|, []), ctl := Ready);
    var s2 := if s.ctl.prev.Some? && s.ctl.reached == {} then
                s1.(freedSnaps := s1.freedSnaps + [s.ctl.prev.value], retiredSnap := None, retiredVer := 0)
              else s1;
    if s.ctl.drop.None? then s2
    else if queueFull then s2.(lost := s2.lost + [s.ctl.drop.value])
    else s2.(retireQ := s2.retireQ + [Retired(s.version, s.ctl.drop.value)])
  }

  /** UpfClsOnAckFree. */
  function DoAck(s: State, w: nat, v: nat): State {
    if v != s.retiredVer then s
    else
      var (t, last) := Mark(s.tracker, v, w);
      if s.tracker.expected > 0 && !last then s.(tracker := t) else Reclaim(s, v)
  }

  function Reclaim(s: State, v: nat): State {
    var n := Due(s.retireQ, v);
    s.(freedSnaps := if s.retiredSnap.Some? then s.freedSnaps + [s.retiredSnap.value] else s.freedSnaps,
       retiredSnap := None, retiredVer := 0, tracker := Tracker(0, 0, []),
       freedPdrs := s.freedPdrs + s.retireQ[..n], retireQ := s.retireQ[n..])
  }

  /** The end of one seqlock read: commit and acknowledge a stable version, or go round again. */
  function DoRecheck(s: State, w: nat): State
    requires w in s.locals && s.locals[w].reader.SawPointer?
  {
    var l := s.locals[w];
    var v1, p := l.reader.v1, l.reader.p;
    if s.version != v1 || p.None? then s.(locals := s.locals[w := l.(reader := Idle)])
    else s.(locals := s.locals[w := Worker(p, v1, false, Idle)], acks := s.acks + {(w, v1)})
  }

  function Do(c: Config, s: State, a: Action): State
    requires Enabled(c, s, a)
  {
    match a
    case Create(b) => DoCreate(s, b)
    case Update(b) => Rebuild(s, b, None)
    case Withdraw(p, b) => DoWithdraw(s, p, b)
    case StoreOdd => s.(version := s.version + 1, ctl := Writing(s.ctl.snap, s.ctl.drop))
    case Exchange => s.(active := Some(s.ctl.snap), ctl := Swapped(s.ctl.snap, s.active, s.ctl.drop))
    case StoreEven => DoStoreEven(c, s)
    case Send(w) => DoSend(c, s, w)
    case Finish(queueFull) => DoFinish(s, queueFull)
    case TakeAck(w, v) => DoAck(s, w, v)
    case TakeReq(w, _) => s.(locals := s.locals[w := s.locals[w].(pending := true)])
    case ReadVersion(w) =>
      if s.version % 2 == 1 then s
      else s.(locals := s.locals[w := s.locals[w].(reader := SawVersion(s.version))])
    case ReadPointer(w) =>
      s.(locals := s.locals[w := s.locals[w].(reader := SawPointer(s.locals[w].reader.v1, s.active))])
    case Recheck(w) => DoRecheck(s, w)
  }

  // ----- what must hold

  ghost predicate NoDup<T>(q: seq<T>) {
    forall i, j :: 0 <= i < j < |q| ==> q[i] != q[j]
  }

  /** A worker may use everything its local pointer leads to. */
  ghost predicate Usable(s: State, w: nat)
    requires w in s.locals
  {
    s.locals[w].ptr.Some? ==>
      var p := s.locals[w].ptr.value;
      && p !in s.freedSnaps && p in s.contents
      && (forall r :: r in s.freedPdrs ==> r.pdr !in s.contents[p])
  }

  /** No worker's snapshot, nor a PDR it mentions, has been freed. */
  ghost predicate Safe(c: Config, s: State) {
    forall w :: w in c.workers ==> w in s.locals && Usable(s, w)
  }

  /** Once a worker has been reached by a flip request it is reached by every later one. */
  ghost predicate OnceHeardAlwaysHeard(c: Config) {
    forall w, u, v :: w in c.workers && 2 <= u <= v && u % 2 == 0 && v % 2 == 0 && c.delivers(w, u) ==> c.delivers(w, v)
  }

  // ----- the inductive invariant, each part over the fields it depends on

  function Stable(version: nat): nat { version - version % 2 }

  type Table = map<nat, Snap>

  /** The snapshot published with an even version. */
  predicate At(pub: Table, v: nat, p: Option<Snap>) {
    if v == 0 then p.None? else v in pub && p == Some(pub[v])
  }

  /** One snapshot per even version, each newer than the one before. */
  ghost predicate TableInv(stable: nat, pub: Table, contents: map<Snap, set<Pdr>>, nextSnap: nat) {
    && (forall v :: v in pub <==> 2 <= v <= stable && v % 2 == 0)
    && (forall v :: v in pub ==> pub[v] < nextSnap && pub[v] in contents)
    && (forall u, v :: u in pub && v in pub && u < v ==> pub[u] < pub[v])
  }

  /** Snapshots mention only PDRs that were allocated. */
  ghost predicate ContentsInv(contents: map<Snap, set<Pdr>>, nextPdr: nat) {
    forall x, p :: x in contents && p in contents[x] ==> p < nextPdr
  }

  /** The control slot holds the snapshot of the stable version, except between the two
      later stores of a publication. */
  ghost predicate SlotInv(version: nat, ctl: Ctl, active: Option<Snap>, pub: Table) {
    && (version % 2 == 1 <==> ctl.Writing? || ctl.Swapped?)
    && (if ctl.Swapped? then active == Some(ctl.snap) && At(pub, Stable(version), ctl.prev)
        else At(pub, Stable(version), active))
    && (ctl.Announcing? ==> version >= 2 && At(pub, version - 2, ctl.prev))
  }

  /** The snapshot being published is new, unfreed, and built from the current PDR list. */
  ghost predicate BuildInv(ctl: Ctl, pub: Table, contents: map<Snap, set<Pdr>>, nextSnap: nat,
                           pdrs: seq<Pdr>, freed: seq<Snap>) {
    ctl.Built? || ctl.Writing? || ctl.Swapped? ==>
      && ctl.snap < nextSnap && ctl.snap in contents && contents[ctl.snap] == Elements(pdrs)
      && ctl.snap !in freed && (forall v :: v in pub ==> pub[v] < ctl.snap)
  }

  ghost predicate Heard(reqs: set<(nat, nat)>, w: nat) { exists v :: (w, v) in reqs }

  predicate Busy(l: Worker) { l.pending || !l.reader.Idle? || l.ptr.Some? }

  /** A worker's pointer is the snapshot of its version; what it is reading cannot be
      committed unless it is too. */
  ghost predicate LocalInv(version: nat, pub: Table, l: Worker) {
    && l.ver <= Stable(version) && At(pub, l.ver, l.ptr) && (l.ptr.None? <==> l.ver == 0)
    && (!l.reader.Idle? ==> l.reader.v1 % 2 == 0 && l.ver <= l.reader.v1 <= version)
    && (l.reader.SawPointer? && version == l.reader.v1 ==> At(pub, version, l.reader.p))
  }

  ghost predicate LocalsInv(c: Config, version: nat, pub: Table, reqs: set<(nat, nat)>, locals: map<nat, Worker>) {
    && locals.Keys == c.workers
    && (forall w :: w in locals ==> LocalInv(version, pub, locals[w]) && (Busy(locals[w]) ==> Heard(reqs, w)))
  }

  ghost predicate ReqInv(c: Config, pub: Table, reqs: set<(nat, nat)>) {
    forall w, v :: (w, v) in reqs ==> w in c.workers && v in pub && c.delivers(w, v)
  }

  /** An ACK(v), in flight or recorded, comes from a worker that is at v or later. */
  ghost predicate AckInv(pub: Table, acks: set<(nat, nat)>, locals: map<nat, Worker>) {
    forall w, v :: (w, v) in acks ==> w in locals && v in pub && v <= locals[w].ver
  }

  ghost predicate SendInv(c: Config, version: nat, ctl: Ctl) {
    ctl.Announcing? ==>
      && ctl.todo <= c.workers && ctl.reached <= c.workers && ctl.reached !! ctl.todo
      && (forall w :: w in c.workers && w !in ctl.todo ==> (w in ctl.reached <==> c.delivers(w, version)))
  }

  /** The workers REQ(v) reaches. */
  ghost function Reached(c: Config, v: nat): set<nat> { set w | w in c.workers && c.delivers(w, v) }

  /** The retired slot is empty, or holds the snapshot before the latest one. */
  ghost predicate RetiredInv(version: nat, pub: Table, ctl: Ctl, snap: Option<Snap>, ver: nat, freed: seq<Snap>) {
    && (ver == 0 ==> snap.None?)
    && (ver != 0 ==> ver == Stable(version) && ver >= 4 && snap.Some? && At(pub, ver - 2, snap) && snap.value !in freed)
    && (ctl.Announcing? && ctl.prev.Some? ==> ver == version)
  }

  ghost predicate TrackerInv(c: Config, ctl: Ctl, ver: nat, t: Tracker, acks: set<(nat, nat)>) {
    && (ver != 0 && !ctl.Announcing? ==> t.ver == ver && t.expected == |Reached(c, ver)| > 0)
    && NoDup(t.sids)
    && (forall w :: w in t.sids ==> (w, t.ver) in acks)
  }

  ghost predicate MovedPast(c: Config, locals: map<nat, Worker>, v: nat) {
    OnceHeardAlwaysHeard(c) ==> forall w :: w in locals && locals[w].ptr.Some? ==> v <= locals[w].ver
  }

  /** A freed snapshot was superseded and, if requests keep arriving, every worker has moved past it. */
  ghost predicate FreedInv(c: Config, stable: nat, pub: Table, locals: map<nat, Worker>, nextSnap: nat,
                           freed: seq<Snap>)
  {
    && NoDup(freed) && (forall f :: f in freed ==> f < nextSnap)
    && (forall v :: v in pub && pub[v] in freed ==> v < stable && MovedPast(c, locals, v + 2))
  }

  ghost predicate PdrInv(ctl: Ctl, active: Option<Snap>, contents: map<Snap, set<Pdr>>, pdrs: seq<Pdr>, nextPdr: nat) {
    && NoDup(pdrs) && (forall p :: p in pdrs ==> p < nextPdr)
    && (ctl.Ready? || ctl.Announcing? ==> Mirrors(active, contents, pdrs))
  }

  /** The active snapshot's descriptors are exactly the global PDR list. */
  ghost predicate Mirrors(active: Option<Snap>, contents: map<Snap, set<Pdr>>, pdrs: seq<Pdr>) {
    if active.Some? then active.value in contents && contents[active.value] == Elements(pdrs) else pdrs == []
  }

  /** The PDR that a removal in progress will defer, with the version that drops it. */
  function Pending(version: nat, ctl: Ctl): seq<Retired> {
    match ctl
    case Ready => []
    case Announcing(_, _, _, drop) => if drop.Some? then [Retired(version, drop.value)] else []
    case _ => if ctl.drop.Some? then [Retired(Stable(version) + 2, ctl.drop.value)] else []
  }

  /** No snapshot published from version r.ver on mentions the PDR. */
  ghost predicate Unmentioned(pub: Table, contents: map<Snap, set<Pdr>>, r: Retired) {
    forall v :: v in pub && r.ver <= v ==> pub[v] in contents && r.pdr !in contents[pub[v]]
  }

  ghost predicate DistinctPdrs(q: seq<Retired>) {
    forall i, j :: 0 <= i < j < |q| ==> q[i].pdr != q[j].pdr
  }

  /** PDRs given up (freed, queued, or about to be queued) stay given up. */
  ghost predicate GoneInv(pub: Table, contents: map<Snap, set<Pdr>>, pdrs: seq<Pdr>, nextPdr: nat, gone: seq<Retired>) {
    && DistinctPdrs(gone)
    && (forall r :: r in gone ==> r.pdr < nextPdr && r.pdr !in pdrs && Unmentioned(pub, contents, r))
  }

  ghost predicate Sorted(q: seq<Retired>) {
    forall i, j :: 0 <= i < j < |q| ==> q[i].ver <= q[j].ver
  }

  ghost predicate QueueInv(stable: nat, q: seq<Retired>) {
    Sorted(q) && forall r :: r in q ==> r.ver <= stable
  }

  /** Every worker has moved past the version that dropped a freed PDR. */
  ghost predicate FreedPdrInv(c: Config, stable: nat, locals: map<nat, Worker>, freed: seq<Retired>) {
    forall r :: r in freed ==> r.ver <= stable && MovedPast(c, locals, r.ver)
  }

  ghost predicate Inv(c: Config, s: State) {
    var st := Stable(s.version);
    && TableInv(st, s.published, s.contents, s.nextSnap)
    && ContentsInv(s.contents, s.nextPdr)
    && SlotInv(s.version, s.ctl, s.active, s.published)
    && BuildInv(s.ctl, s.published, s.contents, s.nextSnap, s.pdrs, s.freedSnaps)
    && LocalsInv(c, s.version, s.published, s.reqs, s.locals)
    && ReqInv(c, s.published, s.reqs) && AckInv(s.published, s.acks, s.locals) && SendInv(c, s.version, s.ctl)
    && RetiredInv(s.version, s.published, s.ctl, s.retiredSnap, s.retiredVer, s.freedSnaps)
    && TrackerInv(c, s.ctl, s.retiredVer, s.tracker, s.acks)
    && FreedInv(c, st, s.published, s.locals, s.nextSnap, s.freedSnaps)
    && PdrInv(s.ctl, s.active, s.contents, s.pdrs, s.nextPdr)
    && GoneInv(s.published, s.contents, s.pdrs, s.nextPdr, s.freedPdrs + s.retireQ + Pending(s.version, s.ctl))
    && QueueInv(st, s.retireQ) && FreedPdrInv(c, st, s.locals, s.freedPdrs)
  }

  lemma InitInv(c: Config)
    ensures Inv(c, Init(c))
  {
    var s := Init(c);
    assert s.freedPdrs + s.retireQ + Pending(s.version, s.ctl) == [];
  }

  // ----- rebuilds

  lemma {:induction false} WithoutFacts(q: seq<Pdr>, p: Pdr)
    requires NoDup(q)
    ensures NoDup(Without(q, p))
    ensures forall x :: x in Without(q, p) <==> x in q && x != p
  {
    if q != [] {
      assert q == [q[0]] + q[1..];
      if q[0] != p {
        WithoutFacts(q[1..], p);
        assert q[0] !in q[1..] && q[0] !in Without(q[1..], p);
      }
    }
  }

  lemma {:induction false} WithoutLast(q: seq<Pdr>, p: Pdr)
    requires p !in q
    ensures Without(q + [p], p) == q
  {
    if q == [] {
      assert q + [p] == [p];
    } else {
      assert (q + [p])[1..] == q[1..] + [p] && (q + [p])[0] == q[0];
      WithoutLast(q[1..], p);
    }
  }

  /** Giving up one more PDR, wherever it is put in the order. */
  lemma GoneInsert(pub: Table, contents: map<Snap, set<Pdr>>, pdrs: seq<Pdr>, nextPdr: nat,
                   a: seq<Retired>, x: Retired, b: seq<Retired>)
    requires GoneInv(pub, contents, pdrs, nextPdr, a + b)
    requires x.pdr < nextPdr && x.pdr !in pdrs && Unmentioned(pub, contents, x)
    requires forall r :: r in a + b ==> r.pdr != x.pdr
    ensures GoneInv(pub, contents, pdrs, nextPdr, a + [x] + b)
  {
    var q := a + b;
    forall i, j | 0 <= i < j < |a + [x] + b| ensures (a + [x] + b)[i].pdr != (a + [x] + b)[j].pdr {
      if i == |a| {
        assert (a + [x] + b)[j] == q[j - 1] && q[j - 1] in q;
      } else if j == |a| {
        assert (a + [x] + b)[i] == q[i] && q[i] in q;
      } else {
        assert (a + [x] + b)[i] == q[if i < |a| then i else i - 1];
        assert (a + [x] + b)[j] == q[if j < |a| then j else j - 1];
      }
    }
    forall r | r in a + [x] + b ensures r == x || r in q {}
  }

  predicate SameSnap(contents: map<Snap, set<Pdr>>, contents': map<Snap, set<Pdr>>, x: Snap) {
    x in contents && x in contents' && contents'[x] == contents[x]
  }

  /** A list of PDRs and the next free identity may change in ways that do not bring back
      what was given up. */
  lemma GoneKeeps(pub: Table, contents: map<Snap, set<Pdr>>, pdrs: seq<Pdr>, nextPdr: nat,
                  contents': map<Snap, set<Pdr>>, pdrs': seq<Pdr>, nextPdr': nat, gone: seq<Retired>)
    requires GoneInv(pub, contents, pdrs, nextPdr, gone) && nextPdr <= nextPdr'
    requires forall p :: p in pdrs' ==> p in pdrs || p >= nextPdr
    requires forall v :: v in pub ==> SameSnap(contents, contents', pub[v])
    ensures GoneInv(pub, contents', pdrs', nextPdr', gone)
  {
    forall r | r in gone ensures Unmentioned(pub, contents', r) {
      assert Unmentioned(pub, contents, r);
    }
  }

  /** What a rebuild over any list, successful or not, does to the snapshots. */
  lemma RebuildTables(c: Config, s: State, q: seq<Pdr>, n: nat, b: Build, drop: Option<Pdr>)
    requires Inv(c, s) && s.ctl.Ready?
    ensures var r := Rebuild(s.(pdrs := q, nextPdr := n), b, drop);
      && TableInv(Stable(r.version), r.published, r.contents, r.nextSnap)
      && FreedInv(c, Stable(r.version), r.published, r.locals, r.nextSnap, r.freedSnaps)
      && BuildInv(r.ctl, r.published, r.contents, r.nextSnap, r.pdrs, r.freedSnaps)
      && (forall v :: v in s.published ==> SameSnap(s.contents, r.contents, s.published[v]))
  {
    hide LocalsInv, SlotInv, ReqInv, AckInv, SendInv, RetiredInv, TrackerInv, GoneInv, QueueInv, FreedPdrInv, PdrInv;
    assert s.nextSnap !in s.freedSnaps;
  }

  lemma RebuildControl(c: Config, s: State, q: seq<Pdr>, n: nat, b: Build, drop: Option<Pdr>)
    requires Inv(c, s) && s.ctl.Ready?
    ensures var r := Rebuild(s.(pdrs := q, nextPdr := n), b, drop);
      && SlotInv(r.version, r.ctl, r.active, r.published) && SendInv(c, r.version, r.ctl)
      && RetiredInv(r.version, r.published, r.ctl, r.retiredSnap, r.retiredVer, r.freedSnaps)
      && TrackerInv(c, r.ctl, r.retiredVer, r.tracker, r.acks)
      && (s.active.Some? ==> SameSnap(s.contents, r.contents, s.active.value))
  {
    hide LocalsInv, ReqInv, AckInv, GoneInv, QueueInv, FreedPdrInv, PdrInv, NoDup;
  }

  lemma UpdateInv(c: Config, s: State, b: Build)
    requires Inv(c, s) && s.ctl.Ready?
    ensures Inv(c, Rebuild(s, b, None))
  {
    hide TableInv, SlotInv, LocalsInv, RetiredInv, TrackerInv, FreedInv, BuildInv, GoneInv, QueueInv, FreedPdrInv;
    RebuildTables(c, s, s.pdrs, s.nextPdr, b, None);
    RebuildControl(c, s, s.pdrs, s.nextPdr, b, None);
    var r := Rebuild(s, b, None);
    assert r == Rebuild(s.(pdrs := s.pdrs, nextPdr := s.nextPdr), b, None);
    GoneKeeps(s.published, s.contents, s.pdrs, s.nextPdr, r.contents, r.pdrs, r.nextPdr, s.freedPdrs + s.retireQ + []);
  }

  lemma CreateInv(c: Config, s: State, b: Build)
    requires Inv(c, s) && s.ctl.Ready?
    ensures Inv(c, DoCreate(s, b))
  {
    hide TableInv, SlotInv, LocalsInv, RetiredInv, TrackerInv, FreedInv, GoneInv, QueueInv, BuildInv, AckInv, ReqInv,
      SendInv, FreedPdrInv, PdrInv, ContentsInv;
    var p := s.nextPdr;
    RebuildTables(c, s, s.pdrs + [p], p + 1, b, None);
    RebuildControl(c, s, s.pdrs + [p], p + 1, b, None);
    var r := DoCreate(s, b);
    CreatePdrs(c, s, b);
    var gone := s.freedPdrs + s.retireQ + [];
    CreatedList(c, s, b);
    GoneKeeps(s.published, s.contents, s.pdrs, s.nextPdr, r.contents, r.pdrs, r.nextPdr, gone);
    if !b.Complete? {
      FreshPdr(c, s);
      assert gone == s.freedPdrs + (s.retireQ + []);
      GoneInsert(r.published, r.contents, r.pdrs, r.nextPdr, s.freedPdrs, Retired(0, p), s.retireQ + []);
      assert s.freedPdrs + [Retired(0, p)] + (s.retireQ + []) == r.freedPdrs + r.retireQ + Pending(r.version, r.ctl);
    }
  }

  lemma CreatedList(c: Config, s: State, b: Build)
    requires Inv(c, s) && s.ctl.Ready?
    ensures var r := DoCreate(s, b);
      r.pdrs == (if b.Complete? then s.pdrs + [s.nextPdr] else s.pdrs) && s.nextPdr !in s.pdrs
  {
    WithoutLast(s.pdrs, s.nextPdr);
  }

  lemma CreatePdrs(c: Config, s: State, b: Build)
    requires Inv(c, s) && s.ctl.Ready?
    ensures var r := DoCreate(s, b);
      && PdrInv(r.ctl, r.active, r.contents, r.pdrs, r.nextPdr) && ContentsInv(r.contents, r.nextPdr)
      && BuildInv(r.ctl, r.published, r.contents, r.nextSnap, r.pdrs, r.freedSnaps)
      && FreedPdrInv(c, Stable(r.version), r.locals, r.freedPdrs)
  {
    hide TableInv, SlotInv, LocalsInv, RetiredInv, TrackerInv, FreedInv, GoneInv, QueueInv, AckInv, ReqInv, SendInv,
      Without;
    CreatedList(c, s, b);
    RebuildTables(c, s, s.pdrs + [s.nextPdr], s.nextPdr + 1, b, None);
    RebuildControl(c, s, s.pdrs + [s.nextPdr], s.nextPdr + 1, b, None);
  }

  /** A PDR that was just allocated is in no snapshot and was never given up. */
  lemma FreshPdr(c: Config, s: State)
    requires Inv(c, s) && s.ctl.Ready?
    ensures forall r :: r in s.freedPdrs + s.retireQ + [] ==> r.pdr != s.nextPdr
    ensures Unmentioned(s.published, s.contents, Retired(0, s.nextPdr))
  {}

  lemma WithdrawPdrs(c: Config, s: State, p: Pdr, b: Build)
    requires Inv(c, s) && s.ctl.Ready? && p in s.pdrs
    ensures var r := DoWithdraw(s, p, b);
      && PdrInv(r.ctl, r.active, r.contents, r.pdrs, r.nextPdr) && ContentsInv(r.contents, r.nextPdr)
      && BuildInv(r.ctl, r.published, r.contents, r.nextSnap, r.pdrs, r.freedSnaps)
      && (forall x :: x in r.pdrs ==> x in s.pdrs) && (b.Complete? ==> p !in r.pdrs)
  {
    var q := Without(s.pdrs, p);
    WithoutFacts(s.pdrs, p);
    RebuildTables(c, s, q, s.nextPdr, b, Some(p));
    RebuildControl(c, s, q, s.nextPdr, b, Some(p));
    hide TableInv, SlotInv, LocalsInv, RetiredInv, TrackerInv, FreedInv, GoneInv, QueueInv, AckInv, ReqInv, SendInv;
    if !b.Complete? { assert Elements(q + [p]) == Elements(s.pdrs); }
  }

  lemma WithdrawInv(c: Config, s: State, p: Pdr, b: Build)
    requires Inv(c, s) && s.ctl.Ready? && p in s.pdrs
    ensures Inv(c, DoWithdraw(s, p, b))
  {
    hide TableInv, SlotInv, LocalsInv, RetiredInv, TrackerInv, FreedInv, GoneInv, QueueInv, BuildInv, AckInv, ReqInv,
      SendInv, FreedPdrInv, PdrInv, ContentsInv;
    var q := Without(s.pdrs, p);
    RebuildTables(c, s, q, s.nextPdr, b, Some(p));
    RebuildControl(c, s, q, s.nextPdr, b, Some(p));
    WithdrawPdrs(c, s, p, b);
    var r := DoWithdraw(s, p, b);
    var gone := s.freedPdrs + s.retireQ + [];
    GoneKeeps(s.published, s.contents, s.pdrs, s.nextPdr, r.contents, r.pdrs, r.nextPdr, gone);
    if b.Complete? {
      var x := Retired(Stable(s.version) + 2, p);
      WithdrawnPdr(c, s, p);
      assert gone + [] == gone;
      NotYetMentioned(c, s, r.contents, x);
      GoneInsert(r.published, r.contents, r.pdrs, r.nextPdr, gone, x, []);
      assert gone + [x] + [] == r.freedPdrs + r.retireQ + Pending(r.version, r.ctl);
    }
  }

  /** A PDR on the list was never given up. */
  lemma WithdrawnPdr(c: Config, s: State, p: Pdr)
    requires Inv(c, s) && s.ctl.Ready? && p in s.pdrs
    ensures p < s.nextPdr && forall r :: r in s.freedPdrs + s.retireQ + [] ==> r.pdr != p
  {}

  lemma NotYetMentioned(c: Config, s: State, contents: map<Snap, set<Pdr>>, x: Retired)
    requires Inv(c, s) && x.ver > Stable(s.version)
    ensures Unmentioned(s.published, contents, x)
  {}

  // ----- publication

  lemma StoreOddInv(c: Config, s: State)
    requires Inv(c, s) && s.ctl.Built?
    ensures Inv(c, Do(c, s, StoreOdd))
  {
    hide TableInv, FreedInv, GoneInv, QueueInv, FreedPdrInv, ContentsInv, ReqInv, AckInv;
    var r := Do(c, s, StoreOdd);
    assert Stable(r.version) == Stable(s.version) == s.version;
    assert Pending(r.version, r.ctl) == Pending(s.version, s.ctl);
  }

  lemma ExchangeInv(c: Config, s: State)
    requires Inv(c, s) && s.ctl.Writing?
    ensures Inv(c, Do(c, s, Exchange))
  {
    hide TableInv, FreedInv, GoneInv, QueueInv, FreedPdrInv, ContentsInv, ReqInv, AckInv, LocalsInv;
    var r := Do(c, s, Exchange);
    assert Pending(r.version, r.ctl) == Pending(s.version, s.ctl);
  }

  /** A table extended by the next even version. */
  lemma TableExtends(stable: nat, pub: Table, contents: map<Snap, set<Pdr>>, nextSnap: nat, snap: Snap)
    requires TableInv(stable, pub, contents, nextSnap) && stable % 2 == 0
    requires snap < nextSnap && snap in contents && forall v :: v in pub ==> pub[v] < snap
    ensures TableInv(stable + 2, pub[stable + 2 := snap], contents, nextSnap)
  {}

  lemma LocalsExtend(c: Config, version: nat, pub: Table, reqs: set<(nat, nat)>, locals: map<nat, Worker>, snap: Snap)
    requires LocalsInv(c, version, pub, reqs, locals) && version % 2 == 1
    ensures LocalsInv(c, version + 1, pub[version + 1 := snap], reqs, locals)
  {
    forall w | w in locals ensures LocalInv(version + 1, pub[version + 1 := snap], locals[w]) {
      assert LocalInv(version, pub, locals[w]);
    }
  }

  lemma GoneExtends(pub: Table, contents: map<Snap, set<Pdr>>, pdrs: seq<Pdr>, nextPdr: nat, gone: seq<Retired>,
                    v: nat, snap: Snap)
    requires GoneInv(pub, contents, pdrs, nextPdr, gone) && snap in contents && contents[snap] == Elements(pdrs)
    ensures GoneInv(pub[v := snap], contents, pdrs, nextPdr, gone)
  {
    forall r | r in gone ensures Unmentioned(pub[v := snap], contents, r) {
      assert Unmentioned(pub, contents, r);
    }
  }

  lemma StoreEvenRetired(c: Config, s: State)
    requires Inv(c, s) && s.ctl.Swapped?
    ensures var r := DoStoreEven(c, s);
      && SlotInv(r.version, r.ctl, r.active, r.published)
      && RetiredInv(r.version, r.published, r.ctl, r.retiredSnap, r.retiredVer, r.freedSnaps)
      && FreedInv(c, Stable(r.version), r.published, r.locals, r.nextSnap, r.freedSnaps)
  {
    hide GoneInv, QueueInv, FreedPdrInv, ContentsInv, ReqInv, AckInv, LocalsInv, TrackerInv, PdrInv, MovedPast, NoDup;
    var r := DoStoreEven(c, s);
    assert Stable(r.version) == r.version == Stable(s.version) + 2;
  }

  lemma StoreEvenInv(c: Config, s: State)
    requires Inv(c, s) && s.ctl.Swapped?
    ensures Inv(c, DoStoreEven(c, s))
  {
    hide TableInv, LocalsInv, GoneInv, ReqInv, AckInv, SendInv, RetiredInv, TrackerInv, FreedInv, PdrInv, QueueInv,
      FreedPdrInv, ContentsInv;
    StoreEvenRetired(c, s);
    var r := DoStoreEven(c, s);
    assert Stable(r.version) == r.version == Stable(s.version) + 2;
    TableExtends(Stable(s.version), s.published, s.contents, s.nextSnap, s.ctl.snap);
    LocalsExtend(c, s.version, s.published, s.reqs, s.locals, s.ctl.snap);
    GoneExtends(s.published, s.contents, s.pdrs, s.nextPdr,
                s.freedPdrs + s.retireQ + Pending(s.version, s.ctl), r.version, s.ctl.snap);
    assert Pending(r.version, r.ctl) == Pending(s.version, s.ctl);
    StoreEvenRest(c, s);
  }

  lemma StoreEvenRest(c: Config, s: State)
    requires Inv(c, s) && s.ctl.Swapped?
    ensures var r := DoStoreEven(c, s);
      && BuildInv(r.ctl, r.published, r.contents, r.nextSnap, r.pdrs, r.freedSnaps)
      && ReqInv(c, r.published, r.reqs) && AckInv(r.published, r.acks, r.locals) && SendInv(c, r.version, r.ctl)
      && TrackerInv(c, r.ctl, r.retiredVer, r.tracker, r.acks)
      && PdrInv(r.ctl, r.active, r.contents, r.pdrs, r.nextPdr)
      && QueueInv(Stable(r.version), r.retireQ) && FreedPdrInv(c, Stable(r.version), r.locals, r.freedPdrs)
  {
    hide TableInv, GoneInv, LocalsInv, RetiredInv, FreedInv, MovedPast, NoDup, Sorted;
    assert Stable(s.version + 1) == Stable(s.version) + 2;
  }

  lemma SendStepInv(c: Config, s: State, w: nat)
    requires Inv(c, s) && s.ctl.Announcing? && w in s.ctl.todo
    ensures Inv(c, DoSend(c, s, w))
  {
    hide TableInv, GoneInv, FreedInv, QueueInv, FreedPdrInv, ContentsInv, AckInv, LocalInv, NoDup, Mirrors;
    var r := DoSend(c, s, w);
    assert Pending(r.version, r.ctl) == Pending(s.version, s.ctl);
    assert s.version in s.published by { LatestPublished(c, s); }
    forall x: nat | Heard(s.reqs, x) ensures Heard(r.reqs, x) {
      var v :| (x, v) in s.reqs;
      assert (x, v) in r.reqs;
    }
    assert LocalsInv(c, r.version, r.published, r.reqs, r.locals);
    assert ReqInv(c, r.published, r.reqs);
    assert SendInv(c, r.version, r.ctl);
    assert SlotInv(r.version, r.ctl, r.active, r.published);
    assert RetiredInv(r.version, r.published, r.ctl, r.retiredSnap, r.retiredVer, r.freedSnaps);
    assert TrackerInv(c, r.ctl, r.retiredVer, r.tracker, r.acks);
    assert PdrInv(r.ctl, r.active, r.contents, r.pdrs, r.nextPdr);
    assert BuildInv(r.ctl, r.published, r.contents, r.nextSnap, r.pdrs, r.freedSnaps);
  }

  lemma LatestPublished(c: Config, s: State)
    requires Inv(c, s) && s.ctl.Announcing?
    ensures s.version in s.published && s.version % 2 == 0
  {}

  /** If later requests reach every worker that an earlier one reached, then a worker with a
      snapshot is among those REQ(v) reached. */
  lemma HolderReached(c: Config, s: State, w: nat)
    requires Inv(c, s) && OnceHeardAlwaysHeard(c) && w in s.locals && Busy(s.locals[w])
    ensures w in Reached(c, Stable(s.version))
  {
    hide GoneInv, FreedInv, QueueInv, FreedPdrInv, ContentsInv, PdrInv, AckInv, LocalInv, NoDup, SlotInv;
    var v :| (w, v) in s.reqs;
    assert c.delivers(w, v) && v in s.published;
  }

  lemma FinishReached(c: Config, s: State)
    requires Inv(c, s) && s.ctl.Announcing? && s.ctl.todo == {}
    ensures s.ctl.reached == Reached(c, s.version) && Stable(s.version) == s.version
  {}

  lemma FinishFreed(c: Config, s: State, queueFull: bool)
    requires Inv(c, s) && s.ctl.Announcing? && s.ctl.todo == {}
    ensures var r := DoFinish(s, queueFull);
      FreedInv(c, Stable(r.version), r.published, r.locals, r.nextSnap, r.freedSnaps)
  {
    hide GoneInv, QueueInv, FreedPdrInv, ContentsInv, PdrInv, AckInv, LocalsInv, Reached, MovedPast, SendInv, ReqInv,
      BuildInv, TrackerInv;
    FinishReached(c, s);
    if s.ctl.prev.Some? && s.ctl.reached == {} {
      NobodyHolds(c, s);
      var r := DoFinish(s, queueFull);
      assert s.version - 2 in s.published && s.ctl.prev.value == s.published[s.version - 2];
      forall u | u in s.published && s.published[u] in r.freedSnaps
        ensures u < Stable(s.version) && MovedPast(c, s.locals, u + 2)
      {
        if s.published[u] !in s.freedSnaps { assert u == s.version - 2; }
      }
    }
  }

  lemma FinishRetired(c: Config, s: State, queueFull: bool)
    requires Inv(c, s) && s.ctl.Announcing? && s.ctl.todo == {}
    ensures var r := DoFinish(s, queueFull);
      && RetiredInv(r.version, r.published, r.ctl, r.retiredSnap, r.retiredVer, r.freedSnaps)
      && TrackerInv(c, r.ctl, r.retiredVer, r.tracker, r.acks)
  {
    hide GoneInv, QueueInv, FreedPdrInv, ContentsInv, PdrInv, AckInv, LocalsInv, Reached, FreedInv, SendInv, ReqInv,
      BuildInv, TableInv;
    FinishReached(c, s);
    assert s.ctl.reached != {} ==> |s.ctl.reached| > 0;
  }

  /** If the latest request reached nobody, nobody has a snapshot. */
  lemma NobodyHolds(c: Config, s: State)
    requires Inv(c, s) && Reached(c, Stable(s.version)) == {}
    ensures forall v :: MovedPast(c, s.locals, v)
  {
    if OnceHeardAlwaysHeard(c) {
      forall w | w in s.locals && s.locals[w].ptr.Some? ensures false {
        HolderReached(c, s, w);
      }
    }
  }

  lemma FinishInv(c: Config, s: State, queueFull: bool)
    requires Inv(c, s) && s.ctl.Announcing? && s.ctl.todo == {}
    ensures Inv(c, DoFinish(s, queueFull))
  {
    hide TableInv, LocalsInv, FreedInv, FreedPdrInv, ContentsInv, AckInv, ReqInv, RetiredInv, TrackerInv, GoneInv,
      QueueInv;
    FinishFreed(c, s, queueFull);
    FinishRetired(c, s, queueFull);
    FinishReached(c, s);
    var r := DoFinish(s, queueFull);
    var gone := s.freedPdrs + s.retireQ + Pending(s.version, s.ctl);
    var gone' := r.freedPdrs + r.retireQ + Pending(r.version, r.ctl);
    if s.ctl.drop.Some? && !queueFull {
      assert gone' == gone;
      QueueAppends(s.version, s.retireQ, s.ctl.drop.value);
    } else {
      assert gone' == s.freedPdrs + s.retireQ + [] == s.freedPdrs + s.retireQ;
    }
    GonePrefix(s.published, s.contents, s.pdrs, s.nextPdr, gone, gone');
  }

  lemma GonePrefix(pub: Table, contents: map<Snap, set<Pdr>>, pdrs: seq<Pdr>, nextPdr: nat,
                   gone: seq<Retired>, gone': seq<Retired>)
    requires GoneInv(pub, contents, pdrs, nextPdr, gone) && gone' <= gone
    ensures GoneInv(pub, contents, pdrs, nextPdr, gone')
  {
    forall r | r in gone' ensures r in gone {}
  }

  lemma QueueAppends(stable: nat, q: seq<Retired>, p: Pdr)
    requires QueueInv(stable, q)
    ensures QueueInv(stable, q + [Retired(stable, p)])
  {
    forall i | 0 <= i < |q| ensures q[i].ver <= stable { assert q[i] in q; }
  }

  // ----- acknowledgements

  lemma {:induction false} AllIn(q: seq<nat>, d: set<nat>)
    requires NoDup(q) && (forall x :: x in q ==> x in d) && |q| >= |d|
    ensures forall x :: x in d ==> x in q
    decreases |q|
  {
    if q == [] {
      assert d == {};
    } else {
      var n := |q| - 1;
      assert q == q[..n] + [q[n]] && q[n] in q;
      forall x | x in q[..n] ensures x in d - {q[n]} { assert x in q; }
      AllIn(q[..n], d - {q[n]});
    }
  }

  /** When the last expected ACK is in, every worker has moved to the acknowledged version. */
  lemma LastAck(c: Config, s: State, w: nat, v: nat)
    requires Inv(c, s) && ValidConfig(c) && s.ctl.Ready? && (w, v) in s.acks
    requires v == s.retiredVer && (Mark(s.tracker, v, w).1 || s.tracker.expected == 0)
    ensures MovedPast(c, s.locals, v) && v >= 4 && Mark(s.tracker, v, w).1
  {
    var t := Mark(s.tracker, v, w).0;
    assert v in s.published && v != 0;
    if OnceHeardAlwaysHeard(c) {
      var d := Reached(c, v);
      forall x | x in t.sids ensures x in d && x in s.locals && v <= s.locals[x].ver {
        assert (x, v) in s.acks;
        HasPointer(c, s, x, v);
        HolderReached(c, s, x);
      }
      AllIn(t.sids, d);
      forall x | x in s.locals && s.locals[x].ptr.Some? ensures v <= s.locals[x].ver {
        HolderReached(c, s, x);
      }
    }
  }

  lemma HasPointer(c: Config, s: State, x: nat, v: nat)
    requires Inv(c, s) && (x, v) in s.acks
    ensures x in s.locals && s.locals[x].ptr.Some? && v <= s.locals[x].ver
  {
    hide GoneInv, QueueInv, FreedPdrInv, ContentsInv, PdrInv, FreedInv, SlotInv, NoDup;
    assert LocalInv(s.version, s.published, s.locals[x]);
  }

  lemma {:induction false} DueFacts(q: seq<Retired>, v: nat)
    requires Sorted(q)
    ensures forall i :: 0 <= i < Due(q, v) ==> q[i].ver <= v
    ensures forall i :: Due(q, v) <= i < |q| ==> q[i].ver > v
  {
    if q != [] && q[0].ver <= v {
      DueFacts(q[1..], v);
      forall i | 0 < i < |q| ensures q[i] == q[1..][i - 1] {}
    }
  }

  lemma ReclaimQueue(c: Config, stable: nat, locals: map<nat, Worker>, q: seq<Retired>, freed: seq<Retired>, v: nat)
    requires QueueInv(stable, q) && FreedPdrInv(c, stable, locals, freed) && MovedPast(c, locals, v)
    ensures QueueInv(stable, q[Due(q, v)..]) && FreedPdrInv(c, stable, locals, freed + q[..Due(q, v)])
  {
    DueFacts(q, v);
    var n := Due(q, v);
    forall r | r in q[n..] ensures r in q {}
    forall r | r in freed + q[..n] ensures r.ver <= stable && MovedPast(c, locals, r.ver) {
      if r !in freed { assert r in q[..n] && r in q; }
    }
  }

  lemma ReclaimFreed(c: Config, s: State, v: nat)
    requires Inv(c, s) && s.ctl.Ready? && v == s.retiredVer >= 4 && MovedPast(c, s.locals, v)
    ensures var r := Reclaim(s, v); FreedInv(c, Stable(r.version), r.published, r.locals, r.nextSnap, r.freedSnaps)
  {
    hide GoneInv, QueueInv, FreedPdrInv, ContentsInv, PdrInv, AckInv, ReqInv, LocalsInv, TrackerInv, SlotInv, MovedPast;
    var r := Reclaim(s, v);
    assert s.retiredSnap.Some? && s.retiredSnap.value == s.published[v - 2];
    forall u | u in s.published && s.published[u] in r.freedSnaps
      ensures u < Stable(s.version) && MovedPast(c, s.locals, u + 2)
    {
      if s.published[u] !in s.freedSnaps { assert u == v - 2; }
    }
  }

  /** The final ACK frees the retired snapshot and the PDRs that are due. */
  lemma ReclaimInv(c: Config, s: State, v: nat)
    requires Inv(c, s) && s.ctl.Ready? && v == s.retiredVer >= 4 && MovedPast(c, s.locals, v)
    ensures Inv(c, Reclaim(s, v))
  {
    hide GoneInv, QueueInv, FreedPdrInv, FreedInv, ContentsInv, PdrInv, AckInv, ReqInv, LocalsInv, TableInv,
      MovedPast, SlotInv;
    ReclaimFreed(c, s, v);
    ReclaimQueue(c, Stable(s.version), s.locals, s.retireQ, s.freedPdrs, v);
    var r := Reclaim(s, v);
    var n := Due(s.retireQ, v);
    assert s.freedPdrs + s.retireQ + [] == r.freedPdrs + r.retireQ + [];
  }

  lemma AckStepInv(c: Config, s: State, w: nat, v: nat)
    requires Inv(c, s) && ValidConfig(c) && s.ctl.Ready? && (w, v) in s.acks
    ensures Inv(c, DoAck(s, w, v))
  {
    var (t, last) := Mark(s.tracker, v, w);
    if v == s.retiredVer {
      if s.tracker.expected > 0 && !last {
        hide GoneInv, QueueInv, FreedPdrInv, FreedInv, ContentsInv, PdrInv, AckInv, ReqInv, LocalsInv, TableInv,
          SlotInv;
        assert Inv(c, s.(tracker := t));
      } else {
        LastAck(c, s, w, v);
        ReclaimInv(c, s, v);
      }
    }
  }

  // ----- workers

  /** A worker's step that keeps its pointer and its version. */
  lemma ReaderInv(c: Config, s: State, w: nat, l: Worker)
    requires Inv(c, s) && w in s.locals && l.ptr == s.locals[w].ptr && l.ver == s.locals[w].ver
    requires LocalInv(s.version, s.published, l) && (Busy(l) ==> Heard(s.reqs, w))
    ensures Inv(c, s.(locals := s.locals[w := l]))
  {
    hide GoneInv, QueueInv, ContentsInv, PdrInv, ReqInv, TableInv, SlotInv, RetiredInv, TrackerInv, LocalInv, NoDup;
    var r := s.(locals := s.locals[w := l]);
    assert r.locals.Keys == s.locals.Keys;
    forall v | MovedPast(c, s.locals, v) ensures MovedPast(c, r.locals, v) {}
  }

  /** The worker that commits is at the latest version. */
  lemma CommitLocal(c: Config, s: State, w: nat)
    requires Inv(c, s) && w in s.locals && s.locals[w].reader.SawPointer?
    requires s.version == s.locals[w].reader.v1 && s.locals[w].reader.p.Some?
    ensures var r := DoRecheck(s, w);
      && r.locals[w].ver == s.version == Stable(s.version) && s.version in s.published
      && LocalInv(s.version, s.published, r.locals[w]) && Heard(s.reqs, w)
  {
    assert LocalInv(s.version, s.published, s.locals[w]) && Busy(s.locals[w]);
  }

  /** Moving one worker to the latest version takes nobody back. */
  lemma CommitMoves(c: Config, s: State, r: State, w: nat, v: nat)
    requires w in s.locals && w in r.locals && r.locals == s.locals[w := r.locals[w]]
    requires MovedPast(c, s.locals, v) && v <= r.locals[w].ver
    ensures MovedPast(c, r.locals, v)
  {}

  /** A commit: the worker moves to the latest version and acknowledges it. */
  lemma CommitInv(c: Config, s: State, w: nat)
    requires Inv(c, s) && w in s.locals && s.locals[w].reader.SawPointer?
    requires s.version == s.locals[w].reader.v1 && s.locals[w].reader.p.Some?
    ensures Inv(c, DoRecheck(s, w))
  {
    hide GoneInv, QueueInv, ContentsInv, PdrInv, ReqInv, SlotInv, RetiredInv, LocalInv, NoDup, MovedPast, BuildInv,
      SendInv;
    CommitLocal(c, s, w);
    var r := DoRecheck(s, w);
    assert r.locals.Keys == s.locals.Keys;
    forall v | v in s.published && s.published[v] in s.freedSnaps ensures MovedPast(c, r.locals, v + 2) {
      CommitMoves(c, s, r, w, v + 2);
    }
    forall x | x in s.freedPdrs ensures MovedPast(c, r.locals, x.ver) {
      CommitMoves(c, s, r, w, x.ver);
    }
    assert AckInv(r.published, r.acks, r.locals) by {
      assert LocalInv(s.version, s.published, s.locals[w]);
      AckKept(c, s, w);
    }
    assert TrackerInv(c, r.ctl, r.retiredVer, r.tracker, r.acks);
  }

  lemma AckKept(c: Config, s: State, w: nat)
    requires Inv(c, s) && w in s.locals && s.locals[w].reader.SawPointer?
    requires s.version == s.locals[w].reader.v1 && s.locals[w].reader.p.Some?
    ensures var r := DoRecheck(s, w); AckInv(r.published, r.acks, r.locals)
  {
    CommitLocal(c, s, w);
    assert s.locals[w].ver <= Stable(s.version) by { assert LocalInv(s.version, s.published, s.locals[w]); }
    hide GoneInv, QueueInv, ContentsInv, PdrInv, ReqInv, SlotInv, RetiredInv, LocalInv, NoDup, MovedPast, BuildInv,
      SendInv;
  }

  lemma WorkerStepInv(c: Config, s: State, a: Action)
    requires Inv(c, s) && Enabled(c, s, a) && (a.TakeReq? || a.ReadVersion? || a.ReadPointer? || a.Recheck?)
    ensures Inv(c, Do(c, s, a))
  {
    hide TableInv, RetiredInv, TrackerInv, FreedInv, GoneInv, QueueInv, AckInv, ReqInv, SendInv, FreedPdrInv,
      ContentsInv, PdrInv, BuildInv;
    var w := a.w;
    var l := s.locals[w];
    assert LocalInv(s.version, s.published, l) && (Busy(l) ==> Heard(s.reqs, w));
    match a
    case TakeReq(_, v) =>
      assert Heard(s.reqs, w);
      ReaderInv(c, s, w, l.(pending := true));
    case ReadVersion(_) =>
      if s.version % 2 == 0 { ReaderInv(c, s, w, l.(reader := SawVersion(s.version))); }
    case ReadPointer(_) =>
      assert SlotInv(s.version, s.ctl, s.active, s.published);
      ReaderInv(c, s, w, l.(reader := SawPointer(l.reader.v1, s.active)));
    case Recheck(_) =>
      if s.version == l.reader.v1 && l.reader.p.Some? { CommitInv(c, s, w); }
      else { ReaderInv(c, s, w, l.(reader := Idle)); }
  }

  /** Every step of UPF-C and of every worker keeps the invariant. */
  lemma StepInv(c: Config, s: State, a: Action)
    requires ValidConfig(c) && Inv(c, s) && Enabled(c, s, a)
    ensures Inv(c, Do(c, s, a))
  {
    hide Inv;
    match a
    case Create(b) => CreateInv(c, s, b);
    case Update(b) => UpdateInv(c, s, b);
    case Withdraw(p, b) => WithdrawInv(c, s, p, b);
    case StoreOdd => StoreOddInv(c, s);
    case Exchange => ExchangeInv(c, s);
    case StoreEven => StoreEvenInv(c, s);
    case Send(w) => SendStepInv(c, s, w);
    case Finish(queueFull) => FinishInv(c, s, queueFull);
    case TakeAck(w, v) => AckStepInv(c, s, w, v);
    case _ => WorkerStepInv(c, s, a);
  }

  // ----- all runs

  ghost predicate Leads(c: Config, s: State, acts: seq<Action>, t: State)
    decreases |acts|
  {
    if acts == [] then s == t else Enabled(c, s, acts[0]) && Leads(c, Do(c, s, acts[0]), acts[1..], t)
  }

  ghost predicate Reachable(c: Config, s: State) {
    exists acts :: Leads(c, Init(c), acts, s)
  }

  lemma {:induction false} LeadsInv(c: Config, s: State, acts: seq<Action>, t: State)
    requires ValidConfig(c) && Inv(c, s) && Leads(c, s, acts, t)
    ensures Inv(c, t)
    decreases |acts|
  {
    hide Inv, Do;
    if acts != [] {
      StepInv(c, s, acts[0]);
      LeadsInv(c, Do(c, s, acts[0]), acts[1..], t);
    }
  }

  lemma InvUsable(c: Config, s: State, w: nat)
    requires Inv(c, s) && OnceHeardAlwaysHeard(c) && w in s.locals
    ensures Usable(s, w)
  {
    hide QueueInv, PdrInv, ReqInv, AckInv, SlotInv, RetiredInv, TrackerInv, NoDup, DistinctPdrs, BuildInv;
    if s.locals[w].ptr.Some? {
      var l := s.locals[w];
      assert LocalInv(s.version, s.published, l);
      assert l.ver in s.published && s.published[l.ver] == l.ptr.value;
      forall r | r in s.freedPdrs ensures r.pdr !in s.contents[l.ptr.value] {
        assert r in s.freedPdrs + s.retireQ + Pending(s.version, s.ctl);
        assert Unmentioned(s.published, s.contents, r) && MovedPast(c, s.locals, r.ver);
      }
    }
  }

  /** Nothing is freed twice, whatever is delivered. */
  ghost predicate FreedOnce(s: State) {
    NoDup(s.freedSnaps) && DistinctPdrs(s.freedPdrs)
  }

  lemma InvFreedOnce(c: Config, s: State)
    requires Inv(c, s)
    ensures FreedOnce(s)
  {
    var gone := s.freedPdrs + s.retireQ + Pending(s.version, s.ctl);
    assert DistinctPdrs(gone);
    forall i, j | 0 <= i < j < |s.freedPdrs| ensures s.freedPdrs[i].pdr != s.freedPdrs[j].pdr {
      assert gone[i] == s.freedPdrs[i] && gone[j] == s.freedPdrs[j];
    }
  }

  lemma ReachableInv(c: Config, s: State)
    requires ValidConfig(c) && Reachable(c, s)
    ensures Inv(c, s)
  {
    var acts :| Leads(c, Init(c), acts, s);
    InitInv(c);
    LeadsInv(c, Init(c), acts, s);
  }
}
