/** What a refreshed Session-AMBR or GBR QER changes, and what it leaves alone: a bucket starts
    anew exactly when a configured rate it belongs to was changed
    (5gc/upf_u/upf_u_trtcm.c:482-609). So the bound on traffic counts from the last such change,
    however often the same rates are configured again. */
module Settings {
  import opened Common
  import Arith
  import opened Sched
  import opened TokenBucket
  import opened Rates
  import opened History
  import opened Shaper
  import opened Turns
  import opened Gains
  import opened Admission
  import opened Billing

  /** What is configured for a bucket: the Session-AMBR, or its QER with both its rates. */
  datatype Setting = Unset | AmbrOf(rate: nat) | QerOf(id: nat, gfbr: nat, mfbr: nat)

  function SettingOf(tb: UeTb, b: BucketId): Setting
    requires BucketOf(tb, b)
  {
    if b.Ambr? then AmbrOf(tb.ambr)
    else if !tb.qers[b.slot].used then Unset
    else QerOf(tb.qers[b.slot].id, tb.qers[b.slot].gfbr, tb.qers[b.slot].mfbr)
  }

  function RateFor(s: Setting, b: BucketId): nat {
    match s
    case Unset => 0
    case AmbrOf(rate) => rate
    case QerOf(_, gfbr, mfbr) => if b.Gfbr? then gfbr else mfbr
  }

  /** A bucket with the whole burst of its rate at `now`. */
  predicate StartsFull(b: Bucket, rate: nat, now: nat) {
    b.rate == rate && b.depth == Depth(rate) && b.tokens == b.depth && b.last == now
  }

  /** Bucket b from `tb` to `tc`: untouched under an unchanged setting, otherwise started anew,
      full, at the rate that is now set. */
  ghost predicate Follows(tb: UeTb, tc: UeTb, evs: seq<Event>, now: nat, b: BucketId) {
    && BucketOf(tb, b) && BucketOf(tc, b)
    && if SettingOf(tb, b) == SettingOf(tc, b) then Get(tc, b) == Get(tb, b) && !RestartedBy(evs, b)
       else
         && StartsFull(Get(tc, b), RateFor(SettingOf(tc, b), b), now)
         && RestartedBy(evs, b) && (forall c :: 0 <= c < |evs| && Restarts(evs[c], b) ==> evs[c] == Inited(b, now))
  }

  /** Refreshing the Session-AMBR of a known UE stores it, restarts its bucket iff it changed, and
      touches no QER; of an unknown one it fails and does nothing. */
  lemma RefreshAmbrMeans(tb: UeTb, rate: nat, conflict: bool, now: nat, b: BucketId)
    requires BucketOf(tb, b)
    ensures
      var c := RefreshAmbr(tb, rate, conflict, now);
      && (c.ok <==> tb.ueIp != 0) && (!c.ok ==> c.tb == tb && c.events == [])
      && (c.ok ==> c.tb.ambr == rate && c.tb.conflict == conflict)
      && c.tb.ueIp == tb.ueIp && c.tb.qers == tb.qers && Follows(tb, c.tb, c.events, now, b)
  {
    var c := RefreshAmbr(tb, rate, conflict, now);
    if c.events != [] { assert Restarts(c.events[0], Ambr); }
  }

  /** Refreshing a QER restarts its two buckets iff it is new or one of its rates changed; every
      other slot and the Session-AMBR stay. */
  lemma RefreshQerMeans(tb: UeTb, id: nat, qfi: nat, gfbr: nat, mfbr: nat, now: nat, b: BucketId)
    requires BucketOf(tb, b)
    ensures
      var c := RefreshQer(tb, id, qfi, gfbr, mfbr, now);
      && Follows(tb, c.tb, c.events, now, b) && (!c.ok ==> c.tb == tb && c.events == [])
      && c.tb.ueIp == tb.ueIp && c.tb.ambr == tb.ambr && c.tb.conflict == tb.conflict
      && (!b.Ambr? && (!c.tb.qers[b.slot].used || c.tb.qers[b.slot].id != id) ==>
            c.tb.qers[b.slot] == tb.qers[b.slot])
  {
    var c := RefreshQer(tb, id, qfi, gfbr, mfbr, now);
    if c.events != [] {
      var at := c.events[0].b.slot;
      assert Restarts(c.events[0], Gfbr(at)) && Restarts(c.events[1], Mfbr(at));
    }
  }

  /** Twice the same configuration is once. */
  lemma RefreshTwice(tb: UeTb, id: nat, qfi: nat, gfbr: nat, mfbr: nat, now: nat, later: nat)
    requires AtConfiguredRates(tb)
    ensures
      var c := RefreshQer(tb, id, qfi, gfbr, mfbr, now);
      var d := RefreshQer(c.tb, id, qfi, gfbr, mfbr, later);
      d.tb == c.tb && d.events == [] && d.ok == c.ok
  {
    var c := RefreshQer(tb, id, qfi, gfbr, mfbr, now);
    RefreshQerSets(tb, id, qfi, gfbr, mfbr, now);
    if c.ok {
      var k := FindQer(c.tb.qers, id, 0);
      assert c.tb.qers[k := c.tb.qers[k].(qfi := qfi)] == c.tb.qers;
    }
  }

  /** A new UE has its Session-AMBR, a full bucket for it, and no QER. */
  lemma NewUeMeans(ueIp: nat, rate: nat, conflict: bool, now: nat, b: BucketId)
    ensures
      var tb := NewUe(ueIp, rate, conflict, now);
      && tb.ueIp == ueIp && tb.conflict == conflict && SettingOf(tb, Ambr) == AmbrOf(rate)
      && StartsFull(tb.ambrTb, rate, now) && (BucketOf(tb, b) && !b.Ambr? ==> SettingOf(tb, b) == Unset)
  {}

  // ----- the last change of a setting

  /** Where the history, the clock and its readings were. */
  datatype Mark = Mark(at: nat, time: nat, ticks: nat)

  function Here(env: Env, u: Ue): Mark { Mark(|u.trace|, Now(env, u), u.ticks) }

  /** The operation gives the slot to a UE, takes it away, or changes the setting of bucket b. */
  ghost predicate Changes(env: Env, u: Ue, op: Op, b: BucketId)
    requires Good(env, u)
  {
    op.OnAdd? || op.OnRemove? ||
    (BucketOf(u.tb, b) && BucketOf(Do(env, u, op).tb, b) && SettingOf(u.tb, b) != SettingOf(Do(env, u, op).tb, b))
  }

  /** The last change in a run. */
  ghost function LastChange(env: Env, u: Ue, ops: seq<Op>, b: BucketId, m: Mark): Mark
    decreases |ops|
  {
    if ops == [] || !Good(env, u) then m
    else LastChange(env, Do(env, u, ops[0]), ops[1..], b, if Changes(env, u, ops[0], b) then Here(env, u) else m)
  }

  /** Bytes of packets that a bucket is there to limit. */
  function Traffic(tr: seq<Event>, b: BucketId, id: nat): nat {
    if tr == [] then 0
    else
      var ev := tr[|tr| - 1];
      Traffic(tr[..|tr| - 1], b, id) + if IsDeparture(ev) && Limited(ev, b, id) then ev.e.len else 0
  }

  lemma {:induction false} TrafficConcat(tr: seq<Event>, evs: seq<Event>, b: BucketId, id: nat)
    ensures Traffic(tr + evs, b, id) == Traffic(tr, b, id) + Traffic(evs, b, id)
    decreases |evs|
  {
    if evs == [] {
      assert tr + evs == tr;
    } else {
      var n := |evs| - 1;
      assert (tr + evs)[..|tr| + n] == tr + evs[..n] && (tr + evs)[|tr| + n] == evs[n];
      TrafficConcat(tr, evs[..n], b, id);
    }
  }

  /** Without a restart, the account of a bucket just goes on. */
  lemma {:induction false} GoesOn(tr: seq<Event>, evs: seq<Event>, b: BucketId, id: nat)
    requires !RestartedBy(evs, b)
    ensures BytesFor(tr + evs, b, id) == BytesFor(tr, b, id) + Traffic(evs, b, id)
    ensures AccountOf(tr + evs, b).since == AccountOf(tr, b).since
    ensures AccountOf(tr + evs, b).credits == AccountOf(tr, b).credits + Refills(evs, b)
    decreases |evs|
  {
    hide Limited, Pays;
    if evs == [] {
      assert tr + evs == tr;
    } else {
      var n := |evs| - 1;
      assert !Restarts(evs[n], b);
      assert tr + evs == tr + evs[..n] + [evs[n]];
      Billing.BytesAppend(tr + evs[..n], evs[n], b, id);
      AccountAppend(tr + evs[..n], evs[n], b);
      forall c | 0 <= c < n ensures !Restarts(evs[..n][c], b) { assert !Restarts(evs[c], b); }
      GoesOn(tr, evs[..n], b, id);
    }
  }

  /** After a restart and nothing else, the account is empty. */
  lemma {:induction false} StartsAnew(tr: seq<Event>, evs: seq<Event>, b: BucketId, id: nat, now: nat)
    requires RestartedBy(evs, b) && forall c :: 0 <= c < |evs| ==> Kind(evs[c], Configuring)
    requires forall c :: 0 <= c < |evs| && Restarts(evs[c], b) ==> evs[c] == Inited(b, now)
    ensures BytesFor(tr + evs, b, id) == 0 && AccountOf(tr + evs, b) == Account(0, 0, now) && Traffic(evs, b, id) == 0
    decreases |evs|
  {
    var n := |evs| - 1;
    assert tr + evs == tr + evs[..n] + [evs[n]];
    Billing.BytesAppend(tr + evs[..n], evs[n], b, id);
    AccountAppend(tr + evs[..n], evs[n], b);
    NoTraffic(evs, b, id);
    if !Restarts(evs[n], b) {
      var c :| 0 <= c < |evs| && Restarts(evs[c], b);
      assert Restarts(evs[..n][c], b);
      StartsAnew(tr, evs[..n], b, id, now);
    }
  }

  lemma {:induction false} NoTraffic(evs: seq<Event>, b: BucketId, id: nat)
    requires forall c :: 0 <= c < |evs| ==> Kind(evs[c], Configuring)
    ensures Traffic(evs, b, id) == 0
    decreases |evs|
  {
    if evs != [] { NoTraffic(evs[..|evs| - 1], b, id); }
  }

  // ----- traffic since then

  /** The books of bucket b since mark m. */
  ghost predicate Booked(u: Ue, b: BucketId, m: Mark) {
    InPlay(u.tb, b) && u.tb.ueIp != 0 ==>
      var a := AccountOf(u.trace, b);
      && m.at <= |u.trace| && m.ticks <= u.ticks && a.since == m.time && a.credits <= u.ticks - m.ticks
      && BytesFor(u.trace, b, IdOf(u.tb, b)) == Traffic(u.trace[m.at..], b, IdOf(u.tb, b))
  }

  /** An operation under which the bucket is not started anew. */
  lemma GoesOnBooked(u: Ue, v: Ue, how: Cause, b: BucketId, m: Mark)
    requires Booked(u, b, m) && Adds(u, v, how) && !RestartedBy(v.trace[|u.trace|..], b)
    requires InPlay(v.tb, b) && v.tb.ueIp != 0 ==> InPlay(u.tb, b) && u.tb.ueIp != 0 && IdOf(u.tb, b) == IdOf(v.tb, b)
    ensures Booked(v, b, m)
  {
    hide Traffic, BytesFor, AccountOf, Refills;
    if InPlay(v.tb, b) && v.tb.ueIp != 0 {
      var evs, id := v.trace[|u.trace|..], IdOf(v.tb, b);
      assert v.trace == u.trace + evs && v.trace[m.at..] == u.trace[m.at..] + evs;
      GoesOn(u.trace, evs, b, id);
      TrafficConcat(u.trace[m.at..], evs, b, id);
      assert Slow(u, v, b);
      RefillsConcat(u.trace, evs, b);
    }
  }

  /** An operation under which it is. */
  lemma AnewBooked(env: Env, u: Ue, v: Ue, evs: seq<Event>, b: BucketId)
    requires v.trace == u.trace + evs && u.ticks <= v.ticks && InPlay(v.tb, b)
    requires RestartedBy(evs, b) && forall c :: 0 <= c < |evs| ==> Kind(evs[c], Configuring)
    requires forall c :: 0 <= c < |evs| && Restarts(evs[c], b) ==> evs[c] == Inited(b, Now(env, u))
    ensures Booked(v, b, Here(env, u))
  {
    StartsAnew(u.trace, evs, b, IdOf(v.tb, b), Now(env, u));
    assert v.trace[|u.trace|..] == evs;
  }

  lemma NotRestarted(u: Ue, v: Ue, how: Cause, b: BucketId)
    requires Adds(u, v, how) && !how.Configuring?
    ensures !RestartedBy(v.trace[|u.trace|..], b)
  {
    var evs := v.trace[|u.trace|..];
    forall c | 0 <= c < |evs| ensures !Restarts(evs[c], b) { assert Kind(v.trace[|u.trace| + c], how); }
  }

  /** Arrivals and drains leave all settings alone. */
  lemma SameSettings(tb: UeTb, tc: UeTb, b: BucketId)
    requires SameRates(tb, tc)
    ensures BucketOf(tb, b) <==> BucketOf(tc, b)
    ensures BucketOf(tb, b) ==> SettingOf(tb, b) == SettingOf(tc, b) && (InPlay(tb, b) <==> InPlay(tc, b))
  {
    if BucketOf(tb, b) && !b.Ambr? { assert SameQer(tb.qers[b.slot], tc.qers[b.slot]); }
  }

  lemma ArriveSettings(env: Env, u: Ue, a: Arrival, entryFree: bool)
    requires Good(env, u)
    ensures SameRates(u.tb, Arrive(env, u, a, entryFree).u.tb)
  {
    hide Tracked, MeterInv, ListsOk, FlowsOk, SameRates, FastPath;
    SameRatesSelf(u.tb);
    if EntryOf(a).len != 0 && Admissible(u.tb, a.hasGbr, a.qerId, EntryOf(a).len) {
      if Lookup(u.q.flows, a.key, env.home(a.key), 0) < 0 {
        NoFlow(u.q.flows, a.key, env.home(a.key));
        FastPathRates(env, u, a);
      }
    }
  }

  lemma PacketBooked(env: Env, u: Ue, op: Op, b: BucketId, m: Mark)
    requires Good(env, u) && Booked(u, b, m) && (op.OnPacket? || op.OnDrain?)
    ensures Booked(Do(env, u, op), b, m) && !Changes(env, u, op, b)
  {
    hide Good, Booked, Adds, Arrive, DrainUe, SameRates;
    var v := Do(env, u, op);
    DoAdds(env, u, op);
    if op.OnPacket? { ArriveSettings(env, u, op.a, op.entryFree); } else { DrainRates(env, u, op.budget); }
    SameSettings(u.tb, v.tb, b);
    SameUe(u.tb, v.tb);
    NotRestarted(u, v, CauseOf(op), b);
    GoesOnBooked(u, v, CauseOf(op), b, m);
  }

  lemma DrainRates(env: Env, u: Ue, budget: nat)
    requires Good(env, u)
    ensures SameRates(u.tb, DrainUe(env, u, budget).u.tb)
  {
    hide Good, DrainLoop;
  }

  lemma SameUe(tb: UeTb, tc: UeTb)
    requires SameRates(tb, tc)
    ensures tb.ueIp == tc.ueIp
  {}

  /** A refresh, by what it does to bucket b. */
  lemma RefreshBooked(env: Env, u: Ue, v: Ue, evs: seq<Event>, b: BucketId, m: Mark)
    requires Booked(u, b, m) && v.trace == u.trace + evs && v.ticks == u.ticks + 1 && v.tb.ueIp == u.tb.ueIp
    requires BucketOf(v.tb, b) ==> Follows(u.tb, v.tb, evs, Now(env, u), b)
    requires forall c :: 0 <= c < |evs| ==> Kind(evs[c], Configuring)
    ensures
      var changed := BucketOf(u.tb, b) && BucketOf(v.tb, b) && SettingOf(u.tb, b) != SettingOf(v.tb, b);
      Booked(v, b, if changed then Here(env, u) else m)
  {
    hide Booked, Adds, Here;
    if InPlay(v.tb, b) {
      assert v.trace[|u.trace|..] == evs;
      if SettingOf(u.tb, b) == SettingOf(v.tb, b) {
        ConfigureAdds(u, v, evs);
        GoesOnBooked(u, v, Configuring, b, m);
      } else {
        AnewBooked(env, u, v, evs, b);
      }
    } else {
      NotInPlay(v, b, m);
      NotInPlay(v, b, Here(env, u));
    }
  }

  lemma NotInPlay(u: Ue, b: BucketId, m: Mark)
    requires !InPlay(u.tb, b) || u.tb.ueIp == 0
    ensures Booked(u, b, m)
  {}

  lemma AddBooked(env: Env, u: Ue, ueIp: nat, rate: nat, conflict: bool, b: BucketId)
    requires Good(env, u)
    ensures Booked(Do(env, u, OnAdd(ueIp, rate, conflict)), b, Here(env, u))
  {
    hide Good, Booked;
    var v, now := Do(env, u, OnAdd(ueIp, rate, conflict)), Now(env, u);
    if b.Ambr? {
      var w := u.(trace := u.trace + [Cleared]);
      assert v.trace == w.trace + [Inited(Ambr, now)];
      assert Restarts([Inited(Ambr, now)][0], Ambr);
      StartsAnew(w.trace, [Inited(Ambr, now)], Ambr, 0, now);
      NoTraffic([Cleared, Inited(Ambr, now)], Ambr, 0);
      AddedBooked(v, Here(env, u));
    } else {
      NotInPlay(v, b, Here(env, u));
    }
  }

  lemma AddedBooked(v: Ue, m: Mark)
    requires m.at <= |v.trace| && m.ticks <= v.ticks && AccountOf(v.trace, Ambr) == Account(0, 0, m.time)
    requires BytesFor(v.trace, Ambr, 0) == 0 == Traffic(v.trace[m.at..], Ambr, 0)
    ensures Booked(v, Ambr, m)
  {}

  lemma DoBooked(env: Env, u: Ue, op: Op, b: BucketId, m: Mark)
    requires Good(env, u) && Booked(u, b, m)
    ensures Booked(Do(env, u, op), b, if Changes(env, u, op, b) then Here(env, u) else m)
  {
    hide Good, Booked, Arrive, DrainUe, RefreshAmbr, RefreshQer, Follows, Here;
    var v, now := Do(env, u, op), Now(env, u);
    match op
    case OnPacket(_, _) => PacketBooked(env, u, op, b, m);
    case OnDrain(_) => PacketBooked(env, u, op, b, m);
    case OnRemove => NotInPlay(v, b, Here(env, u));
    case OnAdd(ueIp, rate, conflict) => AddBooked(env, u, ueIp, rate, conflict, b);
    case OnAmbr(rate, conflict) =>
      var c := RefreshAmbr(u.tb, rate, conflict, now);
      AmbrKind(u.tb, rate, conflict, now);
      if BucketOf(u.tb, b) { RefreshAmbrMeans(u.tb, rate, conflict, now, b); }
      RefreshAmbrMeans(u.tb, rate, conflict, now, Ambr);
      RefreshBooked(env, u, v, c.events, b, m);
    case OnQer(id, qfi, gfbr, mfbr) =>
      var c := RefreshQer(u.tb, id, qfi, gfbr, mfbr, now);
      QerKind(u.tb, id, qfi, gfbr, mfbr, now);
      if BucketOf(u.tb, b) { RefreshQerMeans(u.tb, id, qfi, gfbr, mfbr, now, b); }
      RefreshQerMeans(u.tb, id, qfi, gfbr, mfbr, now, Ambr);
      RefreshBooked(env, u, v, c.events, b, m);
  }

  lemma AmbrKind(tb: UeTb, rate: nat, conflict: bool, now: nat)
    ensures
      var c := RefreshAmbr(tb, rate, conflict, now);
      |c.tb.qers| == |tb.qers| && forall i :: 0 <= i < |c.events| ==> Kind(c.events[i], Configuring)
  {}

  lemma QerKind(tb: UeTb, id: nat, qfi: nat, gfbr: nat, mfbr: nat, now: nat)
    ensures
      var c := RefreshQer(tb, id, qfi, gfbr, mfbr, now);
      |c.tb.qers| == |tb.qers| && forall i :: 0 <= i < |c.events| ==> Kind(c.events[i], Configuring)
  {}

  lemma {:induction false} RunBooked(env: Env, u: Ue, ops: seq<Op>, v: Ue, b: BucketId, m: Mark)
    requires Good(env, u) && Booked(u, b, m) && Reaches(env, u, ops, v)
    ensures Booked(v, b, LastChange(env, u, ops, b, m))
    decreases |ops|
  {
    hide Good, Booked, Do, Changes, Here;
    if ops != [] {
      DoGood(env, u, ops[0]);
      DoBooked(env, u, ops[0], b, m);
      RunBooked(env, Do(env, u, ops[0]), ops[1..], v, b, if Changes(env, u, ops[0], b) then Here(env, u) else m);
    }
  }

  /** Over every run, all traffic that a bucket limits, since its setting was last changed, keeps
      to the configured rate: the depth, the rate over the time since then, and one cycle for each
      reading of the clock since then. */
  lemma TrafficSinceChange(env: Env, ops: seq<Op>, v: Ue, b: BucketId)
    requires Steady(env) && Reaches(env, Fresh(), ops, v) && InPlay(v.tb, b) && v.tb.ueIp != 0
    ensures
      var m := LastChange(env, Fresh(), ops, b, Mark(0, 0, 0));
      var rate, now := ConfiguredRate(v.tb, b), Now(env, v);
      && m.at <= |v.trace| && m.time <= now && m.ticks <= v.ticks
      && Traffic(v.trace[m.at..], b, IdOf(v.tb, b)) * env.hz
           <= Depth(rate) * env.hz + (now - m.time + (v.ticks - m.ticks)) * ByteRate(rate)
  {
    hide Good, Reaches, LastChange, Depth;
    FreshGood(env);
    var m := LastChange(env, Fresh(), ops, b, Mark(0, 0, 0));
    NotInPlay(Fresh(), b, Mark(0, 0, 0));
    RunBooked(env, Fresh(), ops, v, b, Mark(0, 0, 0));
    TrafficWithinRates(env, ops, v, b);
    var a, rate := AccountOf(v.trace, b), ConfiguredRate(v.tb, b);
    Arith.MulMono(Now(env, v) - a.since + a.credits, Now(env, v) - m.time + (v.ticks - m.ticks), ByteRate(rate));
  }
}
