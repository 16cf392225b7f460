/** When a drain of one UE stops, at one instant of the clock: only when the budget or the
    transmit buffer is used up, nothing waits, no waiting head can be paid for, or a packet
    was dropped. That holds exactly for token states that a first look brings to rest. */
module Stopping {
  import opened Common
  import opened Sched
  import opened TokenBucket
  import opened Rates
  import opened History
  import opened Shaper
  import opened Turns
  import opened Dropping
  import opened Settling

  /** From u on, the clock stands still at t. */
  ghost predicate Frozen(env: Env, u: Ue, t: nat) { forall n: nat :: n >= u.ticks ==> env.clk(n) == t }

  lemma FrozenOn(env: Env, u: Ue, w: Ue, t: nat)
    requires Frozen(env, u, t) && u.ticks <= w.ticks
    ensures Frozen(env, w, t)
  {}

  lemma GoodReady(env: Env, u: Ue, t: nat)
    requires Good(env, u) && Frozen(env, u, t)
    ensures Ready(u.tb, t, env.hz) && Now(env, u) == t && Inv(u.q)
  {
    MeterWellFormed(u.tb, u.trace, env.hz);
  }

  // ----- the condition

  /** One look at the MFBR bucket of a QER finds all there is; or what a second look would
      find is within the depth of the GFBR bucket, so that there is a second look: a packet
      no longer than that is first tried as guaranteed traffic. */
  ghost predicate QerRests(tb: UeTb, id: nat, now: nat, hz: nat)
    requires Ready(tb, now, hz)
  {
    var k := FindQer(tb.qers, id, 0);
    k >= 0 ==> SettlesAt(tb, Mfbr(k), now, hz) || CanFit(tb.qers[k].gfbrTb, CeilingOf(tb, Mfbr(k), now, hz))
  }

  /** The token state comes to rest at the first look of a drain. */
  ghost predicate Restful(tb: UeTb, now: nat, hz: nat) {
    Ready(tb, now, hz) && SettlesAt(tb, Ambr, now, hz) && forall id: nat :: QerRests(tb, id, now, hz)
  }

  lemma RestfulKept(tb: UeTb, tc: UeTb, now: nat, hz: nat)
    requires Restful(tb, now, hz) && Calmed(tb, tc, now, hz)
    ensures Restful(tc, now, hz)
  {
    hide Settles, Ceiling;
    assert SameOrSettled(tb, tc, Ambr, now, hz);
    forall id: nat ensures QerRests(tc, id, now, hz) {
      FindQerSame(tb.qers, tc.qers, id, 0);
      var k := FindQer(tb.qers, id, 0);
      if k >= 0 {
        assert QerRests(tb, id, now, hz) && SameOrSettled(tb, tc, Mfbr(k), now, hz) && SameQer(tb.qers[k], tc.qers[k]);
      }
    }
  }

  // ----- what a refusal shows

  /** The packet was tried as guaranteed traffic, so its MFBR bucket settles, or it is too
      long for that. */
  ghost predicate Tested(tb: UeTb, policy: Policy, len: nat, now: nat, hz: nat)
    requires Ready(tb, now, hz)
  {
    var k := FindQer(tb.qers, policy.qerId, 0);
    !Fits(tb, Guaranteed, policy.qerId, len) || (k >= 0 && SettlesAt(tb, Mfbr(k), now, hz))
  }

  /** The packet costs more than any look at its widest bucket will find. */
  ghost predicate Over(tb: UeTb, policy: Policy, len: nat, now: nat, hz: nat)
    requires Ready(tb, now, hz)
  {
    BucketOf(tb, WidestOf(tb, policy)) && CeilingOf(tb, WidestOf(tb, policy), now, hz) < len
  }

  lemma TestedKept(tb: UeTb, tc: UeTb, policy: Policy, len: nat, now: nat, hz: nat)
    requires Calmed(tb, tc, now, hz) && Tested(tb, policy, len, now, hz)
    ensures Tested(tc, policy, len, now, hz)
  {
    hide Settles;
    FindQerSame(tb.qers, tc.qers, policy.qerId, 0);
    FitsSame(tb, tc, Guaranteed, policy.qerId, len);
    var k := FindQer(tb.qers, policy.qerId, 0);
    if k >= 0 { assert SameOrSettled(tb, tc, Mfbr(k), now, hz); }
  }

  lemma OverKept(tb: UeTb, tc: UeTb, policy: Policy, len: nat, now: nat, hz: nat)
    requires SameCeilings(tb, tc, now, hz) && Over(tb, policy, len, now, hz)
    ensures Over(tc, policy, len, now, hz)
  {
    hide Ceiling;
    FindQerSame(tb.qers, tc.qers, policy.qerId, 0);
    assert EqualCeiling(tb, tc, WidestOf(tb, policy), now, hz);
  }

  /** In a restful state, a refusal by the widest bucket is final. */
  lemma RefusalIsFinal(tb: UeTb, policy: Policy, len: nat, now: nat, hz: nat)
    requires Restful(tb, now, hz) && Admissible(tb, policy.hasGbr, policy.qerId, len)
    requires policy.hasGbr ==> Tested(tb, policy, len, now, hz)
    requires BucketOf(tb, WidestOf(tb, policy)) && Worth(Get(tb, WidestOf(tb, policy)), now, hz) < len
    ensures Over(tb, policy, len, now, hz)
  {
    hide Worth, Ceiling;
    if policy.hasGbr { assert QerRests(tb, policy.qerId, now, hz); }
  }

  // ----- turns that send and drop nothing

  function HeadLen(f: Flow): nat
    requires f.queue != []
  {
    f.queue[0].len
  }

  /** What a silent turn shows about the flow that had it. */
  ghost predicate Shown(tb: UeTb, f: Flow, service: Service, now: nat, hz: nat)
    requires Ready(tb, now, hz)
  {
    f.queue != [] &&
    if service == Guaranteed then Tested(tb, PolicyOf(f), HeadLen(f), now, hz)
    else Over(tb, PolicyOf(f), HeadLen(f), now, hz)
  }

  /** Flow i may have its turn: for excess service, its guaranteed turn is over. */
  ghost predicate Due(tb: UeTb, f: Flow, service: Service, now: nat, hz: nat)
    requires Ready(tb, now, hz)
  {
    service == Excess ==> Shown(tb, f, Guaranteed, now, hz)
  }

  lemma ShownKept(tb: UeTb, tc: UeTb, f: Flow, service: Service, now: nat, hz: nat)
    requires Calmed(tb, tc, now, hz) && SameCeilings(tb, tc, now, hz) && Shown(tb, f, service, now, hz)
    ensures Shown(tc, f, service, now, hz)
  {
    hide Tested, Over;
    if service == Guaranteed { TestedKept(tb, tc, PolicyOf(f), HeadLen(f), now, hz); }
    else { OverKept(tb, tc, PolicyOf(f), HeadLen(f), now, hz); }
  }

  /** Policies go with lists: the GBR list holds the flows with guaranteed bit rate. */
  lemma HeadPolicy(q: Sched, l: nat, service: Service, alternate: Service)
    requires Inv(q) && GBR <= l < LISTS && q.lists[l] != [] && Paired(l, service, alternate)
    ensures
      var i := q.lists[l][0];
      && i < |q.flows| && q.flows[i].queue != [] && (q.flows[i].hasGbr <==> l == GBR)
      && (service != Guaranteed ==> service == if q.flows[i].hasGbr then Excess else SessionAmbr)
  {
    HeadFlow(q, l);
  }

  /** A turn that sends and drops nothing only rotates the list, changes no ceiling, and
      shows what its service can show. */
  lemma SilentTurn(env: Env, u: Ue, l: nat, service: Service, alternate: Service, t: nat)
    requires Good(env, u) && Frozen(env, u, t) && Ready(u.tb, t, env.hz) && Restful(u.tb, t, env.hz)
    requires GBR <= l < LISTS && u.q.lists[l] != [] && Paired(l, service, alternate)
    requires Try(env, u, l, service, alternate).n == 0
    requires Drops(Try(env, u, l, service, alternate).u.trace, None) == Drops(u.trace, None)
    requires u.q.lists[l][0] < |u.q.flows| && Due(u.tb, u.q.flows[u.q.lists[l][0]], service, t, env.hz)
    ensures
      var v, s := Try(env, u, l, service, alternate).u, u.q.lists[l];
      && v.q == u.q.(lists := u.q.lists[l := s[1..] + [s[0]]])
      && Calmed(u.tb, v.tb, t, env.hz) && SameCeilings(u.tb, v.tb, t, env.hz)
      && Shown(v.tb, u.q.flows[s[0]], service, t, env.hz)
  {
    hide Tracked, MeterInv, Calmed, SameCeilings, Restful, Tested, Over, ListsOk, Drops, Consume, Activate,
      Deactivate, Pop, RefillFor, Worth;
    GoodReady(env, u, t);
    HeadPolicy(u.q, l, service, alternate);
    RotateOk(u.q, l);
    TryDropsIff(env, u, l, service, alternate, None);
    SameCeilingsSelf(u.tb, t, env.hz);
    var f := u.q.flows[u.q.lists[l][0]];
    var len := HeadLen(f);
    var v := Try(env, u, l, service, alternate).u;
    if Fits(u.tb, service, f.qerId, len) {
      FitsMeets(u.tb, service, f.qerId, len);
      ConsumeCalms(u.tb, service, f.qerId, len, t, env.hz);
      SilentPayment(u.tb, f, service, t, env.hz);
    } else {
      NotGuaranteed(u.tb, f, t, env.hz);
    }
  }

  lemma FitsMeets(tb: UeTb, service: Service, qerId: nat, len: nat)
    requires Fits(tb, service, qerId, len)
    ensures Meets(tb, service, qerId)
  {}

  lemma NotGuaranteed(tb: UeTb, f: Flow, now: nat, hz: nat)
    requires Ready(tb, now, hz) && f.queue != [] && !Fits(tb, Guaranteed, f.qerId, HeadLen(f))
    ensures Shown(tb, f, Guaranteed, now, hz)
  {}

  /** A refused payment shows what its service can show. */
  lemma SilentPayment(tb: UeTb, f: Flow, service: Service, now: nat, hz: nat)
    requires Restful(tb, now, hz) && Ready(tb, now, hz) && f.queue != [] && Due(tb, f, service, now, hz)
    requires Meets(tb, service, f.qerId) && Admissible(tb, f.hasGbr, f.qerId, HeadLen(f))
    requires service == Guaranteed || service == if f.hasGbr then Excess else SessionAmbr
    requires !Consume(tb, service, f.qerId, HeadLen(f), now, hz).ok
    ensures Ready(Consume(tb, service, f.qerId, HeadLen(f), now, hz).tb, now, hz)
    ensures Shown(Consume(tb, service, f.qerId, HeadLen(f), now, hz).tb, f, service, now, hz)
  {
    hide Consume, Restful, Admissible, Worth, CeilingOf, SettlesAt;
    var len := HeadLen(f);
    var p := Consume(tb, service, f.qerId, len, now, hz);
    ConsumeCalms(tb, service, f.qerId, len, now, hz);
    if service == Guaranteed {
      GuaranteedCalms(tb, f.qerId, len, now, hz);
      FindQerSame(tb.qers, p.tb.qers, f.qerId, 0);
    } else {
      RefusalMeans(tb, PolicyOf(f), service, len, now, hz);
      RefusalIsFinal(tb, PolicyOf(f), len, now, hz);
      OverKept(tb, p.tb, PolicyOf(f), len, now, hz);
    }
  }

  // ----- passes that send and drop nothing

  /** From u to v nothing was sent or dropped and no list changed; the tokens were looked at. */
  ghost predicate Silent(env: Env, u: Ue, v: Ue, t: nat) {
    && Good(env, v) && Ready(v.tb, t, env.hz) && Drops(v.trace, None) == Drops(u.trace, None) && u.ticks <= v.ticks
    && Calmed(u.tb, v.tb, t, env.hz) && SameCeilings(u.tb, v.tb, t, env.hz)
  }

  ghost predicate AllDue(u: Ue, l: nat, service: Service, now: nat, hz: nat)
    requires Ready(u.tb, now, hz)
  {
    && l < |u.q.lists|
    && forall i :: i in u.q.lists[l] ==> i < |u.q.flows| && Due(u.tb, u.q.flows[i], service, now, hz)
  }

  ghost predicate AllShown(q: Sched, tb: UeTb, l: nat, service: Service, now: nat, hz: nat)
    requires Ready(tb, now, hz)
  {
    l < |q.lists| && forall i :: i in q.lists[l] ==> i < |q.flows| && Shown(tb, q.flows[i], service, now, hz)
  }

  lemma AllShownKept(q: Sched, tb: UeTb, tc: UeTb, l: nat, service: Service, now: nat, hz: nat)
    requires Calmed(tb, tc, now, hz) && SameCeilings(tb, tc, now, hz) && AllShown(q, tb, l, service, now, hz)
    ensures AllShown(q, tc, l, service, now, hz)
  {
    hide Shown;
    forall i | i in q.lists[l] ensures Ready(tc, now, hz) && Shown(tc, q.flows[i], service, now, hz) {
      ShownKept(tb, tc, q.flows[i], service, now, hz);
    }
  }

  lemma TurnedFurther(s: seq<nat>, n: nat)
    requires 0 < n <= |s|
    ensures var s1 := s[1..] + [s[0]]; s1[n - 1..] + s1[..n - 1] == s[n..] + s[..n]
  {
    var s1 := s[1..] + [s[0]];
    assert s1[n - 1..] == s[n..] + [s[0]] && s1[..n - 1] == s[1..n] && s[..n] == [s[0]] + s[1..n];
  }

  lemma SilentTrans(env: Env, u: Ue, v: Ue, w: Ue, t: nat)
    requires Silent(env, u, v, t) && Silent(env, v, w, t)
    ensures Silent(env, u, w, t)
  {
    hide Good, Calmed, SameCeilings;
    CalmedTrans(u.tb, v.tb, w.tb, t, env.hz);
    SameCeilingsTrans(u.tb, v.tb, w.tb, t, env.hz);
  }

  lemma SilentSelf(env: Env, u: Ue, t: nat)
    requires Good(env, u) && Frozen(env, u, t)
    ensures Silent(env, u, u, t)
  {
    GoodReady(env, u, t);
    SameCeilingsSelf(u.tb, t, env.hz);
  }

  /** What every stage of a silent drain starts from. */
  ghost predicate Resting(env: Env, u: Ue, t: nat) {
    Good(env, u) && Frozen(env, u, t) && Ready(u.tb, t, env.hz) && Restful(u.tb, t, env.hz)
  }

  lemma SilentRests(env: Env, u: Ue, v: Ue, t: nat)
    requires Resting(env, u, t) && Silent(env, u, v, t)
    ensures Resting(env, v, t)
  {
    hide Good, Restful;
    RestfulKept(u.tb, v.tb, t, env.hz);
    GoodReady(env, v, t);
  }

  /** The first n flows of a list had their turn. */
  ghost predicate FirstShown(q: Sched, tb: UeTb, l: nat, n: nat, service: Service, now: nat, hz: nat)
    requires Ready(tb, now, hz)
  {
    && l < |q.lists| && n <= |q.lists[l]|
    && forall j :: 0 <= j < n ==> q.lists[l][j] < |q.flows| && Shown(tb, q.flows[q.lists[l][j]], service, now, hz)
  }

  /** Turns for the first `attempts` flows of a list. */
  lemma {:induction false} SilentTurns(env: Env, u: Ue, l: nat, service: Service, alternate: Service,
                                       attempts: nat, t: nat)
    requires Resting(env, u, t) && GBR <= l < LISTS && Paired(l, service, alternate)
    requires attempts <= |u.q.lists[l]| && AllDue(u, l, service, t, env.hz)
    requires
      var r := DrainOne(env, u, l, service, alternate, attempts);
      r.n == 0 && Drops(r.u.trace, None) == Drops(u.trace, None)
    ensures
      var v, s := DrainOne(env, u, l, service, alternate, attempts).u, u.q.lists[l];
      && Silent(env, u, v, t) && v.q == u.q.(lists := u.q.lists[l := s[attempts..] + s[..attempts]])
      && FirstShown(u.q, v.tb, l, attempts, service, t, env.hz)
    decreases attempts
  {
    hide Try, Tracked, MeterInv, Restful, Calmed, SameCeilings, Shown, FlowsOk, KeysUnique, Drops, Frozen;
    var s := u.q.lists[l];
    if attempts == 0 {
      assert s[0..] + s[..0] == s;
      assert u.q.lists[l := s] == u.q.lists;
      SilentSelf(env, u, t);
    } else {
      TryGood(env, u, l, service, alternate);
      TryProgress(env, u, l, service, alternate);
      var w := Try(env, u, l, service, alternate).u;
      var v := DrainOne(env, w, l, service, alternate, attempts - 1).u;
      DropsGrow(u.trace, w.trace, None);
      DropsGrow(w.trace, v.trace, None);
      assert s[0] in s;
      SilentTurn(env, u, l, service, alternate, t);
      FrozenOn(env, u, w, t);
      GoodReady(env, w, t);
      assert Silent(env, u, w, t);
      SilentRests(env, u, w, t);
      DueKept(u, w, l, service, t, env.hz);
      SilentTurns(env, w, l, service, alternate, attempts - 1, t);
      SilentTrans(env, u, w, v, t);
      TurnedFurther(s, attempts);
      FirstShownGrows(u.q, w.q, w.tb, v.tb, l, attempts, service, t, env.hz);
    }
  }

  /** One flow more had its turn, and it was the first. */
  lemma FirstShownGrows(q: Sched, r: Sched, tb: UeTb, tc: UeTb, l: nat, n: nat, service: Service, now: nat, hz: nat)
    requires Calmed(tb, tc, now, hz) && SameCeilings(tb, tc, now, hz) && 0 < n && l < |q.lists| && n <= |q.lists[l]|
    requires r.flows == q.flows && r.lists == q.lists[l := q.lists[l][1..] + [q.lists[l][0]]]
    requires q.lists[l][0] < |q.flows| && Shown(tb, q.flows[q.lists[l][0]], service, now, hz)
    requires FirstShown(r, tc, l, n - 1, service, now, hz)
    ensures FirstShown(q, tc, l, n, service, now, hz)
  {
    hide Shown;
    var s := q.lists[l];
    ShownKept(tb, tc, q.flows[s[0]], service, now, hz);
    forall j | 0 <= j < n ensures s[j] < |q.flows| && Shown(tc, q.flows[s[j]], service, now, hz) {
      if j > 0 { assert r.lists[l][j - 1] == s[j]; }
    }
  }

  lemma DueKept(u: Ue, w: Ue, l: nat, service: Service, now: nat, hz: nat)
    requires Ready(u.tb, now, hz) && AllDue(u, l, service, now, hz) && w.q.flows == u.q.flows
    requires Calmed(u.tb, w.tb, now, hz) && SameCeilings(u.tb, w.tb, now, hz)
    requires u.q.lists[l] != [] && w.q.lists == u.q.lists[l := u.q.lists[l][1..] + [u.q.lists[l][0]]]
    ensures Ready(w.tb, now, hz) && AllDue(w, l, service, now, hz)
  {
    hide Shown;
    forall i | i in w.q.lists[l] ensures i < |w.q.flows| && Due(w.tb, w.q.flows[i], service, now, hz) {
      assert i in u.q.lists[l];
      if service == Excess { ShownKept(u.tb, w.tb, u.q.flows[i], Guaranteed, now, hz); }
    }
  }

  /** A whole pass: the queues are as they were, and every flow of the list had its turn. */
  lemma SilentPass(env: Env, u: Ue, l: nat, service: Service, alternate: Service, budget: nat, t: nat)
    requires Resting(env, u, t) && GBR <= l < LISTS && Paired(l, service, alternate) && budget > 0
    requires AllDue(u, l, service, t, env.hz)
    requires
      var r := DrainService(env, u, l, service, alternate, budget);
      r.n == 0 && Drops(r.u.trace, None) == Drops(u.trace, None)
    ensures
      var v := DrainService(env, u, l, service, alternate, budget).u;
      Silent(env, u, v, t) && v.q == u.q && AllShown(u.q, v.tb, l, service, t, env.hz)
  {
    hide DrainOne, Tracked, MeterInv, Restful, Calmed, SameCeilings, Shown, Due, Progress, Drops;
    assert ListOk(u.q, l);
    var s := u.q.lists[l];
    if u.q.counts[l] > 0 {
      SilentTurns(env, u, l, service, alternate, |s|, t);
      assert s[|s|..] + s[..|s|] == s;
      assert u.q.lists[l := s] == u.q.lists;
    } else {
      SilentSelf(env, u, t);
    }
  }

  /** The list that comes j places after l in the round over the three lists. */
  function Turn(l: nat, j: nat): nat
    requires GBR <= l <= DEFAULT
    decreases j
  {
    if j == 0 then l else Turn(NextList(l), j - 1)
  }

  lemma TurnsCover(l: nat, j: nat)
    requires GBR <= l <= DEFAULT && j < 3
    ensures Turn(l, j) == GBR + (l - GBR + j) % 3
  {
    assert Turn(l, 1) == NextList(l);
    assert Turn(l, 2) == Turn(NextList(l), 1) == NextList(NextList(l));
  }

  /** All flows on the GBR list had their guaranteed turn. */
  ghost predicate GbrTested(u: Ue, now: nat, hz: nat)
    requires Ready(u.tb, now, hz)
  {
    AllShown(u.q, u.tb, GBR, Guaranteed, now, hz)
  }

  lemma TestedIsDue(u: Ue, l: nat, now: nat, hz: nat)
    requires Inv(u.q) && Ready(u.tb, now, hz) && GbrTested(u, now, hz) && GBR <= l <= DEFAULT
    ensures AllDue(u, l, ExcessService(l), now, hz)
  {
    hide Shown;
    assert ListOk(u.q, l);
  }

  lemma PairedExcess(l: nat)
    requires GBR <= l <= DEFAULT
    ensures Paired(l, ExcessService(l), ExcessAlternate(l))
  {}

  /** One list of the excess round. */
  lemma SilentStep(env: Env, u: Ue, t: nat) returns (w: Ue)
    requires Resting(env, u, t) && GbrTested(u, t, env.hz)
    requires Drops(ExcessRound(env, u, 1).u.trace, None) == Drops(u.trace, None) && ExcessRound(env, u, 1).n == 0
    ensures w == ExcessRound(env, u, 1).u && Silent(env, u, w, t)
    ensures w.q == u.q.(nextExcess := NextList(u.q.nextExcess))
    ensures AllShown(u.q, w.tb, u.q.nextExcess, ExcessService(u.q.nextExcess), t, env.hz)
  {
    hide DrainService, Tracked, MeterInv, Restful, Calmed, SameCeilings, Shown, Progress, FlowsOk, Drops;
    var l := u.q.nextExcess;
    AdvanceGood(env, u);
    var u1 := Advance(u);
    SilentSelf(env, u, t);
    assert Silent(env, u, u1, t);
    SilentRests(env, u, u1, t);
    assert ListOk(u1.q, l);
    assert ExcessRound(env, u1, 0) == Drained(u1, 0);
    if u1.q.counts[l] == 0 {
      w := u1;
    } else {
      TestedIsDue(u, l, t, env.hz);
      assert AllDue(u1, l, ExcessService(l), t, env.hz);
      PairedExcess(l);
      w := DrainService(env, u1, l, ExcessService(l), ExcessAlternate(l), 1).u;
      SilentPass(env, u1, l, ExcessService(l), ExcessAlternate(l), 1, t);
      SilentTrans(env, u, u1, w, t);
    }
  }

  /** A round is its first list and the rest. */
  lemma RoundSplits(env: Env, u: Ue, tries: nat)
    requires Good(env, u) && tries > 0 && ExcessRound(env, u, tries).n == 0
    ensures ExcessRound(env, u, 1).n == 0 && Good(env, ExcessRound(env, u, 1).u)
    ensures ExcessRound(env, u, tries) == ExcessRound(env, ExcessRound(env, u, 1).u, tries - 1)
    ensures u.trace <= ExcessRound(env, u, 1).u.trace <= ExcessRound(env, u, tries).u.trace
  {
    hide DrainService, Tracked, MeterInv, FlowsOk, SentCount;
    AdvanceGood(env, u);
    var l, u1 := u.q.nextExcess, Advance(u);
    assert ExcessRound(env, u1, 0) == Drained(u1, 0);
    if u1.q.counts[l] != 0 {
      var w := DrainService(env, u1, l, ExcessService(l), ExcessAlternate(l), 1);
      assert ExcessRound(env, w.u, 0) == Drained(w.u, 0);
    }
  }

  lemma {:induction false} SilentRound(env: Env, u: Ue, tries: nat, t: nat)
    requires Resting(env, u, t) && GbrTested(u, t, env.hz) && ExcessRound(env, u, tries).n == 0
    requires Drops(ExcessRound(env, u, tries).u.trace, None) == Drops(u.trace, None)
    ensures
      var v := ExcessRound(env, u, tries).u;
      && Silent(env, u, v, t) && v.q == u.q.(nextExcess := v.q.nextExcess)
      && (forall j :: 0 <= j < tries ==>
            var l := Turn(u.q.nextExcess, j); AllShown(u.q, v.tb, l, ExcessService(l), t, env.hz))
    decreases tries
  {
    hide ExcessRound, Tracked, MeterInv, Restful, Calmed, SameCeilings, Shown, FlowsOk, Drops, Inv;
    if tries == 0 {
      assert ExcessRound(env, u, 0) == Drained(u, 0) by { NoRound(env, u); }
      SilentSelf(env, u, t);
    } else {
      var v := ExcessRound(env, u, tries).u;
      RoundSplits(env, u, tries);
      DropsGrow(u.trace, ExcessRound(env, u, 1).u.trace, None);
      DropsGrow(ExcessRound(env, u, 1).u.trace, v.trace, None);
      var l := u.q.nextExcess;
      assert GBR <= l <= DEFAULT by { NextRange(env, u); }
      var w := SilentStep(env, u, t);
      SilentRests(env, u, w, t);
      AllShownKept(u.q, u.tb, w.tb, GBR, Guaranteed, t, env.hz);
      assert GbrTested(w, t, env.hz);
      SilentRound(env, w, tries - 1, t);
      SilentTrans(env, u, w, v, t);
      forall j | 0 <= j < tries
        ensures var m := Turn(l, j); AllShown(u.q, v.tb, m, ExcessService(m), t, env.hz)
      {
        if j > 0 {
          var m := Turn(w.q.nextExcess, j - 1);
          assert AllShown(w.q, v.tb, m, ExcessService(m), t, env.hz);
        } else {
          AllShownKept(u.q, w.tb, v.tb, l, ExcessService(l), t, env.hz);
        }
      }
    }
  }

  lemma NoRound(env: Env, u: Ue)
    requires Good(env, u)
    ensures ExcessRound(env, u, 0) == Drained(u, 0)
  {}

  lemma NextRange(env: Env, u: Ue)
    requires Good(env, u)
    ensures GBR <= u.q.nextExcess <= DEFAULT
  {}

  // ----- why a drain stopped

  /** A packet could be paid for right now. */
  ghost predicate Payable(tb: UeTb, service: Service, qerId: nat, len: nat, now: nat, hz: nat) {
    hz > 0 && Timely(tb, now) && Consume(tb, service, qerId, len, now, hz).ok
  }

  /** The head of flow i cannot be paid for by this service. */
  ghost predicate HeadStuck(q: Sched, tb: UeTb, i: nat, service: Service, now: nat, hz: nat) {
    i < |q.flows| && q.flows[i].queue != [] &&
    !Payable(tb, service, q.flows[i].qerId, q.flows[i].queue[0].len, now, hz)
  }

  /** No waiting head can be paid for by any service its flow may use. */
  ghost predicate Stuck(u: Ue, now: nat, hz: nat) {
    forall i :: 0 <= i < |u.q.flows| && u.q.flows[i].inUse ==> FlowStuck(u, i, now, hz)
  }

  ghost predicate FlowStuck(u: Ue, i: nat, now: nat, hz: nat)
    requires i < |u.q.flows|
  {
    if u.q.flows[i].hasGbr then
      HeadStuck(u.q, u.tb, i, Guaranteed, now, hz) && HeadStuck(u.q, u.tb, i, Excess, now, hz)
    else HeadStuck(u.q, u.tb, i, SessionAmbr, now, hz)
  }

  /** Why a drain of `budget` packets stopped after n of them in state v. */
  ghost predicate StopsFairly(v: Ue, n: nat, budget: nat, nbTx: nat, now: nat, hz: nat) {
    n == budget || nbTx + n == DRAIN_CHUNK || v.q.queued <= 0 || Stuck(v, now, hz)
  }

  /** Every waiting flow is on one of the lists, and all of those are beyond their ceilings. */
  lemma ShownIsStuck(u: Ue, now: nat, hz: nat)
    requires Inv(u.q) && Ready(u.tb, now, hz)
    requires forall l :: GBR <= l <= DEFAULT ==> AllShown(u.q, u.tb, l, ExcessService(l), now, hz)
    ensures Stuck(u, now, hz)
  {
    hide CeilingOf, Consume, WidestOf;
    forall i | 0 <= i < |u.q.flows| && u.q.flows[i].inUse ensures FlowStuck(u, i, now, hz) {
      var f := u.q.flows[i];
      var l := f.onList;
      assert FlowOk(f) && ListOk(u.q, l);
      assert AllShown(u.q, u.tb, l, ExcessService(l), now, hz) && Over(u.tb, PolicyOf(f), HeadLen(f), now, hz);
      if f.hasGbr {
        BeyondCeiling(u.tb, PolicyOf(f), Guaranteed, HeadLen(f), now, hz);
        BeyondCeiling(u.tb, PolicyOf(f), Excess, HeadLen(f), now, hz);
      } else {
        BeyondCeiling(u.tb, PolicyOf(f), SessionAmbr, HeadLen(f), now, hz);
      }
    }
  }

  lemma SilentExcess(env: Env, u: Ue, budget: nat, t: nat)
    requires Resting(env, u, t) && GbrTested(u, t, env.hz) && budget > 0 && DrainExcess(env, u, budget).n == 0
    requires Drops(DrainExcess(env, u, budget).u.trace, None) == Drops(u.trace, None)
    ensures Stuck(DrainExcess(env, u, budget).u, t, env.hz)
  {
    hide ExcessRound, Tracked, MeterInv, Restful, Calmed, SameCeilings, Shown, Progress, FlowsOk, Stuck, Drops;
    var v := DrainExcess(env, u, budget).u;
    if !AnyActive(u.q) {
      forall l | GBR <= l <= DEFAULT ensures AllShown(u.q, u.tb, l, ExcessService(l), t, env.hz) {
        assert ListOk(u.q, l);
      }
    } else {
      SilentRound(env, u, 3, t);
      forall l | GBR <= l <= DEFAULT ensures AllShown(v.q, v.tb, l, ExcessService(l), t, env.hz) {
        var j := (l - u.q.nextExcess) % 3;
        TurnsCover(u.q.nextExcess, j);
        assert Turn(u.q.nextExcess, j) == l;
      }
    }
    ShownIsStuck(v, t, env.hz);
  }

  /** A turn of the drain loop that sends and drops nothing leaves every head unpayable. */
  lemma SilentDrainRound(env: Env, u: Ue, budget: nat, nbTx: nat, t: nat)
    requires Resting(env, u, t) && 0 < budget && nbTx < DRAIN_CHUNK
    requires
      var r := DrainRound(env, u, budget, nbTx);
      r.n == 0 && Drops(r.u.trace, None) == Drops(u.trace, None)
    ensures Stuck(DrainRound(env, u, budget, nbTx).u, t, env.hz)
  {
    hide DrainExcess, DrainService, Tracked, MeterInv, Restful, Calmed, SameCeilings, Shown, FlowsOk, Stuck, Drops,
      SentCount, SameRates;
    var b := Burst(budget, nbTx);
    var g := DrainGbr(env, u, b).u;
    var v := DrainExcess(env, g, b).u;
    DropsGrow(u.trace, g.trace, None);
    DropsGrow(g.trace, v.trace, None);
    assert ListOk(u.q, GBR);
    SilentPass(env, u, GBR, Guaranteed, Excess, b, t);
    SilentRests(env, u, g, t);
    SilentExcess(env, g, b, t);
  }

  /** Every turn, whatever it does, leaves the buckets it looked at settled. */
  lemma TurnCalms(env: Env, u: Ue, l: nat, service: Service, alternate: Service, t: nat)
    requires Good(env, u) && Frozen(env, u, t) && GBR <= l < LISTS && u.q.lists[l] != []
    ensures Calmed(u.tb, Try(env, u, l, service, alternate).u.tb, t, env.hz)
  {
    hide Tracked, MeterInv, ListsOk, FlowsOk, Calmed, Consume, Pop, Activate, Deactivate;
    GoodReady(env, u, t);
    HeadFlow(u.q, l);
    var f := u.q.flows[u.q.lists[l][0]];
    SameCeilingsSelf(u.tb, t, env.hz);
    ConsumeCalms(u.tb, service, f.qerId, f.queue[0].len, t, env.hz);
  }

  lemma {:induction false} ActsRest(env: Env, u: Ue, acts: seq<Act>, v: Ue, t: nat)
    requires Resting(env, u, t) && Acts(env, u, acts, v)
    ensures Resting(env, v, t)
    decreases |acts|
  {
    hide Good, Restful, Try, Calmed;
    if acts != [] {
      var a := acts[0];
      var w := Perform(env, u, a);
      if a.TurnOf? {
        TryProgress(env, u, a.l, a.service, a.alternate);
        TurnCalms(env, u, a.l, a.service, a.alternate, t);
        RestfulKept(u.tb, w.tb, t, env.hz);
      }
      GoodReady(env, w, t);
      ActsRest(env, w, acts[1..], v, t);
    }
  }

  /** The drain stopped fairly, or it dropped a packet on the way. */
  ghost predicate StopsFairlyOrDrops(u: Ue, v: Ue, n: nat, budget: nat, nbTx: nat, now: nat, hz: nat) {
    StopsFairly(v, n, budget, nbTx, now, hz) || Drops(u.trace, None) < Drops(v.trace, None)
  }

  lemma {:induction false} DrainLoopStops(env: Env, u: Ue, budget: nat, nbTx: nat, t: nat)
    requires Resting(env, u, t) && nbTx <= DRAIN_CHUNK
    ensures var r := DrainLoop(env, u, budget, nbTx); StopsFairlyOrDrops(u, r.u, r.n, budget, nbTx, t, env.hz)
    decreases budget
  {
    hide Good, Restful, DrainRound, Stuck, Acts, Drops, SentCount, SameRates;
    if budget != 0 && nbTx != DRAIN_CHUNK && u.q.queued > 0 {
      var r := DrainRound(env, u, budget, nbTx);
      DropsGrow(u.trace, r.u.trace, None);
      if r.n == 0 {
        if Drops(r.u.trace, None) == Drops(u.trace, None) { SilentDrainRound(env, u, budget, nbTx, t); }
      } else {
        var acts := DrainRoundActs(env, u, budget, nbTx);
        ActsRest(env, u, acts, r.u, t);
        DrainLoopStops(env, r.u, budget - r.n, nbTx + r.n, t);
      }
    }
  }

  /** In a restful state, whatever waits, a drain stops only when the budget is spent, the
      transmit buffer is full, nothing waits, no waiting head can be paid for by any bucket its
      flow may use, or it dropped a packet. */
  lemma DrainStopsOrDrops(env: Env, u: Ue, budget: nat, t: nat)
    requires Good(env, u) && Frozen(env, u, t) && Restful(u.tb, t, env.hz)
    ensures var r := DrainUe(env, u, budget); StopsFairlyOrDrops(u, r.u, r.n, budget, 0, t, env.hz)
  {
    hide DrainLoop, Restful;
    GoodReady(env, u, t);
    DrainLoopStops(env, u, budget, 0, t);
  }

  // ----- drains that drop nothing

  /** What a drain of v at time t promises. */
  ghost predicate Conserves(env: Env, v: Ue, budget: nat, t: nat)
    requires Good(env, v)
  {
    var r := DrainUe(env, v, budget);
    StopsFairly(r.u, r.n, budget, 0, t, env.hz)
  }

  /** Work conservation: in a restful state, as long as every waiting packet fits the widest
      bucket its policy allows, a drain stops only when the budget is spent, the transmit buffer
      is full, nothing waits, or no waiting head can be paid for by any bucket its flow may use. */
  lemma DrainIsWorkConserving(env: Env, u: Ue, budget: nat, t: nat)
    requires Good(env, u) && Frozen(env, u, t) && Restful(u.tb, t, env.hz) && AllFit(u)
    ensures Conserves(env, u, budget, t)
  {
    hide DrainUe, Restful, AllFit, Good, StopsFairly;
    DrainStopsOrDrops(env, u, budget, t);
    DrainDropsNothing(env, u, budget);
  }
}
