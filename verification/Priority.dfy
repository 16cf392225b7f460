/** Guaranteed traffic goes first (5gc/upf_u/upf_u.c:770-939): a drain is a sequence of rounds, in
    each of which up to sixteen packets leave as guaranteed traffic before any other packet does,
    unless no flow with guaranteed bit rate has a head that can be paid as guaranteed; and the
    rest takes turns between the three lists. */
module Priority {
  import opened Common
  import opened Sched
  import opened TokenBucket
  import opened Rates
  import opened History
  import opened Shaper
  import opened Turns

  function Least(a: int, b: int): int { if a < b then a else b }

  /** Packets that a class may send in a row. */
  function Cap(budget: nat, nbTx: nat): int { Least(Least(budget, 16), 128 - nbTx) }

  // ----- which service sent a packet

  /** Between two states, packets left by these services only. */
  ghost predicate SentAs(u: Ue, v: Ue, guaranteed: bool) {
    && u.trace <= v.trace && u.ticks <= v.ticks
    && (forall c :: |u.trace| <= c < |v.trace| && v.trace[c].Sent? ==>
          (v.trace[c].service == Guaranteed <==> guaranteed))
  }

  lemma SentAsTrans(u: Ue, v: Ue, w: Ue, guaranteed: bool)
    requires SentAs(u, v, guaranteed) && SentAs(v, w, guaranteed)
    ensures SentAs(u, w, guaranteed)
  {
    forall c | |u.trace| <= c < |w.trace| && w.trace[c].Sent? ensures w.trace[c].service == Guaranteed <==> guaranteed {
      if c < |v.trace| { assert w.trace[c] == v.trace[c]; }
    }
  }

  lemma TrySentAs(env: Env, u: Ue, l: nat, service: Service, alternate: Service)
    requires Good(env, u) && GBR <= l < LISTS && u.q.lists[l] != []
    ensures SentAs(u, Try(env, u, l, service, alternate).u, service == Guaranteed)
  {
    hide Tracked, MeterInv, Consume, Fits, ListsOk, FlowsOk, Pop, Activate, Deactivate;
    HeadFlow(u.q, l);
    var f := u.q.flows[u.q.lists[l][0]];
    PayGood(env, u, service, f.qerId, f.key, f.queue[0], PolicyOf(f), false);
  }

  lemma {:induction false} DrainOneSentAs(env: Env, u: Ue, l: nat, service: Service, alternate: Service, attempts: nat)
    requires Good(env, u) && GBR <= l < LISTS
    ensures SentAs(u, DrainOne(env, u, l, service, alternate, attempts).u, service == Guaranteed)
    decreases attempts
  {
    hide Try, Tracked, MeterInv, Progress, SentAs;
    SentAsSelf(u, service == Guaranteed);
    if attempts != 0 && u.q.lists[l] != [] {
      TryGood(env, u, l, service, alternate);
      TrySentAs(env, u, l, service, alternate);
      var t := Try(env, u, l, service, alternate);
      if t.n != 1 {
        DrainOneSentAs(env, t.u, l, service, alternate, attempts - 1);
        SentAsTrans(u, t.u, DrainOne(env, t.u, l, service, alternate, attempts - 1).u, service == Guaranteed);
      }
    }
  }

  lemma SentAsSelf(u: Ue, guaranteed: bool)
    ensures SentAs(u, u, guaranteed)
  {}

  lemma {:induction false} DrainServiceSentAs(env: Env, u: Ue, l: nat, service: Service, alternate: Service,
                                              budget: nat)
    requires Good(env, u) && GBR <= l < LISTS
    ensures SentAs(u, DrainService(env, u, l, service, alternate, budget).u, service == Guaranteed)
    decreases budget
  {
    hide DrainOne, Tracked, MeterInv, Progress, SentAs;
    SentAsSelf(u, service == Guaranteed);
    if budget != 0 && u.q.counts[l] > 0 {
      DrainOneSentAs(env, u, l, service, alternate, u.q.counts[l]);
      var t := DrainOne(env, u, l, service, alternate, u.q.counts[l]);
      if t.n != 0 {
        DrainServiceSentAs(env, t.u, l, service, alternate, budget - 1);
        SentAsTrans(u, t.u, DrainService(env, t.u, l, service, alternate, budget - 1).u, service == Guaranteed);
      }
    }
  }

  lemma {:induction false} ExcessRoundSentAs(env: Env, u: Ue, tries: nat)
    requires Good(env, u)
    ensures SentAs(u, ExcessRound(env, u, tries).u, false)
    decreases tries
  {
    hide DrainService, Tracked, MeterInv, Progress, SentAs;
    SentAsSelf(u, false);
    if tries != 0 {
      var l := u.q.nextExcess;
      AdvanceGood(env, u);
      var u1 := Advance(u);
      SameHistory(u, u1);
      if u1.q.counts[l] == 0 {
        ExcessRoundSentAs(env, u1, tries - 1);
        SentAsTrans(u, u1, ExcessRound(env, u1, tries - 1).u, false);
      } else {
        DrainServiceSentAs(env, u1, l, ExcessService(l), ExcessAlternate(l), 1);
        var t := DrainService(env, u1, l, ExcessService(l), ExcessAlternate(l), 1);
        SentAsTrans(u, u1, t.u, false);
        if t.n == 0 {
          ExcessRoundSentAs(env, t.u, tries - 1);
          SentAsTrans(u, t.u, ExcessRound(env, t.u, tries - 1).u, false);
        }
      }
    }
  }

  lemma SameHistory(u: Ue, v: Ue)
    requires v.trace == u.trace && v.ticks == u.ticks
    ensures SentAs(u, v, false)
  {}

  lemma {:induction false} DrainExcessSentAs(env: Env, u: Ue, budget: nat)
    requires Good(env, u)
    ensures SentAs(u, DrainExcess(env, u, budget).u, false)
    decreases budget
  {
    hide ExcessRound, Tracked, MeterInv, Progress, SentAs;
    SentAsSelf(u, false);
    if budget != 0 && AnyActive(u.q) {
      ExcessRoundSentAs(env, u, 3);
      var t := ExcessRound(env, u, 3);
      if t.n != 0 {
        DrainExcessSentAs(env, t.u, budget - 1);
        SentAsTrans(u, t.u, DrainExcess(env, t.u, budget - 1).u, false);
      }
    }
  }

  // ----- when guaranteed service gives way

  /** The UE after n turns of guaranteed service. */
  ghost function Turned(env: Env, u: Ue, n: nat): (v: Ue)
    requires Good(env, u)
    ensures Good(env, v) && u.trace <= v.trace && u.ticks <= v.ticks
    decreases n
  {
    if n == 0 || u.q.lists[GBR] == [] then u
    else
      TryGood(env, u, GBR, Guaranteed, Excess);
      TryProgress(env, u, GBR, Guaranteed, Excess);
      Turned(env, Try(env, u, GBR, Guaranteed, Excess).u, n - 1)
  }

  lemma {:induction false} TurnedOn(env: Env, u: Ue, m: nat, n: nat)
    requires Good(env, u)
    ensures Turned(env, Turned(env, u, m), n) == Turned(env, u, m + n)
    decreases m
  {
    hide Try, Tracked, MeterInv, FlowsOk, ListsOk;
    if m > 0 && u.q.lists[GBR] != [] {
      TryGood(env, u, GBR, Guaranteed, Excess);
      TurnedOn(env, Try(env, u, GBR, Guaranteed, Excess).u, m - 1, n);
    } else if u.q.lists[GBR] == [] {
      StuckThere(env, u, n);
    }
  }

  lemma StuckThere(env: Env, u: Ue, n: nat)
    requires Good(env, u) && u.q.lists[GBR] == []
    ensures Turned(env, u, n) == u
  {}

  /** At y it is the turn of flow i, which has the packets and the policy it has at v; and its head
      does not fit its guaranteed buckets or they do not pay for it. */
  ghost predicate Refused(env: Env, y: Ue, v: Ue, i: nat) {
    && Good(env, y) && |y.q.lists[GBR]| > 0 && y.q.lists[GBR][0] == i < MAX_FLOWS && |v.q.flows| == MAX_FLOWS
    && y.q.flows[i] == v.q.flows[i] && v.q.flows[i].queue != []
    && var f := y.q.flows[i];
       !Fits(y.tb, Guaranteed, f.qerId, f.queue[0].len)
       || !Consume(y.tb, Guaranteed, f.qerId, f.queue[0].len, Now(env, y), env.hz).ok
  }

  /** Between turns m and n, flow i had its turn and its head was refused, or it lost a packet that
      no longer fits. */
  ghost predicate InVain(env: Env, u: Ue, m: nat, n: nat, i: nat)
    requires Good(env, u)
  {
    var x, v := Turned(env, u, m), Turned(env, u, n);
    i < |v.q.flows| &&
    (|| (exists k: nat :: m <= k < n && Refused(env, Turned(env, u, k), v, i))
     || Drops(x.trace, Some(v.q.flows[i].key)) < Drops(v.trace, Some(v.q.flows[i].key)))
  }

  /** From turn m to turn n nothing was sent, and every flow with guaranteed bit rate that still
      waits then had its turn in vain. */
  ghost predicate Exhausted(env: Env, u: Ue, m: nat, n: nat)
    requires Good(env, u)
  {
    var x, v := Turned(env, u, m), Turned(env, u, n);
    && m <= n && SentCount(v.trace) == SentCount(x.trace) && |v.q.lists| == LISTS
    && (forall i :: i in v.q.lists[GBR] ==> InVain(env, u, m, n, i))
  }

  /** Counting turns from an earlier state. */
  lemma InVainLater(env: Env, u: Ue, j: nat, m: nat, n: nat, i: nat)
    requires Good(env, u) && InVain(env, Turned(env, u, j), m, n, i)
    ensures InVain(env, u, j + m, j + n, i)
  {
    hide Turned, Refused, Good;
    TurnedOn(env, u, j, m);
    TurnedOn(env, u, j, n);
    var w := Turned(env, u, j);
    if k: nat :| m <= k < n && Refused(env, Turned(env, w, k), Turned(env, w, n), i) {
      TurnedOn(env, u, j, k);
      assert j + m <= j + k < j + n;
    }
  }

  lemma InVainEarlier(env: Env, u: Ue, m: nat, n: nat, i: nat)
    requires Good(env, u) && InVain(env, u, m, n, i)
    ensures InVain(env, u, 0, n, i)
  {
    hide Turned, Refused, Good;
    var v, x := Turned(env, u, n), Turned(env, u, m);
    TurnedOn(env, u, 0, m);
    DropsGrow(Turned(env, u, 0).trace, x.trace, Some(v.q.flows[i].key)) by { None0(env, u); }
  }

  lemma None0(env: Env, u: Ue)
    requires Good(env, u)
    ensures Turned(env, u, 0) == u
  {}

  /** The first flow of the list had its turn in vain, if its turn sent nothing. */
  lemma TurnInVain(env: Env, u: Ue, n: nat)
    requires Good(env, u) && u.q.lists[GBR] != [] && Try(env, u, GBR, Guaranteed, Excess).n == 0 && n > 0
    requires
      var w, v, i := Try(env, u, GBR, Guaranteed, Excess).u, Turned(env, u, n), u.q.lists[GBR][0];
      && w.trace <= v.trace && i < MAX_FLOWS && |w.q.flows| == MAX_FLOWS && |v.q.flows| == MAX_FLOWS
      && v.q.flows[i] == w.q.flows[i] && v.q.flows[i].inUse
    ensures InVain(env, u, 0, n, u.q.lists[GBR][0])
  {
    hide Tracked, MeterInv, Consume, ListsOk, FlowsOk, Pop, Activate, Deactivate, Drops, Fits, Turned;
    var i := u.q.lists[GBR][0];
    var f, w, v := u.q.flows[i], Try(env, u, GBR, Guaranteed, Excess).u, Turned(env, u, n);
    None0(env, u);
    HeadFlow(u.q, GBR);
    ServeOk(u.q, GBR);
    RotateOk(u.q, GBR);
    TryDropsIff(env, u, GBR, Guaranteed, Excess, Some(f.key));
    if w.q.flows == u.q.flows {
      assert Refused(env, Turned(env, u, 0), v, i);
    } else {
      DropsGrow(w.trace, v.trace, Some(f.key));
    }
  }

  lemma TurnedFirst(env: Env, u: Ue, n: nat)
    requires Good(env, u) && n > 0 && u.q.lists[GBR] != [] && Good(env, Try(env, u, GBR, Guaranteed, Excess).u)
    ensures Turned(env, u, n) == Turned(env, Try(env, u, GBR, Guaranteed, Excess).u, n - 1)
    ensures Turned(env, u, 1) == Try(env, u, GBR, Guaranteed, Excess).u
  {
    hide Try, Tracked, MeterInv, FlowsOk, ListsOk;
    None0(env, Try(env, u, GBR, Guaranteed, Excess).u);
  }

  /** A pass that sends nothing is so many turns. */
  lemma {:induction false} PassIsTurns(env: Env, u: Ue, attempts: nat)
    requires Good(env, u) && DrainOne(env, u, GBR, Guaranteed, Excess, attempts).n == 0
    ensures DrainOne(env, u, GBR, Guaranteed, Excess, attempts).u == Turned(env, u, attempts)
    decreases attempts
  {
    hide Try, Tracked, MeterInv, FlowsOk, ListsOk, Progress;
    if attempts != 0 && u.q.lists[GBR] != [] {
      TryGood(env, u, GBR, Guaranteed, Excess);
      PassIsTurns(env, Try(env, u, GBR, Guaranteed, Excess).u, attempts - 1);
    }
  }

  /** So is one that sends a packet. */
  lemma {:induction false} SendIsTurns(env: Env, u: Ue, attempts: nat) returns (n: nat)
    requires Good(env, u)
    ensures DrainOne(env, u, GBR, Guaranteed, Excess, attempts).u == Turned(env, u, n)
    decreases attempts
  {
    hide Try, Tracked, MeterInv, FlowsOk, ListsOk, Progress;
    n := 0;
    if attempts != 0 && u.q.lists[GBR] != [] {
      TryGood(env, u, GBR, Guaranteed, Excess);
      var t := Try(env, u, GBR, Guaranteed, Excess);
      if t.n == 1 {
        n := 1;
        None0(env, t.u);
      } else {
        var k := SendIsTurns(env, t.u, attempts - 1);
        n := k + 1;
      }
    }
  }

  /** A pass of `attempts` turns that sends nothing tries the flows it turns to. */
  lemma {:induction false} PassInVain(env: Env, u: Ue, attempts: nat, i: nat)
    requires Good(env, u) && attempts <= |u.q.lists[GBR]| && i in u.q.lists[GBR][..attempts]
    requires DrainOne(env, u, GBR, Guaranteed, Excess, attempts).n == 0
    requires var v := Turned(env, u, attempts); i < MAX_FLOWS && |v.q.flows| == MAX_FLOWS && v.q.flows[i].inUse
    ensures InVain(env, u, 0, attempts, i)
    decreases attempts
  {
    hide Try, Tracked, MeterInv, FlowsOk, KeysUnique, InVain, SentCount, SameRates, Turned, Kept, Timely;
    var s := u.q.lists[GBR];
    assert ListOk(u.q, GBR);
    PassIsTurns(env, u, attempts);
    TryGood(env, u, GBR, Guaranteed, Excess);
    TryProgress(env, u, GBR, Guaranteed, Excess);
    TryFlows(env, u, GBR, Guaranteed, Excess);
    TryLists(env, u, GBR, Guaranteed, Excess);
    TurnedFirst(env, u, attempts);
    var w := Try(env, u, GBR, Guaranteed, Excess).u;
    var k := if w.q.flows[s[0]].inUse then [s[0]] else [];
    SplitTurn(s, k, attempts);
    DrainOneOrder(env, w, GBR, Guaranteed, Excess, attempts - 1);
    if i == s[0] {
      assert i !in s[1..attempts];
      TurnInVain(env, u, attempts);
    } else {
      assert i in s[1..attempts];
      PassInVain(env, w, attempts - 1, i);
      InVainLater(env, u, 1, 0, attempts - 1, i);
      InVainEarlier(env, u, 1, attempts, i);
    }
  }

  /** A failed search for a packet to send has tried every flow that still waits. */
  lemma FailedPassExhausts(env: Env, u: Ue)
    requires Good(env, u) && DrainOne(env, u, GBR, Guaranteed, Excess, |u.q.lists[GBR]|).n == 0
    ensures Exhausted(env, u, 0, |u.q.lists[GBR]|)
  {
    hide DrainOne, Tracked, MeterInv, KeysUnique, InVain, SameRates, ListsOk, FlowsOk, SentCount, Timely, Turned;
    var n := |u.q.lists[GBR]|;
    PassIsTurns(env, u, n);
    None0(env, u);
    var v := DrainOne(env, u, GBR, Guaranteed, Excess, n).u;
    forall i | i in v.q.lists[GBR] ensures InVain(env, u, 0, n, i) {
      EachInVain(env, u, v, i);
    }
  }

  lemma EachInVain(env: Env, u: Ue, v: Ue, i: nat)
    requires Good(env, u) && DrainOne(env, u, GBR, Guaranteed, Excess, |u.q.lists[GBR]|) == Drained(v, 0)
    requires Good(env, v) && i in v.q.lists[GBR]
    ensures InVain(env, u, 0, |u.q.lists[GBR]|, i)
  {
    hide DrainOne, Tracked, MeterInv, KeysUnique, InVain, ListsOk, FlowsOk, Kept, Turned;
    var s := u.q.lists[GBR];
    WhatRemains(env, u, v);
    KeptIn(s, v.q.flows, i);
    StillUsed(v.q, i);
    Whole(s);
    PassIsTurns(env, u, |s|);
    PassInVain(env, u, |s|, i);
  }

  lemma Whole(s: seq<nat>)
    ensures s[..|s|] == s && s[|s|..] == []
  {}

  lemma WhatRemains(env: Env, u: Ue, v: Ue)
    requires Good(env, u) && DrainOne(env, u, GBR, Guaranteed, Excess, |u.q.lists[GBR]|) == Drained(v, 0)
    ensures |v.q.lists| == LISTS && v.q.lists[GBR] == Kept(u.q.lists[GBR], v.q.flows)
  {
    hide Tracked, MeterInv, KeysUnique, FlowsOk, Kept, Try, Progress;
    assert ListOk(u.q, GBR);
    assert DrainService(env, u, GBR, Guaranteed, Excess, 1) == Drained(v, 0);
    FailedPassKeepsOrder(env, u, GBR, Guaranteed, Excess, 1);
  }

  lemma StillUsed(q: Sched, i: nat)
    requires Inv(q) && i in q.lists[GBR]
    ensures i < MAX_FLOWS && q.flows[i].inUse
  {
    assert ListOk(q, GBR) && FlowOk(q.flows[i]);
  }

  lemma {:induction false} KeptIn(s: seq<nat>, flows: seq<Flow>, i: nat)
    requires i in Kept(s, flows)
    ensures i in s
  {
    if s != [] && i in Kept(s[1..], flows) { KeptIn(s[1..], flows, i); }
  }

  /** After n turns of guaranteed service from u, the last of which, from some turn on, sent
      nothing although every flow that still waits had one. */
  ghost predicate GivesWay(env: Env, u: Ue, n: nat)
    requires Good(env, u)
  {
    exists m: nat :: Exhausted(env, u, m, n)
  }

  lemma ExhaustedLater(env: Env, u: Ue, j: nat, m: nat, n: nat)
    requires Good(env, u) && Exhausted(env, Turned(env, u, j), m, n)
    ensures Exhausted(env, u, j + m, j + n)
  {
    hide Turned, InVain, Good;
    TurnedOn(env, u, j, m);
    TurnedOn(env, u, j, n);
    var v := Turned(env, u, j + n);
    forall i | i in v.q.lists[GBR] ensures InVain(env, u, j + m, j + n, i) {
      InVainLater(env, u, j, m, n, i);
    }
  }

  /** The guaranteed pass of a round sends as many packets as it may, or gives way. */
  lemma {:induction false} GuaranteedFirst(env: Env, u: Ue, budget: nat) returns (n: nat)
    requires Good(env, u)
    ensures var g := DrainGbr(env, u, budget); g.u == Turned(env, u, n) && (g.n == budget || GivesWay(env, u, n))
    decreases budget
  {
    hide DrainOne, Tracked, MeterInv, FlowsOk, KeysUnique, Exhausted, Progress, Turned;
    assert ListOk(u.q, GBR);
    None0(env, u);
    n := 0;
    if budget != 0 {
      if u.q.counts[GBR] <= 0 {
        NoneWait(env, u);
      } else {
        var k := u.q.counts[GBR];
        var t := DrainOne(env, u, GBR, Guaranteed, Excess, k);
        if t.n == 0 {
          FailedPassExhausts(env, u);
          PassIsTurns(env, u, k);
          n := k;
        } else {
          var j := SendIsTurns(env, u, k);
          var rest := GuaranteedFirst(env, t.u, budget - 1);
          TurnedOn(env, u, j, rest);
          n := j + rest;
          if m: nat :| Exhausted(env, t.u, m, rest) { ExhaustedLater(env, u, j, m, rest); }
        }
      }
    }
  }

  lemma NoneWait(env: Env, u: Ue)
    requires Good(env, u) && u.q.lists[GBR] == []
    ensures Exhausted(env, u, 0, 0)
  {}

  /** The UE after k rounds of excess service over the three lists. */
  ghost function Rested(env: Env, u: Ue, k: nat): (v: Ue)
    requires Good(env, u)
    ensures Good(env, v)
    decreases k
  {
    if k == 0 then u else Rested(env, ExcessRound(env, u, 3).u, k - 1)
  }

  /** The rest ends at v when nothing waits, or when no list has anything to send. */
  ghost predicate RestEnds(env: Env, u: Ue, k: nat, v: Ue)
    requires Good(env, u)
  {
    var x := Rested(env, u, k);
    (v == x && !AnyActive(x.q)) || ExcessRound(env, x, 3) == Drained(v, 0)
  }

  ghost predicate RestDone(env: Env, u: Ue, v: Ue)
    requires Good(env, u)
  {
    exists k: nat :: RestEnds(env, u, k, v)
  }

  lemma {:induction false} RestGoesOn(env: Env, u: Ue, budget: nat)
    requires Good(env, u)
    ensures var x := DrainExcess(env, u, budget); x.n == budget || RestDone(env, u, x.u)
    decreases budget
  {
    hide ExcessRound, Tracked, MeterInv, ListsOk, FlowsOk, Progress;
    if budget != 0 {
      assert Rested(env, u, 0) == u;
      if !AnyActive(u.q) {
        assert RestEnds(env, u, 0, u);
      } else {
        var t := ExcessRound(env, u, 3);
        if t.n == 0 {
          assert RestEnds(env, u, 0, t.u);
        } else {
          RestGoesOn(env, t.u, budget - 1);
          var v := DrainExcess(env, t.u, budget - 1).u;
          if k: nat :| RestEnds(env, t.u, k, v) { assert RestEnds(env, u, k + 1, v); }
        }
      }
    }
  }

  // ----- rounds

  /** A round of a drain: after `turns` turns of guaranteed service it is at `mid`, where the rest
      begins. */
  datatype Round = Round(start: Ue, turns: nat, mid: Ue, end: Ue)

  /** So many packets were sent. */
  function Count(u: Ue, v: Ue): int { SentCount(v.trace) - SentCount(u.trace) }

  /** In a round with so much budget left and so many packets in the buffer, first guaranteed
      packets leave, as many as may leave in a row unless guaranteed service gives way, and then
      only others, again as many as may leave in a row unless there is nothing left to send. */
  ghost predicate RoundOk(env: Env, r: Round, budget: nat, nbTx: nat) {
    && Good(env, r.start) && Good(env, r.mid) && Good(env, r.end)
    && r.mid == Turned(env, r.start, r.turns) && SentAs(r.start, r.mid, true) && SentAs(r.mid, r.end, false)
    && 0 <= Count(r.start, r.mid) <= Cap(budget, nbTx)
    && (Count(r.start, r.mid) == Cap(budget, nbTx) || GivesWay(env, r.start, r.turns))
    && var g := Count(r.start, r.mid);
       && 0 <= Count(r.mid, r.end) <= Cap(budget - g, nbTx + g)
       && (Count(r.mid, r.end) == Cap(budget - g, nbTx + g) || RestDone(env, r.mid, r.end))
  }

  ghost predicate Rounds(env: Env, u: Ue, rounds: seq<Round>, v: Ue, budget: nat, nbTx: nat)
    decreases |rounds|
  {
    if rounds == [] then u == v
    else
      var r := rounds[0];
      var n := Count(r.start, r.end);
      && r.start == u && nbTx <= 128 && RoundOk(env, r, budget, nbTx) && 0 <= n <= budget
      && Rounds(env, r.end, rounds[1..], v, budget - n, nbTx + n)
  }

  lemma DrainRoundOk(env: Env, u: Ue, budget: nat, nbTx: nat) returns (r: Round)
    requires Good(env, u) && 0 < budget && nbTx < DRAIN_CHUNK
    ensures r.start == u && r.end == DrainRound(env, u, budget, nbTx).u && RoundOk(env, r, budget, nbTx)
    ensures Count(u, r.end) == DrainRound(env, u, budget, nbTx).n
  {
    hide DrainExcess, DrainService, Good, SentAs, GivesWay, SameRates, SentCount, Turned, RestDone;
    var b := Burst(budget, nbTx);
    var g := DrainGbr(env, u, b);
    var n := GuaranteedFirst(env, u, b);
    DrainServiceSentAs(env, u, GBR, Guaranteed, Excess, b);
    if g.n == budget || nbTx + g.n == DRAIN_CHUNK {
      SentAsSelf(g.u, false);
      r := Round(u, n, g.u, g.u);
    } else {
      var b2 := Burst(budget - g.n, nbTx + g.n);
      DrainExcessSentAs(env, g.u, b2);
      RestGoesOn(env, g.u, b2);
      r := Round(u, n, g.u, DrainExcess(env, g.u, b2).u);
    }
  }

  lemma {:induction false} LoopRounds(env: Env, u: Ue, budget: nat, nbTx: nat) returns (rounds: seq<Round>)
    requires Good(env, u) && nbTx <= DRAIN_CHUNK
    ensures Rounds(env, u, rounds, DrainLoop(env, u, budget, nbTx).u, budget, nbTx)
    decreases budget
  {
    hide DrainRound, Good, RoundOk, SameRates, SentCount;
    rounds := [];
    if budget != 0 && nbTx != DRAIN_CHUNK && u.q.queued > 0 {
      var t := DrainRound(env, u, budget, nbTx);
      var r := DrainRoundOk(env, u, budget, nbTx);
      rounds := [r];
      if t.n != 0 {
        var rest := LoopRounds(env, t.u, budget - t.n, nbTx + t.n);
        rounds := [r] + rest;
      }
    }
  }

  /** Every drain is a sequence of such rounds. */
  lemma DrainRounds(env: Env, u: Ue, budget: nat) returns (rounds: seq<Round>)
    requires Good(env, u)
    ensures Rounds(env, u, rounds, DrainUe(env, u, budget).u, budget, 0)
  {
    hide DrainLoop, Good, Rounds;
    rounds := LoopRounds(env, u, budget, 0);
  }

  /** The round of a packet. */
  lemma {:induction false} RoundOfPacket(env: Env, u: Ue, rounds: seq<Round>, v: Ue, budget: nat, nbTx: nat, c: nat)
    returns (r: Round)
    requires Rounds(env, u, rounds, v, budget, nbTx) && |u.trace| <= c < |v.trace| && v.trace[c].Sent?
    requires v.trace[c].service != Guaranteed
    ensures |r.mid.trace| <= c < |r.end.trace| && u.trace <= r.start.trace && r.end.trace <= v.trace
    ensures
      var n := Count(u, r.start);
      0 <= n <= budget && RoundOk(env, r, budget - n, nbTx + n)
    decreases |rounds|
  {
    hide Good, GivesWay, SentCount, Cap, Turned, RestDone;
    RoundsGrow(env, u, rounds, v, budget, nbTx);
    r := rounds[0];
    RoundsGrow(env, r.end, rounds[1..], v, budget - Count(r.start, r.end), nbTx + Count(r.start, r.end));
    if c < |r.end.trace| {
      assert v.trace[c] == r.end.trace[c];
    } else {
      r := RoundOfPacket(env, rounds[0].end, rounds[1..], v, budget - Count(rounds[0].start, rounds[0].end),
                         nbTx + Count(rounds[0].start, rounds[0].end), c);
    }
  }

  lemma {:induction false} RoundsGrow(env: Env, u: Ue, rounds: seq<Round>, v: Ue, budget: nat, nbTx: nat)
    requires Rounds(env, u, rounds, v, budget, nbTx)
    ensures u.trace <= v.trace
    decreases |rounds|
  {
    hide Good, GivesWay, SentCount, Cap, Turned, RestDone;
    if rounds != [] {
      var r := rounds[0];
      RoundsGrow(env, r.end, rounds[1..], v, budget - Count(r.start, r.end), nbTx + Count(r.start, r.end));
    }
  }

  /** When a packet leaves by excess or Session-AMBR service, then just before, in its round,
      either as many guaranteed packets had left in a row as the budget, the burst and the buffer
      allow, or every flow with guaranteed bit rate that still waits had been tried in vain since
      the last one left. */
  lemma OthersWait(env: Env, u: Ue, budget: nat, c: nat) returns (r: Round)
    requires Good(env, u)
    requires
      var v := DrainUe(env, u, budget).u;
      |u.trace| <= c < |v.trace| && v.trace[c].Sent? && v.trace[c].service != Guaranteed
    ensures
      var v, n := DrainUe(env, u, budget).u, Count(u, r.start);
      && u.trace <= r.start.trace && r.end.trace <= v.trace && |r.mid.trace| <= c < |r.end.trace|
      && Good(env, r.start) && r.mid == Turned(env, r.start, r.turns) && 0 <= n <= budget
      && SentAs(r.start, r.mid, true) && SentAs(r.mid, r.end, false)
      && (Count(r.start, r.mid) == Cap(budget - n, n) || GivesWay(env, r.start, r.turns))
  {
    hide Good, GivesWay, SentCount, Cap, DrainUe, Rounds, Turned, RestDone;
    var rounds := DrainRounds(env, u, budget);
    r := RoundOfPacket(env, u, rounds, DrainUe(env, u, budget).u, budget, 0, c);
  }

  // ----- the rest takes turns

  /** The last thing that happened is that the head of flow i, as it is at u, was sent. */
  ghost predicate SentHead(u: Ue, v: Ue, i: nat, service: Service) {
    && i < |u.q.flows| && u.q.flows[i].queue != [] && v.trace != []
    && var ev, f := v.trace[|v.trace| - 1], u.q.flows[i];
       ev.Sent? && ev.key == f.key && ev.e == f.queue[0] && ev.service == service && ev.policy == PolicyOf(f)
  }

  lemma TrySends(env: Env, u: Ue, l: nat, service: Service, alternate: Service)
    requires Good(env, u) && GBR <= l < LISTS && u.q.lists[l] != []
    ensures
      var r := Try(env, u, l, service, alternate);
      r.u.q.nextExcess == u.q.nextExcess && (r.n == 1 ==> SentHead(u, r.u, u.q.lists[l][0], service))
  {
    hide Tracked, MeterInv, Consume, Fits, ListsOk, FlowsOk;
    HeadFlow(u.q, l);
  }

  lemma {:induction false} DrainOneSends(env: Env, u: Ue, l: nat, service: Service, alternate: Service, attempts: nat)
    returns (i: nat)
    requires Good(env, u) && GBR <= l < LISTS && attempts <= |u.q.lists[l]|
    ensures
      var r := DrainOne(env, u, l, service, alternate, attempts);
      && r.u.q.nextExcess == u.q.nextExcess
      && (r.n == 1 ==> i in u.q.lists[l][..attempts] && SentHead(u, r.u, i, service))
    decreases attempts
  {
    hide Try, Tracked, MeterInv, FlowsOk, KeysUnique, Progress;
    i := 0;
    if attempts != 0 {
      var s := u.q.lists[l];
      assert ListOk(u.q, l);
      TryGood(env, u, l, service, alternate);
      TrySends(env, u, l, service, alternate);
      TryFlows(env, u, l, service, alternate);
      i := s[0];
      var t := Try(env, u, l, service, alternate);
      if t.n != 1 {
        TryLists(env, u, l, service, alternate);
        var k := if t.u.q.flows[s[0]].inUse then [s[0]] else [];
        SplitTurn(s, k, attempts);
        i := DrainOneSends(env, t.u, l, service, alternate, attempts - 1);
      }
    }
  }

  /** The j-th list that a round of excess service turns to. */
  function ListAt(l: nat, j: nat): nat
    requires GBR <= l <= DEFAULT
  {
    GBR + (l - GBR + j) % 3
  }

  /** The UE after j lists, one after the other, from which nothing was sent. */
  ghost function PassedOver(env: Env, u: Ue, j: nat): (v: Ue)
    requires Good(env, u)
    ensures Good(env, v)
    decreases j
  {
    if j == 0 then u else PassedOver(env, ExcessRound(env, u, 1).u, j - 1)
  }

  /** Nothing was sent from the first j lists. */
  ghost predicate Silent(env: Env, u: Ue, j: nat)
    requires Good(env, u)
    decreases j
  {
    j > 0 ==> ExcessRound(env, u, 1).n == 0 && Silent(env, ExcessRound(env, u, 1).u, j - 1)
  }

  /** A list that sends a packet sends the head of one of its flows, by the service of the list,
      and the next turn is that of the list after it; so is the turn after a list that does not. */
  lemma OneList(env: Env, u: Ue) returns (i: nat)
    requires Good(env, u)
    ensures
      var r, l := ExcessRound(env, u, 1), u.q.nextExcess;
      && GBR <= l <= DEFAULT && r.u.q.nextExcess == ListAt(l, 1)
      && (r.n == 1 ==> i in u.q.lists[l] && SentHead(u, r.u, i, if l == GBR then Excess else SessionAmbr))
  {
    hide Tracked, MeterInv, DrainOne, FlowsOk, KeysUnique, Progress;
    i := 0;
    var l := u.q.nextExcess;
    AdvanceGood(env, u);
    var u1 := Advance(u);
    assert ListOk(u1.q, l);
    NoMore(env, u1);
    if u1.q.counts[l] != 0 {
      i := DrainOneSends(env, u1, l, ExcessService(l), ExcessAlternate(l), u1.q.counts[l]);
      var t := DrainOne(env, u1, l, ExcessService(l), ExcessAlternate(l), u1.q.counts[l]);
      NoBudget(env, t.u, l, ExcessService(l), ExcessAlternate(l));
      NoMore(env, t.u);
    }
  }

  lemma NoMore(env: Env, u: Ue)
    requires Good(env, u)
    ensures ExcessRound(env, u, 0) == Drained(u, 0)
  {}

  lemma NoBudget(env: Env, u: Ue, l: nat, service: Service, alternate: Service)
    requires Good(env, u) && GBR <= l < LISTS
    ensures DrainService(env, u, l, service, alternate, 0) == Drained(u, 0)
  {}

  lemma FirstList(env: Env, u: Ue, tries: nat)
    requires Good(env, u) && tries > 0
    ensures
      var one, all := ExcessRound(env, u, 1), ExcessRound(env, u, tries);
      if one.n == 1 then all == one else one.n == 0 && all == ExcessRound(env, one.u, tries - 1)
  {
    hide DrainService, Tracked, MeterInv, FlowsOk, Progress;
    AdvanceGood(env, u);
    var l, u1 := u.q.nextExcess, Advance(u);
    NoMore(env, u1);
    if u1.q.counts[l] != 0 {
      NoMore(env, DrainService(env, u1, l, ExcessService(l), ExcessAlternate(l), 1).u);
    }
  }

  /** A round of excess service asks the lists in turn, from the one whose turn it is, and sends
      the head of a flow of the first list that has something to send, by its service; the next
      round begins after that list, so that it comes last then. */
  lemma {:induction false} ExcessTakesTurns(env: Env, u: Ue, tries: nat) returns (j: nat, i: nat)
    requires Good(env, u) && tries <= 3 && ExcessRound(env, u, tries).n == 1
    ensures
      var w, v, l := PassedOver(env, u, j), ExcessRound(env, u, tries).u, u.q.nextExcess;
      && GBR <= l <= DEFAULT && j < tries && Silent(env, u, j)
      && w.q.nextExcess == ListAt(l, j) && v.q.nextExcess == ListAt(l, j + 1)
      && |w.q.lists| == LISTS && i in w.q.lists[ListAt(l, j)]
      && SentHead(w, v, i, if ListAt(l, j) == GBR then Excess else SessionAmbr)
    decreases tries
  {
    hide ExcessRound, Tracked, MeterInv, FlowsOk, ListsOk, SentHead, Progress;
    if tries == 0 {
      NoMore(env, u);
      assert false;
    }
    FirstList(env, u, tries);
    i := OneList(env, u);
    j := 0;
    var one := ExcessRound(env, u, 1);
    if one.n != 1 {
      j, i := ExcessTakesTurns(env, one.u, tries - 1);
      j := j + 1;
    }
  }
}
