/** Reference counts of packet buffers (5gc/upf_u/upf_u.c:613-685, 713-761, 978-990). A packet
    comes to the shaper with one reference; queueing adds one. The shaper only leaves a verdict:
    the framework carries it out later (onvm/onvm_nflib/onvm_pkt_common.c:293-308), after any
    number of other packets, drains and flushes, and the transmit thread frees what is handed to
    it later still. So a packet may be sent or flushed out of its queue before the framework
    has let go of it. */
module Buffers {
  import opened Sched
  import opened Rates
  import opened History
  import opened Shaper
  import opened Gains

  /** Packet t as its buffer sees it: the references, the verdicts to drop it that are still to
      be carried out, the times it is on its way out, and whether a buffer without references
      was ever freed or passed on. */
  datatype Life = Life(refs: int, dropping: nat, leaving: nat, misused: bool)

  function Used(l: Life): Life { l.(misused := l.misused || l.refs <= 0) }

  /** A reference is given back. */
  function Freed(l: Life): Life { Used(l).(refs := l.refs - 1) }

  /** What the shaper does to the buffer of t. */
  function OnEvent(l: Life, ev: Event, t: Tagged): Life {
    if AboutTokens(ev) || t != Tagged(ev.key, ev.e) then l
    else
      match ev
      case Passed(_, _, _, _, _) => l.(refs := l.refs + 1, leaving := l.leaving + 1)
      case Queued(_, _) => l.(refs := l.refs + 2, dropping := l.dropping + 1)
      case Refused(_, _) => l.(refs := l.refs + 1, dropping := l.dropping + 1)
      case Sent(_, _, _, _, _) => Used(l).(leaving := l.leaving + 1)
      case _ => Freed(l)
  }

  function OnEvents(l: Life, evs: seq<Event>, t: Tagged): Life {
    if evs == [] then l else OnEvent(OnEvents(l, evs[..|evs| - 1], t), evs[|evs| - 1], t)
  }

  /** The shaper, the framework and the transmit thread take turns in any order. */
  datatype Step = Shapes(op: Op) | FrameworkDrops | TransmitFrees

  datatype Host = Host(u: Ue, life: Life)

  function Gained(u: Ue, v: Ue): seq<Event> { if |u.trace| <= |v.trace| then v.trace[|u.trace|..] else [] }

  ghost predicate Possible(env: Env, h: Host, step: Step) {
    match step
    case Shapes(_) => Good(env, h.u)
    case FrameworkDrops => h.life.dropping > 0
    case TransmitFrees => h.life.leaving > 0
  }

  ghost function Next(env: Env, h: Host, step: Step, t: Tagged): Host
    requires Possible(env, h, step)
  {
    match step
    case Shapes(op) => var v := Do(env, h.u, op); Host(v, OnEvents(h.life, Gained(h.u, v), t))
    case FrameworkDrops => h.(life := Freed(h.life).(dropping := h.life.dropping - 1))
    case TransmitFrees => h.(life := Freed(h.life).(leaving := h.life.leaving - 1))
  }

  ghost predicate Leads(env: Env, h: Host, steps: seq<Step>, k: Host, t: Tagged)
    decreases |steps|
  {
    if steps == [] then h == k
    else Possible(env, h, steps[0]) && Leads(env, Next(env, h, steps[0], t), steps[1..], k, t)
  }

  // ----- the books

  /** Every reference is one of the queue, of a verdict, or of the way out. */
  ghost predicate Sound(h: Host, t: Tagged) {
    h.life.refs == Waiting(h.u.q.flows, t) + h.life.dropping + h.life.leaving && !h.life.misused
  }

  /** What the queue is due: its references to t. */
  function Owed(l: Life): int { l.refs - l.dropping - l.leaving }

  lemma {:induction false} CountsSplit(tr: seq<Event>, evs: seq<Event>, t: Tagged)
    ensures Entered(tr + evs, t) == Entered(tr, t) + Entered(evs, t)
    ensures Released(tr + evs, t) == Released(tr, t) + Released(evs, t)
    decreases |evs|
  {
    if evs == [] {
      assert tr + evs == tr;
    } else {
      var n := |evs| - 1;
      assert (tr + evs)[..|tr| + n] == tr + evs[..n] && (tr + evs)[|tr| + n] == evs[n];
      CountsSplit(tr, evs[..n], t);
    }
  }

  /** With enough owed at the start, no event of a batch meets a buffer without references. */
  lemma {:induction false} EventsSound(l: Life, evs: seq<Event>, t: Tagged, how: Cause)
    requires !l.misused && forall c :: 0 <= c < |evs| ==> Kind(evs[c], how)
    requires 0 <= Owed(l) && Released(evs, t) <= Owed(l) + Entered(evs, t)
    ensures !OnEvents(l, evs, t).misused
    ensures Owed(OnEvents(l, evs, t)) == Owed(l) + Entered(evs, t) - Released(evs, t)
    decreases |evs|
  {
    if evs != [] {
      var n := |evs| - 1;
      OneKind(evs[..n], t, how);
      OneKind(evs, t, how);
      EventsSound(l, evs[..n], t, how);
    }
  }

  lemma {:induction false} OneKind(evs: seq<Event>, t: Tagged, how: Cause)
    requires forall c :: 0 <= c < |evs| ==> Kind(evs[c], how)
    ensures if how.Arriving? then Released(evs, t) == 0 else Entered(evs, t) == 0
    decreases |evs|
  {
    if evs != [] { OneKind(evs[..|evs| - 1], t, how); }
  }

  lemma StepSound(env: Env, h: Host, step: Step, t: Tagged)
    requires Good(env, h.u) && Sound(h, t) && Possible(env, h, step)
    ensures Good(env, Next(env, h, step, t).u) && Sound(Next(env, h, step, t), t)
  {
    hide Do, Good, OnEvents, Entered, Released, Waiting;
    if step.Shapes? {
      var u, v := h.u, Do(env, h.u, step.op);
      DoGood(env, u, step.op);
      DoAdds(env, u, step.op);
      var evs := Gained(u, v);
      assert v.trace == u.trace + evs;
      CountsSplit(u.trace, evs, t);
      BalancedNow(env, u, t);
      BalancedNow(env, v, t);
      EventsSound(h.life, evs, t, CauseOf(step.op));
    }
  }

  lemma BalancedNow(env: Env, u: Ue, t: Tagged)
    requires Good(env, u)
    ensures Entered(u.trace, t) == Released(u.trace, t) + Waiting(u.q.flows, t)
  {
    hide Inv, MeterInv;
    assert Balanced(u.q.flows, u.trace, t);
  }

  /** In every interleaving of shaper, framework and transmit thread, a buffer has one reference
      for each time its packet waits, each verdict still to be carried out and each time it is on
      its way out: it is never freed twice, never passed on after it was freed, and never
      leaked. */
  lemma {:induction false} BuffersAccountedFor(env: Env, h: Host, steps: seq<Step>, k: Host, t: Tagged)
    requires Good(env, h.u) && Sound(h, t) && Leads(env, h, steps, k, t)
    ensures Good(env, k.u) && Sound(k, t)
    decreases |steps|
  {
    hide Good, Sound, Possible, Next;
    if steps != [] {
      StepSound(env, h, steps[0], t);
      BuffersAccountedFor(env, Next(env, h, steps[0], t), steps[1..], k, t);
    }
  }

  /** From start-up on; when all is done and nothing waits, all is freed. */
  lemma BuffersFromStart(env: Env, steps: seq<Step>, k: Host, t: Tagged)
    requires Steady(env) && Leads(env, Host(Fresh(), Life(0, 0, 0, false)), steps, k, t)
    ensures Sound(k, t)
  {
    FreshGood(env);
    NothingWaits(Empty().flows, t);
    BuffersAccountedFor(env, Host(Fresh(), Life(0, 0, 0, false)), steps, k, t);
  }
}
