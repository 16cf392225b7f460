/** What a UE's trace says about packets: the order in which each flow's packets left, and
    where every queued packet went. */
module History {
  import opened Sched
  import opened Rates

  // ----- subsequences

  /** `a` can be obtained from `b` by leaving elements out. */
  predicate Subseq<T(==)>(a: seq<T>, b: seq<T>) {
    a == [] ||
    (b != [] &&
     ((a[|a| - 1] == b[|b| - 1] && Subseq(a[..|a| - 1], b[..|b| - 1])) || Subseq(a, b[..|b| - 1])))
  }

  lemma SubseqGrow<T>(a: seq<T>, b: seq<T>, x: T)
    requires Subseq(a, b)
    ensures Subseq(a, b + [x])
  {
    assert (b + [x])[..|b|] == b;
  }

  lemma SubseqBoth<T>(a: seq<T>, b: seq<T>, x: T)
    requires Subseq(a, b)
    ensures Subseq(a + [x], b + [x])
  {
    assert (b + [x])[..|b|] == b && (a + [x])[..|a|] == a;
  }

  /** Leaving out one more element. */
  lemma {:induction false} SubseqDrop<T>(l: seq<T>, x: T, r: seq<T>, b: seq<T>)
    requires Subseq(l + [x] + r, b)
    ensures Subseq(l + r, b)
    decreases |b|
  {
    var a := l + [x] + r;
    if l + r != [] {
      var b' := b[..|b| - 1];
      if Subseq(a, b') {
        SubseqDrop(l, x, r, b');
      } else if r == [] {
        assert a[..|a| - 1] == l && l + r == l;
        SubseqGrow(l, b', b[|b| - 1]);
        assert b == b' + [b[|b| - 1]];
      } else {
        var r' := r[..|r| - 1];
        assert a[..|a| - 1] == l + [x] + r';
        SubseqDrop(l, x, r', b');
        assert (l + r)[..|l + r| - 1] == l + r';
        assert (l + r)[|l + r| - 1] == a[|a| - 1];
      }
    }
  }

  lemma {:induction false} SubseqPrefix<T>(l: seq<T>, r: seq<T>, b: seq<T>)
    requires Subseq(l + r, b)
    ensures Subseq(l, b)
    decreases |r|
  {
    if r == [] {
      assert l + r == l;
    } else {
      assert l + r == l + [r[0]] + r[1..];
      SubseqDrop(l, r[0], r[1..], b);
      SubseqPrefix(l, r[1..], b);
    }
  }

  // ----- order of departures, per flow key

  predicate Arrives(ev: Event) { ev.Passed? || ev.Queued? || ev.Refused? }

  predicate Leaves(ev: Event) { ev.Passed? || ev.Sent? }

  function Arrivals(tr: seq<Event>, key: FlowKey): seq<Entry> {
    if tr == [] then [] else AddArrival(Arrivals(tr[..|tr| - 1], key), tr[|tr| - 1], key)
  }

  function AddArrival(s: seq<Entry>, ev: Event, key: FlowKey): seq<Entry> {
    if Arrives(ev) && ev.key == key then s + [ev.e] else s
  }

  /** Packets of the flow that left, by the fast path or by a drain, in that order. */
  function Departures(tr: seq<Event>, key: FlowKey): seq<Entry> {
    if tr == [] then [] else AddDeparture(Departures(tr[..|tr| - 1], key), tr[|tr| - 1], key)
  }

  function AddDeparture(s: seq<Entry>, ev: Event, key: FlowKey): seq<Entry> {
    if Leaves(ev) && ev.key == key then s + [ev.e] else s
  }

  function QueueOf(flows: seq<Flow>, key: FlowKey): seq<Entry> {
    if flows == [] then []
    else if flows[0].inUse && flows[0].key == key then flows[0].queue
    else QueueOf(flows[1..], key)
  }

  /** What left, followed by what waits, is a subsequence of what arrived. */
  ghost predicate InOrder(flows: seq<Flow>, tr: seq<Event>, key: FlowKey) {
    Subseq(Departures(tr, key) + QueueOf(flows, key), Arrivals(tr, key))
  }

  ghost predicate Fifo(flows: seq<Flow>, tr: seq<Event>) {
    forall key :: InOrder(flows, tr, key)
  }

  lemma {:induction false} QueueOfSlot(flows: seq<Flow>, i: nat)
    requires i < |flows| && flows[i].inUse && KeysUnique(flows)
    ensures QueueOf(flows, flows[i].key) == flows[i].queue
  {
    if i > 0 { QueueOfSlot(flows[1..], i - 1); }
  }

  lemma {:induction false} QueueOfNone(flows: seq<Flow>, key: FlowKey)
    requires forall j :: 0 <= j < |flows| && flows[j].inUse ==> flows[j].key != key
    ensures QueueOf(flows, key) == []
  {
    if flows != [] { QueueOfNone(flows[1..], key); }
  }

  /** Replacing a slot leaves the queues of all other keys alone. */
  lemma {:induction false} QueueOfOther(flows: seq<Flow>, i: nat, f: Flow, key: FlowKey)
    requires i < |flows|
    requires flows[i].inUse ==> flows[i].key != key
    requires f.inUse ==> f.key != key
    ensures QueueOf(flows[i := f], key) == QueueOf(flows, key)
  {
    var g := flows[i := f];
    if i == 0 {
      assert g[1..] == flows[1..];
    } else {
      assert g[1..] == flows[1..][i - 1 := f];
      QueueOfOther(flows[1..], i - 1, f, key);
    }
  }

  // ----- histories in parts

  lemma SubseqLast<T>(c: seq<T>, d: seq<T>)
    requires Subseq(c, d) && d != []
    ensures
      var n := |d| - 1;
      Subseq(c, d[..n]) || (c != [] && c[|c| - 1] == d[n] && Subseq(c[..|c| - 1], d[..n]))
  {}

  lemma SubseqOfNone<T>(c: seq<T>)
    requires Subseq(c, [])
    ensures c == []
  {}

  lemma {:induction false} SubseqConcat<T>(a: seq<T>, b: seq<T>, c: seq<T>, d: seq<T>)
    requires Subseq(a, b) && Subseq(c, d)
    ensures Subseq(a + c, b + d)
    decreases |d|
  {
    hide Subseq;
    if d == [] {
      SubseqOfNone(c);
      assert a + c == a && b + d == b;
    } else {
      var n := |d| - 1;
      SubseqLast(c, d);
      assert b + d == (b + d[..n]) + [d[n]];
      if Subseq(c, d[..n]) {
        SubseqConcat(a, b, c, d[..n]);
        SubseqGrow(a + c, b + d[..n], d[n]);
      } else {
        var m := |c| - 1;
        SubseqConcat(a, b, c[..m], d[..n]);
        SubseqBoth(a + c[..m], b + d[..n], d[n]);
        assert a + c == (a + c[..m]) + [c[m]];
      }
    }
  }

  lemma {:induction false} HistoryConcat(a: seq<Event>, b: seq<Event>, key: FlowKey)
    ensures Departures(a + b, key) == Departures(a, key) + Departures(b, key)
    ensures Arrivals(a + b, key) == Arrivals(a, key) + Arrivals(b, key)
    decreases |b|
  {
    if b == [] {
      assert a + b == a;
    } else {
      var n := |b| - 1;
      HistoryConcat(a, b[..n], key);
      assert a + b == (a + b[..n]) + [b[n]];
      HistoryAppend(a + b[..n], b[n], key);
    }
  }

  /** Events about other flows, or about no packet, leave no mark on a flow. */
  lemma {:induction false} HistoryOfOthers(evs: seq<Event>, key: FlowKey)
    requires forall i :: 0 <= i < |evs| ==> AboutTokens(evs[i]) || evs[i].key != key
    ensures Departures(evs, key) == [] && Arrivals(evs, key) == []
    decreases |evs|
  {
    if evs != [] { HistoryOfOthers(evs[..|evs| - 1], key); }
  }

  // ----- where queued packets went

  /** A packet together with the flow it was queued for. */
  datatype Tagged = Tagged(key: FlowKey, e: Entry)

  function Count(key: FlowKey, s: seq<Entry>, t: Tagged): nat {
    if s == [] then 0 else (if t == Tagged(key, s[0]) then 1 else 0) + Count(key, s[1..], t)
  }

  /** How often packet t waits in the queues. */
  function Waiting(flows: seq<Flow>, t: Tagged): nat {
    if flows == [] then 0 else Count(flows[0].key, flows[0].queue, t) + Waiting(flows[1..], t)
  }

  /** How often the shaper took a reference and a pool entry for t. */
  function Entered(tr: seq<Event>, t: Tagged): nat {
    if tr == [] then 0 else Entered(tr[..|tr| - 1], t) + EnteredBy(tr[|tr| - 1], t)
  }

  function EnteredBy(ev: Event, t: Tagged): nat {
    if ev.Queued? && t == Tagged(ev.key, ev.e) then 1 else 0
  }

  /** How often t was drained, dropped by a drain or flushed; each gives both back. */
  function Released(tr: seq<Event>, t: Tagged): nat {
    if tr == [] then 0 else Released(tr[..|tr| - 1], t) + ReleasedBy(tr[|tr| - 1], t)
  }

  predicate Releases(ev: Event) {
    ev.Sent? || ev.Discarded? || ev.Flushed?
  }

  function ReleasedBy(ev: Event, t: Tagged): nat {
    if Releases(ev) && t == Tagged(ev.key, ev.e) then 1 else 0
  }

  /** Every packet that was queued was given back once or still waits. */
  ghost predicate Conserved(flows: seq<Flow>, tr: seq<Event>) {
    forall t :: Balanced(flows, tr, t)
  }

  ghost predicate Balanced(flows: seq<Flow>, tr: seq<Event>, t: Tagged) {
    Entered(tr, t) == Released(tr, t) + Waiting(flows, t)
  }

  lemma {:induction false} WaitingUpdate(flows: seq<Flow>, i: nat, f: Flow, t: Tagged)
    requires i < |flows|
    ensures Waiting(flows[i := f], t) + Count(flows[i].key, flows[i].queue, t)
         == Waiting(flows, t) + Count(f.key, f.queue, t)
  {
    var g := flows[i := f];
    if i == 0 {
      assert g[1..] == flows[1..];
    } else {
      assert g[1..] == flows[1..][i - 1 := f];
      WaitingUpdate(flows[1..], i - 1, f, t);
    }
  }

  lemma {:induction false} CountAppend(key: FlowKey, s: seq<Entry>, e: Entry, t: Tagged)
    ensures Count(key, s + [e], t) == Count(key, s, t) + if t == Tagged(key, e) then 1 else 0
  {
    if s == [] {
      assert s + [e] == [e] && [e][1..] == [];
    } else {
      assert (s + [e])[1..] == s[1..] + [e];
      CountAppend(key, s[1..], e, t);
    }
  }

  /** All histories of one more event. */
  lemma HistoryAppend(tr: seq<Event>, ev: Event, key: FlowKey)
    ensures Arrivals(tr + [ev], key) == AddArrival(Arrivals(tr, key), ev, key)
    ensures Departures(tr + [ev], key) == AddDeparture(Departures(tr, key), ev, key)
  {
    assert (tr + [ev])[..|tr|] == tr;
  }

  lemma BalanceAppend(tr: seq<Event>, ev: Event, t: Tagged)
    ensures Entered(tr + [ev], t) == Entered(tr, t) + EnteredBy(ev, t)
    ensures Released(tr + [ev], t) == Released(tr, t) + ReleasedBy(ev, t)
  {
    assert (tr + [ev])[..|tr|] == tr;
  }

  /** An event that neither queues nor releases leaves the balance alone. */
  lemma NeutralConserved(flows: seq<Flow>, tr: seq<Event>, ev: Event)
    requires Conserved(flows, tr) && !ev.Queued? && !Releases(ev)
    ensures Conserved(flows, tr + [ev])
  {
    forall t ensures Balanced(flows, tr + [ev], t) {
      BalanceAppend(tr, ev, t);
      assert Balanced(flows, tr, t);
    }
  }

  // ----- the two histories together, event by event

  ghost predicate Tracked(flows: seq<Flow>, tr: seq<Event>) {
    Fifo(flows, tr) && Conserved(flows, tr)
  }

  /** Events about tokens say nothing about packets. */
  predicate AboutTokens(ev: Event) { ev.Credited? || ev.Inited? || ev.Cleared? }

  lemma TokenTracked(flows: seq<Flow>, tr: seq<Event>, ev: Event)
    requires Tracked(flows, tr) && AboutTokens(ev)
    ensures Tracked(flows, tr + [ev])
  {
    forall key ensures InOrder(flows, tr + [ev], key) {
      HistoryAppend(tr, ev, key);
      assert InOrder(flows, tr, key);
    }
    NeutralConserved(flows, tr, ev);
  }

  lemma {:induction false} TokensTracked(flows: seq<Flow>, tr: seq<Event>, evs: seq<Event>)
    requires Tracked(flows, tr) && forall i :: 0 <= i < |evs| ==> AboutTokens(evs[i])
    ensures Tracked(flows, tr + evs)
    decreases |evs|
  {
    if evs == [] {
      assert tr + evs == tr;
    } else {
      TokenTracked(flows, tr, evs[0]);
      TokensTracked(flows, tr + [evs[0]], evs[1..]);
      assert tr + evs == tr + [evs[0]] + evs[1..];
    }
  }

  /** A packet refused on arrival changes nothing. */
  lemma RefuseTracked(flows: seq<Flow>, tr: seq<Event>, k: FlowKey, e: Entry)
    requires Tracked(flows, tr)
    ensures Tracked(flows, tr + [Refused(k, e)])
  {
    var ev := Refused(k, e);
    forall key ensures InOrder(flows, tr + [ev], key) {
      HistoryAppend(tr, ev, key);
      assert InOrder(flows, tr, key);
      if key == k { SubseqGrow(Departures(tr, key) + QueueOf(flows, key), Arrivals(tr, key), e); }
    }
    NeutralConserved(flows, tr, ev);
  }

  /** The fast path: no packet of the flow waits, so nothing is overtaken. */
  lemma PassTracked(flows: seq<Flow>, tr: seq<Event>, k: FlowKey, e: Entry, service: Service, slot: int,
                    policy: Policy)
    requires Tracked(flows, tr) && QueueOf(flows, k) == []
    ensures Tracked(flows, tr + [Passed(k, e, service, slot, policy)])
  {
    var ev := Passed(k, e, service, slot, policy);
    forall key ensures InOrder(flows, tr + [ev], key) {
      HistoryAppend(tr, ev, key);
      assert InOrder(flows, tr, key);
      if key == k {
        assert Departures(tr, key) + QueueOf(flows, key) == Departures(tr, key);
        SubseqBoth(Departures(tr, key), Arrivals(tr, key), e);
        assert Departures(tr + [ev], key) + QueueOf(flows, key) == Departures(tr, key) + [e];
      }
    }
    NeutralConserved(flows, tr, ev);
  }

  /** Slot i now holds `f`: same key, one packet more at the tail. */
  lemma QueueTracked(flows: seq<Flow>, tr: seq<Event>, i: nat, f: Flow, k: FlowKey, e: Entry)
    requires i < |flows| && Tracked(flows, tr) && KeysUnique(flows) && KeysUnique(flows[i := f])
    requires f.inUse && f.key == k && f.queue == flows[i].queue + [e]
    requires flows[i].inUse ==> flows[i].key == k
    requires !flows[i].inUse ==> flows[i].queue == [] && QueueOf(flows, k) == []
    ensures Tracked(flows[i := f], tr + [Queued(k, e)])
  {
    var ev := Queued(k, e);
    var g := flows[i := f];
    forall key ensures InOrder(g, tr + [ev], key) {
      assert InOrder(flows, tr, key);
      if key == k { QueueExtends(flows, tr, i, f, k, e); } else {
        HistoryAppend(tr, ev, key);
        QueueOfOther(flows, i, f, key);
      }
    }
    forall t ensures Balanced(g, tr + [ev], t) {
      BalanceAppend(tr, ev, t);
      assert Balanced(flows, tr, t);
      WaitingUpdate(flows, i, f, t);
      CountAppend(k, flows[i].queue, e, t);
    }
  }

  /** A packet at the tail keeps the order of its own flow. */
  lemma QueueExtends(flows: seq<Flow>, tr: seq<Event>, i: nat, f: Flow, k: FlowKey, e: Entry)
    requires i < |flows| && InOrder(flows, tr, k) && KeysUnique(flows) && KeysUnique(flows[i := f])
    requires f.inUse && f.key == k && f.queue == flows[i].queue + [e]
    requires flows[i].inUse ==> flows[i].key == k
    requires !flows[i].inUse ==> flows[i].queue == [] && QueueOf(flows, k) == []
    ensures InOrder(flows[i := f], tr + [Queued(k, e)], k)
  {
    hide Subseq;
    HistoryAppend(tr, Queued(k, e), k);
    if flows[i].inUse { QueueOfSlot(flows, i); }
    QueueOfSlot(flows[i := f], i);
    SubseqBoth(Departures(tr, k) + QueueOf(flows, k), Arrivals(tr, k), e);
    assert Departures(tr, k) + (QueueOf(flows, k) + [e]) == Departures(tr, k) + QueueOf(flows, k) + [e];
  }

  /** The queue of the key in slot i after its head left and the slot became `f`. */
  lemma QueueAfterHead(flows: seq<Flow>, i: nat, f: Flow)
    requires i < |flows| && flows[i].inUse && flows[i].queue != []
    requires KeysUnique(flows) && KeysUnique(flows[i := f])
    requires f.inUse ==> f.key == flows[i].key
    requires f.queue == flows[i].queue[1..] && (!f.inUse ==> f.queue == [])
    ensures QueueOf(flows[i := f], flows[i].key) == flows[i].queue[1..]
  {
    if f.inUse { QueueOfSlot(flows[i := f], i); } else { QueueOfNone(flows[i := f], flows[i].key); }
  }

  /** The head of a queue leaves by a drain. */
  lemma SendTracked(flows: seq<Flow>, tr: seq<Event>, i: nat, f: Flow, service: Service, slot: int,
                    policy: Policy)
    requires i < |flows| && Tracked(flows, tr) && flows[i].inUse && flows[i].queue != []
    requires KeysUnique(flows) && KeysUnique(flows[i := f])
    requires f.inUse ==> f.key == flows[i].key
    requires f.queue == flows[i].queue[1..] && (!f.inUse ==> f.queue == [])
    ensures Tracked(flows[i := f], tr + [Sent(flows[i].key, flows[i].queue[0], service, slot, policy)])
  {
    var k, e := flows[i].key, flows[i].queue[0];
    var ev := Sent(k, e, service, slot, policy);
    var g := flows[i := f];
    forall key ensures InOrder(g, tr + [ev], key) {
      HistoryAppend(tr, ev, key);
      assert InOrder(flows, tr, key);
      if key == k {
        QueueOfSlot(flows, i);
        QueueAfterHead(flows, i, f);
        assert Departures(tr, key) + [e] + flows[i].queue[1..] == Departures(tr, key) + flows[i].queue;
      } else {
        QueueOfOther(flows, i, f, key);
      }
    }
    HeadConserved(flows, tr, i, f, ev);
  }

  /** The head of a queue is discarded by a drain. */
  lemma DiscardTracked(flows: seq<Flow>, tr: seq<Event>, i: nat, f: Flow)
    requires i < |flows| && Tracked(flows, tr) && flows[i].inUse && flows[i].queue != []
    requires KeysUnique(flows) && KeysUnique(flows[i := f])
    requires f.inUse ==> f.key == flows[i].key
    requires f.queue == flows[i].queue[1..] && (!f.inUse ==> f.queue == [])
    ensures Tracked(flows[i := f], tr + [Discarded(flows[i].key, flows[i].queue[0])])
  {
    var k, e := flows[i].key, flows[i].queue[0];
    var ev := Discarded(k, e);
    var g := flows[i := f];
    forall key ensures InOrder(g, tr + [ev], key) {
      HistoryAppend(tr, ev, key);
      assert InOrder(flows, tr, key);
      if key == k {
        QueueOfSlot(flows, i);
        QueueAfterHead(flows, i, f);
        assert Departures(tr, key) + flows[i].queue == Departures(tr, key) + [e] + flows[i].queue[1..];
        SubseqDrop(Departures(tr, key), e, flows[i].queue[1..], Arrivals(tr, key));
      } else {
        QueueOfOther(flows, i, f, key);
      }
    }
    HeadConserved(flows, tr, i, f, ev);
  }

  lemma HeadConserved(flows: seq<Flow>, tr: seq<Event>, i: nat, f: Flow, ev: Event)
    requires i < |flows| && Conserved(flows, tr) && flows[i].queue != []
    requires f.queue == flows[i].queue[1..] && (f.queue == [] || f.key == flows[i].key)
    requires Releases(ev) && ev.key == flows[i].key && ev.e == flows[i].queue[0]
    ensures Conserved(flows[i := f], tr + [ev])
  {
    var g := flows[i := f];
    forall t ensures Balanced(g, tr + [ev], t) {
      BalanceAppend(tr, ev, t);
      assert Balanced(flows, tr, t);
      WaitingUpdate(flows, i, f, t);
      assert Count(f.key, f.queue, t) == Count(flows[i].key, flows[i].queue[1..], t);
    }
  }

  /** A change of policy only: same key, same queue. */
  lemma PolicyTracked(flows: seq<Flow>, tr: seq<Event>, i: nat, f: Flow)
    requires i < |flows| && Tracked(flows, tr) && flows[i].inUse
    requires KeysUnique(flows) && KeysUnique(flows[i := f])
    requires f.inUse && f.key == flows[i].key && f.queue == flows[i].queue
    ensures Tracked(flows[i := f], tr)
  {
    var g := flows[i := f];
    forall key ensures InOrder(g, tr, key) {
      assert InOrder(flows, tr, key);
      if key == f.key {
        QueueOfSlot(flows, i);
        QueueOfSlot(g, i);
      } else {
        QueueOfOther(flows, i, f, key);
      }
    }
    forall t ensures Balanced(g, tr, t) {
      assert Balanced(flows, tr, t);
      WaitingUpdate(flows, i, f, t);
    }
  }

  // ----- flushing all queues

  function FlushQueue(key: FlowKey, s: seq<Entry>): seq<Event> {
    if s == [] then [] else [Flushed(key, s[0])] + FlushQueue(key, s[1..])
  }

  /** One event per waiting packet, slot by slot. */
  function FlushEvents(flows: seq<Flow>): seq<Event> {
    if flows == [] then [] else FlushQueue(flows[0].key, flows[0].queue) + FlushEvents(flows[1..])
  }

  lemma {:induction false} FlushQueueSilent(key: FlowKey, s: seq<Entry>)
    ensures forall i :: 0 <= i < |FlushQueue(key, s)| ==> FlushQueue(key, s)[i].Flushed?
  {
    if s != [] { FlushQueueSilent(key, s[1..]); }
  }

  lemma {:induction false} FlushSilent(flows: seq<Flow>)
    ensures forall i :: 0 <= i < |FlushEvents(flows)| ==> FlushEvents(flows)[i].Flushed?
  {
    if flows != [] {
      FlushQueueSilent(flows[0].key, flows[0].queue);
      FlushSilent(flows[1..]);
    }
  }

  /** Flushing is neither arrival nor departure. */
  lemma {:induction false} FlushOrder(tr: seq<Event>, evs: seq<Event>, key: FlowKey)
    requires forall i :: 0 <= i < |evs| ==> evs[i].Flushed?
    ensures Arrivals(tr + evs, key) == Arrivals(tr, key)
    ensures Departures(tr + evs, key) == Departures(tr, key)
    decreases |evs|
  {
    if evs == [] {
      assert tr + evs == tr;
    } else {
      HistoryAppend(tr, evs[0], key);
      FlushOrder(tr + [evs[0]], evs[1..], key);
      assert tr + evs == tr + [evs[0]] + evs[1..];
    }
  }

  lemma {:induction false} FlushQueueBalance(tr: seq<Event>, key: FlowKey, s: seq<Entry>, t: Tagged)
    ensures Entered(tr + FlushQueue(key, s), t) == Entered(tr, t)
    ensures Released(tr + FlushQueue(key, s), t) == Released(tr, t) + Count(key, s, t)
    decreases |s|
  {
    if s == [] {
      assert tr + FlushQueue(key, s) == tr;
    } else {
      var ev := Flushed(key, s[0]);
      BalanceAppend(tr, ev, t);
      FlushQueueBalance(tr + [ev], key, s[1..], t);
      assert tr + FlushQueue(key, s) == tr + [ev] + FlushQueue(key, s[1..]);
    }
  }

  lemma {:induction false} FlushBalance(tr: seq<Event>, flows: seq<Flow>, t: Tagged)
    ensures Entered(tr + FlushEvents(flows), t) == Entered(tr, t)
    ensures Released(tr + FlushEvents(flows), t) == Released(tr, t) + Waiting(flows, t)
    decreases |flows|
  {
    if flows == [] {
      assert tr + FlushEvents(flows) == tr;
    } else {
      var tr1 := tr + FlushQueue(flows[0].key, flows[0].queue);
      var all := tr + FlushEvents(flows);
      assert all == tr1 + FlushEvents(flows[1..]);
      assert Entered(all, t) == Entered(tr1, t) && Released(all, t) == Released(tr1, t) + Waiting(flows[1..], t) by {
        FlushBalance(tr1, flows[1..], t);
      }
      FlushQueueBalance(tr, flows[0].key, flows[0].queue, t);
    }
  }

  lemma {:induction false} NothingWaits(flows: seq<Flow>, t: Tagged)
    requires forall i :: 0 <= i < |flows| ==> flows[i].queue == []
    ensures Waiting(flows, t) == 0
  {
    if flows != [] { NothingWaits(flows[1..], t); }
  }

  /** After a flush nothing waits and everything that did has been given back. */
  lemma FlushTracked(flows: seq<Flow>, tr: seq<Event>, empty: seq<Flow>)
    requires Tracked(flows, tr)
    requires forall i :: 0 <= i < |empty| ==> empty[i].queue == [] && !empty[i].inUse
    ensures Tracked(empty, tr + FlushEvents(flows))
  {
    var tr' := tr + FlushEvents(flows);
    FlushSilent(flows);
    forall key ensures InOrder(empty, tr', key) {
      assert InOrder(flows, tr, key);
      FlushOrder(tr, FlushEvents(flows), key);
      QueueOfNone(empty, key);
      SubseqPrefix(Departures(tr, key), QueueOf(flows, key), Arrivals(tr, key));
      assert Departures(tr', key) + QueueOf(empty, key) == Departures(tr, key);
    }
    forall t ensures Balanced(empty, tr', t) {
      assert Balanced(flows, tr, t);
      FlushBalance(tr, flows, t);
      NothingWaits(empty, t);
    }
  }
}
