/** The pointers behind the queues: the TAILQs of active flows, doubly linked through the flows
    themselves, and the chains of entries from a flow's head to its tail
    (5gc/upf_u/upf_u.c:125-157, 471-495, 659-678, 743-761). A pointer to a flow is its slot, a
    pointer to an entry its address; `NIL` points nowhere. */
module Links {
  import opened Sched

  const NIL := -1

  // ----- lists of flows

  /** The neighbours of each flow, and both ends of each list. */
  datatype Tailqs = Tailqs(succ: seq<int>, pred: seq<int>, first: seq<int>, last: seq<int>)

  predicate Sized(k: Tailqs) {
    |k.succ| == MAX_FLOWS == |k.pred| && |k.first| == LISTS == |k.last|
  }

  function Unlinked(): (k: Tailqs)
    ensures Sized(k)
  {
    Tailqs(seq(MAX_FLOWS, _ => NIL), seq(MAX_FLOWS, _ => NIL), seq(LISTS, _ => NIL), seq(LISTS, _ => NIL))
  }

  function At(s: seq<nat>, j: int): int { if 0 <= j < |s| then s[j] else NIL }

  /** Following the links of list l from its first flow, or back from its last, meets exactly
      the flows of s. */
  ghost predicate Threads(k: Tailqs, l: nat, s: seq<nat>)
    requires Sized(k) && l < LISTS
  {
    && k.first[l] == At(s, 0) && k.last[l] == At(s, |s| - 1)
    && (forall j :: 0 <= j < |s| ==> NodeOk(k, s, j))
  }

  /** The links of the j-th flow lead to its neighbours. */
  predicate NodeOk(k: Tailqs, s: seq<nat>, j: nat)
    requires Sized(k) && j < |s|
  {
    s[j] < MAX_FLOWS && k.succ[s[j]] == At(s, j + 1) && k.pred[s[j]] == At(s, j - 1)
  }

  /** TAILQ_INSERT_TAIL. */
  function InsertTail(k: Tailqs, l: nat, i: nat): (r: Tailqs)
    requires Sized(k) && l < LISTS && i < MAX_FLOWS && NIL <= k.last[l] < MAX_FLOWS
    ensures Sized(r)
  {
    var z := k.last[l];
    var k1 := k.(succ := k.succ[i := NIL], pred := k.pred[i := z]);
    var k2 := if z == NIL then k1.(first := k1.first[l := i]) else k1.(succ := k1.succ[z := i]);
    k2.(last := k2.last[l := i])
  }

  /** TAILQ_REMOVE. */
  function RemoveNode(k: Tailqs, l: nat, i: nat): (r: Tailqs)
    requires Sized(k) && l < LISTS && i < MAX_FLOWS
    requires NIL <= k.succ[i] < MAX_FLOWS && NIL <= k.pred[i] < MAX_FLOWS
    ensures Sized(r)
  {
    var n, p := k.succ[i], k.pred[i];
    var k1 := if n == NIL then k.(last := k.last[l := p]) else k.(pred := k.pred[n := p]);
    if p == NIL then k1.(first := k1.first[l := n]) else k1.(succ := k1.succ[p := n])
  }

  lemma InsertThreads(k: Tailqs, l: nat, s: seq<nat>, i: nat)
    requires Sized(k) && l < LISTS && i < MAX_FLOWS && Threads(k, l, s) && Distinct(s) && i !in s
    ensures NIL <= k.last[l] < MAX_FLOWS && Threads(InsertTail(k, l, i), l, s + [i])
  {
    var t, n := s + [i], |s|;
    if n > 0 { assert NodeOk(k, s, n - 1); }
    forall j | 0 <= j < |t| ensures NodeOk(InsertTail(k, l, i), t, j) {
      if j < n {
        assert NodeOk(k, s, j);
        assert j < n - 1 ==> s[j] != s[n - 1];
      }
    }
  }

  /** Another list does not notice. */
  lemma InsertElsewhere(k: Tailqs, l: nat, i: nat, m: nat, s: seq<nat>)
    requires Sized(k) && l < LISTS && i < MAX_FLOWS && NIL <= k.last[l] < MAX_FLOWS
    requires m < LISTS && m != l && Threads(k, m, s) && i !in s && (k.last[l] >= 0 ==> k.last[l] !in s)
    ensures Threads(InsertTail(k, l, i), m, s)
  {
    forall j | 0 <= j < |s| ensures NodeOk(InsertTail(k, l, i), s, j) {
      assert NodeOk(k, s, j) && s[j] in s;
    }
  }

  lemma {:induction false} RemoveAt(s: seq<nat>, j: nat)
    requires j < |s| && Distinct(s)
    ensures Remove(s, s[j]) == s[..j] + s[j + 1..]
  {
    if j > 0 {
      assert s[0] != s[j];
      RemoveAt(s[1..], j - 1);
      assert s[1..][j - 1] == s[j];
      assert s[..j] == [s[0]] + s[1..][..j - 1] && s[1..][j..] == s[j + 1..];
    }
  }

  /** Unlinking a flow from anywhere in its list closes the gap. */
  lemma RemoveThreads(k: Tailqs, l: nat, s: seq<nat>, j: nat)
    requires Sized(k) && l < LISTS && Threads(k, l, s) && Distinct(s) && j < |s|
    ensures
      var i := s[j];
      && i < MAX_FLOWS && NIL <= k.succ[i] < MAX_FLOWS && NIL <= k.pred[i] < MAX_FLOWS
      && Threads(RemoveNode(k, l, i), l, Remove(s, i))
  {
    hide Remove, RemoveNode, NodeOk, At;
    RemoveAt(s, j);
    EndsMove(k, l, s, j);
    var i, t := s[j], s[..j] + s[j + 1..];
    forall m | 0 <= m < |t| ensures NodeOk(RemoveNode(k, l, i), t, m) {
      GapClosed(k, l, s, j, m);
    }
  }

  lemma EndsMove(k: Tailqs, l: nat, s: seq<nat>, j: nat)
    requires Sized(k) && l < LISTS && Threads(k, l, s) && Distinct(s) && j < |s|
    ensures var i := s[j]; i < MAX_FLOWS && NIL <= k.succ[i] < MAX_FLOWS && NIL <= k.pred[i] < MAX_FLOWS
    ensures
      var t, r := s[..j] + s[j + 1..], RemoveNode(k, l, s[j]);
      r.first[l] == At(t, 0) && r.last[l] == At(t, |t| - 1)
  {
    var n, t := |s|, s[..j] + s[j + 1..];
    assert NodeOk(k, s, j) && (j + 1 < n ==> NodeOk(k, s, j + 1)) && (j > 0 ==> NodeOk(k, s, j - 1));
    assert n > 1 ==> t[0] == (if j == 0 then s[1] else s[0]) && t[n - 2] == if j == n - 1 then s[n - 2] else s[n - 1];
  }

  lemma GapClosed(k: Tailqs, l: nat, s: seq<nat>, j: nat, m: nat)
    requires Sized(k) && l < LISTS && Threads(k, l, s) && Distinct(s) && j < |s| && m < |s| - 1 && s[j] < MAX_FLOWS
    requires NIL <= k.succ[s[j]] < MAX_FLOWS && NIL <= k.pred[s[j]] < MAX_FLOWS
    ensures NodeOk(RemoveNode(k, l, s[j]), s[..j] + s[j + 1..], m)
  {
    var o := if m < j then m else m + 1;
    var t := s[..j] + s[j + 1..];
    assert NodeOk(k, s, j) && NodeOk(k, s, o);
    assert t[m] == s[o] && s[o] != s[j];
    assert j > 0 && o != j - 1 ==> s[o] != s[j - 1];
    assert j + 1 < |s| && o != j + 1 ==> s[o] != s[j + 1];
    assert m + 1 < |t| ==> t[m + 1] == if m + 1 < j then s[m + 1] else s[m + 2];
    assert m > 0 ==> t[m - 1] == if m - 1 < j then s[m - 1] else s[m];
  }

  lemma RemoveElsewhere(k: Tailqs, l: nat, i: nat, m: nat, s: seq<nat>)
    requires Sized(k) && l < LISTS && i < MAX_FLOWS
    requires NIL <= k.succ[i] < MAX_FLOWS && NIL <= k.pred[i] < MAX_FLOWS
    requires m < LISTS && m != l && Threads(k, m, s)
    requires (k.succ[i] >= 0 ==> k.succ[i] !in s) && (k.pred[i] >= 0 ==> k.pred[i] !in s)
    ensures Threads(RemoveNode(k, l, i), m, s)
  {
    forall j | 0 <= j < |s| ensures NodeOk(RemoveNode(k, l, i), s, j) {
      assert NodeOk(k, s, j) && s[j] in s;
    }
  }

  // ----- all lists together

  ghost predicate AllThread(k: Tailqs, lists: seq<seq<nat>>) {
    Sized(k) && |lists| == LISTS && forall l :: 0 <= l < LISTS ==> Threads(k, l, lists[l])
  }

  /** No flow is on two lists, or twice on one. */
  ghost predicate Apart(lists: seq<seq<nat>>) {
    && (forall l :: 0 <= l < |lists| ==> Distinct(lists[l]))
    && (forall l, m, i :: 0 <= l < |lists| && 0 <= m < |lists| && i in lists[l] && i in lists[m] ==> l == m)
  }

  lemma ListsApart(q: Sched)
    requires Shaped(q) && ListsOk(q)
    ensures Apart(q.lists)
  {
    forall l | 0 <= l < LISTS ensures Distinct(q.lists[l]) { assert ListOk(q, l); }
    forall l, m, i | 0 <= l < LISTS && 0 <= m < LISTS && i in q.lists[l] && i in q.lists[m] ensures l == m {
      assert ListOk(q, l) && ListOk(q, m);
    }
  }

  lemma InsertAll(k: Tailqs, lists: seq<seq<nat>>, l: nat, i: nat)
    requires AllThread(k, lists) && Apart(lists) && l < LISTS && i < MAX_FLOWS
    requires forall m :: 0 <= m < LISTS ==> i !in lists[m]
    ensures NIL <= k.last[l] < MAX_FLOWS && AllThread(InsertTail(k, l, i), lists[l := lists[l] + [i]])
  {
    hide Threads;
    InsertThreads(k, l, lists[l], i);
    LastIn(k, l, lists[l]);
    forall m | 0 <= m < LISTS && m != l ensures Threads(InsertTail(k, l, i), m, lists[m]) {
      InsertElsewhere(k, l, i, m, lists[m]);
    }
  }

  lemma LastIn(k: Tailqs, l: nat, s: seq<nat>)
    requires Sized(k) && l < LISTS && Threads(k, l, s)
    ensures k.last[l] >= 0 ==> k.last[l] in s
  {}

  lemma RemoveAll(k: Tailqs, lists: seq<seq<nat>>, l: nat, i: nat)
    requires AllThread(k, lists) && Apart(lists) && l < LISTS && i in lists[l]
    ensures i < MAX_FLOWS && NIL <= k.succ[i] < MAX_FLOWS && NIL <= k.pred[i] < MAX_FLOWS
    ensures AllThread(RemoveNode(k, l, i), lists[l := Remove(lists[l], i)])
  {
    hide Threads;
    var s := lists[l];
    var j :| 0 <= j < |s| && s[j] == i;
    RemoveThreads(k, l, s, j);
    NeighboursIn(k, l, s, j);
    forall m | 0 <= m < LISTS && m != l ensures Threads(RemoveNode(k, l, i), m, lists[m]) {
      RemoveElsewhere(k, l, i, m, lists[m]);
    }
  }

  lemma NeighboursIn(k: Tailqs, l: nat, s: seq<nat>, j: nat)
    requires Sized(k) && l < LISTS && Threads(k, l, s) && j < |s|
    ensures s[j] < MAX_FLOWS && (k.succ[s[j]] >= 0 ==> k.succ[s[j]] in s) && (k.pred[s[j]] >= 0 ==> k.pred[s[j]] in s)
  {
    assert NodeOk(k, s, j);
  }

  lemma NoneThread()
    ensures AllThread(Unlinked(), Empty().lists)
  {}

  // ----- chains of entries

  /** An entry of the pool with its link. */
  datatype Cell = Cell(e: Entry, next: int)

  type Memory = map<nat, Cell>

  /** From `head`, the links lead through the addresses of `chain`, where the entries of s
      are, to `tail` and no further. */
  ghost predicate Chain(mem: Memory, head: int, tail: int, chain: seq<nat>, s: seq<Entry>) {
    && |chain| == |s| && head == At(chain, 0) && tail == At(chain, |chain| - 1)
    && (forall j :: 0 <= j < |chain| ==> CellOk(mem, chain, s, j))
  }

  predicate CellOk(mem: Memory, chain: seq<nat>, s: seq<Entry>, j: nat)
    requires j < |chain| == |s|
  {
    chain[j] in mem && mem[chain[j]] == Cell(s[j], At(chain, j + 1))
  }

  /** A cell outside a chain is none of its business. */
  lemma ChainElsewhere(mem: Memory, mem': Memory, head: int, tail: int, chain: seq<nat>, s: seq<Entry>)
    requires Chain(mem, head, tail, chain, s)
    requires forall a :: a in chain ==> a in mem' && (a in mem ==> mem'[a] == mem[a])
    ensures Chain(mem', head, tail, chain, s)
  {
    forall j | 0 <= j < |chain| ensures CellOk(mem', chain, s, j) {
      assert CellOk(mem, chain, s, j) && chain[j] in chain;
    }
  }

  /** The memory after a new cell at address a was linked behind `tail`. */
  function Appended(mem: Memory, tail: int, a: nat, e: Entry): Memory
    requires tail >= 0 ==> tail in mem
  {
    var m := if tail >= 0 then mem[tail := mem[tail].(next := a)] else mem;
    m[a := Cell(e, NIL)]
  }

  lemma AppendChain(mem: Memory, head: int, tail: int, chain: seq<nat>, s: seq<Entry>, a: nat, e: Entry)
    requires Chain(mem, head, tail, chain, s) && Distinct(chain) && a !in chain
    ensures tail >= 0 ==> tail in mem && tail in chain
    ensures Chain(Appended(mem, tail, a, e), if head == NIL then a else head, a, chain + [a], s + [e])
  {
    var c, n := chain + [a], |chain|;
    if n > 0 { assert CellOk(mem, chain, s, n - 1); }
    forall j | 0 <= j < |c| ensures CellOk(Appended(mem, tail, a, e), c, s + [e], j) {
      if j < n {
        assert CellOk(mem, chain, s, j) && chain[j] in chain;
        assert j < n - 1 ==> chain[j] != chain[n - 1];
      }
    }
  }

  /** The head entry is unlinked and freed. */
  lemma PopChain(mem: Memory, head: int, tail: int, chain: seq<nat>, s: seq<Entry>)
    requires Chain(mem, head, tail, chain, s) && Distinct(chain) && s != []
    ensures head in mem && head >= 0 && mem[head].e == s[0] && chain[0] == head
    ensures
      var next := mem[head].next;
      Chain(mem - {head}, next, if next == NIL then NIL else tail, chain[1..], s[1..]) && (next == NIL <==> |s| == 1)
  {
    assert CellOk(mem, chain, s, 0);
    var c := chain[1..];
    forall j | 0 <= j < |c| ensures CellOk(mem - {head}, c, s[1..], j) {
      assert CellOk(mem, chain, s, j + 1) && c[j] == chain[j + 1] != chain[0];
    }
  }
}
