/** Calls and their lends, from delivery to every end they can have: reply, the caller's timeout or death,
    the endpoint's or stamp's destruction, the server thread's end (kernel/src/message.rs).
  */
module Calls {
  import opened Basics

  type Id = nat
  type Page = nat
  type Pid = nat
  type Budget = nat
  type Endpoint = nat

  datatype Thread = Thread(pid: Pid, tid: nat)

  /** What a thread waits for. A message to be taken is its sender's: the endpoint, the stamp of the handle
      it was sent through, and the pages lent with it.
    */
  datatype Wait =
    | Idle
    | Sending(endpoint: Endpoint, stamp: Budget, lend: seq<Page>)
    | AwaitingReply(id: Id)
    | Receiving(endpoint: Endpoint)

  /** `held`: the calls it took and has not replied to, in order. */
  datatype ThreadState = ThreadState(wait: Wait, held: seq<Id>)

  datatype OpenCall = OpenCall(
    caller: Thread, server: Thread, endpoint: Endpoint, stamp: Budget,
    waiting: bool, abandoned: bool, notice: bool, lend: seq<Page>, payer: Budget)

  /** Whose a page is, and where: its owner's; lent with a message not yet taken; lent in an open call; the
      server's alone, of an abandoned call; freed.
    */
  datatype PageState =
    | With(pid: Pid)
    | LentOut(sender: Thread)
    | Borrowed(pid: Pid, id: Id)
    | Orphaned(pid: Pid, id: Id)
    | Freed

  /** `homes`: each process's budget. `own`: the frames each process owns. `used` and `limit`: each budget's
      pages. The lists hold open calls: by endpoint and by stamp while their callers wait, by endpoint while
      they owe a notice. `told`: the calls whose notice was delivered.
    */
  datatype State = State(
    threads: map<Thread, ThreadState>, calls: map<Id, OpenCall>, next: Id,
    opens: map<Endpoint, seq<Id>>, taken: map<Budget, seq<Id>>, notices: map<Endpoint, seq<Id>>,
    pages: map<Page, PageState>, homes: map<Pid, Budget>, own: map<Pid, nat>,
    used: map<Budget, nat>, limit: map<Budget, nat>, told: set<Id>)

  // --- Sums --------------------------------------------------------------------------------------------------

  ghost function Sum<K>(m: map<K, nat>): nat
    decreases |m|
  {
    if m == map[] then 0 else
      var k :| k in m;
      assert |m - {k}| == |m| - 1 by { assert (m - {k}).Keys == m.Keys - {k}; }
      m[k] + Sum(m - {k})
  }

  lemma {:induction false} SumTake<K>(m: map<K, nat>, k: K)
    requires k in m
    ensures Sum(m) == m[k] + Sum(m - {k})
    decreases |m|
  {
    var p :| p in m && Sum(m) == m[p] + Sum(m - {p});
    if p != k {
      assert |m - {p}| == |m| - 1 by { assert (m - {p}).Keys == m.Keys - {p}; }
      assert |m - {k}| == |m| - 1 by { assert (m - {k}).Keys == m.Keys - {k}; }
      SumTake(m - {p}, k);
      SumTake(m - {k}, p);
      assert m - {p} - {k} == m - {k} - {p};
    }
  }

  lemma {:induction false} SumPut<K>(m: map<K, nat>, k: K, n: nat)
    ensures Sum(m[k := n]) == n + Sum(m - {k})
  {
    SumTake(m[k := n], k);
    assert m[k := n] - {k} == m - {k};
  }

  /** One entry's change is the sum's. */
  lemma {:induction false} SumChange<K>(m: map<K, nat>, k: K, n: nat)
    requires k in m
    ensures Sum(m[k := n]) + m[k] == Sum(m) + n
  {
    SumTake(m, k);
    SumPut(m, k, n);
  }

  // --- Lists -------------------------------------------------------------------------------------------------

  function ListOf(lists: map<nat, seq<Id>>, k: nat): seq<Id> { if k in lists then lists[k] else [] }

  ghost predicate Once(s: seq<Id>) {
    forall i, j :: 0 <= i < |s| && 0 <= j < |s| && s[i] == s[j] ==> i == j
  }

  function Without(s: seq<Id>, x: Id): (r: seq<Id>)
    ensures forall y :: y in r <==> y in s && y != x
  {
    if s == [] then [] else if s[0] == x then Without(s[1..], x) else [s[0]] + Without(s[1..], x)
  }

  lemma {:induction false} WithoutOnce(s: seq<Id>, x: Id)
    requires Once(s)
    ensures Once(Without(s, x))
  {
    if s != [] {
      forall i, j | 0 <= i < |s[1..]| && 0 <= j < |s[1..]| && s[1..][i] == s[1..][j] ensures i == j {
        assert s[i + 1] == s[j + 1];
      }
      WithoutOnce(s[1..], x);
      if s[0] != x {
        var r := Without(s[1..], x);
        forall k | 0 <= k < |s[1..]| ensures s[1..][k] != s[0] { assert s[1..][k] == s[k + 1]; }
        forall i, j | 0 <= i < |[s[0]] + r| && 0 <= j < |[s[0]] + r| && ([s[0]] + r)[i] == ([s[0]] + r)[j]
          ensures i == j
        {
          if i > 0 { assert ([s[0]] + r)[i] == r[i - 1] && r[i - 1] in r; }
          if j > 0 { assert ([s[0]] + r)[j] == r[j - 1] && r[j - 1] in r; }
        }
      }
    }
  }

  function Enlist(lists: map<nat, seq<Id>>, k: nat, x: Id): map<nat, seq<Id>> { lists[k := [x] + ListOf(lists, k)] }

  function Delist(lists: map<nat, seq<Id>>, k: nat, x: Id): map<nat, seq<Id>> {
    lists[k := Without(ListOf(lists, k), x)]
  }

  // --- What is always so -----------------------------------------------------------------------------------------

  /** What an open call costs its payer: its page, and its lend while the caller waits (R3, R4a). */
  function Cost(c: OpenCall): nat { 1 + if c.waiting then |c.lend| else 0 }

  ghost function CallsOf(calls: map<Id, OpenCall>, b: Budget): map<Id, nat> {
    map id | id in calls && calls[id].payer == b :: Cost(calls[id])
  }

  ghost function OwnIn(homes: map<Pid, Budget>, own: map<Pid, nat>, b: Budget): map<Pid, nat> {
    map pid | pid in homes && homes[pid] == b && pid in own :: own[pid]
  }

  function OwnerOf(p: PageState): Option<Pid> {
    match p
    case With(pid) => Some(pid)
    case LentOut(t) => Some(t.pid)
    case Borrowed(pid, _) => Some(pid)
    case Orphaned(pid, _) => Some(pid)
    case Freed => None
  }

  ghost function OwnedBy(pages: map<Page, PageState>, pid: Pid): set<Page> {
    set p | p in pages && OwnerOf(pages[p]) == Some(pid)
  }

  ghost function Spent(homes: map<Pid, Budget>, own: map<Pid, nat>, calls: map<Id, OpenCall>, b: Budget): nat {
    Sum(OwnIn(homes, own, b)) + Sum(CallsOf(calls, b))
  }

  /** Every budget's use is its processes' frames and its open calls' cost, within its limit. */
  ghost predicate Balanced(
      homes: map<Pid, Budget>, own: map<Pid, nat>, calls: map<Id, OpenCall>, used: map<Budget, nat>,
      limit: map<Budget, nat>) {
    forall b :: b in used ==> b in limit && used[b] <= limit[b] && used[b] == Spent(homes, own, calls, b)
  }

  /** Every process has a budget, and is counted at least the pages it owns here. */
  ghost predicate Owning(
      homes: map<Pid, Budget>, own: map<Pid, nat>, used: map<Budget, nat>, pages: map<Page, PageState>) {
    && own.Keys == homes.Keys
    && (forall pid :: pid in homes ==> homes[pid] in used && |OwnedBy(pages, pid)| <= own[pid])
  }

  /** An open call is held by its server thread, pays from its server's budget, and is waited for by its
      caller while it waits.
    */
  ghost predicate HeldBy(threads: map<Thread, ThreadState>, homes: map<Pid, Budget>, id: Id, c: OpenCall) {
    && c.caller != c.server && c.server in threads && id in threads[c.server].held
    && c.server.pid in homes && c.payer == homes[c.server.pid] && c.caller.pid in homes
    && (c.waiting ==> c.caller in threads && threads[c.caller].wait == AwaitingReply(id))
  }

  /** A thread holds each of its calls once, and waits only for a call that waits for it. */
  ghost predicate Holds(calls: map<Id, OpenCall>, homes: map<Pid, Budget>, t: Thread, x: ThreadState) {
    && t.pid in homes && Once(x.held)
    && (forall id :: id in x.held ==> id in calls && calls[id].server == t)
    && (x.wait.AwaitingReply? ==> x.wait.id in calls && calls[x.wait.id].waiting && calls[x.wait.id].caller == t)
  }

  ghost predicate Held(threads: map<Thread, ThreadState>, calls: map<Id, OpenCall>, homes: map<Pid, Budget>) {
    && (forall id :: id in calls ==> HeldBy(threads, homes, id, calls[id]))
    && (forall t :: t in threads ==> Holds(calls, homes, t, threads[t]))
  }

  /** A call waits until it is abandoned, owes a notice only once it is, and is told of once. */
  ghost predicate Flagged(calls: map<Id, OpenCall>, told: set<Id>, next: Id) {
    && (forall id :: id in calls ==>
          && id < next && (calls[id].waiting <==> !calls[id].abandoned)
          && (calls[id].notice ==> calls[id].abandoned && id !in told) && (calls[id].waiting ==> id !in told))
    && (forall id :: id in told ==> id < next)
  }

  datatype Kind = ByEndpoint | ByStamp | ByNotice

  /** The list a call belongs on, by its flags. */
  function KeyOf(c: OpenCall, kind: Kind): Option<nat> {
    match kind
    case ByEndpoint => if c.waiting then Some(c.endpoint) else None
    case ByStamp => if c.waiting then Some(c.stamp) else None
    case ByNotice => if c.notice then Some(c.endpoint) else None
  }

  /** The lists of one kind hold exactly the calls whose flags put them there, each once. */
  ghost predicate Exact(calls: map<Id, OpenCall>, lists: map<nat, seq<Id>>, kind: Kind) {
    && (forall k: nat, id: Id :: id in ListOf(lists, k) <==> id in calls && KeyOf(calls[id], kind) == Some(k))
    && (forall k: nat :: Once(ListOf(lists, k)))
  }

  function LendState(c: OpenCall, id: Id): PageState {
    if c.waiting then Borrowed(c.caller.pid, id) else Orphaned(c.server.pid, id)
  }

  /** The pages of `lend` are all in state `st`, each once. */
  ghost predicate Lent(pages: map<Page, PageState>, lend: seq<Page>, st: PageState) {
    Once(lend) && forall p :: p in lend ==> p in pages && pages[p] == st
  }

  /** A lend's pages are its call's, and a message's its sender's. A page out of its owner's hands is in the
      lend of the one call, or the one message, its state names.
    */
  ghost predicate Paged(threads: map<Thread, ThreadState>, calls: map<Id, OpenCall>, pages: map<Page, PageState>) {
    && (forall id :: id in calls ==> Lent(pages, calls[id].lend, LendState(calls[id], id)))
    && (forall t :: t in threads && threads[t].wait.Sending? ==> Lent(pages, threads[t].wait.lend, LentOut(t)))
    && (forall p :: p in pages ==> InUse(threads, calls, p, pages[p]))
  }

  ghost predicate InUse(threads: map<Thread, ThreadState>, calls: map<Id, OpenCall>, p: Page, st: PageState) {
    match st
    case Borrowed(_, id) => id in calls && p in calls[id].lend
    case Orphaned(_, id) => id in calls && p in calls[id].lend
    case LentOut(t) => t in threads && threads[t].wait.Sending? && p in threads[t].wait.lend
    case _ => true
  }

  ghost predicate Sound(s: State) {
    && Held(s.threads, s.calls, s.homes) && Flagged(s.calls, s.told, s.next) && Paged(s.threads, s.calls, s.pages)
    && Exact(s.calls, s.opens, ByEndpoint) && Exact(s.calls, s.taken, ByStamp) && Exact(s.calls, s.notices, ByNotice)
    && Balanced(s.homes, s.own, s.calls, s.used, s.limit) && Owning(s.homes, s.own, s.used, s.pages)
  }

  // --- A list after one call's flags change ------------------------------------------------------------------------

  function Relist(lists: map<nat, seq<Id>>, from: Option<nat>, to: Option<nat>, id: Id): map<nat, seq<Id>> {
    var less := if from.Some? then Delist(lists, from.value, id) else lists;
    if to.Some? then Enlist(less, to.value, id) else less
  }

  lemma {:induction false} ExactPut(calls: map<Id, OpenCall>, lists: map<nat, seq<Id>>, kind: Kind, id: Id, c: OpenCall)
    requires Exact(calls, lists, kind) && id !in calls
    ensures Exact(calls[id := c], Relist(lists, None, KeyOf(c, kind), id), kind)
  {
    if KeyOf(c, kind).Some? { EnlistOnce(lists, KeyOf(c, kind).value, id); }
  }

  lemma {:induction false} ExactDrop(calls: map<Id, OpenCall>, lists: map<nat, seq<Id>>, kind: Kind, id: Id)
    requires Exact(calls, lists, kind) && id in calls
    ensures Exact(calls - {id}, Relist(lists, KeyOf(calls[id], kind), None, id), kind)
  {
    hide Delist, Once, ListOf;
    if KeyOf(calls[id], kind).Some? { DelistOnce(lists, KeyOf(calls[id], kind).value, id); }
    var lists' := Relist(lists, KeyOf(calls[id], kind), None, id);
    forall k: nat, x: Id ensures x in ListOf(lists', k) <==> x in calls - {id} && KeyOf(calls[x], kind) == Some(k) {
      assert x in ListOf(lists, k) <==> x in calls && KeyOf(calls[x], kind) == Some(k);
    }
  }

  lemma {:induction false} ExactSwap(
      calls: map<Id, OpenCall>, lists: map<nat, seq<Id>>, kind: Kind, id: Id, c: OpenCall)
    requires Exact(calls, lists, kind) && id in calls
    ensures Exact(calls[id := c], Relist(lists, KeyOf(calls[id], kind), KeyOf(c, kind), id), kind)
  {
    hide Exact;
    ExactDrop(calls, lists, kind, id);
    var less := Relist(lists, KeyOf(calls[id], kind), None, id);
    ExactPut(calls - {id}, less, kind, id, c);
    assert calls[id := c] == (calls - {id})[id := c];
  }

  lemma {:induction false} EnlistOnce(lists: map<nat, seq<Id>>, k: nat, x: Id)
    requires x !in ListOf(lists, k)
    ensures forall j: nat :: Once(ListOf(lists, j)) ==> Once(ListOf(Enlist(lists, k, x), j))
    ensures forall j: nat, y: Id :: y in ListOf(Enlist(lists, k, x), j) <==> y in ListOf(lists, j) || (j == k && y == x)
  {
    var s := ListOf(lists, k);
    if Once(s) {
      forall i, j | 0 <= i < |[x] + s| && 0 <= j < |[x] + s| && ([x] + s)[i] == ([x] + s)[j] ensures i == j {
        if i > 0 { assert ([x] + s)[i] == s[i - 1]; }
        if j > 0 { assert ([x] + s)[j] == s[j - 1]; }
      }
    }
  }

  lemma {:induction false} DelistOnce(lists: map<nat, seq<Id>>, k: nat, x: Id)
    ensures forall j: nat :: Once(ListOf(lists, j)) ==> Once(ListOf(Delist(lists, k, x), j))
    ensures forall j: nat, y: Id :: y in ListOf(Delist(lists, k, x), j) <==>
              y in ListOf(lists, j) && !(j == k && y == x)
  {
    if Once(ListOf(lists, k)) { WithoutOnce(ListOf(lists, k), x); }
  }

  // --- One entry's share of the sums --------------------------------------------------------------------------------

  lemma {:induction false} CallsPut(calls: map<Id, OpenCall>, id: Id, c: OpenCall, b: Budget)
    requires id !in calls
    ensures Sum(CallsOf(calls[id := c], b)) == Sum(CallsOf(calls, b)) + if c.payer == b then Cost(c) else 0
  {
    var m, m' := CallsOf(calls, b), CallsOf(calls[id := c], b);
    if c.payer == b {
      assert m' == m[id := Cost(c)];
      SumPut(m, id, Cost(c));
      assert m - {id} == m;
    } else {
      assert m' == m;
    }
  }

  lemma {:induction false} CallsDrop(calls: map<Id, OpenCall>, id: Id, b: Budget)
    requires id in calls
    ensures Sum(CallsOf(calls, b)) == Sum(CallsOf(calls - {id}, b))
            + if calls[id].payer == b then Cost(calls[id]) else 0
  {
    assert calls == (calls - {id})[id := calls[id]];
    CallsPut(calls - {id}, id, calls[id], b);
  }

  lemma {:induction false} CallsSwap(calls: map<Id, OpenCall>, id: Id, c: OpenCall, b: Budget)
    requires id in calls && c.payer == calls[id].payer
    ensures Sum(CallsOf(calls[id := c], b)) + (if c.payer == b then Cost(calls[id]) else 0)
         == Sum(CallsOf(calls, b)) + if c.payer == b then Cost(c) else 0
  {
    CallsDrop(calls, id, b);
    assert calls[id := c] == (calls - {id})[id := c];
    CallsPut(calls - {id}, id, c, b);
  }

  lemma {:induction false} OwnSet(homes: map<Pid, Budget>, own: map<Pid, nat>, pid: Pid, n: nat, b: Budget)
    requires pid in homes && pid in own
    ensures Sum(OwnIn(homes, own[pid := n], b)) + (if homes[pid] == b then own[pid] else 0)
         == Sum(OwnIn(homes, own, b)) + if homes[pid] == b then n else 0
  {
    var m, m' := OwnIn(homes, own, b), OwnIn(homes, own[pid := n], b);
    if homes[pid] == b {
      assert m' == m[pid := n];
      SumChange(m, pid, n);
    } else {
      assert m' == m;
    }
  }

  /** A process's frames are part of its budget's use. */
  lemma {:induction false} OwnWithin(homes: map<Pid, Budget>, own: map<Pid, nat>, pid: Pid)
    requires pid in homes && pid in own
    ensures own[pid] <= Sum(OwnIn(homes, own, homes[pid]))
  {
    SumTake(OwnIn(homes, own, homes[pid]), pid);
  }

  lemma {:induction false} CostWithin(calls: map<Id, OpenCall>, id: Id)
    requires id in calls
    ensures Cost(calls[id]) <= Sum(CallsOf(calls, calls[id].payer))
  {
    SumTake(CallsOf(calls, calls[id].payer), id);
  }

  // --- Pages ---------------------------------------------------------------------------------------------------------

  function Marked(pages: map<Page, PageState>, lend: seq<Page>, st: PageState): map<Page, PageState> {
    map p | p in pages :: if p in lend then st else pages[p]
  }

  ghost function Pages(lend: seq<Page>): set<Page> { set p | p in lend }

  lemma {:induction false} PagesSize(lend: seq<Page>)
    requires Once(lend)
    ensures |Pages(lend)| == |lend|
  {
    if lend != [] {
      var n := |lend| - 1;
      var init := lend[..n];
      PagesSize(init);
      assert lend == init + [lend[n]];
      assert Pages(lend) == Pages(init) + {lend[n]};
      assert lend[n] !in Pages(init);
    } else {
      assert Pages(lend) == {};
    }
  }

  /** A lend all of one owner's goes to another: each has so many the fewer, or the more. */
  lemma {:induction false} MarkedOwners(
      pages: map<Page, PageState>, lend: seq<Page>, st: PageState, from: Pid, pid: Pid)
    requires Once(lend) && forall p :: p in lend ==> p in pages && OwnerOf(pages[p]) == Some(from)
    ensures |OwnedBy(Marked(pages, lend, st), pid)| + (if pid == from then |lend| else 0)
         == |OwnedBy(pages, pid)| + if OwnerOf(st) == Some(pid) then |lend| else 0
  {
    hide Marked, OwnedBy, OwnerOf;
    PagesSize(lend);
    OwnedBefore(pages, lend, from, pid);
    OwnedAfter(pages, lend, st, from, pid);
  }

  lemma {:induction false} OwnedBefore(pages: map<Page, PageState>, lend: seq<Page>, from: Pid, pid: Pid)
    requires forall p :: p in lend ==> p in pages && OwnerOf(pages[p]) == Some(from)
    ensures |OwnedBy(pages, pid)| == |OwnedBy(pages, pid) - Pages(lend)| + if pid == from then |Pages(lend)| else 0
  {
    hide OwnerOf;
    if pid == from {
      assert OwnedBy(pages, pid) == (OwnedBy(pages, pid) - Pages(lend)) + Pages(lend);
    } else {
      assert OwnedBy(pages, pid) == OwnedBy(pages, pid) - Pages(lend);
    }
  }

  lemma {:induction false} OwnedAfter(pages: map<Page, PageState>, lend: seq<Page>, st: PageState, from: Pid, pid: Pid)
    requires forall p :: p in lend ==> p in pages && OwnerOf(pages[p]) == Some(from)
    ensures |OwnedBy(Marked(pages, lend, st), pid)|
         == |OwnedBy(pages, pid) - Pages(lend)| + if OwnerOf(st) == Some(pid) then |Pages(lend)| else 0
  {
    hide OwnerOf;
    var after, rest := OwnedBy(Marked(pages, lend, st), pid), OwnedBy(pages, pid) - Pages(lend);
    if OwnerOf(st) == Some(pid) {
      assert after == rest + Pages(lend);
    } else {
      assert after == rest;
    }
  }

  // --- Delivery (R3, R4, R4a) ----------------------------------------------------------------------------------------

  ghost predicate CanDeliver(s: State, t: Thread, r: Thread) {
    && t in s.threads && r in s.threads && s.threads[t].wait.Sending?
    && s.threads[r].wait == Receiving(s.threads[t].wait.endpoint)
  }

  /** What the receiving budget must pay: the open call's page, the lend, and `extra` pages of tables. */
  function Need(s: State, t: Thread, extra: nat): nat
    requires t in s.threads && s.threads[t].wait.Sending?
  {
    1 + |s.threads[t].wait.lend| + extra
  }

  /** The table pages a call brings: `growth` for its handles, none if they would take the receiver past
      `MAX_HANDLES`, and `tables` to map its lend, if there is one and an address is free for it.
    */
  function Extra(lend: seq<Page>, address: bool, growth: Option<nat>, tables: nat): Option<nat> {
    if growth.None? || (lend != [] && !address) then None
    else Some(growth.value + if lend == [] then 0 else tables)
  }

  function NewCall(s: State, t: Thread, r: Thread): OpenCall
    requires t in s.threads && s.threads[t].wait.Sending? && r.pid in s.homes
  {
    var w := s.threads[t].wait;
    OpenCall(t, r, w.endpoint, w.stamp, true, false, false, w.lend, s.homes[r.pid])
  }

  function OpenedThreads(s: State, t: Thread, r: Thread): map<Thread, ThreadState>
    requires t in s.threads && r in s.threads
  {
    s.threads[t := s.threads[t].(wait := AwaitingReply(s.next))][r := ThreadState(Idle, s.threads[r].held + [s.next])]
  }

  function Opened(s: State, t: Thread, r: Thread, extra: nat): State
    requires t in s.threads && r in s.threads && s.threads[t].wait.Sending?
    requires r.pid in s.homes && r.pid in s.own && s.homes[r.pid] in s.used
  {
    var w, id, payer, c := s.threads[t].wait, s.next, s.homes[r.pid], NewCall(s, t, r);
    s.(threads := OpenedThreads(s, t, r), calls := s.calls[id := c], next := id + 1,
       opens := Relist(s.opens, None, KeyOf(c, ByEndpoint), id), taken := Relist(s.taken, None, KeyOf(c, ByStamp), id),
       notices := Relist(s.notices, None, KeyOf(c, ByNotice), id),
       pages := Marked(s.pages, w.lend, Borrowed(t.pid, id)),
       own := s.own[r.pid := s.own[r.pid] + extra],
       used := s.used[payer := s.used[payer] + Need(s, t, extra)])
  }

  lemma {:induction false} OpenedKeeps(s: State, t: Thread, r: Thread, extra: nat)
    requires Sound(s) && CanDeliver(s, t, r)
    requires r.pid in s.homes && s.homes[r.pid] in s.used && s.homes[r.pid] in s.limit
    requires s.used[s.homes[r.pid]] + Need(s, t, extra) <= s.limit[s.homes[r.pid]]
    ensures r.pid in s.own && Sound(Opened(s, t, r, extra))
  {
    hide Held, Flagged, Exact, Paged, Balanced, Relist, Marked;
    var c := NewCall(s, t, r);
    NextIsNew(s);
    OpenedHeld(s, t, r);
    ExactPut(s.calls, s.opens, ByEndpoint, s.next, c);
    ExactPut(s.calls, s.taken, ByStamp, s.next, c);
    ExactPut(s.calls, s.notices, ByNotice, s.next, c);
    OpenedFlagged(s, c);
    OpenedPaged(s, t, r);
    OpenedBalanced(s, t, r, extra);
    OpenedOwning(s, t, r, extra);
  }

  lemma {:induction false} NextIsNew(s: State)
    requires Flagged(s.calls, s.told, s.next)
    ensures s.next !in s.calls
  {
  }

  lemma {:induction false} OpenedFlagged(s: State, c: OpenCall)
    requires Flagged(s.calls, s.told, s.next) && c.waiting && !c.abandoned && !c.notice
    ensures Flagged(s.calls[s.next := c], s.told, s.next + 1)
  {
  }

  lemma {:induction false} OpenedHeld(s: State, t: Thread, r: Thread)
    requires Held(s.threads, s.calls, s.homes) && s.next !in s.calls && CanDeliver(s, t, r) && r.pid in s.homes
    ensures Held(OpenedThreads(s, t, r), s.calls[s.next := NewCall(s, t, r)], s.homes)
  {
    var threads, calls := OpenedThreads(s, t, r), s.calls[s.next := NewCall(s, t, r)];
    assert Holds(s.calls, s.homes, t, s.threads[t]) && Holds(s.calls, s.homes, r, s.threads[r]);
    forall id | id in calls ensures HeldBy(threads, s.homes, id, calls[id]) {
      if id != s.next { assert HeldBy(s.threads, s.homes, id, s.calls[id]); }
    }
    forall u | u in threads ensures Holds(calls, s.homes, u, threads[u]) {
      assert Holds(s.calls, s.homes, u, s.threads[u]);
      SnocOnce(s.threads[r].held, s.next);
    }
  }

  lemma {:induction false} SnocOnce(s: seq<Id>, x: Id)
    ensures Once(s) && x !in s ==> Once(s + [x])
  {
  }

  lemma {:induction false} OpenedPaged(s: State, t: Thread, r: Thread)
    requires Paged(s.threads, s.calls, s.pages) && s.next !in s.calls && CanDeliver(s, t, r) && r.pid in s.homes
    ensures Paged(OpenedThreads(s, t, r), s.calls[s.next := NewCall(s, t, r)],
                  Marked(s.pages, s.threads[t].wait.lend, Borrowed(t.pid, s.next)))
  {
    var lend := s.threads[t].wait.lend;
    var threads, calls, pages := OpenedThreads(s, t, r), s.calls[s.next := NewCall(s, t, r)],
      Marked(s.pages, lend, Borrowed(t.pid, s.next));
    assert Lent(s.pages, lend, LentOut(t));
    forall id | id in calls ensures Lent(pages, calls[id].lend, LendState(calls[id], id)) {
      if id != s.next { assert Lent(s.pages, s.calls[id].lend, LendState(s.calls[id], id)); }
    }
    forall u | u in threads && threads[u].wait.Sending? ensures Lent(pages, threads[u].wait.lend, LentOut(u)) {
      assert Lent(s.pages, s.threads[u].wait.lend, LentOut(u));
    }
    forall p | p in pages ensures InUse(threads, calls, p, pages[p]) {
      assert InUse(s.threads, s.calls, p, s.pages[p]);
    }
  }

  lemma {:induction false} OpenedBalanced(s: State, t: Thread, r: Thread, extra: nat)
    requires Balanced(s.homes, s.own, s.calls, s.used, s.limit) && s.next !in s.calls && CanDeliver(s, t, r)
    requires r.pid in s.homes && r.pid in s.own && s.homes[r.pid] in s.limit && s.homes[r.pid] in s.used
    requires s.used[s.homes[r.pid]] + Need(s, t, extra) <= s.limit[s.homes[r.pid]]
    ensures Balanced(s.homes, s.own[r.pid := s.own[r.pid] + extra], s.calls[s.next := NewCall(s, t, r)],
                     s.used[s.homes[r.pid] := s.used[s.homes[r.pid]] + Need(s, t, extra)], s.limit)
  {
    hide OwnIn, CallsOf, Sum;
    var own, calls := s.own[r.pid := s.own[r.pid] + extra], s.calls[s.next := NewCall(s, t, r)];
    forall b | b in s.used
      ensures Spent(s.homes, own, calls, b) == Spent(s.homes, s.own, s.calls, b)
              + if b == s.homes[r.pid] then Need(s, t, extra) else 0
    {
      CallsPut(s.calls, s.next, NewCall(s, t, r), b);
      OwnSet(s.homes, s.own, r.pid, s.own[r.pid] + extra, b);
    }
  }

  lemma {:induction false} OpenedOwning(s: State, t: Thread, r: Thread, extra: nat)
    requires Owning(s.homes, s.own, s.used, s.pages) && Paged(s.threads, s.calls, s.pages) && CanDeliver(s, t, r)
    requires r.pid in s.homes
    ensures Owning(s.homes, s.own[r.pid := s.own[r.pid] + extra],
                   s.used[s.homes[r.pid] := s.used[s.homes[r.pid]] + Need(s, t, extra)],
                   Marked(s.pages, s.threads[t].wait.lend, Borrowed(t.pid, s.next)))
  {
    hide OwnedBy, Marked;
    var lend := s.threads[t].wait.lend;
    assert Lent(s.pages, lend, LentOut(t));
    forall pid | pid in s.homes
      ensures |OwnedBy(Marked(s.pages, lend, Borrowed(t.pid, s.next)), pid)| == |OwnedBy(s.pages, pid)|
    {
      MarkedOwners(s.pages, lend, Borrowed(t.pid, s.next), t.pid, pid);
    }
  }

  // --- Abandonment (R3) ----------------------------------------------------------------------------------------------

  function Orphan(c: OpenCall): OpenCall { c.(waiting := false, abandoned := true, notice := true) }

  function Waiting(threads: map<Thread, ThreadState>, t: Thread, w: Wait): map<Thread, ThreadState> {
    if t in threads then threads[t := threads[t].(wait := w)] else threads
  }

  /** `n` pages of `from`'s are `to`'s. */
  function Moved(own: map<Pid, nat>, from: Pid, to: Pid, n: nat): map<Pid, nat>
    requires from in own && to in own && n <= own[from]
  {
    var less := own[from := own[from] - n];
    less[to := less[to] + n]
  }

  /** The lend is as covered as it ever was: no charge to come back or to move falls short. */
  lemma {:induction false} LendCovered(s: State, id: Id)
    requires Sound(s) && id in s.calls
    ensures var c := s.calls[id];
            && c.caller.pid in s.own && c.server.pid in s.own && c.payer in s.used && c.payer == s.homes[c.server.pid]
            && s.homes[c.caller.pid] in s.used && c.caller.pid in s.homes && c.server.pid in s.homes
            && 1 + |c.lend| <= s.used[c.payer] && c.caller != c.server
            && (c.waiting ==> |c.lend| <= s.own[c.caller.pid] && |c.lend| <= s.used[s.homes[c.caller.pid]])
            && (!c.waiting ==> |c.lend| <= s.own[c.server.pid])
  {
    hide Exact, Flagged, Sum, OwnIn, CallsOf, OwnedBy, Holds, InUse, Lent;
    var c := s.calls[id];
    assert HeldBy(s.threads, s.homes, id, c);
    assert Lent(s.pages, c.lend, LendState(c, id));
    CostWithin(s.calls, id);
    OwnWithin(s.homes, s.own, c.caller.pid);
    OwnWithin(s.homes, s.own, c.server.pid);
    assert s.used[c.payer] == Spent(s.homes, s.own, s.calls, c.payer);
    assert s.used[s.homes[c.caller.pid]] == Spent(s.homes, s.own, s.calls, s.homes[c.caller.pid]);
    LentOwned(s.pages, c.lend, LendState(c, id));
  }

  lemma {:induction false} LentOwned(pages: map<Page, PageState>, lend: seq<Page>, st: PageState)
    requires Lent(pages, lend, st) && OwnerOf(st).Some?
    ensures |lend| <= |OwnedBy(pages, OwnerOf(st).value)|
  {
    PagesSize(lend);
    var owned := OwnedBy(pages, OwnerOf(st).value);
    assert owned == Pages(lend) + (owned - Pages(lend));
  }

  function Abandoned(s: State, id: Id): State
    requires id in s.calls && s.calls[id].caller.pid in s.own && s.calls[id].server.pid in s.own
    requires s.calls[id].caller.pid in s.homes && s.homes[s.calls[id].caller.pid] in s.used
    requires |s.calls[id].lend| <= s.own[s.calls[id].caller.pid]
    requires |s.calls[id].lend| <= s.used[s.homes[s.calls[id].caller.pid]]
  {
    var c := s.calls[id];
    var n, cp, sp, d := |c.lend|, c.caller.pid, c.server.pid, Orphan(c);
    s.(threads := Waiting(s.threads, c.caller, Idle), calls := s.calls[id := d],
       opens := Relist(s.opens, KeyOf(c, ByEndpoint), KeyOf(d, ByEndpoint), id),
       taken := Relist(s.taken, KeyOf(c, ByStamp), KeyOf(d, ByStamp), id),
       notices := Relist(s.notices, KeyOf(c, ByNotice), KeyOf(d, ByNotice), id),
       pages := Marked(s.pages, c.lend, Orphaned(sp, id)), own := Moved(s.own, cp, sp, n),
       used := s.used[s.homes[cp] := s.used[s.homes[cp]] - n])
  }

  lemma {:induction false} AbandonedKeeps(s: State, id: Id)
    requires Sound(s) && id in s.calls && s.calls[id].waiting
    ensures var c := s.calls[id];
            && c.caller.pid in s.own && c.server.pid in s.own && c.caller.pid in s.homes
            && s.homes[c.caller.pid] in s.used
            && |c.lend| <= s.own[c.caller.pid] && |c.lend| <= s.used[s.homes[c.caller.pid]]
            && Sound(Abandoned(s, id))
  {
    hide Held, Flagged, Exact, Paged, Balanced, Owning, Relist, Marked, Moved;
    var c := s.calls[id];
    LendCovered(s, id);
    ExactSwap(s.calls, s.opens, ByEndpoint, id, Orphan(c));
    ExactSwap(s.calls, s.taken, ByStamp, id, Orphan(c));
    ExactSwap(s.calls, s.notices, ByNotice, id, Orphan(c));
    AbandonedHeld(s, id);
    AbandonedPaged(s, id);
    AbandonedBalanced(s, id);
    AbandonedOwning(s, id);
  }

  lemma {:induction false} AbandonedHeld(s: State, id: Id)
    requires Held(s.threads, s.calls, s.homes) && Flagged(s.calls, s.told, s.next) && id in s.calls
    requires s.calls[id].waiting
    ensures Held(Waiting(s.threads, s.calls[id].caller, Idle), s.calls[id := Orphan(s.calls[id])], s.homes)
    ensures Flagged(s.calls[id := Orphan(s.calls[id])], s.told, s.next)
  {
    var c := s.calls[id];
    var threads, calls := Waiting(s.threads, c.caller, Idle), s.calls[id := Orphan(c)];
    assert HeldBy(s.threads, s.homes, id, c);
    forall x | x in calls ensures HeldBy(threads, s.homes, x, calls[x]) {
      assert HeldBy(s.threads, s.homes, x, s.calls[x]);
    }
    forall u | u in threads ensures Holds(calls, s.homes, u, threads[u]) {
      assert Holds(s.calls, s.homes, u, s.threads[u]);
    }
  }

  lemma {:induction false} AbandonedPaged(s: State, id: Id)
    requires Paged(s.threads, s.calls, s.pages) && id in s.calls && s.calls[id].waiting
    requires Held(s.threads, s.calls, s.homes)
    ensures Paged(Waiting(s.threads, s.calls[id].caller, Idle), s.calls[id := Orphan(s.calls[id])],
                  Marked(s.pages, s.calls[id].lend, Orphaned(s.calls[id].server.pid, id)))
  {
    var c := s.calls[id];
    var threads, calls, pages := Waiting(s.threads, c.caller, Idle), s.calls[id := Orphan(c)],
      Marked(s.pages, c.lend, Orphaned(c.server.pid, id));
    assert HeldBy(s.threads, s.homes, id, c);
    assert Lent(s.pages, c.lend, LendState(c, id));
    MarkedPaged(s.threads, s.calls, s.pages, threads, calls, pages, c.lend, id);
  }

  /** One call's lend changes state; every other page, and every other lend, is as it was. */
  lemma {:induction false} MarkedPaged(
      threads: map<Thread, ThreadState>, calls: map<Id, OpenCall>, pages: map<Page, PageState>,
      threads': map<Thread, ThreadState>, calls': map<Id, OpenCall>, pages': map<Page, PageState>, lend: seq<Page>,
      id: Id)
    requires Paged(threads, calls, pages) && id in calls && lend == calls[id].lend
    requires pages'.Keys == pages.Keys && (forall p :: p in pages && p !in lend ==> pages'[p] == pages[p])
    requires calls' - {id} == calls - {id}
    requires forall t :: t in threads' && threads'[t].wait.Sending? ==>
               t in threads && threads[t].wait == threads'[t].wait
    requires forall t :: t in threads && threads[t].wait.Sending? ==>
               t in threads' && threads[t].wait == threads'[t].wait
    requires id in calls' ==> Lent(pages', calls'[id].lend, LendState(calls'[id], id)) && calls'[id].lend == lend
    requires forall p :: p in lend && p in pages' ==> InUse(threads', calls', p, pages'[p])
    ensures Paged(threads', calls', pages')
  {
    forall x | x in calls' ensures Lent(pages', calls'[x].lend, LendState(calls'[x], x)) {
      if x != id {
        assert x in calls' - {id} && calls'[x] == calls[x];
        OtherLend(calls, pages, pages', lend, id, x);
      }
    }
    forall u | u in threads' && threads'[u].wait.Sending? ensures Lent(pages', threads'[u].wait.lend, LentOut(u)) {
      assert Lent(pages, threads[u].wait.lend, LentOut(u)) && Lent(pages, lend, LendState(calls[id], id));
    }
    forall p | p in pages' ensures InUse(threads', calls', p, pages'[p]) {
      if p !in lend {
        assert InUse(threads, calls, p, pages[p]);
        StillInUse(threads, calls, threads', calls', p, pages[p], id, lend);
      }
    }
  }

  lemma {:induction false} OtherLend(
      calls: map<Id, OpenCall>, pages: map<Page, PageState>, pages': map<Page, PageState>, lend: seq<Page>, id: Id,
      x: Id)
    requires id in calls && x in calls && x != id && lend == calls[id].lend && pages'.Keys == pages.Keys
    requires Lent(pages, lend, LendState(calls[id], id)) && Lent(pages, calls[x].lend, LendState(calls[x], x))
    requires forall p :: p in pages && p !in lend ==> pages'[p] == pages[p]
    ensures Lent(pages', calls[x].lend, LendState(calls[x], x))
  {
  }

  lemma {:induction false} StillInUse(
      threads: map<Thread, ThreadState>, calls: map<Id, OpenCall>, threads': map<Thread, ThreadState>,
      calls': map<Id, OpenCall>,
      p: Page, st: PageState, id: Id, lend: seq<Page>)
    requires InUse(threads, calls, p, st) && p !in lend && id in calls && lend == calls[id].lend
    requires calls' - {id} == calls - {id}
    requires forall t :: t in threads && threads[t].wait.Sending? ==>
               t in threads' && threads[t].wait == threads'[t].wait
    ensures InUse(threads', calls', p, st)
  {
    match st {
      case Borrowed(_, x) => assert x != id && x in calls - {id};
      case Orphaned(_, x) => assert x != id && x in calls - {id};
      case _ =>
    }
  }

  lemma {:induction false} AbandonedBalanced(s: State, id: Id)
    requires Balanced(s.homes, s.own, s.calls, s.used, s.limit) && id in s.calls && s.calls[id].waiting
    requires var c := s.calls[id];
             && c.caller.pid in s.own && c.server.pid in s.own && c.caller.pid in s.homes && c.server.pid in s.homes
             && c.payer == s.homes[c.server.pid] && s.homes[c.caller.pid] in s.used
             && |c.lend| <= s.own[c.caller.pid] && |c.lend| <= s.used[s.homes[c.caller.pid]]
    ensures var c := s.calls[id];
            Balanced(s.homes, Moved(s.own, c.caller.pid, c.server.pid, |c.lend|), s.calls[id := Orphan(c)],
                     s.used[s.homes[c.caller.pid] := s.used[s.homes[c.caller.pid]] - |c.lend|], s.limit)
  {
    hide OwnIn, CallsOf, Sum;
    var c := s.calls[id];
    var n, cp, sp := |c.lend|, c.caller.pid, c.server.pid;
    var own, calls := Moved(s.own, cp, sp, n), s.calls[id := Orphan(c)];
    forall b | b in s.used
      ensures Spent(s.homes, own, calls, b) + (if b == s.homes[cp] then n else 0) == Spent(s.homes, s.own, s.calls, b)
    {
      CallsSwap(s.calls, id, Orphan(c), b);
      var less := s.own[cp := s.own[cp] - n];
      OwnSet(s.homes, s.own, cp, s.own[cp] - n, b);
      OwnSet(s.homes, less, sp, less[sp] + n, b);
    }
  }

  lemma {:induction false} AbandonedOwning(s: State, id: Id)
    requires Owning(s.homes, s.own, s.used, s.pages) && Paged(s.threads, s.calls, s.pages) && id in s.calls
    requires s.calls[id].waiting
    requires var c := s.calls[id];
             && c.caller.pid in s.own && c.server.pid in s.own && c.caller.pid in s.homes
             && |c.lend| <= s.own[c.caller.pid] && s.homes[c.caller.pid] in s.used
             && |c.lend| <= s.used[s.homes[c.caller.pid]]
    ensures var c := s.calls[id];
            Owning(s.homes, Moved(s.own, c.caller.pid, c.server.pid, |c.lend|),
                   s.used[s.homes[c.caller.pid] := s.used[s.homes[c.caller.pid]] - |c.lend|],
                   Marked(s.pages, c.lend, Orphaned(c.server.pid, id)))
  {
    hide OwnedBy, Marked;
    var c := s.calls[id];
    assert Lent(s.pages, c.lend, LendState(c, id));
    var pages := Marked(s.pages, c.lend, Orphaned(c.server.pid, id));
    forall pid | pid in s.homes
      ensures |OwnedBy(pages, pid)| + (if pid == c.caller.pid then |c.lend| else 0)
           == |OwnedBy(s.pages, pid)| + if pid == c.server.pid then |c.lend| else 0
    {
      MarkedOwners(s.pages, c.lend, Orphaned(c.server.pid, id), c.caller.pid, pid);
    }
  }

  // --- The end of an open call: `reply`, or its server thread's end (R3, R4b) ----------------------------------------

  function ClosedThreads(threads: map<Thread, ThreadState>, id: Id, c: OpenCall): map<Thread, ThreadState>
    requires c.server in threads
  {
    var less := threads[c.server := threads[c.server].(held := Without(threads[c.server].held, id))];
    if c.waiting then Waiting(less, c.caller, Idle) else less
  }

  /** Its pages back with the caller, or, abandoned, freed by the server. */
  function ClosedState(c: OpenCall): PageState { if c.waiting then With(c.caller.pid) else Freed }

  function Closed(s: State, id: Id): State
    requires id in s.calls && s.calls[id].server in s.threads && s.calls[id].server.pid in s.own
    requires s.calls[id].payer in s.used
    requires 1 + |s.calls[id].lend| <= s.used[s.calls[id].payer]
    requires !s.calls[id].waiting ==> |s.calls[id].lend| <= s.own[s.calls[id].server.pid]
  {
    var c := s.calls[id];
    s.(threads := ClosedThreads(s.threads, id, c), calls := s.calls - {id},
       opens := Relist(s.opens, KeyOf(c, ByEndpoint), None, id), taken := Relist(s.taken, KeyOf(c, ByStamp), None, id),
       notices := Relist(s.notices, KeyOf(c, ByNotice), None, id),
       pages := Marked(s.pages, c.lend, ClosedState(c)),
       own := if c.waiting then s.own else s.own[c.server.pid := s.own[c.server.pid] - |c.lend|],
       used := s.used[c.payer := s.used[c.payer] - (1 + |c.lend|)])
  }

  lemma {:induction false} ClosedKeeps(s: State, id: Id)
    requires Sound(s) && id in s.calls
    ensures var c := s.calls[id];
            && c.server in s.threads && c.server.pid in s.own && c.payer in s.used && 1 + |c.lend| <= s.used[c.payer]
            && (!c.waiting ==> |c.lend| <= s.own[c.server.pid])
            && Sound(Closed(s, id))
  {
    hide Held, Flagged, Exact, Paged, Balanced, Owning, Relist, Marked, ClosedThreads;
    LendCovered(s, id);
    ServerHolds(s, id);
    ExactDrop(s.calls, s.opens, ByEndpoint, id);
    ExactDrop(s.calls, s.taken, ByStamp, id);
    ExactDrop(s.calls, s.notices, ByNotice, id);
    ClosedHeld(s, id);
    ClosedPaged(s, id);
    ClosedBalanced(s, id);
    ClosedOwning(s, id);
  }

  lemma {:induction false} ServerHolds(s: State, id: Id)
    requires Held(s.threads, s.calls, s.homes) && id in s.calls
    ensures HeldBy(s.threads, s.homes, id, s.calls[id]) && s.calls[id].server in s.threads
  {
  }

  lemma {:induction false} ClosedHeld(s: State, id: Id)
    requires Held(s.threads, s.calls, s.homes) && Flagged(s.calls, s.told, s.next) && id in s.calls
    requires s.calls[id].server in s.threads
    ensures Held(ClosedThreads(s.threads, id, s.calls[id]), s.calls - {id}, s.homes)
    ensures Flagged(s.calls - {id}, s.told, s.next)
  {
    var c := s.calls[id];
    var threads, calls := ClosedThreads(s.threads, id, c), s.calls - {id};
    assert HeldBy(s.threads, s.homes, id, c);
    forall x | x in calls ensures HeldBy(threads, s.homes, x, calls[x]) {
      assert HeldBy(s.threads, s.homes, x, s.calls[x]);
    }
    forall u | u in threads ensures Holds(calls, s.homes, u, threads[u]) {
      assert Holds(s.calls, s.homes, u, s.threads[u]);
      WithoutOnce(s.threads[u].held, id);
    }
  }

  lemma {:induction false} ClosedPaged(s: State, id: Id)
    requires Paged(s.threads, s.calls, s.pages) && Held(s.threads, s.calls, s.homes) && id in s.calls
    requires s.calls[id].server in s.threads
    ensures Paged(ClosedThreads(s.threads, id, s.calls[id]), s.calls - {id},
                  Marked(s.pages, s.calls[id].lend, ClosedState(s.calls[id])))
  {
    var c := s.calls[id];
    var threads, calls, pages := ClosedThreads(s.threads, id, c), s.calls - {id},
      Marked(s.pages, c.lend, ClosedState(c));
    assert HeldBy(s.threads, s.homes, id, c);
    MarkedPaged(s.threads, s.calls, s.pages, threads, calls, pages, c.lend, id);
  }

  lemma {:induction false} ClosedBalanced(s: State, id: Id)
    requires Balanced(s.homes, s.own, s.calls, s.used, s.limit) && id in s.calls
    requires var c := s.calls[id];
             && c.server.pid in s.own && c.server.pid in s.homes && c.payer == s.homes[c.server.pid]
             && c.payer in s.used
             && 1 + |c.lend| <= s.used[c.payer] && (!c.waiting ==> |c.lend| <= s.own[c.server.pid])
    ensures var c := s.calls[id];
            Balanced(s.homes, if c.waiting then s.own else s.own[c.server.pid := s.own[c.server.pid] - |c.lend|],
                     s.calls - {id},
                     s.used[c.payer := s.used[c.payer] - (1 + |c.lend|)], s.limit)
  {
    hide OwnIn, CallsOf, Sum;
    var c := s.calls[id];
    var own, calls := if c.waiting then s.own else s.own[c.server.pid := s.own[c.server.pid] - |c.lend|],
      s.calls - {id};
    forall b | b in s.used
      ensures Spent(s.homes, own, calls, b) + (if b == c.payer then 1 + |c.lend| else 0)
              == Spent(s.homes, s.own, s.calls, b)
    {
      CallsDrop(s.calls, id, b);
      if !c.waiting { OwnSet(s.homes, s.own, c.server.pid, s.own[c.server.pid] - |c.lend|, b); }
    }
  }

  lemma {:induction false} ClosedOwning(s: State, id: Id)
    requires Owning(s.homes, s.own, s.used, s.pages) && Paged(s.threads, s.calls, s.pages) && id in s.calls
    requires var c := s.calls[id];
             && c.server.pid in s.own && c.payer in s.used && 1 + |c.lend| <= s.used[c.payer]
             && (!c.waiting ==> |c.lend| <= s.own[c.server.pid])
    ensures var c := s.calls[id];
            Owning(s.homes, if c.waiting then s.own else s.own[c.server.pid := s.own[c.server.pid] - |c.lend|],
                   s.used[c.payer := s.used[c.payer] - (1 + |c.lend|)], Marked(s.pages, c.lend, ClosedState(c)))
  {
    hide OwnedBy, Marked;
    var c := s.calls[id];
    assert Lent(s.pages, c.lend, LendState(c, id));
    var pages, from := Marked(s.pages, c.lend, ClosedState(c)), if c.waiting then c.caller.pid else c.server.pid;
    forall pid | pid in s.homes
      ensures |OwnedBy(pages, pid)| + (if pid == from then |c.lend| else 0)
           == |OwnedBy(s.pages, pid)| + if OwnerOf(ClosedState(c)) == Some(pid) then |c.lend| else 0
    {
      MarkedOwners(s.pages, c.lend, ClosedState(c), from, pid);
    }
  }

  // --- Waits that begin and end --------------------------------------------------------------------------------------

  /** `call`, its message queued: the pages lent with it leave the sender's hands. */
  function Queued(s: State, t: Thread, w: Wait): State
    requires w.Sending?
  {
    s.(threads := Waiting(s.threads, t, w), pages := Marked(s.pages, w.lend, LentOut(t)))
  }

  ghost predicate CanQueue(s: State, t: Thread, w: Wait) {
    t in s.threads && s.threads[t].wait.Idle? && w.Sending? && Lent(s.pages, w.lend, With(t.pid))
  }

  /** A queued message's buffer back in its sender's address space, and the sender's wait over. */
  function GivenBack(s: State, t: Thread): State
    requires t in s.threads && s.threads[t].wait.Sending?
  {
    s.(threads := Waiting(s.threads, t, Idle), pages := Marked(s.pages, s.threads[t].wait.lend, With(t.pid)))
  }

  lemma {:induction false} QueuedKeeps(s: State, t: Thread, w: Wait)
    requires Sound(s) && CanQueue(s, t, w)
    ensures Sound(Queued(s, t, w))
  {
    hide Exact, Balanced, Flagged;
    WaitHeld(s, t, w);
    QueuedPaged(s, t, w);
    SameOwners(s.pages, w.lend, With(t.pid), LentOut(t));
  }

  lemma {:induction false} GivenBackKeeps(s: State, t: Thread)
    requires Sound(s) && t in s.threads && s.threads[t].wait.Sending?
    ensures Sound(GivenBack(s, t))
  {
    hide Exact, Balanced, Flagged;
    WaitHeld(s, t, Idle);
    GivenBackPaged(s, t);
    SameOwners(s.pages, s.threads[t].wait.lend, LentOut(t), With(t.pid));
  }

  lemma {:induction false} WaitHeld(s: State, t: Thread, w: Wait)
    requires Held(s.threads, s.calls, s.homes) && t in s.threads && !s.threads[t].wait.AwaitingReply?
    requires !w.AwaitingReply?
    ensures Held(Waiting(s.threads, t, w), s.calls, s.homes)
  {
    var threads := Waiting(s.threads, t, w);
    forall x | x in s.calls ensures HeldBy(threads, s.homes, x, s.calls[x]) {
      assert HeldBy(s.threads, s.homes, x, s.calls[x]);
    }
    forall u | u in threads ensures Holds(s.calls, s.homes, u, threads[u]) {
      assert Holds(s.calls, s.homes, u, s.threads[u]);
    }
  }

  lemma {:induction false} SameOwners(pages: map<Page, PageState>, lend: seq<Page>, st: PageState, st': PageState)
    requires Lent(pages, lend, st) && OwnerOf(st).Some? && OwnerOf(st') == OwnerOf(st)
    ensures forall pid :: |OwnedBy(Marked(pages, lend, st'), pid)| == |OwnedBy(pages, pid)|
  {
    forall pid ensures |OwnedBy(Marked(pages, lend, st'), pid)| == |OwnedBy(pages, pid)| {
      MarkedOwners(pages, lend, st', OwnerOf(st).value, pid);
    }
  }

  lemma {:induction false} QueuedPaged(s: State, t: Thread, w: Wait)
    requires Paged(s.threads, s.calls, s.pages) && CanQueue(s, t, w)
    ensures Paged(Queued(s, t, w).threads, s.calls, Queued(s, t, w).pages)
  {
    var threads, pages := Queued(s, t, w).threads, Queued(s, t, w).pages;
    forall id | id in s.calls ensures Lent(pages, s.calls[id].lend, LendState(s.calls[id], id)) {
      assert Lent(s.pages, s.calls[id].lend, LendState(s.calls[id], id));
    }
    forall u | u in threads && threads[u].wait.Sending? ensures Lent(pages, threads[u].wait.lend, LentOut(u)) {
      if u != t { assert Lent(s.pages, s.threads[u].wait.lend, LentOut(u)); }
    }
    forall p | p in pages ensures InUse(threads, s.calls, p, pages[p]) {
      assert InUse(s.threads, s.calls, p, s.pages[p]);
    }
  }

  lemma {:induction false} GivenBackPaged(s: State, t: Thread)
    requires Paged(s.threads, s.calls, s.pages) && t in s.threads && s.threads[t].wait.Sending?
    ensures Paged(GivenBack(s, t).threads, s.calls, GivenBack(s, t).pages)
    ensures Lent(s.pages, s.threads[t].wait.lend, LentOut(t))
  {
    var threads, pages := GivenBack(s, t).threads, GivenBack(s, t).pages;
    assert Lent(s.pages, s.threads[t].wait.lend, LentOut(t));
    forall id | id in s.calls ensures Lent(pages, s.calls[id].lend, LendState(s.calls[id], id)) {
      assert Lent(s.pages, s.calls[id].lend, LendState(s.calls[id], id));
    }
    forall u | u in threads && threads[u].wait.Sending? ensures Lent(pages, threads[u].wait.lend, LentOut(u)) {
      assert Lent(s.pages, s.threads[u].wait.lend, LentOut(u));
    }
    forall p | p in pages ensures InUse(threads, s.calls, p, pages[p]) {
      assert InUse(s.threads, s.calls, p, s.pages[p]);
    }
  }

  /** A thread begins or stops waiting to receive. */
  lemma {:induction false} ReceiveKeeps(s: State, t: Thread, w: Wait)
    requires Sound(s) && t in s.threads && (s.threads[t].wait.Idle? || s.threads[t].wait.Receiving?)
    requires w.Idle? || w.Receiving?
    ensures Sound(s.(threads := Waiting(s.threads, t, w)))
  {
    hide Exact, Balanced, Flagged, Owning;
    WaitHeld(s, t, w);
    var threads := Waiting(s.threads, t, w);
    forall u | u in threads && threads[u].wait.Sending? ensures Lent(s.pages, threads[u].wait.lend, LentOut(u)) {
      assert Lent(s.pages, s.threads[u].wait.lend, LentOut(u));
    }
    forall p | p in s.pages ensures InUse(threads, s.calls, p, s.pages[p]) {
      assert InUse(s.threads, s.calls, p, s.pages[p]);
    }
  }

  /** A thread with no call and no wait is gone. */
  lemma {:induction false} RemovedKeeps(s: State, t: Thread)
    requires Sound(s) && t in s.threads && s.threads[t] == ThreadState(Idle, [])
    ensures Sound(s.(threads := s.threads - {t}))
  {
    hide Exact, Balanced, Flagged, Owning;
    var threads := s.threads - {t};
    forall x | x in s.calls ensures HeldBy(threads, s.homes, x, s.calls[x]) {
      assert HeldBy(s.threads, s.homes, x, s.calls[x]);
    }
    forall u | u in threads ensures Holds(s.calls, s.homes, u, threads[u]) {
      assert Holds(s.calls, s.homes, u, s.threads[u]);
    }
    forall p | p in s.pages ensures InUse(threads, s.calls, p, s.pages[p]) {
      assert InUse(s.threads, s.calls, p, s.pages[p]);
    }
  }

  // --- Notices (I15) -------------------------------------------------------------------------------------------------

  /** The notice call `id` owes leaves its endpoint's list: delivered to the thread holding the call, which
      was receiving there, or dropped with the endpoint.
    */
  function Unnoticed(s: State, id: Id, delivered: bool): State
    requires id in s.calls
  {
    var c := s.calls[id];
    var d := c.(notice := false);
    s.(calls := s.calls[id := d], notices := Relist(s.notices, KeyOf(c, ByNotice), KeyOf(d, ByNotice), id),
       told := if delivered then s.told + {id} else s.told,
       threads := if delivered then Waiting(s.threads, c.server, Idle) else s.threads)
  }

  lemma {:induction false} UnnoticedKeeps(s: State, id: Id, delivered: bool)
    requires Sound(s) && id in s.calls && s.calls[id].notice
    requires delivered ==> s.calls[id].server in s.threads && s.threads[s.calls[id].server].wait.Receiving?
    ensures Sound(Unnoticed(s, id, delivered)) && id !in s.told
  {
    hide Exact, Balanced, Owning, Paged, Held, Relist;
    var d := s.calls[id].(notice := false);
    ExactSwap(s.calls, s.notices, ByNotice, id, d);
    ExactKeep(s.calls, s.opens, ByEndpoint, id, d);
    ExactKeep(s.calls, s.taken, ByStamp, id, d);
    if delivered {
      hide Sound;
      ReceiveKeeps(s, s.calls[id].server, Idle);
    }
    NoticeGone(if delivered then s.(threads := Waiting(s.threads, s.calls[id].server, Idle)) else s, id);
  }

  lemma {:induction false} ExactKeep(
      calls: map<Id, OpenCall>, lists: map<nat, seq<Id>>, kind: Kind, id: Id, c: OpenCall)
    requires Exact(calls, lists, kind) && id in calls && KeyOf(c, kind) == KeyOf(calls[id], kind)
    ensures Exact(calls[id := c], lists, kind)
  {
  }

  /** The rest of a call does not depend on its notice. */
  lemma {:induction false} NoticeGone(s: State, id: Id)
    requires Sound(s) && id in s.calls
    ensures var calls := s.calls[id := s.calls[id].(notice := false)];
            Held(s.threads, calls, s.homes) && Paged(s.threads, calls, s.pages)
            && Balanced(s.homes, s.own, calls, s.used, s.limit)
  {
    NoticeHeld(s, id);
    NoticePaged(s, id);
    NoticeBalanced(s, id);
  }

  lemma {:induction false} NoticeHeld(s: State, id: Id)
    requires Held(s.threads, s.calls, s.homes) && id in s.calls
    ensures Held(s.threads, s.calls[id := s.calls[id].(notice := false)], s.homes)
  {
    var calls := s.calls[id := s.calls[id].(notice := false)];
    forall x | x in calls ensures HeldBy(s.threads, s.homes, x, calls[x]) {
      assert HeldBy(s.threads, s.homes, x, s.calls[x]);
    }
    forall u | u in s.threads ensures Holds(calls, s.homes, u, s.threads[u]) {
      assert Holds(s.calls, s.homes, u, s.threads[u]);
    }
  }

  lemma {:induction false} NoticePaged(s: State, id: Id)
    requires Paged(s.threads, s.calls, s.pages) && id in s.calls
    ensures Paged(s.threads, s.calls[id := s.calls[id].(notice := false)], s.pages)
  {
    var calls := s.calls[id := s.calls[id].(notice := false)];
    forall x | x in calls ensures Lent(s.pages, calls[x].lend, LendState(calls[x], x)) {
      assert Lent(s.pages, s.calls[x].lend, LendState(s.calls[x], x));
    }
    forall p | p in s.pages ensures InUse(s.threads, calls, p, s.pages[p]) {
      assert InUse(s.threads, s.calls, p, s.pages[p]);
    }
  }

  lemma {:induction false} NoticeBalanced(s: State, id: Id)
    requires Balanced(s.homes, s.own, s.calls, s.used, s.limit) && id in s.calls
    ensures Balanced(s.homes, s.own, s.calls[id := s.calls[id].(notice := false)], s.used, s.limit)
  {
    hide Sum;
    forall b | b in s.used ensures CallsOf(s.calls[id := s.calls[id].(notice := false)], b) == CallsOf(s.calls, b) {}
  }

  // --- A wait failed, a thread ended, an endpoint destroyed ----------------------------------------------------------

  /** `fail_wait`: a thread's wait is withdrawn. A queued message's lend comes back; a taken call is abandoned. */
  ghost function Unwound(s: State, t: Thread): State
    requires Sound(s) && t in s.threads
  {
    match s.threads[t].wait
    case Sending(_, _, _) => GivenBack(s, t)
    case AwaitingReply(id) => WaitedFor(s, t); AbandonedKeeps(s, id); Abandoned(s, id)
    case _ => s.(threads := Waiting(s.threads, t, Idle))
  }

  lemma {:induction false} WaitedFor(s: State, t: Thread)
    requires Sound(s) && t in s.threads && s.threads[t].wait.AwaitingReply?
    ensures var id := s.threads[t].wait.id; id in s.calls && s.calls[id].waiting && s.calls[id].caller == t
  {
    assert Holds(s.calls, s.homes, t, s.threads[t]);
  }

  lemma {:induction false} AbandonedTells(s: State, id: Id)
    requires id in s.calls && s.calls[id].caller.pid in s.own && s.calls[id].server.pid in s.own
    requires s.calls[id].caller.pid in s.homes && s.homes[s.calls[id].caller.pid] in s.used
    requires |s.calls[id].lend| <= s.own[s.calls[id].caller.pid]
    requires |s.calls[id].lend| <= s.used[s.homes[s.calls[id].caller.pid]]
    ensures Abandoned(s, id).threads == Waiting(s.threads, s.calls[id].caller, Idle)
    ensures Abandoned(s, id).calls == s.calls[id := Orphan(s.calls[id])] && Abandoned(s, id).homes == s.homes
  {
  }

  lemma {:induction false} UnwoundKeeps(s: State, t: Thread)
    requires Sound(s) && t in s.threads
    ensures Sound(Unwound(s, t)) && Unwound(s, t).threads == Waiting(s.threads, t, Idle)
    ensures Unwound(s, t).calls.Keys == s.calls.Keys
  {
    hide Sound, Unwound;
    match s.threads[t].wait {
      case Sending(_, _, _) => UnwoundSend(s, t);
      case AwaitingReply(_) => UnwoundReply(s, t);
      case _ => UnwoundReceive(s, t);
    }
  }

  lemma {:induction false} UnwoundSend(s: State, t: Thread)
    requires Sound(s) && t in s.threads && s.threads[t].wait.Sending?
    ensures Sound(Unwound(s, t)) && Unwound(s, t).threads == Waiting(s.threads, t, Idle)
    ensures Unwound(s, t).calls.Keys == s.calls.Keys
  {
    hide Sound, Marked;
    GivenBackKeeps(s, t);
  }

  lemma {:induction false} UnwoundReply(s: State, t: Thread)
    requires Sound(s) && t in s.threads && s.threads[t].wait.AwaitingReply?
    ensures Sound(Unwound(s, t)) && Unwound(s, t).threads == Waiting(s.threads, t, Idle)
    ensures Unwound(s, t).calls.Keys == s.calls.Keys
  {
    hide Sound, Abandoned;
    var id := s.threads[t].wait.id;
    WaitedFor(s, t);
    AbandonedKeeps(s, id);
    AbandonedTells(s, id);
  }

  lemma {:induction false} UnwoundReceive(s: State, t: Thread)
    requires Sound(s) && t in s.threads && (s.threads[t].wait.Idle? || s.threads[t].wait.Receiving?)
    ensures Sound(Unwound(s, t)) && Unwound(s, t).threads == Waiting(s.threads, t, Idle)
    ensures Unwound(s, t).calls.Keys == s.calls.Keys
  {
    hide Sound;
    ReceiveKeeps(s, t, Idle);
  }

  ghost function CloseOne(s: State, id: Id): State
    requires Sound(s) && id in s.calls
  {
    ClosedKeeps(s, id);
    Closed(s, id)
  }

  /** The calls thread `t` holds, each ended from the first. */
  ghost function CloseHeld(s: State, t: Thread): State
    requires Sound(s) && t in s.threads
    decreases |s.threads[t].held|
  {
    if s.threads[t].held == [] then s else
      var id := s.threads[t].held[0];
      FirstHeld(s, t);
      CloseHeld(CloseOne(s, id), t)
  }

  lemma {:induction false} FirstHeld(s: State, t: Thread)
    requires Sound(s) && t in s.threads && s.threads[t].held != []
    ensures var id := s.threads[t].held[0];
            && id in s.calls && s.calls[id].server == t && Sound(CloseOne(s, id)) && t in CloseOne(s, id).threads
            && CloseOne(s, id).threads[t] == s.threads[t].(held := Without(s.threads[t].held, id))
            && |Without(s.threads[t].held, id)| < |s.threads[t].held|
            && CloseOne(s, id).calls == s.calls - {id}
  {
    hide Sound, Relist, Marked;
    var id := s.threads[t].held[0];
    HoldsAt(s, t);
    ClosedKeeps(s, id);
    LendCovered(s, id);
    WithoutShort(s.threads[t].held[1..], id);
  }

  lemma {:induction false} HoldsAt(s: State, t: Thread)
    requires Sound(s) && t in s.threads
    ensures Holds(s.calls, s.homes, t, s.threads[t])
  {
  }

  lemma {:induction false} HeldAt(s: State, id: Id)
    requires Sound(s) && id in s.calls
    ensures HeldBy(s.threads, s.homes, id, s.calls[id])
  {
  }

  lemma {:induction false} WithoutShort(s: seq<Id>, x: Id)
    ensures |Without(s, x)| <= |s|
  {
    if s != [] { WithoutShort(s[1..], x); }
  }

  lemma {:induction false} CloseHeldKeeps(s: State, t: Thread)
    requires Sound(s) && t in s.threads
    ensures Sound(CloseHeld(s, t)) && t in CloseHeld(s, t).threads
    ensures CloseHeld(s, t).threads[t] == ThreadState(s.threads[t].wait, [])
    ensures CloseHeld(s, t).calls == map id | id in s.calls && s.calls[id].server != t :: s.calls[id]
    decreases |s.threads[t].held|
  {
    hide Sound, CloseOne, Holds;
    HoldsAt(s, t);
    if s.threads[t].held == [] {
      forall id | id in s.calls ensures s.calls[id].server != t { HeldAt(s, id); }
    } else {
      FirstHeld(s, t);
      CloseHeldKeeps(CloseOne(s, s.threads[t].held[0]), t);
    }
  }

  /** R4b: what a thread waited for is withdrawn, every call it holds ends, and it is gone. */
  ghost function ThreadEnded(s: State, t: Thread): State
    requires Sound(s) && t in s.threads
  {
    UnwoundKeeps(s, t);
    var closed := CloseHeld(Unwound(s, t), t);
    closed.(threads := closed.threads - {t})
  }

  lemma {:induction false} ThreadEndedKeeps(s: State, t: Thread)
    requires Sound(s) && t in s.threads
    ensures Sound(ThreadEnded(s, t)) && t !in ThreadEnded(s, t).threads
    ensures forall id :: id in ThreadEnded(s, t).calls <==>
              id in Unwound(s, t).calls && Unwound(s, t).calls[id].server != t
  {
    hide Sound, Unwound, CloseHeld;
    UnwoundKeeps(s, t);
    CloseHeldKeeps(Unwound(s, t), t);
    RemovedKeeps(CloseHeld(Unwound(s, t), t), t);
  }

  /** The calls waiting on an endpoint, or that bear a stamp. */
  function Callers(s: State, kind: Kind, k: nat): seq<Id> { ListOf(if kind == ByStamp then s.taken else s.opens, k) }

  /** `fail_callers`: every call on the list is abandoned, the first first, until none is. */
  ghost function CallersFailed(s: State, kind: Kind, k: nat): State
    requires Sound(s) && kind != ByNotice
    decreases |Callers(s, kind, k)|
  {
    if Callers(s, kind, k) == [] then s else
      FirstOpen(s, kind, k);
      CallersFailed(AbandonOne(s, Callers(s, kind, k)[0]), kind, k)
  }

  ghost function AbandonOne(s: State, id: Id): State
    requires Sound(s) && id in s.calls && s.calls[id].waiting
  {
    AbandonedKeeps(s, id);
    Abandoned(s, id)
  }

  lemma {:induction false} FirstOpen(s: State, kind: Kind, k: nat)
    requires Sound(s) && kind != ByNotice && Callers(s, kind, k) != []
    ensures var id := Callers(s, kind, k)[0];
            && id in s.calls && s.calls[id].waiting && KeyOf(s.calls[id], kind) == Some(k) && Sound(AbandonOne(s, id))
            && AbandonOne(s, id).calls == s.calls[id := Orphan(s.calls[id])]
            && |Callers(AbandonOne(s, id), kind, k)| < |Callers(s, kind, k)|
            && AbandonOne(s, id).threads == Waiting(s.threads, s.calls[id].caller, Idle)
  {
    hide Sound, Marked, Moved, KeyOf;
    var id := Callers(s, kind, k)[0];
    OpenTells(s, kind, k, id);
    AbandonedKeeps(s, id);
    AbandonedTells(s, id);
    WithoutShort(Callers(s, kind, k)[1..], id);
  }

  lemma {:induction false} OpenTells(s: State, kind: Kind, k: nat, id: Id)
    requires Sound(s) && kind != ByNotice && id in Callers(s, kind, k)
    ensures id in s.calls && s.calls[id].waiting
    ensures KeyOf(s.calls[id], kind) == Some(k) && KeyOf(Orphan(s.calls[id]), kind) == None
  {
    hide Held, Flagged, Paged, Balanced, Owning;
    assert Exact(s.calls, s.opens, ByEndpoint) && Exact(s.calls, s.taken, ByStamp);
  }

  lemma {:induction false} CallersFailedKeeps(s: State, kind: Kind, k: nat)
    requires Sound(s) && kind != ByNotice
    ensures Sound(CallersFailed(s, kind, k)) && Callers(CallersFailed(s, kind, k), kind, k) == []
    ensures CallersFailed(s, kind, k).calls.Keys == s.calls.Keys
    ensures forall id :: id in s.calls ==>
              CallersFailed(s, kind, k).calls[id] == s.calls[id]
              || CallersFailed(s, kind, k).calls[id] == Orphan(s.calls[id])
    decreases |Callers(s, kind, k)|
  {
    hide Sound, AbandonOne, Callers;
    if Callers(s, kind, k) != [] {
      FirstOpen(s, kind, k);
      CallersFailedKeeps(AbandonOne(s, Callers(s, kind, k)[0]), kind, k);
    }
  }

  /** Every notice owed on endpoint `e` is dropped, the first first. */
  ghost function NoticesDropped(s: State, e: Endpoint): State
    requires Sound(s)
    decreases |ListOf(s.notices, e)|
  {
    if ListOf(s.notices, e) == [] then s else
      FirstNotice(s, e);
      NoticesDropped(Unnoticed(s, ListOf(s.notices, e)[0], false), e)
  }

  lemma {:induction false} FirstNotice(s: State, e: Endpoint)
    requires Sound(s) && ListOf(s.notices, e) != []
    ensures var id := ListOf(s.notices, e)[0];
            && id in s.calls && s.calls[id].notice && s.calls[id].endpoint == e
            && var s' := Unnoticed(s, id, false);
               && Sound(s') && |ListOf(s'.notices, e)| < |ListOf(s.notices, e)| && s'.threads == s.threads
               && s'.calls == s.calls[id := s.calls[id].(notice := false)] && s'.opens == s.opens
  {
    hide Sound, KeyOf;
    var id := ListOf(s.notices, e)[0];
    NoticeTells(s, e, id);
    UnnoticedKeeps(s, id, false);
    WithoutShort(ListOf(s.notices, e)[1..], id);
  }

  lemma {:induction false} NoticeTells(s: State, e: Endpoint, id: Id)
    requires Sound(s) && id in ListOf(s.notices, e)
    ensures id in s.calls && s.calls[id].notice && s.calls[id].endpoint == e
    ensures KeyOf(s.calls[id], ByNotice) == Some(e) && KeyOf(s.calls[id].(notice := false), ByNotice) == None
  {
    hide Held, Flagged, Paged, Balanced, Owning;
    assert Exact(s.calls, s.notices, ByNotice);
  }

  lemma {:induction false} NoticesDroppedKeeps(s: State, e: Endpoint)
    requires Sound(s)
    ensures Sound(NoticesDropped(s, e)) && ListOf(NoticesDropped(s, e).notices, e) == []
    ensures NoticesDropped(s, e).opens == s.opens && NoticesDropped(s, e).threads == s.threads
    ensures NoticesDropped(s, e).calls.Keys == s.calls.Keys
    decreases |ListOf(s.notices, e)|
  {
    hide Sound, Unnoticed, ListOf;
    if ListOf(s.notices, e) != [] {
      FirstNotice(s, e);
      NoticesDroppedKeeps(Unnoticed(s, ListOf(s.notices, e)[0], false), e);
    }
  }

  /** `fail_each` over the threads waiting on an endpoint: receivers, then queued senders. */
  ghost function AllUnwound(s: State, ts: seq<Thread>): State
    requires Sound(s) && forall i :: 0 <= i < |ts| ==> ts[i] in s.threads
    decreases |ts|
  {
    if ts == [] then s else
      UnwoundKeeps(s, ts[0]);
      AllUnwound(Unwound(s, ts[0]), ts[1..])
  }

  lemma {:induction false} AllUnwoundKeeps(s: State, ts: seq<Thread>)
    requires Sound(s) && forall i :: 0 <= i < |ts| ==> ts[i] in s.threads
    ensures Sound(AllUnwound(s, ts)) && AllUnwound(s, ts).threads.Keys == s.threads.Keys
    ensures AllUnwound(s, ts).calls.Keys == s.calls.Keys
    ensures forall t :: t in s.threads ==>
              AllUnwound(s, ts).threads[t] == if t in ts then s.threads[t].(wait := Idle) else s.threads[t]
    decreases |ts|
  {
    hide Sound, Unwound;
    if ts != [] {
      UnwoundKeeps(s, ts[0]);
      AllUnwoundKeeps(Unwound(s, ts[0]), ts[1..]);
    }
  }

  /** `endpoint_dying`: everything waiting on `e`, in the order of its lists, then its notices. */
  ghost function EndpointDied(s: State, e: Endpoint, waiters: seq<Thread>): State
    requires Sound(s) && forall i :: 0 <= i < |waiters| ==> waiters[i] in s.threads
  {
    AllUnwoundKeeps(s, waiters);
    var unwound := AllUnwound(s, waiters);
    CallersFailedKeeps(unwound, ByEndpoint, e);
    NoticesDropped(CallersFailed(unwound, ByEndpoint, e), e)
  }

  ghost predicate On(w: Wait, e: Endpoint) {
    (w.Receiving? && w.endpoint == e) || (w.Sending? && w.endpoint == e)
  }

  /** Nothing names a destroyed endpoint: no thread waits on it, no call waits there for a reply, and no
      notice is owed there.
    */
  lemma {:induction false} EndpointDiedKeeps(s: State, e: Endpoint, waiters: seq<Thread>)
    requires Sound(s) && (forall i :: 0 <= i < |waiters| ==> waiters[i] in s.threads)
    requires forall t :: t in s.threads && On(s.threads[t].wait, e) ==> t in waiters
    ensures Sound(EndpointDied(s, e, waiters)) && EndpointDied(s, e, waiters).calls.Keys == s.calls.Keys
    ensures forall id ::
              id in EndpointDied(s, e, waiters).calls && EndpointDied(s, e, waiters).calls[id].endpoint == e ==>
              !EndpointDied(s, e, waiters).calls[id].waiting && !EndpointDied(s, e, waiters).calls[id].notice
    ensures forall t :: t in EndpointDied(s, e, waiters).threads ==> !On(EndpointDied(s, e, waiters).threads[t].wait, e)
  {
    hide Sound, AllUnwound, CallersFailed, NoticesDropped;
    AllUnwoundKeeps(s, waiters);
    var unwound := AllUnwound(s, waiters);
    CallersFailedKeeps(unwound, ByEndpoint, e);
    CallersIdle(unwound, ByEndpoint, e);
    var failed := CallersFailed(unwound, ByEndpoint, e);
    NoticesDroppedKeeps(failed, e);
    NoneListed(NoticesDropped(failed, e), e);
  }

  lemma {:induction false} NoneListed(s: State, e: Endpoint)
    requires Sound(s) && ListOf(s.opens, e) == [] && ListOf(s.notices, e) == []
    ensures forall id :: id in s.calls && s.calls[id].endpoint == e ==> !s.calls[id].waiting && !s.calls[id].notice
  {
    hide Held, Paged, Balanced, Owning, Flagged;
    forall id | id in s.calls && s.calls[id].endpoint == e ensures !s.calls[id].waiting && !s.calls[id].notice {
      assert id in ListOf(s.opens, e) <==> KeyOf(s.calls[id], ByEndpoint) == Some(e);
      assert id in ListOf(s.notices, e) <==> KeyOf(s.calls[id], ByNotice) == Some(e);
    }
  }

  /** Failing callers only ends waits for replies. */
  lemma {:induction false} CallersIdle(s: State, kind: Kind, k: nat)
    requires Sound(s) && kind != ByNotice
    ensures CallersFailed(s, kind, k).threads.Keys == s.threads.Keys
    ensures forall t :: t in s.threads ==>
              CallersFailed(s, kind, k).threads[t].wait == s.threads[t].wait
              || CallersFailed(s, kind, k).threads[t].wait.Idle?
    decreases |Callers(s, kind, k)|
  {
    hide Sound, AbandonOne, Callers;
    if Callers(s, kind, k) != [] {
      FirstOpen(s, kind, k);
      CallersIdle(AbandonOne(s, Callers(s, kind, k)[0]), kind, k);
    }
  }

  /** `budgets_dying`, for one stamp: the senders queued through it, then the callers whose calls bear it. */
  ghost function StampDied(s: State, b: Budget, senders: seq<Thread>): State
    requires Sound(s) && forall i :: 0 <= i < |senders| ==> senders[i] in s.threads
  {
    AllUnwoundKeeps(s, senders);
    CallersFailed(AllUnwound(s, senders), ByStamp, b)
  }

  ghost predicate Stamped(w: Wait, b: Budget) { w.Sending? && w.stamp == b }

  /** R10: nothing sent through a handle stamped with a dying budget is still to be taken, or answered. */
  lemma {:induction false} StampDiedKeeps(s: State, b: Budget, senders: seq<Thread>)
    requires Sound(s) && (forall i :: 0 <= i < |senders| ==> senders[i] in s.threads)
    requires forall t :: t in s.threads && Stamped(s.threads[t].wait, b) ==> t in senders
    ensures Sound(StampDied(s, b, senders)) && StampDied(s, b, senders).calls.Keys == s.calls.Keys
    ensures forall id :: id in StampDied(s, b, senders).calls && StampDied(s, b, senders).calls[id].stamp == b ==>
              !StampDied(s, b, senders).calls[id].waiting
    ensures forall t :: t in StampDied(s, b, senders).threads ==> !Stamped(StampDied(s, b, senders).threads[t].wait, b)
  {
    hide Sound, AllUnwound, CallersFailed, Callers;
    AllUnwoundKeeps(s, senders);
    var unwound := AllUnwound(s, senders);
    CallersFailedKeeps(unwound, ByStamp, b);
    CallersIdle(unwound, ByStamp, b);
    NoneStamped(CallersFailed(unwound, ByStamp, b), b);
  }

  lemma {:induction false} NoneStamped(s: State, b: Budget)
    requires Sound(s) && Callers(s, ByStamp, b) == []
    ensures forall id :: id in s.calls && s.calls[id].stamp == b ==> !s.calls[id].waiting
  {
    hide Held, Paged, Balanced, Owning, Flagged;
    forall id | id in s.calls && s.calls[id].stamp == b ensures !s.calls[id].waiting {
      assert id in ListOf(s.taken, b) <==> KeyOf(s.calls[id], ByStamp) == Some(b);
    }
  }

  lemma {:induction false} DeliverTells(s: State, t: Thread, r: Thread)
    requires Sound(s) && CanDeliver(s, t, r)
    ensures r.pid in s.homes && r.pid in s.own && s.homes[r.pid] in s.used && s.homes[r.pid] in s.limit
    ensures s.used[s.homes[r.pid]] <= s.limit[s.homes[r.pid]]
    ensures forall p :: p in s.threads[t].wait.lend ==> p in s.pages
  {
    assert Holds(s.calls, s.homes, r, s.threads[r]);
    assert Lent(s.pages, s.threads[t].wait.lend, LentOut(t));
  }

  lemma {:induction false} CallTells(s: State, id: Id)
    requires Sound(s) && id in s.calls
    ensures var c := s.calls[id];
            && (forall p :: p in c.lend ==> p in s.pages) && c.caller != c.server
            && (c.waiting ==> c.caller in s.threads)
  {
    assert HeldBy(s.threads, s.homes, id, s.calls[id]);
    assert Lent(s.pages, s.calls[id].lend, LendState(s.calls[id], id));
  }

  lemma {:induction false} SendTells(s: State, t: Thread)
    requires Sound(s) && t in s.threads && s.threads[t].wait.Sending?
    ensures forall p :: p in s.threads[t].wait.lend ==> p in s.pages
  {
    assert Lent(s.pages, s.threads[t].wait.lend, LentOut(t));
  }

  lemma {:induction false} AbandonLists(s: State, id: Id)
    requires Sound(s) && id in s.calls && s.calls[id].waiting
    ensures var c, d := s.calls[id], Orphan(s.calls[id]);
            && Relist(s.opens, KeyOf(c, ByEndpoint), KeyOf(d, ByEndpoint), id)
              == Relist(s.opens, KeyOf(c, ByEndpoint), None, id)
            && Relist(s.taken, KeyOf(c, ByStamp), KeyOf(d, ByStamp), id) == Relist(s.taken, KeyOf(c, ByStamp), None, id)
            && Relist(s.notices, KeyOf(c, ByNotice), KeyOf(d, ByNotice), id)
               == Enlist(Relist(s.notices, KeyOf(c, ByNotice), None, id), c.endpoint, id)
  {
    hide Held, Paged, Balanced, Owning, Exact;
  }

  /** A caller in the receiver's own budget is charged for the lend twice while the call waits. */
  lemma {:induction false} LentTwice(s: State, id: Id)
    requires Sound(s) && id in s.calls && s.calls[id].waiting
    ensures var c := s.calls[id];
            c.caller.pid in s.homes && c.payer in s.used
            && (s.homes[c.caller.pid] == c.payer ==> 2 * |c.lend| <= s.used[c.payer])
  {
    hide Sound, Sum, OwnIn, CallsOf;
    var c := s.calls[id];
    LendCovered(s, id);
    SpentTells(s, c.payer);
    CostWithin(s.calls, id);
    OwnWithin(s.homes, s.own, c.caller.pid);
  }

  lemma {:induction false} SpentTells(s: State, b: Budget)
    requires Sound(s) && b in s.used
    ensures s.used[b] == Sum(OwnIn(s.homes, s.own, b)) + Sum(CallsOf(s.calls, b)) && b in s.limit
    ensures s.used[b] <= s.limit[b]
  {
  }

  /** The charges with `i` of the `n` pages moved. */
  function Shifted(used: map<Budget, nat>, payer: Budget, from: Budget, n: nat, i: nat): map<Budget, nat>
    requires payer in used && from in used && i <= n <= used[payer] && i <= used[from]
    requires from == payer ==> 2 * n <= used[payer]
  {
    if from == payer then used[payer := used[payer] - n]
    else used[payer := used[payer] - n + i][from := used[from] - i]
  }

  // What the three changes come to, field by field.

  lemma {:induction false} OpenedIs(s: State, t: Thread, r: Thread, extra: nat, c: OpenCall)
    requires t in s.threads && r in s.threads && s.threads[t].wait.Sending? && t != r
    requires r.pid in s.homes && r.pid in s.own && s.homes[r.pid] in s.used && c == NewCall(s, t, r)
    ensures var id, payer, w := s.next, s.homes[r.pid], s.threads[t].wait;
            Opened(s, t, r, extra) == State(
              s.threads[t := s.threads[t].(wait := AwaitingReply(id))]
                       [r := ThreadState(Idle, s.threads[r].held + [id])],
              s.calls[id := c], id + 1, Enlist(s.opens, c.endpoint, id), Enlist(s.taken, c.stamp, id), s.notices,
              Marked(s.pages, w.lend, Borrowed(t.pid, id)), s.homes, s.own[r.pid := s.own[r.pid] + extra],
              s.used[payer := s.used[payer] + (1 + |w.lend| + extra)], s.limit, s.told)
  {
  }

  lemma {:induction false} ClosedIs(s: State, id: Id)
    requires id in s.calls && s.calls[id].server in s.threads && s.calls[id].server.pid in s.own
    requires s.calls[id].payer in s.used
    requires 1 + |s.calls[id].lend| <= s.used[s.calls[id].payer] && s.calls[id].caller != s.calls[id].server
    requires !s.calls[id].waiting ==> |s.calls[id].lend| <= s.own[s.calls[id].server.pid]
    requires s.calls[id].waiting ==> s.calls[id].caller in s.threads
    ensures var c := s.calls[id];
            var left := s.threads[c.server := s.threads[c.server].(held := Without(s.threads[c.server].held, id))];
            var o, t, n := Relist(s.opens, KeyOf(c, ByEndpoint), None, id),
              Relist(s.taken, KeyOf(c, ByStamp), None, id),
                           Relist(s.notices, KeyOf(c, ByNotice), None, id);
            Closed(s, id) ==
              if c.waiting then
                State(left[c.caller := left[c.caller].(wait := Idle)], s.calls - {id}, s.next, o, t, n,
                      Marked(s.pages, c.lend, With(c.caller.pid)), s.homes, s.own,
                      s.used[c.payer := s.used[c.payer] - (1 + |c.lend|)], s.limit, s.told)
              else
                State(left, s.calls - {id}, s.next, o, t, n, Marked(s.pages, c.lend, Freed), s.homes,
                      s.own[c.server.pid := s.own[c.server.pid] - |c.lend|],
                      s.used[c.payer := s.used[c.payer] - |c.lend| - 1], s.limit, s.told)
  {
  }

  lemma {:induction false} AbandonedIs(
      s: State, id: Id, used: map<Budget, nat>, own: map<Pid, nat>, n: map<Endpoint, seq<Id>>)
    requires Sound(s) && id in s.calls && s.calls[id].waiting && s.calls[id].caller.pid in s.own
    requires s.calls[id].server.pid in s.own
    requires s.calls[id].caller in s.threads
    requires s.calls[id].caller.pid in s.homes && s.homes[s.calls[id].caller.pid] in s.used
    requires |s.calls[id].lend| <= s.own[s.calls[id].caller.pid]
    requires |s.calls[id].lend| <= s.used[s.homes[s.calls[id].caller.pid]]
    requires used == s.used[s.homes[s.calls[id].caller.pid] :=
                            s.used[s.homes[s.calls[id].caller.pid]] - |s.calls[id].lend|]
    requires own == Moved(s.own, s.calls[id].caller.pid, s.calls[id].server.pid, |s.calls[id].lend|)
    requires n == Enlist(Relist(s.notices, KeyOf(s.calls[id], ByNotice), None, id), s.calls[id].endpoint, id)
    ensures var c := s.calls[id];
            Abandoned(s, id) == State(
              s.threads[c.caller := s.threads[c.caller].(wait := Idle)],
              s.calls[id := c.(waiting := false, abandoned := true, notice := true)], s.next,
              Relist(s.opens, KeyOf(c, ByEndpoint), None, id), Relist(s.taken, KeyOf(c, ByStamp), None, id), n,
              Marked(s.pages, c.lend, Orphaned(c.server.pid, id)), s.homes, own, used, s.limit, s.told)
  {
    hide Sound, Relist, Marked, Moved;
    AbandonLists(s, id);
  }

  lemma {:induction false} ReplyTells(s: State, r: Thread, id: Id)
    requires Sound(s) && r in s.threads
    ensures id in s.threads[r].held <==> id in s.calls && s.calls[id].server == r
  {
    hide Sound;
    HoldsAt(s, r);
    if id in s.calls { HeldAt(s, id); }
  }

  // The recursions one step at a time.

  lemma {:induction false} UnwoundIs(s: State, t: Thread)
    requires Sound(s) && t in s.threads
    ensures Unwound(s, t) ==
              match s.threads[t].wait
              case Sending(_, _, _) => GivenBack(s, t)
              case AwaitingReply(id) => (WaitedFor(s, t); AbandonOne(s, id))
              case _ => s.(threads := s.threads[t := s.threads[t].(wait := Idle)])
  {
    hide Sound, Abandoned;
  }

  lemma {:induction false} CloseHeldNext(s: State, t: Thread)
    requires Sound(s) && t in s.threads
    ensures s.threads[t].held == [] ==> CloseHeld(s, t) == s
    ensures s.threads[t].held != [] ==>
              var id := s.threads[t].held[0];
              id in s.calls && Sound(CloseOne(s, id)) && t in CloseOne(s, id).threads
              && CloseHeld(s, t) == CloseHeld(CloseOne(s, id), t)
  {
    hide Sound, CloseOne;
    if s.threads[t].held != [] { FirstHeld(s, t); }
  }

  lemma {:induction false} AllUnwoundNext(s: State, ts: seq<Thread>)
    requires Sound(s) && forall i :: 0 <= i < |ts| ==> ts[i] in s.threads
    ensures ts == [] ==> AllUnwound(s, ts) == s
    ensures ts != [] ==>
              && ts[0] in s.threads && Sound(Unwound(s, ts[0]))
              && (forall i :: 0 <= i < |ts[1..]| ==> ts[1..][i] in Unwound(s, ts[0]).threads)
              && AllUnwound(s, ts) == AllUnwound(Unwound(s, ts[0]), ts[1..])
  {
    hide Sound, Unwound;
    if ts != [] { UnwoundKeeps(s, ts[0]); }
  }

  lemma {:induction false} CallersFailedNext(s: State, kind: Kind, k: nat)
    requires Sound(s) && kind != ByNotice
    ensures Callers(s, kind, k) == [] ==> CallersFailed(s, kind, k) == s
    ensures Callers(s, kind, k) != [] ==>
              var id := Callers(s, kind, k)[0];
              && id in s.calls && s.calls[id].waiting && Sound(AbandonOne(s, id))
              && CallersFailed(s, kind, k) == CallersFailed(AbandonOne(s, id), kind, k)
  {
    hide Sound, AbandonOne, Callers;
    if Callers(s, kind, k) != [] { FirstOpen(s, kind, k); }
  }

  lemma {:induction false} NoticesDroppedNext(s: State, e: Endpoint)
    requires Sound(s)
    ensures ListOf(s.notices, e) == [] ==> NoticesDropped(s, e) == s
    ensures ListOf(s.notices, e) != [] ==>
              var id := ListOf(s.notices, e)[0];
              id in s.calls && Sound(Unnoticed(s, id, false))
              && NoticesDropped(s, e) == NoticesDropped(Unnoticed(s, id, false), e)
  {
    hide Sound, Unnoticed, ListOf;
    if ListOf(s.notices, e) != [] { FirstNotice(s, e); }
  }

  // --- Every run -----------------------------------------------------------------------------------------------------

  /** What an end of some kind makes of a page: a lend goes back to its owner, stays the server's alone, or is
      freed; a freed page stays freed.
    */
  ghost predicate Ends(st: PageState, st': PageState) {
    || st' == st
    || match st
       case LentOut(t) => st' == With(t.pid)
       case Borrowed(pid, id) => st' == With(pid) || (st'.Orphaned? && st'.id == id) || st'.Freed?
       case Orphaned(_, _) => st'.Freed?
       case _ => false
  }

  /** `s'` comes of `s` by ends alone: nothing is lent anew, and no telling is untold. */
  ghost predicate Follows(s: State, s': State) {
    && s.told <= s'.told && s'.pages.Keys == s.pages.Keys && s'.next == s.next
    && s'.limit == s.limit && s'.homes == s.homes
    && (forall p :: p in s.pages ==> Ends(s.pages[p], s'.pages[p]))
  }

  lemma {:induction false} FollowsOn(a: State, b: State, c: State)
    requires Follows(a, b) && Follows(b, c)
    ensures Follows(a, c)
  {
    forall p | p in a.pages ensures Ends(a.pages[p], c.pages[p]) { assert Ends(b.pages[p], c.pages[p]); }
  }

  lemma {:induction false} CloseFollows(s: State, id: Id)
    requires Sound(s) && id in s.calls
    ensures Follows(s, CloseOne(s, id))
    ensures forall p :: p in s.calls[id].lend ==> p in s.pages && CloseOne(s, id).pages[p] == ClosedState(s.calls[id])
  {
    hide Sound, Relist, Without;
    ClosedKeeps(s, id);
    LendTells(s, id);
  }

  lemma {:induction false} LendTells(s: State, id: Id)
    requires Sound(s) && id in s.calls
    ensures forall p :: p in s.calls[id].lend ==> p in s.pages && s.pages[p] == LendState(s.calls[id], id)
  {
    assert Lent(s.pages, s.calls[id].lend, LendState(s.calls[id], id));
  }

  lemma {:induction false} AbandonFollows(s: State, id: Id)
    requires Sound(s) && id in s.calls && s.calls[id].waiting
    ensures Follows(s, AbandonOne(s, id))
  {
    hide Sound, Relist, Moved;
    AbandonedKeeps(s, id);
    LendTells(s, id);
  }

  lemma {:induction false} UnwoundFollows(s: State, t: Thread)
    requires Sound(s) && t in s.threads
    ensures Follows(s, Unwound(s, t))
  {
    hide Sound, AbandonOne, Unwound, GivenBack, Follows;
    UnwoundIs(s, t);
    match s.threads[t].wait {
      case Sending(_, _, _) => SentTells(s, t);
      case AwaitingReply(id) => WaitedFor(s, t); AbandonFollows(s, id);
      case _ => WaitFollows(s, s.threads[t := s.threads[t].(wait := Idle)]);
    }
  }

  lemma {:induction false} WaitFollows(s: State, threads: map<Thread, ThreadState>)
    ensures Follows(s, s.(threads := threads))
  {
  }

  lemma {:induction false} SentTells(s: State, t: Thread)
    requires Sound(s) && t in s.threads && s.threads[t].wait.Sending?
    ensures Follows(s, GivenBack(s, t))
  {
    hide Sound;
    SentLent(s, t);
  }

  lemma {:induction false} SentLent(s: State, t: Thread)
    requires Sound(s) && t in s.threads && s.threads[t].wait.Sending?
    ensures forall p :: p in s.threads[t].wait.lend ==> p in s.pages && s.pages[p] == LentOut(t)
  {
    hide Held, Flagged, Exact, Balanced, Owning;
    assert Lent(s.pages, s.threads[t].wait.lend, LentOut(t));
  }

  lemma {:induction false} CloseHeldFollows(s: State, t: Thread)
    requires Sound(s) && t in s.threads
    ensures Follows(s, CloseHeld(s, t))
    decreases |s.threads[t].held|
  {
    hide Sound, CloseOne, Follows, CloseHeld;
    CloseHeldNext(s, t);
    if s.threads[t].held == [] {
      FollowsSame(s);
    } else {
      FirstHeld(s, t);
      var id := s.threads[t].held[0];
      CloseFollows(s, id);
      CloseHeldFollows(CloseOne(s, id), t);
      FollowsOn(s, CloseOne(s, id), CloseHeld(s, t));
    }
  }

  lemma {:induction false} FollowsSame(s: State)
    ensures Follows(s, s)
  {
  }

  lemma {:induction false} ThreadEndedFollows(s: State, t: Thread)
    requires Sound(s) && t in s.threads
    ensures Follows(s, ThreadEnded(s, t))
  {
    hide Sound, Unwound, CloseHeld;
    UnwoundKeeps(s, t);
    UnwoundFollows(s, t);
    CloseHeldFollows(Unwound(s, t), t);
    FollowsOn(s, Unwound(s, t), CloseHeld(Unwound(s, t), t));
  }

  lemma {:induction false} AllUnwoundFollows(s: State, ts: seq<Thread>)
    requires Sound(s) && forall i :: 0 <= i < |ts| ==> ts[i] in s.threads
    ensures Follows(s, AllUnwound(s, ts))
    decreases |ts|
  {
    hide Sound, Unwound, Follows, AllUnwound;
    AllUnwoundNext(s, ts);
    if ts == [] {
      FollowsSame(s);
    } else {
      UnwoundFollows(s, ts[0]);
      AllUnwoundFollows(Unwound(s, ts[0]), ts[1..]);
      FollowsOn(s, Unwound(s, ts[0]), AllUnwound(s, ts));
    }
  }

  lemma {:induction false} CallersFailedFollows(s: State, kind: Kind, k: nat)
    requires Sound(s) && kind != ByNotice
    ensures Follows(s, CallersFailed(s, kind, k))
    decreases |Callers(s, kind, k)|
  {
    hide Sound, AbandonOne, Follows, CallersFailed, Callers;
    CallersFailedNext(s, kind, k);
    if Callers(s, kind, k) == [] {
      FollowsSame(s);
    } else {
      FirstOpen(s, kind, k);
      var id := Callers(s, kind, k)[0];
      AbandonFollows(s, id);
      CallersFailedFollows(AbandonOne(s, id), kind, k);
      FollowsOn(s, AbandonOne(s, id), CallersFailed(s, kind, k));
    }
  }

  lemma {:induction false} StampDiedFollows(s: State, b: Budget, senders: seq<Thread>)
    requires Sound(s) && forall i :: 0 <= i < |senders| ==> senders[i] in s.threads
    ensures Follows(s, StampDied(s, b, senders))
  {
    hide Sound, AllUnwound, CallersFailed, Follows;
    AllUnwoundKeeps(s, senders);
    var unwound := AllUnwound(s, senders);
    AllUnwoundFollows(s, senders);
    CallersFailedFollows(unwound, ByStamp, b);
    FollowsOn(s, unwound, CallersFailed(unwound, ByStamp, b));
  }

  lemma {:induction false} NoticesDroppedFollows(s: State, e: Endpoint)
    requires Sound(s)
    ensures Follows(s, NoticesDropped(s, e)) && NoticesDropped(s, e).told == s.told
    decreases |ListOf(s.notices, e)|
  {
    hide Sound, Follows, NoticesDropped, ListOf, Relist;
    NoticesDroppedNext(s, e);
    if ListOf(s.notices, e) == [] {
      FollowsSame(s);
    } else {
      FirstNotice(s, e);
      var id := ListOf(s.notices, e)[0];
      UnnoticedFollows(s, id, false);
      NoticesDroppedFollows(Unnoticed(s, id, false), e);
      FollowsOn(s, Unnoticed(s, id, false), NoticesDropped(s, e));
    }
  }

  lemma {:induction false} UnnoticedFollows(s: State, id: Id, delivered: bool)
    requires id in s.calls
    ensures Follows(s, Unnoticed(s, id, delivered))
  {
  }

  lemma {:induction false} EndpointDiedFollows(s: State, e: Endpoint, waiters: seq<Thread>)
    requires Sound(s) && forall i :: 0 <= i < |waiters| ==> waiters[i] in s.threads
    ensures Follows(s, EndpointDied(s, e, waiters))
  {
    hide Sound, AllUnwound, CallersFailed, NoticesDropped, Follows;
    AllUnwoundKeeps(s, waiters);
    var unwound := AllUnwound(s, waiters);
    CallersFailedKeeps(unwound, ByEndpoint, e);
    var failed := CallersFailed(unwound, ByEndpoint, e);
    AllUnwoundFollows(s, waiters);
    CallersFailedFollows(unwound, ByEndpoint, e);
    NoticesDroppedFollows(failed, e);
    FollowsOn(s, unwound, failed);
    FollowsOn(s, failed, NoticesDropped(failed, e));
  }

  datatype Step =
    | Spawn(pid: Pid, budget: Budget, frames: nat)
    | Start(thread: Thread)
    | Gain(pid: Pid, page: Page)
    | Queue(thread: Thread, wait: Wait)
    | Receive(thread: Thread, endpoint: Endpoint)
    | Take(sender: Thread, receiver: Thread, extra: Option<nat>)
    | Answer(server: Thread, id: Id)
    | Fail(thread: Thread)
    | End(thread: Thread)
    | Destroy(endpoint: Endpoint, waiters: seq<Thread>)
    | Revoke(stamp: Budget, senders: seq<Thread>)
    | Notify(id: Id)

  /** A process, thread or page comes, a wait begins, or a message is taken: no call ends. */
  predicate Begins(step: Step) {
    step.Spawn? || step.Start? || step.Gain? || step.Queue? || step.Receive? || step.Take?
  }

  /** Whether a step can be taken. A failure is the caller's timeout or death. */
  ghost predicate Can(s: State, step: Step) {
    match step
    case Spawn(pid, b, n) =>
      pid !in s.homes && OwnedBy(s.pages, pid) == {} && b in s.used && b in s.limit && s.used[b] + n <= s.limit[b]
    case Start(t) => t !in s.threads && t.pid in s.homes
    case Gain(pid, p) => pid in s.own && (p !in s.pages || s.pages[p].Freed?) && |OwnedBy(s.pages, pid)| < s.own[pid]
    case Queue(t, w) => CanQueue(s, t, w)
    case Receive(t, e) => t in s.threads && s.threads[t].wait.Idle?
    case Take(t, r, extra) => CanDeliver(s, t, r)
    case Answer(r, id) => r in s.threads && id in s.calls && s.calls[id].server == r
    case Fail(t) => t in s.threads
    case End(t) => t in s.threads
    case Destroy(e, ts) =>
      && (forall i :: 0 <= i < |ts| ==> ts[i] in s.threads)
      && (forall t :: t in s.threads && On(s.threads[t].wait, e) ==> t in ts)
    case Revoke(b, ts) =>
      && (forall i :: 0 <= i < |ts| ==> ts[i] in s.threads)
      && (forall t :: t in s.threads && Stamped(s.threads[t].wait, b) ==> t in ts)
    case Notify(id) =>
      && id in s.calls && s.calls[id].notice && s.calls[id].server in s.threads
      && s.threads[s.calls[id].server].wait == Receiving(s.calls[id].endpoint)
  }

  /** Process `pid`, new in budget `b`, with `n` frames. */
  function Spawned(s: State, pid: Pid, b: Budget, n: nat): State
    requires b in s.used
  {
    s.(homes := s.homes[pid := b], own := s.own[pid := n], used := s.used[b := s.used[b] + n])
  }

  lemma {:induction false} SpawnedKeeps(s: State, pid: Pid, b: Budget, n: nat)
    requires Sound(s) && Can(s, Spawn(pid, b, n))
    ensures Sound(Spawned(s, pid, b, n))
  {
    hide Exact, Flagged, Paged, Held, Balanced, Owning;
    SpawnedHeld(s.threads, s.calls, s.homes, pid, b);
    SpawnedBalanced(s, pid, b, n);
    SpawnedOwning(s, pid, b, n);
  }

  lemma {:induction false} SpawnedHeld(
      threads: map<Thread, ThreadState>, calls: map<Id, OpenCall>, homes: map<Pid, Budget>, pid: Pid, b: Budget)
    requires Held(threads, calls, homes) && pid !in homes
    ensures Held(threads, calls, homes[pid := b])
  {
    forall id | id in calls ensures HeldBy(threads, homes[pid := b], id, calls[id]) {
      assert HeldBy(threads, homes, id, calls[id]);
    }
    hide HeldBy;
    forall t | t in threads ensures Holds(calls, homes[pid := b], t, threads[t]) {
      assert Holds(calls, homes, t, threads[t]);
    }
  }

  lemma {:induction false} SpawnedBalanced(s: State, pid: Pid, b: Budget, n: nat)
    requires Balanced(s.homes, s.own, s.calls, s.used, s.limit) && pid !in s.homes && b in s.used && b in s.limit
    requires s.used[b] + n <= s.limit[b]
    ensures var s' := Spawned(s, pid, b, n); Balanced(s'.homes, s'.own, s'.calls, s'.used, s'.limit)
  {
    hide Sum, CallsOf, OwnIn;
    var s' := Spawned(s, pid, b, n);
    forall x | x in s'.used
      ensures x in s'.limit && s'.used[x] <= s'.limit[x] && s'.used[x] == Spent(s'.homes, s'.own, s'.calls, x)
    {
      OwnMore(s.homes, s.own, pid, b, n, x);
    }
  }

  lemma {:induction false} SpawnedOwning(s: State, pid: Pid, b: Budget, n: nat)
    requires Owning(s.homes, s.own, s.used, s.pages) && pid !in s.homes && b in s.used && OwnedBy(s.pages, pid) == {}
    ensures var s' := Spawned(s, pid, b, n); Owning(s'.homes, s'.own, s'.used, s'.pages)
  {
    hide OwnedBy;
  }

  lemma {:induction false} OwnMore(homes: map<Pid, Budget>, own: map<Pid, nat>, pid: Pid, b: Budget, n: nat, x: Budget)
    requires pid !in homes
    ensures Sum(OwnIn(homes[pid := b], own[pid := n], x)) == Sum(OwnIn(homes, own, x)) + if x == b then n else 0
  {
    var m, m' := OwnIn(homes, own, x), OwnIn(homes[pid := b], own[pid := n], x);
    if x == b {
      assert m' == m[pid := n];
      SumPut(m, pid, n);
      assert m - {pid} == m;
    } else {
      assert m' == m;
    }
  }

  lemma {:induction false} StartedKeeps(s: State, t: Thread)
    requires Sound(s) && t !in s.threads && t.pid in s.homes
    ensures Sound(s.(threads := s.threads[t := ThreadState(Idle, [])]))
  {
    hide Exact, Flagged, Balanced, Owning;
    var threads := s.threads[t := ThreadState(Idle, [])];
    forall id | id in s.calls ensures HeldBy(threads, s.homes, id, s.calls[id]) {
      assert HeldBy(s.threads, s.homes, id, s.calls[id]);
    }
    forall p | p in s.pages ensures InUse(threads, s.calls, p, s.pages[p]) {
      assert InUse(s.threads, s.calls, p, s.pages[p]);
    }
  }

  lemma {:induction false} GainedKeeps(s: State, pid: Pid, p: Page)
    requires Sound(s) && Can(s, Gain(pid, p))
    ensures Sound(s.(pages := s.pages[p := With(pid)]))
  {
    hide Exact, Flagged, Balanced, Held, Paged, Owning;
    GainedPaged(s.threads, s.calls, s.pages, pid, p);
    GainedOwning(s, pid, p);
  }

  lemma {:induction false} GainedPaged(
      threads: map<Thread, ThreadState>, calls: map<Id, OpenCall>, pages: map<Page, PageState>, pid: Pid, p: Page)
    requires Paged(threads, calls, pages) && (p !in pages || pages[p].Freed?)
    ensures Paged(threads, calls, pages[p := With(pid)])
  {
    hide InUse, Once;
    var pages' := pages[p := With(pid)];
    forall id | id in calls ensures Lent(pages', calls[id].lend, LendState(calls[id], id)) {
      assert Lent(pages, calls[id].lend, LendState(calls[id], id));
    }
    forall t | t in threads && threads[t].wait.Sending? ensures Lent(pages', threads[t].wait.lend, LentOut(t)) {
      assert Lent(pages, threads[t].wait.lend, LentOut(t));
    }
    hide Lent;
    forall q | q in pages' ensures InUse(threads, calls, q, pages'[q]) {
      if q == p { WithInUse(threads, calls, p, pid); } else { assert InUse(threads, calls, q, pages[q]); }
    }
  }

  lemma {:induction false} WithInUse(threads: map<Thread, ThreadState>, calls: map<Id, OpenCall>, p: Page, pid: Pid)
    ensures InUse(threads, calls, p, With(pid))
  {
  }

  lemma {:induction false} GainedOwning(s: State, pid: Pid, p: Page)
    requires Owning(s.homes, s.own, s.used, s.pages) && pid in s.own && (p !in s.pages || s.pages[p].Freed?)
    requires |OwnedBy(s.pages, pid)| < s.own[pid]
    ensures Owning(s.homes, s.own, s.used, s.pages[p := With(pid)])
  {
    hide OwnedBy;
    forall x | x in s.homes ensures |OwnedBy(s.pages[p := With(pid)], x)| <= s.own[x] {
      OwnedGains(s.pages, pid, p, x);
    }
  }

  lemma {:induction false} OwnedGains(pages: map<Page, PageState>, pid: Pid, p: Page, x: Pid)
    requires p !in pages || pages[p].Freed?
    ensures |OwnedBy(pages[p := With(pid)], x)| == |OwnedBy(pages, x)| + if x == pid then 1 else 0
  {
    if x == pid {
      assert OwnedBy(pages[p := With(pid)], x) == OwnedBy(pages, x) + {p};
    } else {
      assert OwnedBy(pages[p := With(pid)], x) == OwnedBy(pages, x);
    }
  }

  /** At boot: the budgets, nothing charged, and nothing running. */
  function Boot(limit: map<Budget, nat>): State {
    State(map[], map[], 0, map[], map[], map[], map[], map[], map[], map b | b in limit :: 0, limit, {})
  }

  lemma {:induction false} BootSound(limit: map<Budget, nat>)
    ensures Sound(Boot(limit))
  {
    var s := Boot(limit);
    forall b: Budget ensures Spent(s.homes, s.own, s.calls, b) == 0 {
      assert OwnIn(s.homes, s.own, b) == map[] && CallsOf(s.calls, b) == map[];
    }
  }

  ghost function Took(s: State, t: Thread, r: Thread, extra: Option<nat>): State
    requires Sound(s) && CanDeliver(s, t, r)
  {
    DeliverTells(s, t, r);
    if extra.Some? && s.used[s.homes[r.pid]] + Need(s, t, extra.value) <= s.limit[s.homes[r.pid]]
    then Opened(s, t, r, extra.value) else GivenBack(s, t)
  }

  ghost function Began(s: State, step: Step): State
    requires Sound(s) && Can(s, step) && Begins(step)
  {
    match step
    case Spawn(pid, b, n) => Spawned(s, pid, b, n)
    case Start(t) => s.(threads := s.threads[t := ThreadState(Idle, [])])
    case Gain(pid, p) => s.(pages := s.pages[p := With(pid)])
    case Queue(t, w) => Queued(s, t, w)
    case Receive(t, e) => s.(threads := Waiting(s.threads, t, Receiving(e)))
    case Take(t, r, extra) => Took(s, t, r, extra)
  }

  ghost function Over(s: State, step: Step): State
    requires Sound(s) && Can(s, step) && !Begins(step)
  {
    match step
    case Answer(r, id) => CloseOne(s, id)
    case Fail(t) => Unwound(s, t)
    case End(t) => ThreadEnded(s, t)
    case Destroy(e, ts) => EndpointDied(s, e, ts)
    case Revoke(b, ts) => StampDied(s, b, ts)
    case Notify(id) => Unnoticed(s, id, true)
  }

  ghost function Next(s: State, step: Step): State
    requires Sound(s) && Can(s, step)
  {
    if Begins(step) then Began(s, step) else Over(s, step)
  }

  lemma {:induction false} NextKeeps(s: State, step: Step)
    requires Sound(s) && Can(s, step)
    ensures Sound(Next(s, step))
  {
    hide Sound, Opened, GivenBack, Queued, CloseOne, Unwound, ThreadEnded, EndpointDied, StampDied, Unnoticed;
    match step {
      case Spawn(pid, b, n) => SpawnedKeeps(s, pid, b, n);
      case Start(t) => StartedKeeps(s, t);
      case Gain(pid, p) => GainedKeeps(s, pid, p);
      case Queue(t, w) => QueuedKeeps(s, t, w);
      case Receive(t, e) => ReceiveKeeps(s, t, Receiving(e));
      case Take(t, r, extra) => TookKeeps(s, t, r, extra);
      case Answer(r, id) => ClosedKeeps(s, id); CloseIsClosed(s, id);
      case Fail(t) => UnwoundKeeps(s, t);
      case End(t) => ThreadEndedKeeps(s, t);
      case Destroy(e, ts) => EndpointDiedKeeps(s, e, ts);
      case Revoke(b, ts) => StampDiedKeeps(s, b, ts);
      case Notify(id) => UnnoticedKeeps(s, id, true);
    }
  }

  lemma {:induction false} CloseIsClosed(s: State, id: Id)
    requires Sound(s) && id in s.calls
    ensures Sound(CloseOne(s, id))
  {
    hide Sound, Closed;
    ClosedKeeps(s, id);
  }

  lemma {:induction false} TookKeeps(s: State, t: Thread, r: Thread, extra: Option<nat>)
    requires Sound(s) && CanDeliver(s, t, r)
    ensures Sound(Took(s, t, r, extra))
  {
    hide Sound, Opened, GivenBack;
    DeliverTells(s, t, r);
    if extra.Some? && s.used[s.homes[r.pid]] + Need(s, t, extra.value) <= s.limit[s.homes[r.pid]] {
      OpenedKeeps(s, t, r, extra.value);
    } else {
      GivenBackKeeps(s, t);
    }
  }

  ghost predicate IsRun(run: seq<State>, steps: seq<Step>) {
    && |run| == |steps| + 1 && Sound(run[0])
    && (forall i :: 0 <= i < |steps| ==> Stepped(run[i], steps[i], run[i + 1]))
  }

  ghost predicate Stepped(s: State, step: Step, s': State) { Sound(s) ==> Can(s, step) && s' == Next(s, step) }

  lemma {:induction false} RunSound(run: seq<State>, steps: seq<Step>, i: nat)
    requires IsRun(run, steps) && i <= |steps|
    ensures Sound(run[i])
  {
    hide Sound, Can, Next;
    if i > 0 {
      RunSound(run, steps, i - 1);
      assert Stepped(run[i - 1], steps[i - 1], run[i - 1 + 1]);
      NextKeeps(run[i - 1], steps[i - 1]);
    }
  }

  lemma {:induction false} OverFollows(s: State, step: Step)
    requires Sound(s) && Can(s, step) && !Begins(step)
    ensures Follows(s, Over(s, step))
  {
    hide Sound, CloseOne, Unwound, ThreadEnded, EndpointDied, StampDied, Unnoticed, Follows;
    match step {
      case Answer(r, id) => CloseFollows(s, id);
      case Fail(t) => UnwoundFollows(s, t);
      case End(t) => ThreadEndedFollows(s, t);
      case Destroy(e, ts) => EndpointDiedFollows(s, e, ts);
      case Revoke(b, ts) => StampDiedFollows(s, b, ts);
      case Notify(id) => UnnoticedFollows(s, id, true);
    }
  }

  /** A wait that begins, or a message taken, ends no call and untells nothing. */
  lemma {:induction false} BeganTells(s: State, step: Step)
    requires Sound(s) && Can(s, step) && Begins(step)
    ensures Began(s, step).told == s.told && s.calls.Keys <= Began(s, step).calls.Keys
  {
    hide Sound, Took, Marked;
    if step.Take? { TookTells(s, step.sender, step.receiver, step.extra); }
  }

  lemma {:induction false} TookTells(s: State, t: Thread, r: Thread, extra: Option<nat>)
    requires Sound(s) && CanDeliver(s, t, r)
    ensures Took(s, t, r, extra).told == s.told && s.calls.Keys <= Took(s, t, r, extra).calls.Keys
  {
    hide Sound, Marked, Relist;
    DeliverTells(s, t, r);
  }

  /** However an open call ends, each page lent with it is then back with its caller if the caller still waits, and
      freed if the call was abandoned: never both, and never still lent.
    */
  lemma {:induction false} LendsEnd(run: seq<State>, steps: seq<Step>, i: nat, id: Id, p: Page)
    requires IsRun(run, steps) && i < |steps| && id in run[i].calls && id !in run[i + 1].calls
    requires p in run[i].calls[id].lend
    ensures p in run[i + 1].pages
    ensures run[i + 1].pages[p] == if run[i].calls[id].abandoned then Freed else With(run[i].calls[id].caller.pid)
  {
    hide Sound, Can, Next;
    RunSound(run, steps, i);
    RunSound(run, steps, i + 1);
    assert Stepped(run[i], steps[i], run[i + 1]);
    LendEnded(run[i], steps[i], id, p);
  }

  lemma {:induction false} LendEnded(s: State, step: Step, id: Id, p: Page)
    requires Sound(s) && Can(s, step) && Sound(Next(s, step)) && id in s.calls && id !in Next(s, step).calls
    requires p in s.calls[id].lend
    ensures var s' := Next(s, step);
            p in s'.pages && s'.pages[p] == if s.calls[id].abandoned then Freed else With(s.calls[id].caller.pid)
  {
    hide Sound, Can, Began, Over;
    var s' := Next(s, step);
    if Begins(step) {
      BeganTells(s, step);
    } else {
      OverFollows(s, step);
      LendTells(s, id);
      FlagsTell(s, id);
      PageTells(s', p);
      if s.calls[id].waiting { WaiterRepaid(s, step, id, p); }
    }
  }

  /** A call with its caller waiting ends only by its server's reply, or with its server's thread: either gives
      the lend back.
    */
  lemma {:induction false} WaiterRepaid(s: State, step: Step, id: Id, p: Page)
    requires Sound(s) && Can(s, step) && !Begins(step)
    requires id in s.calls && id !in Over(s, step).calls && p in s.calls[id].lend && s.calls[id].waiting
    ensures p in Over(s, step).pages && Over(s, step).pages[p] == With(s.calls[id].caller.pid)
  {
    hide Sound, CloseOne, Unwound, ThreadEnded, EndpointDied, StampDied, Unnoticed, Follows;
    match step {
      case Answer(r, x) => ClosesOne(s, x); CloseRepays(s, x, p);
      case Fail(t) => UnwoundKeeps(s, t);
      case End(t) => EndRepays(s, t, id, p);
      case Destroy(e, ts) => EndpointDiedKeeps(s, e, ts);
      case Revoke(b, ts) => StampDiedKeeps(s, b, ts);
      case Notify(x) => UnnoticedIds(s, x);
    }
  }

  lemma {:induction false} ClosesOne(s: State, id: Id)
    requires Sound(s) && id in s.calls
    ensures CloseOne(s, id).calls == s.calls - {id}
  {
    hide Sound, Relist, Marked;
    ClosedKeeps(s, id);
  }

  lemma {:induction false} UnnoticedIds(s: State, id: Id)
    requires id in s.calls
    ensures Unnoticed(s, id, true).calls.Keys == s.calls.Keys
  {
  }

  lemma {:induction false} CloseRepays(s: State, id: Id, p: Page)
    requires Sound(s) && id in s.calls && p in s.calls[id].lend && s.calls[id].waiting
    ensures p in CloseOne(s, id).pages && CloseOne(s, id).pages[p] == With(s.calls[id].caller.pid)
  {
    hide Sound, CloseOne;
    CloseFollows(s, id);
  }

  /** A thread's wait failed abandons the call it waits for, and touches no other. */
  lemma {:induction false} UnwoundCalls(s: State, t: Thread)
    requires Sound(s) && t in s.threads
    ensures s.threads[t].wait.AwaitingReply? ==>
              var id := s.threads[t].wait.id;
              && id in s.calls && s.calls[id].caller == t
              && Unwound(s, t).calls == s.calls[id := Orphan(s.calls[id])]
    ensures !s.threads[t].wait.AwaitingReply? ==> Unwound(s, t).calls == s.calls
  {
    hide Sound, Unwound, AbandonOne, GivenBack;
    UnwoundIs(s, t);
    match s.threads[t].wait {
      case Sending(_, _, _) => GivenBackCalls(s, t);
      case AwaitingReply(x) => WaitedFor(s, t); AbandonOneCalls(s, x);
      case _ =>
    }
  }

  lemma {:induction false} GivenBackCalls(s: State, t: Thread)
    requires Sound(s) && t in s.threads && s.threads[t].wait.Sending?
    ensures GivenBack(s, t).calls == s.calls
  {
    hide Sound, Marked;
  }

  lemma {:induction false} AbandonOneCalls(s: State, id: Id)
    requires Sound(s) && id in s.calls && s.calls[id].waiting
    ensures AbandonOne(s, id).calls == s.calls[id := Orphan(s.calls[id])]
  {
    hide Sound, Abandoned;
    AbandonedKeeps(s, id);
    AbandonedTells(s, id);
  }

  lemma {:induction false} EndRepays(s: State, t: Thread, id: Id, p: Page)
    requires Sound(s) && t in s.threads && id in s.calls && id !in ThreadEnded(s, t).calls && p in s.calls[id].lend
    requires s.calls[id].waiting
    ensures p in ThreadEnded(s, t).pages && ThreadEnded(s, t).pages[p] == With(s.calls[id].caller.pid)
  {
    hide Sound, Unwound, CloseHeld;
    UnwoundKeeps(s, t);
    var unwound := Unwound(s, t);
    CloseHeldKeeps(unwound, t);
    UnwoundCalls(s, t);
    HeldAt(s, id);
    CloseHeldRepays(unwound, t, id, p);
  }

  /** Each call the thread holds is ended in its turn, and a page given back stays so. */
  lemma {:induction false} CloseHeldRepays(s: State, t: Thread, id: Id, p: Page)
    requires Sound(s) && t in s.threads && id in s.calls && s.calls[id].server == t && s.calls[id].waiting
    requires p in s.calls[id].lend
    ensures p in CloseHeld(s, t).pages && CloseHeld(s, t).pages[p] == With(s.calls[id].caller.pid)
    decreases |s.threads[t].held|
  {
    hide Sound, CloseOne, CloseHeld;
    HeldAt(s, id);
    CloseHeldNext(s, t);
    FirstHeld(s, t);
    var first := s.threads[t].held[0];
    if first == id {
      CloseFollows(s, id);
      CloseHeldFollows(CloseOne(s, id), t);
    } else {
      CloseHeldRepays(CloseOne(s, first), t, id, p);
    }
  }

  lemma {:induction false} FlagsTell(s: State, id: Id)
    requires Sound(s) && id in s.calls
    ensures s.calls[id].waiting <==> !s.calls[id].abandoned
  {
  }

  lemma {:induction false} PageTells(s: State, p: Page)
    requires Sound(s)
    ensures p in s.pages ==> InUse(s.threads, s.calls, p, s.pages[p])
  {
  }

  lemma {:induction false} ToldGrows(run: seq<State>, steps: seq<Step>, i: nat, j: nat)
    requires IsRun(run, steps) && i <= j <= |steps|
    ensures run[i].told <= run[j].told
    decreases j
  {
    hide Sound, Can, Began, Over;
    if i < j {
      ToldGrows(run, steps, i, j - 1);
      RunSound(run, steps, j - 1);
      assert Stepped(run[j - 1], steps[j - 1], run[j - 1 + 1]);
      var s, step := run[j - 1], steps[j - 1];
      if Begins(step) { BeganTells(s, step); } else { OverFollows(s, step); }
    }
  }

  /** I15: an abandoned call's notice is delivered at most once. */
  lemma {:induction false} NoticeOnce(run: seq<State>, steps: seq<Step>, i: nat, j: nat, id: Id)
    requires IsRun(run, steps) && i < j < |steps| && steps[i] == Notify(id)
    ensures steps[j] != Notify(id)
  {
    hide Sound, Began;
    RunSound(run, steps, i);
    RunSound(run, steps, j);
    assert Stepped(run[i], steps[i], run[i + 1]) && Stepped(run[j], steps[j], run[j + 1]);
    ToldGrows(run, steps, i + 1, j);
    assert id in run[i + 1].told;
    NoticeUntold(run[j], id);
  }

  lemma {:induction false} NoticeUntold(s: State, id: Id)
    requires Sound(s)
    ensures id in s.calls && s.calls[id].notice ==> id !in s.told
  {
  }

  /** A call taken and then replied to leaves every budget charged what it was, but for the table pages the
      receiver keeps. Abandoned in between, its lend is no longer its caller's, and no more its server's.
    */
  lemma {:induction false} CallCostsNothing(s: State, t: Thread, r: Thread, extra: nat)
    requires Sound(s) && CanDeliver(s, t, r) && r.pid in s.homes && s.homes[r.pid] in s.used
    requires s.homes[r.pid] in s.limit
    requires r.pid in s.own && s.used[s.homes[r.pid]] + Need(s, t, extra) <= s.limit[s.homes[r.pid]]
    ensures var taken, id, payer, n := Opened(s, t, r, extra), s.next, s.homes[r.pid], |s.threads[t].wait.lend|;
            && Sound(taken) && id in taken.calls && taken.calls[id].waiting && t.pid in s.homes
            && s.homes[t.pid] in s.used
            && CloseOne(taken, id).used == s.used[payer := s.used[payer] + extra]
            && var left := AbandonOne(taken, id);
               && Sound(left) && id in left.calls
               && n <= s.used[s.homes[t.pid]] + (if s.homes[t.pid] == payer then extra else 0)
               && (forall b :: b in s.used ==>
                     CloseOne(left, id).used[b]
                     == s.used[b] + (if b == payer then extra else 0) - if b == s.homes[t.pid] then n else 0)
  {
    hide Sound, Marked, Relist, Moved, Sum, KeyOf;
    var taken, id := Opened(s, t, r, extra), s.next;
    DeliverTells(s, t, r);
    OpenedKeeps(s, t, r, extra);
    OpenedIs(s, t, r, extra, NewCall(s, t, r));
    hide Opened;
    LendCovered(taken, id);
    ClosedKeeps(taken, id);
    AbandonedKeeps(taken, id);
    AbandonedTells(taken, id);
    var left := AbandonOne(taken, id);
    ClosedKeeps(left, id);
    SenderCovered(s, t);
  }

  lemma {:induction false} SenderCovered(s: State, t: Thread)
    requires Sound(s) && t in s.threads && s.threads[t].wait.Sending?
    ensures t.pid in s.homes && s.homes[t.pid] in s.used && |s.threads[t].wait.lend| <= s.used[s.homes[t.pid]]
  {
    hide Exact, Flagged, Sum, OwnIn, CallsOf, OwnedBy, InUse, HeldBy;
    assert Holds(s.calls, s.homes, t, s.threads[t]);
    assert Lent(s.pages, s.threads[t].wait.lend, LentOut(t));
    LentOwned(s.pages, s.threads[t].wait.lend, LentOut(t));
    OwnWithin(s.homes, s.own, t.pid);
    assert s.used[s.homes[t.pid]] == Spent(s.homes, s.own, s.calls, s.homes[t.pid]);
  }

  // --- The kernel's calls, word by word ------------------------------------------------------------------------------

  class Ipc {
    var state: State

    ghost predicate Valid()
      reads this
    {
      Sound(state)
    }

    constructor (limit: map<Budget, nat>)
      ensures Valid() && state == Boot(limit)
    {
      state := Boot(limit);
      new;
      BootSound(limit);
    }

    /** A process, its frames paid for by its budget. */
    method CreateProcess(pid: Pid, b: Budget, frames: nat) returns (ok: bool)
      requires Valid() && pid !in state.homes && OwnedBy(state.pages, pid) == {} && b in state.used && b in state.limit
      modifies this
      ensures Valid() && (ok <==> old(state.used)[b] + frames <= old(state.limit)[b])
      ensures state == if ok then Spawned(old(state), pid, b, frames) else old(state)
    {
      hide Sound;
      ok := frames + state.used[b] <= state.limit[b];
      if ok {
        SpawnedKeeps(state, pid, b, frames);
        state := state.(homes := state.homes[pid := b], own := state.own[pid := frames],
                        used := state.used[b := state.used[b] + frames]);
      }
    }

    method StartThread(t: Thread)
      requires Valid() && t !in state.threads && t.pid in state.homes
      modifies this
      ensures Valid() && state == old(state).(threads := old(state.threads)[t := ThreadState(Idle, [])])
    {
      hide Sound;
      StartedKeeps(state, t);
      state := state.(threads := state.threads[t := ThreadState(Idle, [])]);
    }

    /** Each page of a lend, in turn. */
    static method SetEach(pages: map<Page, PageState>, lend: seq<Page>, st: PageState) returns (r: map<Page, PageState>)
      requires forall p :: p in lend ==> p in pages
      ensures r == Marked(pages, lend, st)
    {
      r := pages;
      for i := 0 to |lend|
        invariant r == Marked(pages, lend[..i], st)
      {
        assert lend[i] in lend && lend[..i + 1] == lend[..i] + [lend[i]];
        r := r[lend[i] := st];
      }
      assert lend[..|lend|] == lend;
    }

    /** `unlist_call`: off the lists its flags put it on. */
    static method Unlist(z: State, id: Id, c: OpenCall) returns (r: State)
      ensures r == z.(opens := Relist(z.opens, KeyOf(c, ByEndpoint), None, id),
                      taken := Relist(z.taken, KeyOf(c, ByStamp), None, id),
                      notices := Relist(z.notices, KeyOf(c, ByNotice), None, id))
    {
      r := z;
      if c.waiting { r := r.(opens := Delist(r.opens, c.endpoint, id), taken := Delist(r.taken, c.stamp, id)); }
      if c.notice { r := r.(notices := Delist(r.notices, c.endpoint, id)); }
    }

    /** `deliver` and `prepare`: the call opens if its handles fit, its lend has somewhere to go and the receiving
        budget can pay for all of it; refused, nothing has changed but that the sender's wait is over.
      */
    method Deliver(t: Thread, r: Thread, address: bool, growth: Option<nat>, tables: nat) returns (open: Option<Id>)
      requires Valid() && CanDeliver(state, t, r)
      modifies this
      ensures Valid() && r.pid in old(state.homes) && r.pid in old(state.own)
      ensures old(state.homes)[r.pid] in old(state.used) && old(state.homes)[r.pid] in old(state.limit)
      ensures var extra := Extra(old(state).threads[t].wait.lend, address, growth, tables);
              var payer := old(state.homes)[r.pid];
              var fits := && extra.Some?
                          && old(state.used)[payer] + Need(old(state), t, extra.value) <= old(state.limit)[payer];
              && open == (if fits then Some(old(state.next)) else None)
              && state == if fits then Opened(old(state), t, r, extra.value) else GivenBack(old(state), t)
    {
      hide Sound, Marked, Relist;
      DeliverTells(state, t, r);
      var w, payer := state.threads[t].wait, state.homes[r.pid];
      if (w.lend != [] && !address) || growth.None? {
        Withdraw(t);
        return None;
      }
      var extra := growth.value + if w.lend == [] then 0 else tables;
      var need := 1 + |w.lend| + extra;
      if need > state.limit[payer] - state.used[payer] {
        Withdraw(t);
        return None;
      }
      Open(t, r, extra);
      return Some(state.next - 1);
    }

    /** A queued message's buffer back in its sender's address space, and the sender's wait over. */
    method Withdraw(t: Thread)
      requires Valid() && t in state.threads && state.threads[t].wait.Sending?
      modifies this
      ensures Valid() && state == GivenBack(old(state), t)
    {
      hide Sound, Marked;
      var z := state;
      GivenBackKeeps(z, t);
      SendTells(z, t);
      var back := SetEach(z.pages, z.threads[t].wait.lend, With(t.pid));
      state := z.(pages := back, threads := z.threads[t := z.threads[t].(wait := Idle)]);
    }

    method Open(t: Thread, r: Thread, extra: nat)
      requires Valid() && CanDeliver(state, t, r)
      requires r.pid in state.homes && state.homes[r.pid] in state.used && state.homes[r.pid] in state.limit
      requires r.pid in state.own
      requires state.used[state.homes[r.pid]] + Need(state, t, extra) <= state.limit[state.homes[r.pid]]
      modifies this
      ensures Valid() && state == Opened(old(state), t, r, extra) && state.next == old(state.next) + 1
    {
      hide Sound, Marked, Relist, KeyOf, Opened;
      var z := state;
      DeliverTells(z, t, r);
      OpenedKeeps(z, t, r, extra);
      var after := OpenIt(z, t, r, extra);
      state := after;
    }

    static method OpenIt(s: State, t: Thread, r: Thread, extra: nat) returns (z: State)
      requires CanDeliver(s, t, r) && r.pid in s.homes && r.pid in s.own && s.homes[r.pid] in s.used
      requires forall p :: p in s.threads[t].wait.lend ==> p in s.pages
      ensures z == Opened(s, t, r, extra) && z.next == s.next + 1
    {
      hide Marked, Relist, KeyOf, Opened;
      z := s;
      var w, payer, id := z.threads[t].wait, z.homes[r.pid], z.next;
      z := z.(used := z.used[payer := z.used[payer] + (1 + |w.lend| + extra)],
              own := z.own[r.pid := z.own[r.pid] + extra]);
      var lent := SetEach(z.pages, w.lend, Borrowed(t.pid, id));
      var c := OpenCall(t, r, w.endpoint, w.stamp, true, false, false, w.lend, payer);
      OpenedIs(s, t, r, extra, c);
      z := z.(pages := lent, next := id + 1, calls := z.calls[id := c]);
      z := z.(opens := Enlist(z.opens, c.endpoint, id), taken := Enlist(z.taken, c.stamp, id));
      z := z.(threads := z.threads[t := z.threads[t].(wait := AwaitingReply(id))]);
      z := z.(threads := z.threads[r := ThreadState(Idle, z.threads[r].held + [id])]);
    }

    /** `finish_reply`, and `finish_served` when the server thread ends: the lend goes back to the caller, or,
        abandoned, is freed; the call's page and its charges go; the caller's wait is over.
      */
    method Finish(id: Id) returns (delivered: bool)
      requires Valid() && id in state.calls
      modifies this
      ensures Valid() && delivered == old(state.calls)[id].waiting
      ensures state == CloseOne(old(state), id)
    {
      hide Sound, Closed;
      var z := state;
      ClosedKeeps(z, id);
      CallTells(z, id);
      delivered := z.calls[id].waiting;
      var after := FinishIt(z, id);
      state := after;
    }

    static method FinishIt(s: State, id: Id) returns (z: State)
      requires id in s.calls && s.calls[id].server in s.threads && s.calls[id].server.pid in s.own
      requires s.calls[id].payer in s.used
      requires 1 + |s.calls[id].lend| <= s.used[s.calls[id].payer] && s.calls[id].caller != s.calls[id].server
      requires !s.calls[id].waiting ==> |s.calls[id].lend| <= s.own[s.calls[id].server.pid]
      requires s.calls[id].waiting ==> s.calls[id].caller in s.threads
      requires forall p :: p in s.calls[id].lend ==> p in s.pages
      ensures z == Closed(s, id)
    {
      hide Marked, Relist, KeyOf, Closed;
      ClosedIs(s, id);
      var c := s.calls[id];
      z := s.(threads := s.threads[c.server := s.threads[c.server].(held := Without(s.threads[c.server].held, id))]);
      if c.waiting {
        var back := SetEach(z.pages, c.lend, With(c.caller.pid));
        z := z.(pages := back);
      } else {
        var gone := SetEach(z.pages, c.lend, Freed);
        z := z.(pages := gone, own := z.own[c.server.pid := z.own[c.server.pid] - |c.lend|],
                used := z.used[c.payer := z.used[c.payer] - |c.lend|]);
      }
      z := Unlist(z, id, c);
      z := z.(used := z.used[c.payer := z.used[c.payer] - (1 + if c.waiting then |c.lend| else 0)],
              calls := z.calls - {id});
      if c.waiting { z := z.(threads := z.threads[c.caller := z.threads[c.caller].(wait := Idle)]); }
    }

    /** `abandon`: the caller's wait is over, the lend the server's alone, and a notice owed to the thread
        holding the call.
      */
    method Abandon(id: Id)
      requires Valid() && id in state.calls && state.calls[id].waiting
      modifies this
      ensures Valid() && state == AbandonOne(old(state), id)
    {
      hide Sound, Abandoned;
      var z := state;
      AbandonedKeeps(z, id);
      var after := AbandonIt(z, id);
      state := after;
    }

    static method AbandonIt(s: State, id: Id) returns (z: State)
      requires Sound(s) && id in s.calls && s.calls[id].waiting
      ensures z == AbandonOne(s, id)
    {
      hide Sound, Marked, Relist, KeyOf, Abandoned, Moved;
      AbandonedKeeps(s, id);
      LendCovered(s, id);
      LentTwice(s, id);
      CallTells(s, id);
      var c := s.calls[id];
      z := Unlist(s, id, c);
      z := z.(calls := z.calls[id := c.(waiting := false, abandoned := true, notice := true)],
              notices := Enlist(z.notices, c.endpoint, id));
      // The receiver's charge for the lend ends; then each frame moves, and its charge with it.
      var u, w := MoveFrames(z, c.payer, c.caller.pid, c.server.pid, |c.lend|);
      AbandonedIs(s, id, u, w, z.notices);
      var lent := SetEach(z.pages, c.lend, Orphaned(c.server.pid, id));
      z := z.(used := u, own := w, pages := lent, threads := z.threads[c.caller := z.threads[c.caller].(wait := Idle)]);
    }

    /** The payer's charge for `n` lent pages ends, and each of them moves from `cp` to `sp` and is charged
        there instead.
      */
    static method MoveFrames(s: State, payer: Budget, cp: Pid, sp: Pid, n: nat)
      returns (u: map<Budget, nat>, w: map<Pid, nat>)
      requires cp in s.homes && sp in s.homes && s.homes[sp] == payer && cp in s.own && sp in s.own && n <= s.own[cp]
      requires payer in s.used && s.homes[cp] in s.used && n <= s.used[payer] && n <= s.used[s.homes[cp]]
      requires s.homes[cp] == payer ==> 2 * n <= s.used[payer]
      ensures u == s.used[s.homes[cp] := s.used[s.homes[cp]] - n] && w == Moved(s.own, cp, sp, n)
    {
      u, w := s.used[payer := s.used[payer] - n], s.own;
      for i := 0 to n
        invariant w == Moved(s.own, cp, sp, i)
        invariant u == Shifted(s.used, payer, s.homes[cp], n, i)
      {
        u := u[s.homes[cp] := u[s.homes[cp]] - 1];
        u := u[payer := u[payer] + 1];
        w := w[cp := w[cp] - 1];
        w := w[sp := w[sp] + 1];
      }
    }

    /** `reply(msg_id)`: only an open call of the caller's own thread. It is delivered if the caller still waits and its
        record can be written; the call is over either way.
      */
    method Reply(r: Thread, id: Id, written: bool) returns (answer: Option<bool>)
      requires Valid() && r in state.threads
      modifies this
      ensures Valid() && (answer.Some? <==> id in old(state.calls) && old(state.calls)[id].server == r)
      ensures answer.Some? ==>
                answer.value == (old(state.calls)[id].waiting && written) && state == CloseOne(old(state), id)
      ensures answer.None? ==> state == old(state)
    {
      hide Sound, CloseOne;
      ReplyTells(state, r, id);
      if id !in state.threads[r].held { return None; }
      var waited := Finish(id);
      return Some(waited && written);
    }

    /** `fail_wait`: a timeout, or a destruction's `Dead`. */
    method FailWait(t: Thread)
      requires Valid() && t in state.threads
      modifies this
      ensures Valid() && state == Unwound(old(state), t)
    {
      hide Sound, AbandonOne, GivenBack;
      UnwoundKeeps(state, t);
      UnwoundIs(state, t);
      match state.threads[t].wait {
        case Sending(_, _, _) => Withdraw(t);
        case AwaitingReply(id) => WaitedFor(state, t); Abandon(id);
        case _ => state := state.(threads := state.threads[t := state.threads[t].(wait := Idle)]);
      }
    }

    /** `end_thread`: its wait withdrawn, then every call it holds ended, the first first. */
    method EndThread(t: Thread)
      requires Valid() && t in state.threads
      modifies this
      ensures Valid() && state == ThreadEnded(old(state), t)
    {
      hide Sound, Unwound, CloseHeld, CloseOne;
      ThreadEndedKeeps(state, t);
      ghost var s := state;
      UnwoundKeeps(s, t);
      FailWait(t);
      ghost var unwound := state;
      while |state.threads[t].held| > 0
        invariant Valid() && t in state.threads && CloseHeld(state, t) == CloseHeld(unwound, t)
        decreases |state.threads[t].held|
      {
        FirstHeld(state, t);
        CloseHeldNext(state, t);
        var delivered := Finish(state.threads[t].held[0]);
      }
      CloseHeldNext(state, t);
      state := state.(threads := state.threads - {t});
    }

    /** `endpoint_dying`: the threads waiting on `e`, the callers waiting there for a reply, the notices owed. */
    method EndpointDying(e: Endpoint, waiters: seq<Thread>)
      requires Valid() && (forall i :: 0 <= i < |waiters| ==> waiters[i] in state.threads)
      requires forall t :: t in state.threads && On(state.threads[t].wait, e) ==> t in waiters
      modifies this
      ensures Valid() && state == EndpointDied(old(state), e, waiters)
    {
      hide Sound, Unwound, AllUnwound, CallersFailed, NoticesDropped, AbandonOne, Unnoticed, ListOf, On;
      ghost var s := state;
      EndpointDiedKeeps(s, e, waiters);
      AllUnwoundKeeps(s, waiters);
      FailEach(waiters);
      ghost var unwound := state;
      CallersFailedKeeps(unwound, ByEndpoint, e);
      FailCallers(ByEndpoint, e);
      DropNotices(e);
    }

    method FailEach(ts: seq<Thread>)
      requires Valid() && (forall i :: 0 <= i < |ts| ==> ts[i] in state.threads)
      modifies this
      ensures Valid() && state == AllUnwound(old(state), ts)
    {
      hide Sound, Unwound, AllUnwound;
      ghost var s := state;
      var i := 0;
      while i < |ts|
        invariant 0 <= i <= |ts| && Valid() && state.threads.Keys == s.threads.Keys
        invariant AllUnwound(state, ts[i..]) == AllUnwound(s, ts)
      {
        UnwoundKeeps(state, ts[i]);
        AllUnwoundNext(state, ts[i..]);
        assert ts[i..][1..] == ts[i + 1..];
        FailWait(ts[i]);
        i := i + 1;
      }
      AllUnwoundNext(state, ts[i..]);
    }

    method FailCallers(kind: Kind, k: nat)
      requires Valid() && kind != ByNotice
      modifies this
      ensures Valid() && state == CallersFailed(old(state), kind, k)
    {
      hide Sound, CallersFailed, AbandonOne, ListOf;
      ghost var s := state;
      while |Callers(state, kind, k)| > 0
        invariant Valid() && CallersFailed(state, kind, k) == CallersFailed(s, kind, k)
        decreases |Callers(state, kind, k)|
      {
        FirstOpen(state, kind, k);
        CallersFailedNext(state, kind, k);
        Abandon(Callers(state, kind, k)[0]);
      }
      CallersFailedNext(state, kind, k);
    }

    /** `budgets_dying`, for one dying budget's handles: what was sent through them fails. */
    method StampDying(b: Budget, senders: seq<Thread>)
      requires Valid() && (forall i :: 0 <= i < |senders| ==> senders[i] in state.threads)
      requires forall t :: t in state.threads && Stamped(state.threads[t].wait, b) ==> t in senders
      modifies this
      ensures Valid() && state == StampDied(old(state), b, senders)
      ensures forall id :: id in state.calls && state.calls[id].stamp == b ==> !state.calls[id].waiting
    {
      hide Sound, Unwound, AllUnwound, CallersFailed, AbandonOne, ListOf;
      ghost var s := state;
      StampDiedKeeps(s, b, senders);
      AllUnwoundKeeps(s, senders);
      FailEach(senders);
      FailCallers(ByStamp, b);
    }

    method DropNotices(e: Endpoint)
      requires Valid()
      modifies this
      ensures Valid() && state == NoticesDropped(old(state), e)
    {
      hide Sound, NoticesDropped, Unnoticed, ListOf;
      ghost var s := state;
      while |ListOf(state.notices, e)| > 0
        invariant Valid() && NoticesDropped(state, e) == NoticesDropped(s, e)
        decreases |ListOf(state.notices, e)|
      {
        FirstNotice(state, e);
        NoticesDroppedNext(state, e);
        ClearNotice(ListOf(state.notices, e)[0], false);
      }
      NoticesDroppedNext(state, e);
    }

    method ClearNotice(id: Id, delivered: bool)
      requires Valid() && id in state.calls && state.calls[id].notice
      requires delivered ==>
                 && state.calls[id].server in state.threads
                 && state.threads[state.calls[id].server].wait.Receiving?
      modifies this
      ensures Valid() && state == Unnoticed(old(state), id, delivered)
    {
      hide Sound;
      UnnoticedKeeps(state, id, delivered);
      var c := state.calls[id];
      var after := state.(calls := state.calls[id := c.(notice := false)],
                          notices := Delist(state.notices, c.endpoint, id));
      if delivered {
        after := after.(told := after.told + {id},
                        threads := after.threads[c.server := after.threads[c.server].(wait := Idle)]);
      }
      state := after;
    }

    /** `deliver_all`'s first choice: an abandoned-call notice goes to the thread holding the call, receiving on
        the endpoint it came by; it is owed no more, and was never told before.
      */
    method DeliverNotice(id: Id)
      requires Valid() && id in state.calls && state.calls[id].notice
      requires state.calls[id].server in state.threads
      requires state.threads[state.calls[id].server].wait == Receiving(state.calls[id].endpoint)
      modifies this
      ensures Valid() && state == Unnoticed(old(state), id, true) && id !in old(state.told) && id in state.told
    {
      hide Sound;
      UnnoticedKeeps(state, id, true);
      ClearNotice(id, true);
    }
  }
}
