/** Timed waits and their expiry: the timeouts and budget deadlines due, ended in order, and who is billed for it
    (kernel/src/time.rs, kernel/src/message.rs; I13, R12).
  */
module Timer {
  import opened Basics

  type Pid = nat
  type Tid = nat
  type Budget = nat

  /** `u64::MAX`: no deadline. */
  const NEVER: nat := 0xffff_ffff_ffff_ffff

  // --- A process's timed waits, and its cached earliest -------------------------------------------------------------

  datatype Wait = Wait(tid: Tid, deadline: nat)

  datatype Process = Process(waits: seq<Wait>, earliest: nat)

  function Min(a: nat, b: nat): nat { if a < b then a else b }

  function Max(a: nat, b: nat): nat { if a < b then b else a }

  /** The earliest deadline of them all, in whatever order they are listed. */
  ghost function Earliest(waits: seq<Wait>): nat {
    if |waits| == 0 then NEVER else Min(Earliest(waits[..|waits| - 1]), waits[|waits| - 1].deadline)
  }

  ghost predicate ByDeadline(waits: seq<Wait>) {
    && (forall i, j :: 0 <= i < j < |waits| ==> waits[i].deadline <= waits[j].deadline)
    && (forall i, j :: 0 <= i < j < |waits| ==> waits[i].tid != waits[j].tid)
    && (forall i :: 0 <= i < |waits| ==> waits[i].deadline < NEVER)
  }

  /** The list is kept by deadline, one wait a thread, and the cache is exact. */
  ghost predicate Exact(p: Process) { ByDeadline(p.waits) && p.earliest == Earliest(p.waits) }

  lemma {:induction false} EarliestIsFirst(waits: seq<Wait>)
    requires ByDeadline(waits)
    ensures Earliest(waits) == if |waits| == 0 then NEVER else waits[0].deadline
    decreases |waits|
  {
    if |waits| > 0 {
      var n := |waits| - 1;
      assert ByDeadline(waits[..n]);
      EarliestIsFirst(waits[..n]);
      if n > 0 { assert waits[..n][0] == waits[0] && waits[0].deadline <= waits[n].deadline; }
    }
  }

  /** Nothing is earlier, and something is that early. */
  lemma {:induction false} EarliestIsLeast(waits: seq<Wait>)
    ensures forall w :: w in waits ==> Earliest(waits) <= w.deadline
    ensures |waits| > 0 && (forall w :: w in waits ==> w.deadline <= NEVER) ==>
              exists w :: w in waits && w.deadline == Earliest(waits)
    decreases |waits|
  {
    if |waits| > 0 {
      var n := |waits| - 1;
      EarliestIsLeast(waits[..n]);
      assert waits == waits[..n] + [waits[n]];
      if n > 0 && (forall w :: w in waits ==> w.deadline <= NEVER) {
        var w :| w in waits[..n] && w.deadline == Earliest(waits[..n]);
        assert w in waits && waits[n] in waits;
      } else {
        assert waits[n] in waits;
      }
    }
  }

  /** Where the thread's wait is, or the length. */
  function Find(waits: seq<Wait>, tid: Tid): (k: nat)
    ensures k <= |waits| && (k < |waits| ==> waits[k].tid == tid) && forall i :: 0 <= i < k ==> waits[i].tid != tid
  {
    if |waits| == 0 then 0
    else var k := Find(waits[..|waits| - 1], tid);
      if k < |waits| - 1 || waits[|waits| - 1].tid == tid then k else |waits|
  }

  function RemovedAt(waits: seq<Wait>, k: nat): (r: seq<Wait>)
    requires k < |waits|
    ensures |r| == |waits| - 1 && forall i :: 0 <= i < |r| ==> r[i] == if i < k then waits[i] else waits[i + 1]
  {
    waits[..k] + waits[k + 1..]
  }

  function InsertedAt(waits: seq<Wait>, k: nat, w: Wait): (r: seq<Wait>)
    requires k <= |waits|
    ensures |r| == |waits| + 1 && forall i :: 0 <= i < |r| ==>
              r[i] == if i < k then waits[i] else if i == k then w else waits[i - 1]
  {
    waits[..k] + [w] + waits[k..]
  }

  /** `untime`: the wait leaves the list, and if it was first, the cache rises to the next. */
  function Untimed(p: Process, tid: Tid): Process {
    var k := Find(p.waits, tid);
    if k == |p.waits| then p
    else
      var rest := RemovedAt(p.waits, k);
      Process(rest, if k > 0 then p.earliest else Max(p.earliest, if |rest| == 0 then NEVER else rest[0].deadline))
  }

  lemma {:induction false} UntimedKeeps(p: Process, tid: Tid)
    requires Exact(p)
    ensures Exact(Untimed(p, tid))
    ensures forall w :: w in Untimed(p, tid).waits <==> w in p.waits && w.tid != tid
  {
    hide Earliest;
    var k, p' := Find(p.waits, tid), Untimed(p, tid);
    UntimedList(p.waits, tid);
    EarliestIsFirst(p.waits);
    EarliestIsFirst(p'.waits);
  }

  lemma {:induction false} UntimedList(waits: seq<Wait>, tid: Tid)
    requires ByDeadline(waits)
    ensures var k := Find(waits, tid);
            k < |waits| ==>
              && ByDeadline(RemovedAt(waits, k))
              && forall w :: w in RemovedAt(waits, k) <==> w in waits && w.tid != tid
    ensures Find(waits, tid) == |waits| ==> forall w :: w in waits ==> w.tid != tid
  {
    var k := Find(waits, tid);
    if k < |waits| {
      var rest := RemovedAt(waits, k);
      RemovedByDeadline(waits, k);
      hide ByDeadline;
      forall w | w in waits && w.tid != tid ensures w in rest {
        var i :| 0 <= i < |waits| && waits[i] == w;
        assert w == if i < k then rest[i] else rest[i - 1];
      }
      forall w | w in rest ensures w in waits && w.tid != tid {
        var i :| 0 <= i < |rest| && rest[i] == w;
        DistinctAt(waits, k, if i < k then i else i + 1);
      }
    }
  }

  lemma {:induction false} RemovedByDeadline(waits: seq<Wait>, k: nat)
    requires ByDeadline(waits) && k < |waits|
    ensures ByDeadline(RemovedAt(waits, k))
  {
  }

  lemma {:induction false} DistinctAt(waits: seq<Wait>, k: nat, i: nat)
    requires ByDeadline(waits) && k < |waits| && i < |waits| && i != k
    ensures waits[i].tid != waits[k].tid
  {
  }

  /** Its place: after every wait not later. */
  function Place(waits: seq<Wait>, deadline: nat): (k: nat)
    ensures k <= |waits| && (k < |waits| ==> waits[k].deadline > deadline)
    ensures forall i :: 0 <= i < k ==> waits[i].deadline <= deadline
  {
    if |waits| == 0 then 0
    else var k := Place(waits[..|waits| - 1], deadline);
      if k < |waits| - 1 || waits[|waits| - 1].deadline > deadline then k else |waits|
  }

  lemma {:induction false} PlaceWithin(waits: seq<Wait>, deadline: nat)
    ensures Place(waits, deadline) <= |waits|
  {
  }

  /** `mark`: the thread waits until `deadline`, whatever it waited for before. */
  function Marked(p: Process, tid: Tid, deadline: nat): Process {
    var q := Untimed(p, tid);
    if deadline >= NEVER then q
    else
      var k := Place(q.waits, deadline);
      Process(InsertedAt(q.waits, k, Wait(tid, deadline)), Min(q.earliest, deadline))
  }

  lemma {:induction false} InsertedByDeadline(waits: seq<Wait>, k: nat, w: Wait)
    requires ByDeadline(waits) && w.deadline < NEVER && forall x :: x in waits ==> x.tid != w.tid
    requires k <= |waits| && (k < |waits| ==> waits[k].deadline > w.deadline)
    requires forall i :: 0 <= i < k ==> waits[i].deadline <= w.deadline
    ensures ByDeadline(InsertedAt(waits, k, w))
  {
    forall i | k <= i < |waits| ensures waits[i].deadline > w.deadline {
      assert i > k ==> waits[k].deadline <= waits[i].deadline;
    }
    forall i | 0 <= i < |waits| ensures waits[i].tid != w.tid { assert waits[i] in waits; }
  }

  lemma {:induction false} PlacedList(waits: seq<Wait>, w: Wait)
    requires ByDeadline(waits) && w.deadline < NEVER && forall x :: x in waits ==> x.tid != w.tid
    ensures var k := Place(waits, w.deadline);
            ByDeadline(InsertedAt(waits, k, w)) && forall x :: x in InsertedAt(waits, k, w) <==> x in waits || x == w
  {
    hide ByDeadline;
    var k := Place(waits, w.deadline);
    var list := InsertedAt(waits, k, w);
    InsertedByDeadline(waits, k, w);
    forall x | x in waits || x == w ensures x in list {
      if x == w {
        assert list[k] == w;
      } else {
        var i :| 0 <= i < |waits| && waits[i] == x;
        assert x == if i < k then list[i] else list[i + 1];
      }
    }
  }

  lemma {:induction false} MarkedKeeps(p: Process, tid: Tid, deadline: nat)
    requires Exact(p)
    ensures Exact(Marked(p, tid, deadline))
    ensures forall w :: w in Marked(p, tid, deadline).waits <==>
              (w in p.waits && w.tid != tid) || (deadline < NEVER && w == Wait(tid, deadline))
  {
    hide Untimed, Earliest, ByDeadline;
    UntimedKeeps(p, tid);
    var q := Untimed(p, tid);
    if deadline < NEVER {
      PlacedList(q.waits, Wait(tid, deadline));
      EarliestIsFirst(q.waits);
      EarliestIsFirst(Marked(p, tid, deadline).waits);
    }
  }

  // --- What is due --------------------------------------------------------------------------------------------------

  datatype Thread = Thread(pid: Pid, tid: Tid)

  datatype Item = Timeout(at: nat, thread: Thread) | Deadline(at: nat, budget: Budget)

  /** The order an expiry ends things in: by instant; a timeout before a budget's deadline; then by thread, and by
      budget.
    */
  predicate Before(a: Item, b: Item) {
    a.at < b.at ||
    (a.at == b.at &&
     match (a, b)
     case (Timeout(_, x), Timeout(_, y)) => x.pid < y.pid || (x.pid == y.pid && x.tid < y.tid)
     case (Timeout(_, _), Deadline(_, _)) => true
     case (Deadline(_, _), Timeout(_, _)) => false
     case (Deadline(_, x), Deadline(_, y)) => x < y)
  }

  ghost predicate Ordered(items: seq<Item>) { forall i, j :: 0 <= i < j < |items| ==> Before(items[i], items[j]) }

  /** `due`: the due list, empty outside an expiry. `deadlines`: the budgets' deadlines. */
  datatype Queue = Queue(processes: map<Pid, Process>, due: seq<Item>, deadlines: seq<Item>)

  ghost predicate Waits(processes: map<Pid, Process>, thread: Thread, at: nat) {
    thread.pid in processes && Wait(thread.tid, at) in processes[thread.pid].waits
  }

  ghost predicate WaitDue(processes: map<Pid, Process>, now: nat) {
    exists thread, at: nat :: at <= now && Waits(processes, thread, at)
  }

  ghost predicate AllExact(processes: map<Pid, Process>) { forall pid :: pid in processes ==> Exact(processes[pid]) }

  /** Still to be ended by an expiry at `now`. */
  ghost predicate Pending(q: Queue, now: nat, x: Item) {
    match x
    case Timeout(_, _) => x in q.due
    case Deadline(at, _) => x in q.deadlines && at <= now
  }

  /** Every cache is exact, and a budget has one deadline at most. */
  ghost predicate QueueSound(q: Queue) {
    && AllExact(q.processes)
    && (forall x :: x in q.deadlines ==> x.Deadline?)
    && (forall x, y :: x in q.deadlines && y in q.deadlines && x.budget == y.budget ==> x == y)
  }

  /** Inside an expiry: the due list is in order, and holds waits due. */
  ghost predicate Collected(q: Queue, now: nat) {
    && QueueSound(q)
    && Ordered(q.due)
    && (forall x :: x in q.due ==> x.Timeout? && x.at <= now)
  }

  /** Every wait due is on the due list, but those the first `n` endings began. */
  ghost predicate Listed(q: Queue, now: nat, effects: nat -> Effect, n: nat) {
    forall thread, at: nat :: Waits(q.processes, thread, at) && at <= now ==>
      Timeout(at, thread) in q.due || BegunBy(effects, n, thread, at)
  }

  // --- What one ending does -----------------------------------------------------------------------------------------

  /** A wait begun, with its deadline. */
  datatype Begun = Begun(thread: Thread, at: nat)

  /** What an ending does beside its own item: the waits it answers, which stay on the due list; the threads
      that die, which leave every list; the waits that begin, a send taken and its turn gone on to receive; the budgets
      destroyed. And who is billed for it, if anyone is left to.
    */
  datatype Effect = Effect(
    answered: seq<Thread>, ended: seq<Thread>, begun: seq<Begun>, destroyed: set<Budget>, payer: Option<Budget>)

  /** The wait is one the first `n` endings began. */
  ghost predicate BegunBy(effects: nat -> Effect, n: nat, thread: Thread, at: nat) {
    exists k: nat :: k < n && Begun(thread, at) in effects(k).begun
  }

  function MarkedIn(processes: map<Pid, Process>, w: Begun): map<Pid, Process> {
    var t := w.thread;
    if t.pid in processes then processes[t.pid := Marked(processes[t.pid], t.tid, w.at)] else processes
  }

  function MarkedAll(processes: map<Pid, Process>, begun: seq<Begun>): map<Pid, Process> {
    if |begun| == 0 then processes else MarkedIn(MarkedAll(processes, begun[..|begun| - 1]), begun[|begun| - 1])
  }

  function UntimedAll(processes: map<Pid, Process>, threads: seq<Thread>): map<Pid, Process> {
    if |threads| == 0 then processes
    else UntimedIn(UntimedAll(processes, threads[..|threads| - 1]), threads[|threads| - 1])
  }

  function UntimedIn(processes: map<Pid, Process>, t: Thread): map<Pid, Process> {
    if t.pid in processes then processes[t.pid := Untimed(processes[t.pid], t.tid)] else processes
  }

  predicate Gone(x: Item, threads: seq<Thread>, budgets: set<Budget>) {
    match x
    case Timeout(_, thread) => thread in threads
    case Deadline(_, budget) => budget in budgets
  }

  function Without(items: seq<Item>, threads: seq<Thread>, budgets: set<Budget>): seq<Item> {
    if |items| == 0 then []
    else
      var x := items[|items| - 1];
      Without(items[..|items| - 1], threads, budgets) + if Gone(x, threads, budgets) then [] else [x]
  }

  function Affected(q: Queue, e: Effect): Queue {
    Queue(MarkedAll(UntimedAll(q.processes, e.answered + e.ended), e.begun),
          Without(q.due, e.ended, e.destroyed), Without(q.deadlines, e.ended, e.destroyed))
  }

  /** The first wait due leaves the due list, and times out if it has not ended meanwhile. */
  function TimedOut(q: Queue, e: Effect): Queue
    requires |q.due| > 0 && q.due[0].Timeout?
  {
    Affected(Queue(UntimedAll(q.processes, [q.due[0].thread]), q.due[1..], q.deadlines), e)
  }

  /** A budget's deadline: it is destroyed, and what goes with it. */
  function Fallen(q: Queue, budget: Budget, e: Effect): Queue {
    Affected(q, e.(destroyed := e.destroyed + {budget}))
  }

  lemma {:induction false} WithoutMembers(items: seq<Item>, threads: seq<Thread>, budgets: set<Budget>)
    ensures |Without(items, threads, budgets)| <= |items|
    ensures forall x :: x in Without(items, threads, budgets) <==> x in items && !Gone(x, threads, budgets)
    decreases |items|
  {
    if |items| > 0 {
      var n := |items| - 1;
      WithoutMembers(items[..n], threads, budgets);
      assert items == items[..n] + [items[n]];
    }
  }

  /** Something goes if something in it is gone. */
  lemma {:induction false} WithoutFewer(items: seq<Item>, threads: seq<Thread>, budgets: set<Budget>, i: nat)
    requires i < |items| && Gone(items[i], threads, budgets)
    ensures |Without(items, threads, budgets)| < |items|
    decreases |items|
  {
    var n := |items| - 1;
    WithoutMembers(items[..n], threads, budgets);
    if i < n { WithoutFewer(items[..n], threads, budgets, i); }
  }

  lemma {:induction false} WithoutOrdered(items: seq<Item>, threads: seq<Thread>, budgets: set<Budget>)
    requires Ordered(items)
    ensures Ordered(Without(items, threads, budgets))
    decreases |items|
  {
    if |items| > 0 {
      var n := |items| - 1;
      assert Ordered(items[..n]);
      WithoutOrdered(items[..n], threads, budgets);
      WithoutMembers(items[..n], threads, budgets);
      var before := Without(items[..n], threads, budgets);
      forall i | 0 <= i < |before| ensures Before(before[i], items[n]) {
        assert before[i] in items[..n];
        var k :| 0 <= k < n && items[..n][k] == before[i];
        assert Before(items[k], items[n]);
      }
    }
  }

  lemma {:induction false} UntimedAllKeeps(processes: map<Pid, Process>, threads: seq<Thread>)
    requires AllExact(processes)
    ensures AllExact(UntimedAll(processes, threads)) && UntimedAll(processes, threads).Keys == processes.Keys
    ensures forall thread, at: nat ::
              Waits(UntimedAll(processes, threads), thread, at) <==> Waits(processes, thread, at) && thread !in threads
    decreases |threads|
  {
    hide UntimedIn, AllExact, Waits;
    if |threads| > 0 {
      var n := |threads| - 1;
      UntimedAllKeeps(processes, threads[..n]);
      UntimedInKeeps(UntimedAll(processes, threads[..n]), threads[n]);
      assert threads == threads[..n] + [threads[n]];
    }
  }

  lemma {:induction false} UntimedInKeeps(processes: map<Pid, Process>, t: Thread)
    requires AllExact(processes)
    ensures AllExact(UntimedIn(processes, t)) && UntimedIn(processes, t).Keys == processes.Keys
    ensures forall thread, at: nat :: Waits(UntimedIn(processes, t), thread, at) <==>
              Waits(processes, thread, at) && thread != t
  {
    if t.pid in processes { UntimedKeeps(processes[t.pid], t.tid); }
    hide Untimed, Exact;
  }

  /** The deadline of the last wait thread `t` begins among these, if it begins one. */
  function LastBegun(begun: seq<Begun>, t: Thread): Option<nat> {
    if |begun| == 0 then None
    else if begun[|begun| - 1].thread == t then Some(begun[|begun| - 1].at) else LastBegun(begun[..|begun| - 1], t)
  }

  /** Of the waits begun, a thread's last is the one it has, unless it is forever; a thread that begins none keeps its
      own.
    */
  lemma {:induction false} MarkedAllExact(processes: map<Pid, Process>, begun: seq<Begun>)
    requires AllExact(processes)
    ensures forall thread, at: nat :: Waits(MarkedAll(processes, begun), thread, at) <==>
              match LastBegun(begun, thread)
              case Some(b) => thread.pid in processes && at == b && b < NEVER
              case None => Waits(processes, thread, at)
    decreases |begun|
  {
    hide MarkedIn, AllExact, Waits;
    if |begun| > 0 {
      var n := |begun| - 1;
      MarkedAllKeeps(processes, begun[..n]);
      MarkedAllExact(processes, begun[..n]);
      MarkedInKeeps(MarkedAll(processes, begun[..n]), begun[n]);
    }
  }

  lemma {:induction false} MarkedInKeeps(processes: map<Pid, Process>, w: Begun)
    requires AllExact(processes)
    ensures AllExact(MarkedIn(processes, w)) && MarkedIn(processes, w).Keys == processes.Keys
    ensures forall thread, at: nat :: Waits(MarkedIn(processes, w), thread, at) <==>
              if thread == w.thread then thread.pid in processes && at == w.at && w.at < NEVER
              else Waits(processes, thread, at)
    ensures forall thread, at: nat :: Waits(MarkedIn(processes, w), thread, at) ==>
              Waits(processes, thread, at) || Begun(thread, at) == w
  {
    if w.thread.pid in processes { MarkedKeeps(processes[w.thread.pid], w.thread.tid, w.at); }
    hide Marked, Exact;
  }

  lemma {:induction false} MarkedAllKeeps(processes: map<Pid, Process>, begun: seq<Begun>)
    requires AllExact(processes)
    ensures AllExact(MarkedAll(processes, begun)) && MarkedAll(processes, begun).Keys == processes.Keys
    ensures forall thread, at: nat ::
              Waits(MarkedAll(processes, begun), thread, at) ==>
                Waits(processes, thread, at) || Begun(thread, at) in begun
    decreases |begun|
  {
    hide MarkedIn, AllExact, Waits;
    if |begun| > 0 {
      var n := |begun| - 1;
      MarkedAllKeeps(processes, begun[..n]);
      MarkedInKeeps(MarkedAll(processes, begun[..n]), begun[n]);
      assert begun == begun[..n] + [begun[n]];
    }
  }

  lemma {:induction false} AffectedKeeps(q: Queue, now: nat, e: Effect)
    requires Collected(q, now)
    ensures Collected(Affected(q, e), now)
    ensures forall x :: Pending(Affected(q, e), now, x) <==> Pending(q, now, x) && !Gone(x, e.ended, e.destroyed)
  {
    hide UntimedAll, MarkedAll, Without, Ordered, AllExact;
    UntimedAllKeeps(q.processes, e.answered + e.ended);
    MarkedAllKeeps(UntimedAll(q.processes, e.answered + e.ended), e.begun);
    WithoutMembers(q.due, e.ended, e.destroyed);
    WithoutOrdered(q.due, e.ended, e.destroyed);
    WithoutMembers(q.deadlines, e.ended, e.destroyed);
  }

  /** A wait there after an ending's effects is one the ending began, or was there and its thread lives. */
  lemma {:induction false} AffectedWaits(q: Queue, e: Effect)
    requires AllExact(q.processes)
    ensures forall thread, at: nat :: Waits(Affected(q, e).processes, thread, at) ==>
              Begun(thread, at) in e.begun || (Waits(q.processes, thread, at) && thread !in e.ended)
    ensures forall x :: x in Affected(q, e).due <==> x in q.due && !Gone(x, e.ended, e.destroyed)
  {
    hide UntimedAll, MarkedAll, Without, AllExact, Waits;
    UntimedAllKeeps(q.processes, e.answered + e.ended);
    MarkedAllKeeps(UntimedAll(q.processes, e.answered + e.ended), e.begun);
    WithoutMembers(q.due, e.ended, e.destroyed);
  }

  /** One item ended: every wait due is still on the due list, but those begun. */
  lemma {:induction false} ListedStep(q: Queue, now: nat, x: Item, effects: nat -> Effect, n: nat)
    requires Collected(q, now) && Listed(q, now, effects, n) && Next(q, now) == Some(x)
    ensures x.Timeout? ==> |q.due| > 0 && q.due[0].Timeout?
    ensures Listed(Ended(q, x, effects(n)), now, effects, n + 1)
  {
    hide UntimedAll, Affected, AllExact, Next, Ordered, DueBudget;
    NextIsFirst(q, now);
    if |q.due| > 0 { assert q.due[0] in q.due; }
    var e := effects(n);
    var mid := if x.Timeout? then Queue(UntimedAll(q.processes, [x.thread]), q.due[1..], q.deadlines) else q;
    var e' := if x.Timeout? then e else e.(destroyed := e.destroyed + {x.budget});
    UntimedAllKeeps(q.processes, if x.Timeout? then [x.thread] else []);
    AffectedWaits(mid, e');
    var q' := Ended(q, x, e);
    assert q' == Affected(mid, e');
    forall thread, at: nat | Waits(q'.processes, thread, at) && at <= now
      ensures Timeout(at, thread) in q'.due || BegunBy(effects, n + 1, thread, at)
    {
      if Begun(thread, at) !in e.begun {
        assert Waits(q.processes, thread, at);
        if Timeout(at, thread) in q.due {
          var i :| 0 <= i < |q.due| && q.due[i] == Timeout(at, thread);
          assert x.Timeout? ==> thread != x.thread && i > 0 && mid.due[i - 1] == q.due[i];
        } else {
          var k: nat :| k < n && Begun(thread, at) in effects(k).begun;
        }
      }
    }
  }

  /** The first wait due, ended: nothing else pending changes but by the effects. */
  lemma {:induction false} TimedOutKeeps(q: Queue, now: nat, e: Effect)
    requires Collected(q, now) && |q.due| > 0
    ensures Collected(TimedOut(q, e), now)
    ensures forall x :: Pending(TimedOut(q, e), now, x) <==>
              Pending(q, now, x) && x != q.due[0] && !Gone(x, e.ended, e.destroyed)
    ensures |TimedOut(q, e).due| < |q.due| && |TimedOut(q, e).deadlines| <= |q.deadlines|
  {
    hide UntimedAll, MarkedAll, Without, AllExact;
    var first := q.due[0];
    UntimedAllKeeps(q.processes, [first.thread]);
    var q' := Queue(UntimedAll(q.processes, [first.thread]), q.due[1..], q.deadlines);
    FirstOnce(q.due);
    hide Ordered;
    AffectedKeeps(q', now, e);
    WithoutMembers(q'.due, e.ended, e.destroyed);
    WithoutMembers(q'.deadlines, e.ended, e.destroyed);
  }

  lemma {:induction false} FirstOnce(items: seq<Item>)
    requires Ordered(items) && |items| > 0
    ensures Ordered(items[1..]) && forall x :: x in items[1..] <==> x in items && x != items[0]
  {
    assert items == [items[0]] + items[1..];
    forall x | x in items[1..] ensures x != items[0] {
      var k :| 1 <= k < |items| && items[k] == x;
      assert Before(items[0], items[k]);
    }
  }

  lemma {:induction false} FallenKeeps(q: Queue, now: nat, x: Item, e: Effect)
    requires Collected(q, now) && x in q.deadlines
    ensures Collected(Fallen(q, x.budget, e), now)
    ensures forall y :: Pending(Fallen(q, x.budget, e), now, y) <==>
              Pending(q, now, y) && !Gone(y, e.ended, e.destroyed + {x.budget})
    ensures |Fallen(q, x.budget, e).due| <= |q.due| && |Fallen(q, x.budget, e).deadlines| < |q.deadlines|
  {
    hide UntimedAll, MarkedAll, Without, AllExact, Ordered;
    var e' := e.(destroyed := e.destroyed + {x.budget});
    AffectedKeeps(q, now, e');
    WithoutMembers(q.due, e'.ended, e'.destroyed);
    var i :| 0 <= i < |q.deadlines| && q.deadlines[i] == x;
    WithoutFewer(q.deadlines, e'.ended, e'.destroyed, i);
  }

  // --- What comes next ----------------------------------------------------------------------------------------------

  /** The deadline due first. */
  function DueBudget(items: seq<Item>, now: nat): Option<Item> {
    if |items| == 0 then None
    else
      var r, x := DueBudget(items[..|items| - 1], now), items[|items| - 1];
      if x.at <= now && (r.None? || Before(x, r.value)) then Some(x) else r
  }

  /** Earliest first; at an equal instant, the timeout. */
  function Next(q: Queue, now: nat): Option<Item> {
    var budget := DueBudget(q.deadlines, now);
    if |q.due| > 0 && (budget.None? || q.due[0].at <= budget.value.at) then Some(q.due[0]) else budget
  }

  lemma {:induction false} DueBudgetIsFirst(items: seq<Item>, now: nat)
    requires forall x :: x in items ==> x.Deadline?
    ensures var r := DueBudget(items, now);
            && (r.None? ==> forall y :: y in items ==> y.at > now)
            && (r.Some? ==>
                  && r.value in items && r.value.at <= now
                  && forall y :: y in items && y.at <= now ==> y == r.value || Before(r.value, y))
    decreases |items|
  {
    if |items| > 0 {
      var n := |items| - 1;
      assert items == items[..n] + [items[n]];
      assert items[n] in items;
      forall x | x in items[..n] ensures x in items {}
      DueBudgetIsFirst(items[..n], now);
    }
  }

  /** The item ended next is due, and comes before everything else due. */
  lemma {:induction false} NextIsFirst(q: Queue, now: nat)
    requires Collected(q, now)
    ensures Next(q, now).None? ==> |q.due| == 0 && forall y :: !Pending(q, now, y)
    ensures Next(q, now).Some? ==>
              var x := Next(q, now).value;
              && Pending(q, now, x)
              && (x.Timeout? ==> |q.due| > 0 && x == q.due[0])
              && forall y :: Pending(q, now, y) ==> y == x || Before(x, y)
  {
    hide DueBudget, AllExact;
    DueBudgetIsFirst(q.deadlines, now);
    if Next(q, now).Some? {
      var x := Next(q, now).value;
      if |q.due| > 0 { assert q.due[0] in q.due; }
      forall y | Pending(q, now, y) ensures y == x || Before(x, y) {
        if y in q.due {
          var k :| 0 <= k < |q.due| && q.due[k] == y;
          assert k > 0 ==> Before(q.due[0], q.due[k]);
        }
      }
    }
  }

  // --- What an expiry has done --------------------------------------------------------------------------------------

  /** Due at `now`, before the walk: a timed wait's deadline, or a budget's. */
  ghost predicate Due(q: Queue, now: nat, x: Item) {
    x.at <= now &&
    match x
    case Timeout(at, thread) => Waits(q.processes, thread, at)
    case Deadline(_, _) => x in q.deadlines
  }

  lemma {:induction false} DueIsPending(q: Queue, start: Queue, now: nat)
    requires start.processes == q.processes && start.deadlines == q.deadlines && Collected(start, now)
    requires forall thread, at: nat ::
               Timeout(at, thread) in start.due <==> Waits(start.processes, thread, at) && at <= now
    ensures forall x :: Due(q, now, x) <==> Pending(start, now, x)
    ensures forall effects: nat -> Effect :: Listed(start, now, effects, 0)
    ensures |start.due| > 0 <==> WaitDue(q.processes, now)
  {
    hide AllExact, Ordered;
    if |start.due| > 0 {
      assert start.due[0] in start.due;
      assert Waits(q.processes, start.due[0].thread, start.due[0].at);
    }
  }

  /** `x` went with one of the first `n` endings. */
  ghost predicate GoneBy(effects: nat -> Effect, n: nat, x: Item) {
    exists k: nat :: k < n && Gone(x, effects(k).ended, effects(k).destroyed)
  }

  /** What was due at the start has been ended, in order, or is still pending, or went with what was ended. */
  ghost predicate Progress(start: Queue, q: Queue, now: nat, log: seq<Item>, effects: nat -> Effect) {
    && Ordered(log)
    && (forall x :: x in log ==> Pending(start, now, x))
    && (forall x :: Pending(q, now, x) ==> Pending(start, now, x))
    && (forall x, y :: x in log && Pending(q, now, y) ==> Before(x, y))
    && (forall x :: Pending(start, now, x) ==> x in log || Pending(q, now, x) || GoneBy(effects, |log|, x))
  }

  lemma {:induction false} ProgressStarts(q: Queue, now: nat, effects: nat -> Effect)
    ensures Progress(q, q, now, [], effects)
  {
  }

  lemma {:induction false} ProgressStep(
      start: Queue, q: Queue, q': Queue, now: nat, log: seq<Item>, effects: nat -> Effect, x: Item)
    requires Progress(start, q, now, log, effects) && Pending(q, now, x)
    requires forall y :: Pending(q, now, y) ==> y == x || Before(x, y)
    requires forall y :: Pending(q', now, y) <==>
                           Pending(q, now, y) && y != x && !Gone(y, effects(|log|).ended, effects(|log|).destroyed)
    ensures Progress(start, q', now, log + [x], effects)
  {
    hide Pending, Gone, Before;
    var log' := log + [x];
    assert Ordered(log') by {
      forall i | 0 <= i < |log| ensures Before(log[i], x) { assert log[i] in log; }
    }
    hide Ordered;
    forall y | Pending(start, now, y) ensures y in log' || Pending(q', now, y) || GoneBy(effects, |log'|, y) {
      if GoneBy(effects, |log|, y) {
        var k: nat :| k < |log| && Gone(y, effects(k).ended, effects(k).destroyed);
      }
    }
  }

  /** The next item, ended. */
  function Ended(q: Queue, x: Item, e: Effect): Queue
    requires x.Timeout? ==> |q.due| > 0 && q.due[0].Timeout?
  {
    if x.Timeout? then TimedOut(q, e) else Fallen(q, x.budget, e)
  }

  lemma {:induction false} EndedKeeps(q: Queue, now: nat, x: Item, e: Effect)
    requires Collected(q, now) && Next(q, now) == Some(x)
    ensures x.Timeout? ==> |q.due| > 0 && q.due[0].Timeout?
    ensures Collected(Ended(q, x, e), now)
    ensures |Ended(q, x, e).due| + |Ended(q, x, e).deadlines| < |q.due| + |q.deadlines|
    ensures |Ended(q, x, e).due| <= |q.due| && (x.Timeout? ==> |Ended(q, x, e).due| < |q.due|)
    ensures forall y :: Pending(Ended(q, x, e), now, y) <==>
              Pending(q, now, y) && y != x && !Gone(y, e.ended, e.destroyed)
  {
    NextIsFirst(q, now);
    hide TimedOut, Fallen, Next, Ordered, AllExact;
    if x.Timeout? {
      assert q.due[0] in q.due;
      TimedOutKeeps(q, now, e);
    } else {
      FallenKeeps(q, now, x, e);
    }
  }

  // --- What an expiry leaves ----------------------------------------------------------------------------------------

  /** Ending number `k` answered thread `t`, ended it, set it waiting again, or was its timeout. */
  ghost predicate Touched(log: seq<Item>, effects: nat -> Effect, k: nat, t: Thread)
    requires k < |log|
  {
    || t in effects(k).answered || t in effects(k).ended || LastBegun(effects(k).begun, t).Some?
    || (log[k].Timeout? && log[k].thread == t)
  }

  /** Thread `t` waits until `at` after the endings of the log: since the last of them that touched it, which set it
      waiting, or since before if none did.
    */
  ghost predicate Left(before: map<Pid, Process>, log: seq<Item>, effects: nat -> Effect, t: Thread, at: nat)
    decreases |log|
  {
    if |log| == 0 then Waits(before, t, at) else
      var n := |log| - 1;
      match LastBegun(effects(n).begun, t)
      case Some(b) => t.pid in before && at == b && b < NEVER
      case None => Left(before, log[..n], effects, t, at) && !Touched(log, effects, n, t)
  }

  /** Ending number `k` destroyed the budget of deadline `y`. */
  predicate Removed(log: seq<Item>, effects: nat -> Effect, k: nat, y: Item)
    requires k < |log| && y.Deadline?
  {
    y.budget in effects(k).destroyed || (log[k].Deadline? && log[k].budget == y.budget)
  }

  ghost predicate DeadlineLeft(before: seq<Item>, log: seq<Item>, effects: nat -> Effect, y: Item) {
    y in before && y.Deadline? && forall k: nat :: k < |log| ==> !Removed(log, effects, k, y)
  }

  /** Exactly the waits and deadlines the endings of the log leave are there. */
  ghost predicate Replayed(before: Queue, q: Queue, log: seq<Item>, effects: nat -> Effect) {
    && q.processes.Keys == before.processes.Keys
    && (forall t: Thread, at: nat :: Waits(q.processes, t, at) <==> Left(before.processes, log, effects, t, at))
    && (forall y :: y in q.deadlines <==> DeadlineLeft(before.deadlines, log, effects, y))
  }

  lemma {:induction false} EndedWaits(q: Queue, now: nat, x: Item, e: Effect)
    requires Collected(q, now) && Next(q, now) == Some(x)
    ensures (x.Timeout? ==> |q.due| > 0 && q.due[0].Timeout?)
    ensures Ended(q, x, e).processes.Keys == q.processes.Keys
    ensures forall t: Thread, at: nat :: Waits(Ended(q, x, e).processes, t, at) <==>
              match LastBegun(e.begun, t)
              case Some(b) => t.pid in q.processes && at == b && b < NEVER
              case None =>
                && Waits(q.processes, t, at) && t !in e.answered && t !in e.ended
                && !(x.Timeout? && x.thread == t)
    ensures forall y :: y in Ended(q, x, e).deadlines <==>
              && y in q.deadlines && !Gone(y, e.ended, e.destroyed) && !(x.Deadline? && y.budget == x.budget)
  {
    hide UntimedAll, MarkedAll, Without, AllExact, Waits, Next, Ordered, DueBudget;
    NextIsFirst(q, now);
    if |q.due| > 0 { assert q.due[0] in q.due; }
    var mid := if x.Timeout? then Queue(UntimedAll(q.processes, [x.thread]), q.due[1..], q.deadlines) else q;
    var destroyed := if x.Timeout? then e.destroyed else e.destroyed + {x.budget};
    UntimedAllKeeps(q.processes, [if x.Timeout? then x.thread else Thread(0, 0)]);
    UntimedAllKeeps(mid.processes, e.answered + e.ended);
    MarkedAllExact(UntimedAll(mid.processes, e.answered + e.ended), e.begun);
    MarkedAllKeeps(UntimedAll(mid.processes, e.answered + e.ended), e.begun);
    WithoutMembers(q.deadlines, e.ended, destroyed);
  }

  lemma {:induction false} ReplayedStarts(before: Queue, q: Queue, effects: nat -> Effect)
    requires q.processes == before.processes && q.deadlines == before.deadlines && QueueSound(before)
    ensures Replayed(before, q, [], effects)
  {
  }

  lemma {:induction false} ReplayedStep(
      before: Queue, q: Queue, now: nat, log: seq<Item>, effects: nat -> Effect, x: Item)
    requires Replayed(before, q, log, effects) && Collected(q, now) && Next(q, now) == Some(x)
    ensures (x.Timeout? ==> |q.due| > 0 && q.due[0].Timeout?)
    ensures Replayed(before, Ended(q, x, effects(|log|)), log + [x], effects)
  {
    hide Waits, Next, Ended, Ordered, AllExact;
    var e, log' := effects(|log|), log + [x];
    EndedWaits(q, now, x, e);
    assert log'[..|log|] == log;
    forall y ensures y in Ended(q, x, e).deadlines <==> DeadlineLeft(before.deadlines, log', effects, y) {
      RemovedStep(before.deadlines, log, effects, x, y);
    }
  }

  lemma {:induction false} RemovedStep(
      before: seq<Item>, log: seq<Item>, effects: nat -> Effect, x: Item, y: Item)
    ensures DeadlineLeft(before, log + [x], effects, y) <==>
              && DeadlineLeft(before, log, effects, y) && y.budget !in effects(|log|).destroyed
              && !(x.Deadline? && x.budget == y.budget)
  {
    var log' := log + [x];
    if y.Deadline? {
      forall k: nat | k < |log| ensures Removed(log', effects, k, y) == Removed(log, effects, k, y) {}
      assert Removed(log', effects, |log|, y) <==>
               y.budget in effects(|log|).destroyed || (x.Deadline? && x.budget == y.budget);
    }
  }

  ghost predicate Untouched(log: seq<Item>, effects: nat -> Effect, t: Thread) {
    forall k: nat :: k < |log| ==> !Touched(log, effects, k, t)
  }

  ghost predicate BeganOnce(before: map<Pid, Process>, log: seq<Item>, effects: nat -> Effect, t: Thread, at: nat) {
    exists k: nat :: k < |log| && Began(before, log, effects, k, t, at)
  }

  /** What a wait left is: one there before that no ending touched, or one an ending began that none after it
      touched.
    */
  lemma {:induction false} LeftIs(
      before: map<Pid, Process>, log: seq<Item>, effects: nat -> Effect, t: Thread, at: nat)
    ensures Left(before, log, effects, t, at) <==>
              (Waits(before, t, at) && Untouched(log, effects, t)) || BeganOnce(before, log, effects, t, at)
    decreases |log|
  {
    hide Waits, Untouched, BeganOnce, Touched;
    if |log| == 0 {
      NoneEnded(before, effects, t, at);
    } else {
      LeftIs(before, log[..|log| - 1], effects, t, at);
      TouchedStep(before, log, effects, t, at);
    }
  }

  lemma {:induction false} NoneEnded(before: map<Pid, Process>, effects: nat -> Effect, t: Thread, at: nat)
    ensures Untouched([], effects, t) && !BeganOnce(before, [], effects, t, at)
  {
  }

  lemma {:induction false} TouchedStep(
      before: map<Pid, Process>, log: seq<Item>, effects: nat -> Effect, t: Thread, at: nat)
    requires |log| > 0
    ensures var n := |log| - 1;
            && (Untouched(log, effects, t) <==> Untouched(log[..n], effects, t) && !Touched(log, effects, n, t))
            && (LastBegun(effects(n).begun, t).Some? ==> Touched(log, effects, n, t))
            && (BeganOnce(before, log, effects, t, at) <==>
                  || (LastBegun(effects(n).begun, t) == Some(at) && t.pid in before && at < NEVER)
                  || (BeganOnce(before, log[..n], effects, t, at) && !Touched(log, effects, n, t)))
  {
    var n := |log| - 1;
    forall k: nat | k < n
      ensures Touched(log[..n], effects, k, t) == Touched(log, effects, k, t)
      ensures Began(before, log, effects, k, t, at) <==>
                Began(before, log[..n], effects, k, t, at) && !Touched(log, effects, n, t)
    {
      BeganStep(before, log, effects, k, t, at);
    }
    hide Touched;
    assert Began(before, log, effects, n, t, at) <==>
             LastBegun(effects(n).begun, t) == Some(at) && t.pid in before && at < NEVER;
    if BeganOnce(before, log[..n], effects, t, at) && !Touched(log, effects, n, t) {
      var k: nat :| k < n && Began(before, log[..n], effects, k, t, at);
      assert Began(before, log, effects, k, t, at);
    }
    if BeganOnce(before, log, effects, t, at) {
      var k: nat :| k < |log| && Began(before, log, effects, k, t, at);
      assert k < n ==> Began(before, log[..n], effects, k, t, at);
    }
  }

  /** Ending number `k` set thread `t` waiting until `at`, and no later one touched it. */
  ghost predicate Began(
      before: map<Pid, Process>, log: seq<Item>, effects: nat -> Effect, k: nat, t: Thread, at: nat)
    requires k < |log|
  {
    && LastBegun(effects(k).begun, t) == Some(at) && t.pid in before && at < NEVER
    && forall j: nat :: k < j < |log| ==> !Touched(log, effects, j, t)
  }

  lemma {:induction false} BeganStep(
      before: map<Pid, Process>, log: seq<Item>, effects: nat -> Effect, k: nat, t: Thread, at: nat)
    requires k < |log| - 1
    ensures var n := |log| - 1;
            && Touched(log[..n], effects, k, t) == Touched(log, effects, k, t)
            && (Began(before, log, effects, k, t, at) <==>
                  Began(before, log[..n], effects, k, t, at) && !Touched(log, effects, n, t))
  {
    var n := |log| - 1;
    forall j: nat | j < n ensures Touched(log[..n], effects, j, t) == Touched(log, effects, j, t) {}
  }

  /** A wait begun stays if and only if no later ending touches its thread; and what can, beside the endings'
      effects, is the entry the thread still has on the due list from a wait of its own that was due.
    */
  lemma {:induction false} BegunStays(
      before: Queue, now: nat, log: seq<Item>, effects: nat -> Effect, k: nat, t: Thread, at: nat)
    requires k < |log| && LastBegun(effects(k).begun, t) == Some(at) && t.pid in before.processes && at < NEVER
    requires forall j: nat :: k < j < |log| ==>
               t !in effects(j).answered && t !in effects(j).ended && LastBegun(effects(j).begun, t).None?
    requires forall x :: x in log ==> Due(before, now, x)
    ensures Left(before.processes, log, effects, t, at) <==>
              forall j: nat :: k < j < |log| && log[j].Timeout? ==> log[j].thread != t
    ensures (forall a: nat :: Waits(before.processes, t, a) ==> a > now) ==>
              Left(before.processes, log, effects, t, at)
  {
    LeftIs(before.processes, log, effects, t, at);
    assert Touched(log, effects, k, t);
    if forall j: nat :: k < j < |log| && log[j].Timeout? ==> log[j].thread != t {
      assert Began(before.processes, log, effects, k, t, at);
    }
    forall j: nat | k < j < |log| && log[j].Timeout? && log[j].thread == t
      ensures exists a: nat :: a <= now && Waits(before.processes, t, a)
    {
      assert log[j] in log;
      assert Waits(before.processes, t, log[j].at);
    }
    if BeganOnce(before.processes, log, effects, t, at) {
      var i: nat :| i < |log| && Began(before.processes, log, effects, i, t, at);
      assert i >= k;
      forall j: nat | k < j < |log| && log[j].Timeout? ensures log[j].thread != t {
        assert !Touched(log, effects, j, t);
      }
    }
  }

  /** Thread 2's send and thread 1's wait are due; ending the first has the second's message taken, and its turn goes on
      to wait until 100; its entry on the due list, ended next, ends that wait.
    */
  lemma {:induction false} DueEntryEndsNewWait()
    ensures var a, b := Thread(1, 1), Thread(1, 2);
            var before := map[1 := Process([Wait(1, 5), Wait(2, 6)], 5)];
            var log := [Timeout(5, a), Timeout(6, b)];
            var effects := (k: nat) =>
              if k == 0 then Effect([b], [], [Begun(b, 100)], {}, None) else Effect([], [], [], {}, None);
            && AllExact(before) && Waits(before, a, 5) && Waits(before, b, 6)
            && Left(before, log[..1], effects, b, 100) && !Left(before, log, effects, b, 100)
  {
    var a, b := Thread(1, 1), Thread(1, 2);
    var before := map[1 := Process([Wait(1, 5), Wait(2, 6)], 5)];
    var log := [Timeout(5, a), Timeout(6, b)];
    var effects := (k: nat) =>
      if k == 0 then Effect([b], [], [Begun(b, 100)], {}, None) else Effect([], [], [], {}, None);
    assert before[1].waits[0] == Wait(1, 5) && before[1].waits[1] == Wait(2, 6);
    EarliestIsFirst(before[1].waits);
    assert LastBegun(effects(0).begun, b) == Some(100);
    assert LastBegun(effects(1).begun, b) == None;
    assert Touched(log, effects, 1, b);
  }

  /** No ending answered thread `t`, ended it, or set it waiting again. */
  ghost predicate Unhurt(effects: nat -> Effect, n: nat, t: Thread) {
    forall k: nat :: k < n ==>
      t !in effects(k).answered && t !in effects(k).ended && LastBegun(effects(k).begun, t).None?
  }

  /** A wait still to come, of a thread no ending touched, is still there. */
  lemma {:induction false} LaterStays(
      before: Queue, q: Queue, now: nat, log: seq<Item>, effects: nat -> Effect, t: Thread, at: nat)
    requires QueueSound(before) && Replayed(before, q, log, effects) && (forall x :: x in log ==> Due(before, now, x))
    requires Waits(before.processes, t, at) && at > now && Unhurt(effects, |log|, t)
    ensures Waits(q.processes, t, at)
  {
    LeftIs(before.processes, log, effects, t, at);
    forall k: nat | k < |log| ensures !Touched(log, effects, k, t) {
      assert log[k] in log;
      if log[k].Timeout? && log[k].thread == t { OneWait(before, t, at, log[k].at); }
    }
  }

  lemma {:induction false} OneWait(q: Queue, t: Thread, a: nat, b: nat)
    requires QueueSound(q) && Waits(q.processes, t, a) && Waits(q.processes, t, b)
    ensures a == b
  {
    var waits := q.processes[t.pid].waits;
    assert Exact(q.processes[t.pid]);
    var i :| 0 <= i < |waits| && waits[i] == Wait(t.tid, a);
    var j :| 0 <= j < |waits| && waits[j] == Wait(t.tid, b);
    if i != j { DistinctAt(waits, i, j); }
  }

  // --- Who pays -----------------------------------------------------------------------------------------------------

  /** A bill: the part of the walk it carries, and its own ending's time. */
  datatype Bill = Bill(budget: Budget, walk: nat, own: nat)

  function Ticks(bills: seq<Bill>): nat {
    if |bills| == 0 then 0 else Ticks(bills[..|bills| - 1]) + bills[|bills| - 1].walk + bills[|bills| - 1].own
  }

  function Walked(bills: seq<Bill>): nat {
    if |bills| == 0 then 0 else Walked(bills[..|bills| - 1]) + bills[|bills| - 1].walk
  }

  /** An expiry's accounts. `pool`, `share` and `first`: what is left of the walk's cost, a wait's part of it, and
      the remainder, the first's. `started`: where the next bill's interval opens. And, of the ticks nobody is
      billed for: `between`, those from one reading of the clock to the next that opens an interval;
      `orphaned`, those whose payer is gone, and `lost`, the walk's part in them.
    */
  datatype Books = Books(
    pool: nat, share: nat, first: nat, started: nat, bills: seq<Bill>, takes: seq<nat>,
    between: nat, orphaned: nat, lost: nat)

  function Less(a: nat, b: nat): nat { if a < b then 0 else a - b }

  /** The walk for `n` waits, begun at `t0`; its cost read at `t1`, and the first interval opened at `t2`. */
  function Opened(n: nat, t0: nat, t1: nat, t2: nat): Books {
    if n == 0 then Books(0, 0, 0, t0, [], [], 0, 0, 0)
    else Books(Less(t1, t0), Less(t1, t0) / n, Less(t1, t0) % n, t2, [], [], Less(t2, t1), 0, 0)
  }

  /** A timeout, billed at `at`, where the next interval opens. */
  function BilledTimeout(b: Books, payer: Option<Budget>, at: nat): Books {
    var take := Min(b.share + b.first, b.pool);
    var b' := b.(pool := b.pool - take, first := 0, takes := b.takes + [take]);
    match payer
    case Some(p) => b'.(bills := b.bills + [Bill(p, take, Less(at, b.started))], started := at)
    case None => b'.(orphaned := b.orphaned + take + Less(at, b.started), lost := b.lost + take, started := at)
  }

  /** A deadline, its destruction billed at `at`, the next interval opened at `next`. */
  function BilledDeadline(b: Books, payer: Option<Budget>, at: nat, next: nat): Books {
    match payer
    case Some(p) => b.(bills := b.bills + [Bill(p, 0, Less(at, b.started))], between := b.between + Less(next, at),
                       started := next)
    case None => b.(orphaned := b.orphaned + Less(next, b.started), started := next)
  }

  /** The rest, at `at`: what is left of the walk, and the time since, go to the budget billed last. */
  function Closed(b: Books, last: Option<Budget>, at: nat): Books {
    match last
    case Some(p) => b.(bills := b.bills + [Bill(p, b.pool, Less(at, b.started))], pool := 0, started := at)
    case None => b.(orphaned := b.orphaned + b.pool + Less(at, b.started), lost := b.lost + b.pool, pool := 0,
                    started := at)
  }

  /** A wait's part of a walk that cost `cost` and found `n`: the `i`th to be ended. */
  function Part(cost: nat, n: nat, i: nat): nat
    requires n > 0
  {
    cost / n + if i == 0 then cost % n else 0
  }

  /** Every tick since `t0` is billed, or is still the walk's to share, or is one of those nobody pays for; and
      each wait ended so far took its part of the walk, no less.
    */
  ghost predicate Balanced(b: Books, n: nat, cost: nat, t0: nat) {
    && t0 <= b.started
    && Ticks(b.bills) + b.pool + b.between + b.orphaned == b.started - t0
    && Walked(b.bills) + b.pool + b.lost == cost
    && b.lost <= b.orphaned
    && |b.takes| <= n
    && (n == 0 ==> b.pool == 0 && b.share == 0 && b.first == 0)
    && (n > 0 ==>
          && b.share == cost / n
          && b.first == (if |b.takes| == 0 then cost % n else 0)
          && b.pool == (if |b.takes| == 0 then cost else (n - |b.takes|) * b.share)
          && forall i :: 0 <= i < |b.takes| ==> b.takes[i] == Part(cost, n, i))
  }

  lemma {:induction false} AddBill(bills: seq<Bill>, x: Bill)
    ensures Ticks(bills + [x]) == Ticks(bills) + x.walk + x.own && Walked(bills + [x]) == Walked(bills) + x.walk
  {
    assert (bills + [x])[..|bills|] == bills;
  }

  lemma {:induction false} OpenedBalanced(n: nat, t0: nat, t1: nat, t2: nat)
    requires t0 <= t1 <= t2
    ensures Balanced(Opened(n, t0, t1, t2), n, if n == 0 then 0 else t1 - t0, t0)
  {
  }

  /** What is left of the walk covers the next wait's part: none is cut short. */
  lemma {:induction false} PartFits(b: Books, n: nat, cost: nat, t0: nat)
    requires Balanced(b, n, cost, t0) && |b.takes| < n
    ensures b.share + b.first == Part(cost, n, |b.takes|) <= b.pool
    ensures b.pool - (b.share + b.first) == (n - (|b.takes| + 1)) * b.share
  {
    hide Ticks, Walked;
    var k := |b.takes|;
    if k == 0 {
      assert cost == n * (cost / n) + cost % n;
      LessOne(n, cost / n);
    } else {
      LessOne(n - k, b.share);
    }
  }

  lemma {:induction false} LessOne(m: nat, a: nat)
    requires m > 0
    ensures m * a == a + (m - 1) * a && a <= m * a
  {
  }

  lemma {:induction false} TimeoutBalanced(b: Books, n: nat, cost: nat, t0: nat, payer: Option<Budget>, at: nat)
    requires Balanced(b, n, cost, t0) && |b.takes| < n && b.started <= at
    ensures Balanced(BilledTimeout(b, payer, at), n, cost, t0)
  {
    PartFits(b, n, cost, t0);
    hide Ticks, Walked, Part;
    var take := b.share + b.first;
    match payer
    case Some(p) => AddBill(b.bills, Bill(p, take, at - b.started));
    case None =>
  }

  lemma {:induction false} DeadlineBalanced(
      b: Books, n: nat, cost: nat, t0: nat, payer: Option<Budget>, at: nat, next: nat)
    requires Balanced(b, n, cost, t0) && b.started <= at <= next
    ensures Balanced(BilledDeadline(b, payer, at, next), n, cost, t0)
  {
    hide Ticks, Walked, Part;
    match payer
    case Some(p) => AddBill(b.bills, Bill(p, 0, at - b.started));
    case None =>
  }

  /** The accounts closed: what is billed, and what nobody is billed for, are the expiry's whole time; and the
      walk is billed exactly, but for what was lost.
    */
  lemma {:induction false} ClosedBalanced(b: Books, n: nat, cost: nat, t0: nat, last: Option<Budget>, at: nat)
    requires Balanced(b, n, cost, t0) && b.started <= at
    ensures var c := Closed(b, last, at);
            && c.started == at && c.takes == b.takes
            && Ticks(c.bills) + c.between + c.orphaned == at - t0
            && Walked(c.bills) + c.lost == cost && c.lost <= c.orphaned
            && c.between == b.between && (last.Some? ==> c.orphaned == b.orphaned)
            && |c.takes| <= n && (n > 0 ==> forall i :: 0 <= i < |c.takes| ==> c.takes[i] == Part(cost, n, i))
  {
    hide Ticks, Walked, Part;
    match last
    case Some(p) => AddBill(b.bills, Bill(p, b.pool, at - b.started));
    case None =>
  }

  function BilledItem(b: Books, x: Item, payer: Option<Budget>, at: nat, next: nat): Books {
    if x.Timeout? then BilledTimeout(b, payer, at) else BilledDeadline(b, payer, at, next)
  }

  lemma {:induction false} ItemBalanced(
      b: Books, n: nat, cost: nat, t0: nat, x: Item, payer: Option<Budget>, at: nat, next: nat)
    requires Balanced(b, n, cost, t0) && (x.Timeout? ==> |b.takes| < n) && b.started <= at <= next
    ensures var c := BilledItem(b, x, payer, at, next);
            && Balanced(c, n, cost, t0)
            && c.started == (if x.Timeout? then at else next)
            && |c.takes| == |b.takes| + (if x.Timeout? then 1 else 0)
            && (payer.Some? ==> c.orphaned == b.orphaned)
            && c.between == b.between + if x.Deadline? && payer.Some? then next - at else 0
  {
    hide Balanced;
    if x.Timeout? {
      TimeoutBalanced(b, n, cost, t0, payer, at);
    } else {
      DeadlineBalanced(b, n, cost, t0, payer, at, next);
    }
  }

  lemma {:induction false} OpenedTells(n: nat, t0: nat, t1: nat, t2: nat)
    ensures var b := Opened(n, t0, t1, t2);
            && b.takes == [] && b.bills == [] && b.orphaned == 0
            && b.started == (if n == 0 then t0 else t2) && b.between == if n == 0 then 0 else Less(t2, t1)
  {
  }

  /** Each of the first `k` bills is the payer's of that item. */
  ghost predicate BilledTo(bills: seq<Bill>, k: nat, effects: nat -> Effect) {
    k <= |bills| && forall i :: 0 <= i < k ==> Some(bills[i].budget) == effects(i).payer
  }

  ghost predicate EveryPayerThere(effects: nat -> Effect, k: nat) { forall i: nat :: i < k ==> effects(i).payer.Some? }

  /** So far, with every payer there: a bill an item, and nothing orphaned. */
  ghost predicate PaidUp(b: Books, k: nat, last: Option<Budget>, effects: nat -> Effect) {
    EveryPayerThere(effects, k) ==>
      b.orphaned == 0 && |b.bills| == k && BilledTo(b.bills, k, effects) && (k > 0 ==> last == effects(k - 1).payer)
  }

  lemma {:induction false} PaidStarts(b: Books, effects: nat -> Effect)
    requires b.bills == [] && b.orphaned == 0
    ensures PaidUp(b, 0, None, effects)
  {
  }

  lemma {:induction false} PaidStep(
      b: Books, x: Item, at: nat, next: nat, k: nat, last: Option<Budget>, effects: nat -> Effect)
    requires PaidUp(b, k, last, effects)
    ensures PaidUp(BilledItem(b, x, effects(k).payer, at, next), k + 1, effects(k).payer, effects)
  {
  }

  lemma {:induction false} PaidEnds(b: Books, last: Option<Budget>, at: nat, k: nat, effects: nat -> Effect)
    requires PaidUp(b, k, last, effects)
    ensures k > 0 && EveryPayerThere(effects, k) ==>
              var c := Closed(b, last, at);
              && c.orphaned == 0 && |c.bills| == k + 1 && BilledTo(c.bills, k, effects)
              && Some(c.bills[k].budget) == effects(k - 1).payer
  {
  }

  /** The deadlines ended whose payer was there: after each the interval is opened at a reading of its own. */
  ghost function PaidDeadlines(log: seq<Item>, effects: nat -> Effect): nat {
    if |log| == 0 then 0
    else PaidDeadlines(log[..|log| - 1], effects) + if PaidDeadline(log, effects, |log| - 1) then 1 else 0
  }

  predicate PaidDeadline(log: seq<Item>, effects: nat -> Effect, i: nat)
    requires i < |log|
  {
    log[i].Deadline? && effects(i).payer.Some?
  }

  ghost predicate NoDeadlinePaid(log: seq<Item>, effects: nat -> Effect) {
    forall i: nat :: i < |log| ==> !PaidDeadline(log, effects, i)
  }

  /** Every deadline ended had a payer: a budget with a deadline has a parent. */
  ghost predicate DeadlinesPaid(log: seq<Item>, effects: nat -> Effect) {
    forall i: nat :: i < |log| && log[i].Deadline? ==> PaidDeadline(log, effects, i)
  }

  /** Nothing is due. */
  ghost predicate Quiet(q: Queue, now: nat) { forall x :: !Due(q, now, x) }

  lemma {:induction false} NonePaid(log: seq<Item>, effects: nat -> Effect)
    ensures PaidDeadlines(log, effects) == 0 <==> NoDeadlinePaid(log, effects)
    decreases |log|
  {
    if |log| > 0 {
      var n := |log| - 1;
      NonePaid(log[..n], effects);
      forall i: nat | i < n ensures PaidDeadline(log[..n], effects, i) == PaidDeadline(log, effects, i) {}
    }
  }

  /** The ticks from each of these readings to the one after it. */
  ghost function GapSum(clock: nat -> nat, gaps: seq<nat>): nat {
    if |gaps| == 0 then 0
    else GapSum(clock, gaps[..|gaps| - 1]) + Less(clock(gaps[|gaps| - 1] + 1), clock(gaps[|gaps| - 1]))
  }

  ghost predicate Ticking(clock: nat -> nat) { forall i: nat :: clock(i) < clock(i + 1) }

  /** With a clock that ticks at every reading, at least a tick is nobody's for each time an interval is opened at a
      reading of its own; with any clock, none is if and only if it stood still at each.
    */
  lemma {:induction false} NothingBetween(clock: nat -> nat, gaps: seq<nat>)
    ensures GapSum(clock, gaps) == 0 <==> forall i :: 0 <= i < |gaps| ==> clock(gaps[i] + 1) <= clock(gaps[i])
    ensures Ticking(clock) ==> GapSum(clock, gaps) >= |gaps|
    decreases |gaps|
  {
    if |gaps| > 0 {
      var n := |gaps| - 1;
      NothingBetween(clock, gaps[..n]);
      forall i | 0 <= i < n ensures gaps[..n][i] == gaps[i] {}
      if GapSum(clock, gaps) == 0 {
        forall i | 0 <= i < n ensures clock(gaps[i] + 1) <= clock(gaps[i]) {
          assert clock(gaps[..n][i] + 1) <= clock(gaps[..n][i]);
        }
      }
    }
  }

  /** A clock that ticks at every reading: with a wait due, the ticks between the end of the walk and the first
      interval are nobody's.
    */
  lemma {:induction false} TicksFallBetween(clock: nat -> nat, n: nat)
    requires Ticking(clock) && n > 0
    ensures Opened(n, clock(0), clock(1), clock(2)).between == GapSum(clock, [1]) > 0
  {
    GapsStart(clock, n, i => Effect([], [], [], {}, None));
    assert clock(1) < clock(1 + 1);
  }

  /** The guard. With a clock that ticks at every reading and every deadline's payer there, no tick falls between two
      readings if and only if nothing at all was due.
    */
  lemma {:induction false} NothingDue(
      before: Queue, now: nat, clock: nat -> nat, gaps: seq<nat>, log: seq<Item>, effects: nat -> Effect, n: nat)
    requires Ticking(clock) && |gaps| == (if n > 0 then 1 else 0) + PaidDeadlines(log, effects)
    requires n > 0 <==> WaitDue(before.processes, now)
    requires forall x :: x in log ==> Due(before, now, x)
    requires forall x :: Due(before, now, x) ==> x in log || GoneBy(effects, |log|, x)
    ensures GapSum(clock, gaps) == 0 <==> !WaitDue(before.processes, now) && NoDeadlinePaid(log, effects)
    ensures DeadlinesPaid(log, effects) ==> (GapSum(clock, gaps) == 0 <==> Quiet(before, now))
  {
    hide Ticking, PaidDeadlines, GapSum, Waits;
    NothingBetween(clock, gaps);
    NonePaid(log, effects);
    NoGap(clock);
    if log != [] { assert log[0] in log; }
    if WaitDue(before.processes, now) {
      var thread, at: nat :| at <= now && Waits(before.processes, thread, at);
      assert Due(before, now, Timeout(at, thread));
    }
  }

  lemma {:induction false} NoGap(clock: nat -> nat)
    ensures GapSum(clock, []) == 0
  {
  }

  lemma {:induction false} GapsStart(clock: nat -> nat, n: nat, effects: nat -> Effect)
    ensures GapSum(clock, if n == 0 then [] else [1]) == if n == 0 then 0 else Less(clock(2), clock(1))
    ensures PaidDeadlines([], effects) == 0
  {
    assert [1][..0] == [];
  }

  lemma {:induction false} GapsStep(
      clock: nat -> nat, gaps: seq<nat>, log: seq<Item>, effects: nat -> Effect, x: Item, c: nat)
    requires clock(c) <= clock(c + 1)
    ensures GapSum(clock, gaps + [c]) == GapSum(clock, gaps) + clock(c + 1) - clock(c)
    ensures PaidDeadlines(log + [x], effects)
         == PaidDeadlines(log, effects) + if x.Deadline? && effects(|log|).payer.Some? then 1 else 0
  {
    assert (gaps + [c])[..|gaps|] == gaps && (log + [x])[..|log|] == log;
  }

  /** One item ended: the queue and the log stay as they should. */
  lemma {:induction false} StepTells(start: Queue, q: Queue, now: nat, log: seq<Item>, effects: nat -> Effect, x: Item)
    requires Collected(q, now) && Progress(start, q, now, log, effects) && Next(q, now) == Some(x)
    requires Listed(q, now, effects, |log|)
    ensures x.Timeout? ==> |q.due| > 0 && q.due[0].Timeout?
    ensures var q' := Ended(q, x, effects(|log|));
            && Collected(q', now) && Progress(start, q', now, log + [x], effects) && Listed(q', now, effects, |log| + 1)
            && |q'.due| + |q'.deadlines| < |q.due| + |q.deadlines|
            && |q'.due| <= |q.due| && (x.Timeout? ==> |q'.due| < |q.due|)
  {
    hide *;
    NextIsFirst(q, now);
    EndedKeeps(q, now, x, effects(|log|));
    ListedStep(q, now, x, effects, |log|);
    ProgressStep(start, q, Ended(q, x, effects(|log|)), now, log, effects, x);
  }

  /** Nothing comes next: nothing due is left. */
  lemma {:induction false} NothingLeft(
      before: Queue, start: Queue, q: Queue, now: nat, log: seq<Item>, effects: nat -> Effect)
    requires Collected(q, now) && Progress(start, q, now, log, effects) && Next(q, now).None?
    requires Listed(q, now, effects, |log|)
    requires forall x :: Due(before, now, x) <==> Pending(start, now, x)
    ensures QueueSound(q) && q.due == []
    ensures forall x :: x in q.deadlines ==> x.at > now
    ensures forall thread, at: nat :: Waits(q.processes, thread, at) && at <= now ==>
              BegunBy(effects, |log|, thread, at)
    ensures Ordered(log) && (forall x :: x in log ==> Due(before, now, x))
    ensures forall x :: Due(before, now, x) ==> x in log || GoneBy(effects, |log|, x)
  {
    hide AllExact, Next, Ordered, GoneBy, Due;
    NextIsFirst(q, now);
    forall x | x in q.deadlines ensures x.at > now { assert !Pending(q, now, x); }
  }

  /** An expiry after its first endings: `c` readings of the clock on, the books balanced and the log right. */
  ghost predicate Running(
      start: Queue, q: Queue, now: nat, log: seq<Item>, effects: nat -> Effect, clock: nat -> nat,
      b: Books, n: nat, c: nat, last: Option<Budget>, gaps: seq<nat>) {
    && Collected(q, now) && Progress(start, q, now, log, effects) && Listed(q, now, effects, |log|)
    && Replayed(start, q, log, effects) && |q.due| + |b.takes| <= n && b.started == clock(c) && clock(0) <= clock(1)
    && Balanced(b, n, if n == 0 then 0 else clock(1) - clock(0), clock(0)) && PaidUp(b, |log|, last, effects)
    && b.between == GapSum(clock, gaps) && |gaps| == (if n > 0 then 1 else 0) + PaidDeadlines(log, effects)
  }

  ghost predicate Rising(clock: nat -> nat) { forall i: nat, j: nat :: i <= j ==> clock(i) <= clock(j) }

  lemma {:induction false} RunningStarts(q: Queue, now: nat, effects: nat -> Effect, clock: nat -> nat, n: nat)
    requires Collected(q, now) && Listed(q, now, effects, 0) && n == |q.due| && Rising(clock)
    ensures Running(q, q, now, [], effects, clock, Opened(n, clock(0), clock(1), clock(2)), n,
                    if n == 0 then 0 else 2, None, if n == 0 then [] else [1])
  {
    hide Collected, Progress, Listed, Replayed, Balanced, PaidUp, GapSum, PaidDeadlines, Rising, Opened, Less;
    RisingAt(clock, 0);
    RisingAt(clock, 1);
    OpenedBalanced(n, clock(0), clock(1), clock(2));
    ProgressStarts(q, now, effects);
    CollectedSound(q, now);
    ReplayedStarts(q, q, effects);
    OpenedTells(n, clock(0), clock(1), clock(2));
    PaidStarts(Opened(n, clock(0), clock(1), clock(2)), effects);
    GapsStart(clock, n, effects);
    LessIs(clock(2), clock(1));
  }

  lemma {:induction false} CollectedSound(q: Queue, now: nat)
    requires Collected(q, now)
    ensures QueueSound(q)
  {
  }

  lemma {:induction false} RisingAt(clock: nat -> nat, i: nat)
    requires Rising(clock)
    ensures clock(i) <= clock(i + 1)
  {
  }

  lemma {:induction false} LessIs(a: nat, b: nat)
    requires b <= a
    ensures Less(a, b) == a - b
  {
  }

  lemma {:induction false} RunningStep(
      start: Queue, q: Queue, now: nat, log: seq<Item>, effects: nat -> Effect, clock: nat -> nat,
      b: Books, n: nat, c: nat, last: Option<Budget>, gaps: seq<nat>, x: Item)
    requires Running(start, q, now, log, effects, clock, b, n, c, last, gaps) && Rising(clock)
    requires Next(q, now) == Some(x)
    ensures x.Timeout? ==> |q.due| > 0 && q.due[0].Timeout?
    ensures var e := effects(|log|);
            var q' := Ended(q, x, e);
            && Running(start, q', now, log + [x], effects, clock,
                       BilledItem(b, x, e.payer, clock(c + 1), clock(c + 2)), n,
                       if x.Timeout? then c + 1 else c + 2, e.payer,
                       if x.Deadline? && e.payer.Some? then gaps + [c + 1] else gaps)
            && |q'.due| + |q'.deadlines| < |q.due| + |q.deadlines|
  {
    hide Collected, Progress, Listed, Replayed, Balanced, PaidUp, GapSum, PaidDeadlines, Rising, Ended, Next,
         BilledItem;
    RisingAt(clock, c);
    RisingAt(clock, c + 1);
    GapsStep(clock, gaps, log, effects, x, c + 1);
    StepTells(start, q, now, log, effects, x);
    ReplayedStep(start, q, now, log, effects, x);
    ItemBalanced(b, n, if n == 0 then 0 else clock(1) - clock(0), clock(0), x, effects(|log|).payer, clock(c + 1),
                 clock(c + 2));
    PaidStep(b, x, clock(c + 1), clock(c + 2), |log|, last, effects);
  }

  lemma {:induction false} RunningTells(
      start: Queue, q: Queue, now: nat, log: seq<Item>, effects: nat -> Effect, clock: nat -> nat,
      b: Books, n: nat, c: nat, last: Option<Budget>, gaps: seq<nat>)
    requires Running(start, q, now, log, effects, clock, b, n, c, last, gaps)
    ensures Collected(q, now)
  {
  }

  /** Nothing comes next: what the expiry has done. */
  lemma {:induction false} RunningEnds(
      before: Queue, start: Queue, q: Queue, now: nat, log: seq<Item>, effects: nat -> Effect, clock: nat -> nat,
      b: Books, n: nat, c: nat, last: Option<Budget>, gaps: seq<nat>)
    requires Running(start, q, now, log, effects, clock, b, n, c, last, gaps) && Rising(clock) && Next(q, now).None?
    requires forall x :: Due(before, now, x) <==> Pending(start, now, x)
    requires n > 0 <==> WaitDue(before.processes, now)
    requires start.processes == before.processes && start.deadlines == before.deadlines && QueueSound(before)
    ensures Replayed(before, q, log, effects)
    ensures forall t: Thread, at: nat :: Waits(before.processes, t, at) && at > now && Unhurt(effects, |log|, t) ==>
              Waits(q.processes, t, at)
    ensures QueueSound(q) && q.due == []
    ensures forall thread, at: nat :: Waits(q.processes, thread, at) && at <= now ==>
              BegunBy(effects, |log|, thread, at)
    ensures forall x :: x in q.deadlines ==> x.at > now
    ensures Ordered(log) && (forall x :: x in log ==> Due(before, now, x))
    ensures forall x :: Due(before, now, x) ==> x in log || GoneBy(effects, |log|, x)
    ensures b.between == GapSum(clock, gaps) && |gaps| == (if n > 0 then 1 else 0) + PaidDeadlines(log, effects)
    ensures Ticking(clock) ==> (b.between == 0 <==> !WaitDue(before.processes, now) && NoDeadlinePaid(log, effects))
    ensures Ticking(clock) && DeadlinesPaid(log, effects) ==> (b.between == 0 <==> Quiet(before, now))
    ensures Accounts(Closed(b, last, clock(c + 1)), n, clock, c + 1, log, effects)
    ensures Closed(b, last, clock(c + 1)).between == b.between
  {
    hide Collected, Progress, Listed, Balanced, PaidUp, GapSum, PaidDeadlines, Rising, Next, Ticking, NoDeadlinePaid,
         DeadlinesPaid, Quiet, WaitDue, Due, Pending, QueueSound, Waits, BegunBy, GoneBy, Ordered, Closed, Ticks,
         Walked, Part, BilledTo, Replayed, Unhurt;
    NothingLeft(before, start, q, now, log, effects);
    ReplayedSame(start, before, q, log, effects);
    forall t: Thread, at: nat | Waits(before.processes, t, at) && at > now && Unhurt(effects, |log|, t)
      ensures Waits(q.processes, t, at)
    {
      LaterStays(before, q, now, log, effects, t, at);
    }
    if Ticking(clock) { NothingDue(before, now, clock, gaps, log, effects, n); }
    RisingAt(clock, c);
    ClosedBalanced(b, n, if n == 0 then 0 else clock(1) - clock(0), clock(0), last, clock(c + 1));
    PaidEnds(b, last, clock(c + 1), |log|, effects);
    BalancedSince(b, n, if n == 0 then 0 else clock(1) - clock(0), clock(0));
  }

  lemma {:induction false} ReplayedSame(start: Queue, before: Queue, q: Queue, log: seq<Item>, effects: nat -> Effect)
    requires Replayed(start, q, log, effects)
    requires start.processes == before.processes && start.deadlines == before.deadlines
    ensures Replayed(before, q, log, effects)
  {
    hide Left, DeadlineLeft, Waits;
  }

  lemma {:induction false} BalancedSince(b: Books, n: nat, cost: nat, t0: nat)
    requires Balanced(b, n, cost, t0)
    ensures t0 <= b.started
  {
  }

  /** An expiry's accounts, closed at reading `t`. */
  ghost predicate Accounts(b: Books, n: nat, clock: nat -> nat, t: nat, log: seq<Item>, effects: nat -> Effect) {
    // Whoever is billed, the bills and what nobody pays for are the time it took.
    && clock(0) <= clock(t) && Ticks(b.bills) + b.between + b.orphaned == clock(t) - clock(0)
    // The walk's cost, shared equally, the remainder the first's.
    && clock(0) <= clock(1) && |b.takes| <= n
    && (n > 0 ==> forall i :: 0 <= i < |b.takes| ==> b.takes[i] == Part(clock(1) - clock(0), n, i))
    && Walked(b.bills) + b.lost == (if n == 0 then 0 else clock(1) - clock(0)) && b.lost <= b.orphaned
    // With every payer there: a bill an item, each its own payer's, and the rest to the last of them.
    && (log != [] && EveryPayerThere(effects, |log|) ==>
          && b.orphaned == 0 && |b.bills| == |log| + 1 && BilledTo(b.bills, |log|, effects)
          && Some(b.bills[|log|].budget) == effects(|log| - 1).payer)
  }

  // --- Ordering the due list ----------------------------------------------------------------------------------------

  lemma {:induction false} InsertOrdered(items: seq<Item>, k: nat, x: Item)
    requires Ordered(items) && k <= |items| && x.Timeout?
    requires forall i :: 0 <= i < |items| ==> items[i].Timeout? && items[i] != x
    requires (forall i :: 0 <= i < k ==> Before(items[i], x)) && (k < |items| ==> !Before(items[k], x))
    ensures Ordered(items[..k] + [x] + items[k..])
    ensures forall y :: y in items[..k] + [x] + items[k..] <==> y in items || y == x
  {
    var list := items[..k] + [x] + items[k..];
    forall i | k <= i < |items| ensures Before(x, items[i]) {
      assert Before(x, items[k]);
      assert i > k ==> Before(items[k], items[i]);
    }
    forall i, j | 0 <= i < j < |list| ensures Before(list[i], list[j]) {
      assert list[i] == if i < k then items[i] else if i == k then x else items[i - 1];
      assert list[j] == if j < k then items[j] else if j == k then x else items[j - 1];
    }
    assert items == items[..k] + items[k..];
  }

  /** Nothing is listed twice. */
  ghost predicate Distinct(items: seq<Item>) { forall i, j :: 0 <= i < j < |items| ==> items[i] != items[j] }

  function DueOf(pid: Pid, waits: seq<Wait>, r: nat): seq<Item>
    requires r <= |waits|
  {
    seq(r, i requires 0 <= i < r => Timeout(waits[i].deadline, Thread(pid, waits[i].tid)))
  }

  /** A list kept by deadline, read up to the first wait still to come: those are all the waits due. */
  lemma {:induction false} DueOfMembers(pid: Pid, p: Process, r: nat, now: nat)
    requires Exact(p) && r <= |p.waits| && (r < |p.waits| ==> p.waits[r].deadline > now)
    requires forall i :: 0 <= i < r ==> p.waits[i].deadline <= now
    ensures forall x :: x in DueOf(pid, p.waits, r) <==>
                          x.Timeout? && x.thread.pid == pid && x.at <= now && Wait(x.thread.tid, x.at) in p.waits
    ensures Distinct(DueOf(pid, p.waits, r))
    ensures forall w :: w in p.waits && w.deadline > now ==> r < |p.waits| && p.waits[r].deadline <= w.deadline
    ensures p.earliest <= now < NEVER ==> r > 0
  {
    EarliestIsFirst(p.waits);
    hide Earliest;
    var due := DueOf(pid, p.waits, r);
    forall i | r <= i < |p.waits| ensures p.waits[i].deadline > now {
      assert r < i ==> p.waits[r].deadline <= p.waits[i].deadline;
    }
    forall x: Item | x.Timeout? && x.thread.pid == pid && x.at <= now && Wait(x.thread.tid, x.at) in p.waits
      ensures x in due
    {
      var i :| 0 <= i < |p.waits| && p.waits[i] == Wait(x.thread.tid, x.at);
      assert due[i] == x;
    }
    forall w | w in p.waits && w.deadline > now ensures r < |p.waits| && p.waits[r].deadline <= w.deadline {
      var i :| 0 <= i < |p.waits| && p.waits[i] == w;
      assert r < i ==> p.waits[r].deadline <= p.waits[i].deadline;
    }
  }

  /** Nothing is due where the cached earliest timeout has not come. */
  lemma {:induction false} NoneDue(p: Process, now: nat)
    requires Exact(p) && p.earliest > now
    ensures forall w :: w in p.waits ==> w.deadline > now && p.earliest <= w.deadline
    ensures p.earliest == NEVER || exists w :: w in p.waits && w.deadline == p.earliest
  {
    EarliestIsLeast(p.waits);
    EarliestIsFirst(p.waits);
    if |p.waits| > 0 { assert p.waits[0] in p.waits; }
  }

  /** The due list has the waits due of the processes read so far, and `next` is the earliest still to come. */
  ghost predicate Read(processes: map<Pid, Process>, pids: set<Pid>, now: nat, due: seq<Item>, next: nat) {
    && (forall x :: x in due <==> x.Timeout? && x.thread.pid in pids && x.at <= now && Waits(processes, x.thread, x.at))
    && Distinct(due)
    && (forall thread: Thread, at: nat :: thread.pid in pids && at > now && Waits(processes, thread, at) ==> next <= at)
    && (next == NEVER || (next > now && exists thread :: Waits(processes, thread, next)))
  }

  lemma {:induction false} ReadDue(
      processes: map<Pid, Process>, pids: set<Pid>, now: nat, due: seq<Item>, next: nat, pid: Pid, r: nat)
    requires Read(processes, pids, now, due, next) && AllExact(processes) && pid in processes && pid !in pids
    requires var ws := processes[pid].waits;
             r <= |ws| && (r < |ws| ==> ws[r].deadline > now) && forall i :: 0 <= i < r ==> ws[i].deadline <= now
    ensures var ws := processes[pid].waits;
            Read(processes, pids + {pid}, now, due + DueOf(pid, ws, r),
                 if r < |ws| then Min(next, ws[r].deadline) else next)
  {
    var ws := processes[pid].waits;
    DueOfMembers(pid, processes[pid], r, now);
    hide DueOf, Exact;
    var more := DueOf(pid, ws, r);
    var due' := due + more;
    forall x
      ensures x in due' <==>
                x.Timeout? && x.thread.pid in pids + {pid} && x.at <= now && Waits(processes, x.thread, x.at)
    {
      assert x in due' <==> x in due || x in more;
    }
    forall i, j | 0 <= i < j < |due'| ensures due'[i] != due'[j] {
      if i < |due| <= j {
        assert due'[i] in due && due'[j] in more;
      } else if |due| <= i {
        assert more[i - |due|] != more[j - |due|];
      }
    }
    if r < |ws| { assert ws[r] in ws && Waits(processes, Thread(pid, ws[r].tid), ws[r].deadline); }
  }

  lemma {:induction false} ReadNone(
      processes: map<Pid, Process>, pids: set<Pid>, now: nat, due: seq<Item>, next: nat, pid: Pid)
    requires Read(processes, pids, now, due, next) && AllExact(processes) && pid in processes
    requires processes[pid].earliest > now
    ensures Read(processes, pids + {pid}, now, due, Min(next, processes[pid].earliest))
  {
    var p := processes[pid];
    NoneDue(p, now);
    hide Exact, Distinct;
    if p.earliest != NEVER {
      var w :| w in p.waits && w.deadline == p.earliest;
      assert Waits(processes, Thread(pid, w.tid), w.deadline);
    }
    forall thread: Thread, at: nat | thread.pid in pids + {pid} && Waits(processes, thread, at)
      ensures at > now ==> Min(next, p.earliest) <= at
      ensures at <= now ==> thread.pid in pids
    {
      if thread.pid == pid { assert Wait(thread.tid, at) in p.waits; }
    }
  }

  lemma {:induction false} ReadNothing(processes: map<Pid, Process>, now: nat)
    ensures Read(processes, {}, now, [], NEVER)
  {
  }

  lemma {:induction false} ReadIs(processes: map<Pid, Process>, pids: set<Pid>, now: nat, due: seq<Item>, next: nat)
    requires Read(processes, pids, now, due, next) && pids == processes.Keys
    ensures Distinct(due) && forall x :: x in due <==> x.Timeout? && x.at <= now && Waits(processes, x.thread, x.at)
    ensures forall thread, at: nat :: at > now && Waits(processes, thread, at) ==> next <= at
    ensures next == NEVER || (next > now && exists thread :: Waits(processes, thread, next))
  {
  }

  lemma {:induction false} ExactlyDue(processes: map<Pid, Process>, pid: Pid, r: nat, now: nat)
    requires AllExact(processes) && pid in processes && processes[pid].earliest <= now < NEVER
    requires var ws := processes[pid].waits;
             r <= |ws| && (r < |ws| ==> ws[r].deadline > now) && forall i :: 0 <= i < r ==> ws[i].deadline <= now
    ensures r > 0
  {
    DueOfMembers(pid, processes[pid], r, now);
  }

  lemma {:induction false} SortedApart(items: seq<Item>, i: nat, r: seq<Item>)
    requires Distinct(items) && i < |items| && (forall x :: x in items ==> x.Timeout?)
    requires forall x :: x in r <==> x in items[..i]
    ensures items[i].Timeout? && forall k :: 0 <= k < |r| ==> r[k].Timeout? && r[k] != items[i]
  {
    forall k | 0 <= k < |r| ensures r[k].Timeout? && r[k] != items[i] {
      assert r[k] in items[..i];
      var j :| 0 <= j < i && items[j] == r[k];
    }
  }

  // --- The timer as the kernel changes it ---------------------------------------------------------------------------

  class Timers {
    var q: Queue

    /** No process, and no budget with a deadline. */
    constructor ()
      ensures QueueSound(q) && q == Queue(map[], [], [])
    {
      q := Queue(map[], [], []);
    }

    /** A process begins, with nothing to wait for. */
    method AddProcess(pid: Pid)
      requires QueueSound(q) && pid !in q.processes
      modifies this
      ensures QueueSound(q) && q == old(q).(processes := old(q).processes[pid := Process([], NEVER)])
    {
      q := q.(processes := q.processes[pid := Process([], NEVER)]);
    }

    /** A budget created with a deadline. */
    method AddDeadline(at: nat, budget: Budget)
      requires QueueSound(q) && forall x :: x in q.deadlines && x.Deadline? ==> x.budget != budget
      modifies this
      ensures QueueSound(q) && q == old(q).(deadlines := old(q).deadlines + [Deadline(at, budget)])
    {
      q := q.(deadlines := q.deadlines + [Deadline(at, budget)]);
    }

    static method FindWait(waits: seq<Wait>, tid: Tid) returns (k: nat)
      ensures k == Find(waits, tid)
    {
      k := 0;
      while k < |waits| && waits[k].tid != tid
        invariant k <= |waits| && forall i :: 0 <= i < k ==> waits[i].tid != tid
      {
        k := k + 1;
      }
    }

    static method FindPlace(waits: seq<Wait>, deadline: nat) returns (k: nat)
      ensures k == Place(waits, deadline)
    {
      k := 0;
      while k < |waits| && waits[k].deadline <= deadline
        invariant k <= |waits| && forall i :: 0 <= i < k ==> waits[i].deadline <= deadline
      {
        k := k + 1;
      }
    }

    /** A wait has ended: it leaves its process's timed waits, if it was on them. */
    method Untime(t: Thread)
      requires AllExact(q.processes)
      modifies this
      ensures q == old(q).(processes := UntimedIn(old(q).processes, t)) && AllExact(q.processes)
    {
      UntimedInKeeps(q.processes, t);
      hide AllExact;
      if t.pid !in q.processes { return; }
      var p := q.processes[t.pid];
      var k := FindWait(p.waits, t.tid);
      if k < |p.waits| {
        var rest := RemovedAt(p.waits, k);
        var earliest := p.earliest;
        if k == 0 {
          var next := if |rest| == 0 then NEVER else rest[0].deadline;
          earliest := Max(earliest, next);
        }
        p := Process(rest, earliest);
      }
      q := q.(processes := q.processes[t.pid := p]);
    }

    /** `mark`: a wait begins, with its deadline. */
    method MarkAt(w: Begun)
      requires AllExact(q.processes)
      modifies this
      ensures q == old(q).(processes := MarkedIn(old(q).processes, w)) && AllExact(q.processes)
    {
      hide AllExact, Untimed, Exact, Place, InsertedAt;
      MarkedInKeeps(q.processes, w);
      if w.thread.pid !in q.processes { return; }
      PlaceWithin(Untimed(q.processes[w.thread.pid], w.thread.tid).waits, w.at);
      Untime(w.thread);
      if w.at < NEVER {
        var p := q.processes[w.thread.pid];
        var k := FindPlace(p.waits, w.at);
        p := Process(InsertedAt(p.waits, k, Wait(w.thread.tid, w.at)), Min(p.earliest, w.at));
        q := q.(processes := q.processes[w.thread.pid := p]);
      }
    }

    /** A wait begins: `timeout` from `now`, saturating, so that one forever has no deadline. */
    method Mark(t: Thread, now: nat, timeout: nat)
      requires QueueSound(q) && t.pid in q.processes
      modifies this
      ensures QueueSound(q)
      ensures var p := Marked(old(q).processes[t.pid], t.tid, Min(now + timeout, NEVER));
              q == old(q).(processes := old(q).processes[t.pid := p])
    {
      hide AllExact, Marked;
      MarkAt(Begun(t, Min(now + timeout, NEVER)));
    }

    static method SortDue(items: seq<Item>) returns (r: seq<Item>)
      requires Distinct(items) && forall x :: x in items ==> x.Timeout?
      ensures Ordered(r) && |r| == |items| && forall x :: x in r <==> x in items
    {
      r := [];
      for i := 0 to |items|
        invariant Ordered(r) && |r| == i && forall x :: x in r <==> x in items[..i]
      {
        hide Before, Ordered;
        var x, k := items[i], 0;
        assert items[..i + 1] == items[..i] + [x];
        SortedApart(items, i, r);
        while k < |r| && Before(r[k], x)
          invariant k <= |r| && forall j :: 0 <= j < k ==> Before(r[j], x)
        {
          k := k + 1;
        }
        InsertOrdered(r, k, x);
        r := r[..k] + [x] + r[k..];
      }
      assert items[..|items|] == items;
    }

    /** The walk: every wait due onto the due list, in order. Only the processes whose cached earliest timeout has
        come are read, and none of them in vain: `stale`, the last that was, is nobody.
      */
    method CollectDue(now: nat, pids: seq<Pid>) returns (count: nat, next: nat, stale: Option<Pid>)
      requires QueueSound(q) && now < NEVER && q.due == [] && (set pid | pid in pids) == q.processes.Keys
      requires forall i, j :: 0 <= i < j < |pids| ==> pids[i] != pids[j]
      modifies this
      ensures q.processes == old(q).processes && q.deadlines == old(q).deadlines && Collected(q, now)
      ensures forall thread, at: nat :: Timeout(at, thread) in q.due <==> Waits(q.processes, thread, at) && at <= now
      ensures count == |q.due| && stale == None
      ensures forall thread, at: nat :: Waits(q.processes, thread, at) && at > now ==> next <= at
      ensures next == NEVER || (next > now && exists thread :: Waits(q.processes, thread, next))
    {
      ghost var processes := q.processes;
      var due;
      due, next, stale := ReadAll(now, pids);
      ReadIs(processes, processes.Keys, now, due, next);
      var sorted := SortDue(due);
      q := q.(due := sorted);
      count := |due|;
    }

    method ReadAll(now: nat, pids: seq<Pid>) returns (due: seq<Item>, next: nat, stale: Option<Pid>)
      requires AllExact(q.processes) && now < NEVER && (set pid | pid in pids) == q.processes.Keys
      requires forall i, j :: 0 <= i < j < |pids| ==> pids[i] != pids[j]
      modifies this
      ensures q == old(q) && Read(q.processes, q.processes.Keys, now, due, next) && stale == None
    {
      hide Read, AllExact;
      due, next, stale := [], NEVER, None;
      ghost var seen: set<Pid> := {};
      ReadNothing(q.processes, now);
      for i := 0 to |pids|
        invariant q == old(q) && stale == None && AllExact(q.processes)
        invariant seen == set k | 0 <= k < i :: pids[k]
        invariant Read(q.processes, seen, now, due, next)
      {
        var pid := pids[i];
        assert pid in pids;
        assert pid !in seen;
        var p := q.processes[pid];
        if p.earliest > now {
          ReadNone(q.processes, seen, now, due, next, pid);
          next := Min(next, p.earliest);
        } else {
          var exact, r := NEVER, 0;
          while r < |p.waits| && p.waits[r].deadline <= now
            invariant r <= |p.waits| && forall j :: 0 <= j < r ==> p.waits[j].deadline <= now
          {
            r := r + 1;
          }
          ExactlyDue(q.processes, pid, r, now);
          ReadDue(q.processes, seen, now, due, next, pid, r);
          due := due + DueOf(pid, p.waits, r);
          if r < |p.waits| {
            exact := p.waits[r].deadline;
            next := Min(next, exact);
          }
          stale := if r == 0 then Some(pid) else stale;
          q := q.(processes := if r == 0 then q.processes[pid := p.(earliest := exact)] else q.processes);
        }
        seen := seen + {pid};
      }
      assert seen == q.processes.Keys;
    }

    static method Drop(items: seq<Item>, threads: seq<Thread>, budgets: set<Budget>) returns (r: seq<Item>)
      ensures r == Without(items, threads, budgets)
    {
      r := [];
      for i := 0 to |items|
        invariant r == Without(items[..i], threads, budgets)
      {
        assert items[..i + 1][..i] == items[..i];
        if !Gone(items[i], threads, budgets) { r := r + [items[i]]; }
      }
      assert items[..|items|] == items;
    }

    method UntimeAll(threads: seq<Thread>)
      requires AllExact(q.processes)
      modifies this
      ensures q == old(q).(processes := UntimedAll(old(q).processes, threads)) && AllExact(q.processes)
    {
      hide AllExact, UntimedIn;
      ghost var before := q;
      for i := 0 to |threads|
        invariant AllExact(q.processes) && q == before.(processes := UntimedAll(before.processes, threads[..i]))
      {
        assert threads[..i + 1][..i] == threads[..i];
        Untime(threads[i]);
      }
      assert threads[..|threads|] == threads;
    }

    method MarkAll(begun: seq<Begun>)
      requires AllExact(q.processes)
      modifies this
      ensures q == old(q).(processes := MarkedAll(old(q).processes, begun)) && AllExact(q.processes)
    {
      hide AllExact, MarkedIn;
      ghost var before := q;
      for i := 0 to |begun|
        invariant AllExact(q.processes) && q == before.(processes := MarkedAll(before.processes, begun[..i]))
      {
        assert begun[..i + 1][..i] == begun[..i];
        MarkAt(begun[i]);
      }
      assert begun[..|begun|] == begun;
    }

    /** What an ending does beside its own item. */
    method Affect(e: Effect)
      requires AllExact(q.processes)
      modifies this
      ensures q == Affected(old(q), e)
    {
      hide AllExact, UntimedAll, MarkedAll, Without;
      UntimeAll(e.answered + e.ended);
      MarkAll(e.begun);
      var due := Drop(q.due, e.ended, e.destroyed);
      var deadlines := Drop(q.deadlines, e.ended, e.destroyed);
      q := q.(due := due, deadlines := deadlines);
    }

    static method FindDueBudget(items: seq<Item>, now: nat) returns (r: Option<Item>)
      ensures r == DueBudget(items, now)
    {
      r := None;
      for i := 0 to |items|
        invariant r == DueBudget(items[..i], now)
      {
        assert items[..i + 1][..i] == items[..i];
        if items[i].at <= now && (r.None? || Before(items[i], r.value)) { r := Some(items[i]); }
      }
      assert items[..|items|] == items;
    }

    /** The first wait due: off the due list, and timed out if it still waits. */
    method PopAndTimeOut(e: Effect, now: nat)
      requires Collected(q, now) && |q.due| > 0 && q.due[0].Timeout?
      modifies this
      ensures q == TimedOut(old(q), e)
    {
      var first := q.due[0].thread;
      UntimedAllKeeps(q.processes, [first]);
      hide AllExact, UntimedAll, Affected, Ordered;
      q := q.(due := q.due[1..]);
      UntimeAll([first]);
      Affect(e);
    }

    /** Handle everything due at `now`. `effects` says what the ending of each item does; `clock`, the ticks read
        one after another. The log is what was ended, and the books who was billed.
      */
    method ExpireDue(now: nat, pids: seq<Pid>, effects: nat -> Effect, clock: nat -> nat)
      returns (log: seq<Item>, b: Books, n: nat, t: nat, ghost gaps: seq<nat>)
      requires QueueSound(q) && now < NEVER && q.due == [] && (set pid | pid in pids) == q.processes.Keys
      requires forall i, j :: 0 <= i < j < |pids| ==> pids[i] != pids[j]
      requires Rising(clock)
      modifies this
      // Nothing due is left but what the endings themselves began, and every cache is exact.
      ensures QueueSound(q) && q.due == []
      ensures forall thread, at: nat :: Waits(q.processes, thread, at) && at <= now ==>
                BegunBy(effects, |log|, thread, at)
      ensures forall x :: x in q.deadlines ==> x.at > now
      // And of what was not due nothing is lost: the waits and deadlines there are exactly those the endings of the log
      // leave; so a wait still to come is there, unless an ending answered its thread, ended it or set it waiting anew.
      ensures Replayed(old(q), q, log, effects)
      ensures forall t: Thread, at: nat :: Waits(old(q).processes, t, at) && at > now && Unhurt(effects, |log|, t) ==>
                Waits(q.processes, t, at)
      // All that was due was ended, in order, unless what was ended before took it along.
      ensures Ordered(log)
      ensures forall x :: x in log ==> Due(old(q), now, x)
      ensures forall x :: Due(old(q), now, x) ==> x in log || GoneBy(effects, |log|, x)
      // Whoever is billed, the bills and what nobody pays for are the time it took; the walk's cost is shared.
      ensures Accounts(b, n, clock, t, log, effects)
      // And of that, `between` is what passed from one reading to the next, once after the walk, if a wait was due,
      // and once after each destruction somebody paid for.
      ensures n > 0 <==> WaitDue(old(q).processes, now)
      ensures b.between == GapSum(clock, gaps) && |gaps| == (if n > 0 then 1 else 0) + PaidDeadlines(log, effects)
      ensures Ticking(clock) ==>
                (b.between == 0 <==> !WaitDue(old(q).processes, now) && NoDeadlinePaid(log, effects))
      ensures Ticking(clock) && DeadlinesPaid(log, effects) ==> (b.between == 0 <==> Quiet(old(q), now))
    {
      hide *;
      ghost var before := q;
      var next, stale;
      n, next, stale := CollectDue(now, pids);
      ghost var start := q;
      DueIsPending(before, start, now);
      RunningStarts(q, now, effects, clock, n);
      b := Opened(n, clock(0), clock(1), clock(2));
      var c := if n == 0 then 0 else 2;
      gaps := if n == 0 then [] else [1];
      log := [];
      var last: Option<Budget> := None;
      var x := FindNext(now);
      while x.Some?
        invariant x == Next(q, now) && Running(start, q, now, log, effects, clock, b, n, c, last, gaps)
        decreases |q.due| + |q.deadlines|
      {
        var e := effects(|log|);
        RunningTells(start, q, now, log, effects, clock, b, n, c, last, gaps);
        RunningStep(start, q, now, log, effects, clock, b, n, c, last, gaps, x.value);
        End(x.value, e, now);
        b := BilledItem(b, x.value, e.payer, clock(c + 1), clock(c + 2));
        gaps := if x.value.Deadline? && e.payer.Some? then gaps + [c + 1] else gaps;
        c := if x.value.Timeout? then c + 1 else c + 2;
        last := e.payer;
        log := log + [x.value];
        x := FindNext(now);
      }
      t := c + 1;
      RunningEnds(before, start, q, now, log, effects, clock, b, n, c, last, gaps);
      b := Closed(b, last, clock(t));
    }

    method FindNext(now: nat) returns (x: Option<Item>)
      ensures x == Next(q, now)
    {
      var timeout := if |q.due| > 0 then Some(q.due[0]) else None;
      var budget := FindDueBudget(q.deadlines, now);
      if timeout.Some? && (budget.None? || timeout.value.at <= budget.value.at) {
        x := timeout;
      } else {
        x := budget;
      }
    }

    /** The next item, ended: a wait times out, or a budget is destroyed. */
    method End(x: Item, e: Effect, now: nat)
      requires Collected(q, now) && Next(q, now) == Some(x) && (x.Timeout? ==> |q.due| > 0 && q.due[0].Timeout?)
      modifies this
      ensures q == Ended(old(q), x, e)
    {
      if x.Timeout? {
        PopAndTimeOut(e, now);
      } else {
        Affect(e.(destroyed := e.destroyed + {x.budget}));
      }
    }
  }
}
