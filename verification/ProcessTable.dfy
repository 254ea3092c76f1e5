/** Which threads run, which are ready, and on which hart (kernel/src/ptable.rs). */
module ProcessTable {
  import opened Basics

  type Pid = nat
  type Tid = nat

  /** The kernel's own process: `kmain` runs on every hart that runs no other. */
  const KERNEL_PID: Pid := 1
  const INIT_PID: Pid := 2
  const INITIAL_TID: Tid := 1
  const MAX_TID: Tid := 255

  /** `Ready` and `Running` hold the threads ready to run that no hart runs. */
  datatype ProcessState = Free | Allocated | Setup | Ready(ready: set<Tid>) | Running(ready: set<Tid>) | Sleeping

  datatype Process = Process(state: ProcessState, current: Tid)

  /** What a hart runs. */
  datatype Place = Kernel | Thread(pid: Pid, tid: Tid)

  datatype Error = NotFound | NotReady

  datatype Table = Table(procs: map<Pid, Process>, harts: seq<Place>)

  predicate Runs(p: Place, pid: Pid) { p.Thread? && p.pid == pid }

  /** A hart other than `h` runs `pid`. */
  ghost predicate Elsewhere(t: Table, h: nat, pid: Pid) {
    exists g :: 0 <= g < |t.harts| && g != h && Runs(t.harts[g], pid)
  }

  // --- What is always so -------------------------------------------------------------------------------------

  /** A thread's number: 0 is none's. */
  predicate IsTid(tid: Tid) { 0 < tid <= MAX_TID }

  /** The thread a hart runs is its process's, on the CPU, and not among the ready ones. */
  ghost predicate HartOk(t: Table, p: Place) {
    p.Thread? ==>
      && p.pid != KERNEL_PID && p.pid in t.procs && t.procs[p.pid].state.Running?
      && p.tid !in t.procs[p.pid].state.ready
      && IsTid(p.tid)
  }

  /** A process runs exactly while some hart runs it, and is never ready with no thread. */
  ghost predicate ProcessOk(t: Table, pid: Pid)
    requires pid in t.procs
  {
    && (t.procs[pid].state.Running? <==> exists g :: 0 <= g < |t.harts| && Runs(t.harts[g], pid))
    && (t.procs[pid].state.Ready? ==> t.procs[pid].state.ready != {})
    && (forall x :: x in ReadyOf(t.procs[pid].state) ==> IsTid(x))
  }

  ghost predicate Sound(t: Table) {
    && KERNEL_PID !in t.procs
    && (forall h :: 0 <= h < |t.harts| ==> HartOk(t, t.harts[h]))
    && (forall g, h :: 0 <= g < |t.harts| && 0 <= h < |t.harts| && t.harts[g].Thread? && t.harts[g] == t.harts[h] ==>
        g == h)
    && (forall pid :: pid in t.procs ==> ProcessOk(t, pid))
  }

  // --- The transitions -----------------------------------------------------------------------------------------

  /** `off_hart`: still running while another hart runs it, else ready, or asleep with no thread. */
  ghost function OffHart(t: Table, h: nat, pid: Pid, ready: set<Tid>): ProcessState {
    if Elsewhere(t, h, pid) then Running(ready) else if ready == {} then Sleeping else Ready(ready)
  }

  function ReadyOf(s: ProcessState): set<Tid> { if s.Ready? || s.Running? then s.ready else {} }

  /** Hart `h` stops running its thread, which joins the ready ones only if `resume`. */
  ghost function Left(t: Table, h: nat, resume: bool): Table
    requires h < |t.harts| && (t.harts[h].Thread? ==> t.harts[h].pid in t.procs)
  {
    if t.harts[h].Kernel? then t else
      var pid, tid := t.harts[h].pid, t.harts[h].tid;
      var ready := if resume then ReadyOf(t.procs[pid].state) + {tid} else ReadyOf(t.procs[pid].state);
      Table(t.procs[pid := Process(OffHart(t, h, pid, ready), tid)], t.harts[h := Kernel])
  }

  lemma {:induction false} LeftKeeps(t: Table, h: nat, resume: bool)
    requires Sound(t) && h < |t.harts|
    ensures (t.harts[h].Thread? ==> t.harts[h].pid in t.procs) && Sound(Left(t, h, resume))
  {
    assert HartOk(t, t.harts[h]);
    var t' := Left(t, h, resume);
    if t.harts[h].Thread? {
      var pid, tid := t.harts[h].pid, t.harts[h].tid;
      forall g | 0 <= g < |t'.harts| ensures HartOk(t', t'.harts[g]) {
        assert HartOk(t, t.harts[g]);
        if g != h && Runs(t.harts[g], pid) { assert Elsewhere(t, h, pid) && t.harts[g] != t.harts[h]; }
      }
      forall p | p in t'.procs ensures ProcessOk(t', p) { LeftProcess(t, h, resume, p); }
    }
  }

  lemma {:induction false} LeftProcess(t: Table, h: nat, resume: bool, p: Pid)
    requires Sound(t) && h < |t.harts| && t.harts[h].Thread? && t.harts[h].pid in t.procs && p in t.procs
    ensures ProcessOk(Left(t, h, resume), p)
  {
    var t' := Left(t, h, resume);
    assert ProcessOk(t, p);
    if p == t.harts[h].pid {
      if Elsewhere(t, h, p) {
        var g :| 0 <= g < |t.harts| && g != h && Runs(t.harts[g], p);
        assert Runs(t'.harts[g], p);
      }
    } else if t.procs[p].state.Running? {
      var g :| 0 <= g < |t.harts| && Runs(t.harts[g], p);
      assert Runs(t'.harts[g], p);
    }
  }

  /** The threads hart `h` can begin to run: a process being set up has its first alone. */
  ghost predicate CanJoin(t: Table, pid: Pid, tid: Tid) {
    && pid in t.procs
    && match t.procs[pid].state
       case Ready(x) => tid in x
       case Running(x) => tid in x
       case Setup => tid == INITIAL_TID
       case Allocated => tid == INITIAL_TID
       case _ => false
  }

  /** Hart `h`, in the kernel, begins to run thread `tid` of `pid`. */
  ghost function Joined(t: Table, h: nat, pid: Pid, tid: Tid): Table
    requires h < |t.harts| && pid in t.procs
  {
    Table(t.procs[pid := Process(Running(ReadyOf(t.procs[pid].state) - {tid}), tid)], t.harts[h := Thread(pid, tid)])
  }

  lemma {:induction false} JoinedKeeps(t: Table, h: nat, pid: Pid, tid: Tid)
    requires Sound(t) && h < |t.harts| && t.harts[h].Kernel? && CanJoin(t, pid, tid)
    ensures Sound(Joined(t, h, pid, tid))
  {
    var t' := Joined(t, h, pid, tid);
    assert ProcessOk(t, pid);
    forall g | 0 <= g < |t'.harts| ensures HartOk(t', t'.harts[g]) { assert HartOk(t, t.harts[g]); }
    forall g, i | 0 <= g < |t'.harts| && 0 <= i < |t'.harts| && t'.harts[g].Thread? && t'.harts[g] == t'.harts[i]
      ensures g == i
    {
      assert HartOk(t, t.harts[g]) && HartOk(t, t.harts[i]);
    }
    forall p | p in t'.procs ensures ProcessOk(t', p) {
      assert ProcessOk(t, p);
      if p == pid {
        assert Runs(t'.harts[h], pid);
      } else if t.procs[p].state.Running? {
        var g :| 0 <= g < |t.harts| && Runs(t.harts[g], p);
        assert Runs(t'.harts[g], p);
      }
    }
  }

  /** A thread that waits for nothing any more, run by no hart, is ready. */
  ghost predicate CanWake(t: Table, pid: Pid, tid: Tid) {
    && pid in t.procs && Thread(pid, tid) !in t.harts && IsTid(tid)
    && (t.procs[pid].state.Running? || t.procs[pid].state.Ready? || t.procs[pid].state.Sleeping?)
  }

  function Woken(t: Table, pid: Pid, tid: Tid): Table
    requires pid in t.procs
  {
    var s := t.procs[pid].state;
    var woken := if s.Running? then Running(s.ready + {tid}) else Ready(ReadyOf(s) + {tid});
    t.(procs := t.procs[pid := t.procs[pid].(state := woken)])
  }

  lemma {:induction false} WokenKeeps(t: Table, pid: Pid, tid: Tid)
    requires Sound(t) && CanWake(t, pid, tid)
    ensures Sound(Woken(t, pid, tid))
  {
    var t' := Woken(t, pid, tid);
    forall g | 0 <= g < |t'.harts| ensures HartOk(t', t'.harts[g]) {
      assert HartOk(t, t.harts[g]) && t.harts[g] in t.harts;
    }
    forall p | p in t'.procs ensures ProcessOk(t', p) { assert ProcessOk(t, p); }
  }

  /** A process that no hart runs comes to a state that is neither running nor ready with no thread. */
  lemma {:induction false} ResetKeeps(t: Table, pid: Pid, s: ProcessState, current: Tid)
    requires Sound(t) && pid != KERNEL_PID && (pid in t.procs ==> !t.procs[pid].state.Running?)
    requires !s.Running? && (s.Ready? ==> s.ready != {} && forall x :: x in s.ready ==> IsTid(x))
    ensures Sound(t.(procs := t.procs[pid := Process(s, current)]))
  {
    var t' := t.(procs := t.procs[pid := Process(s, current)]);
    forall g | 0 <= g < |t'.harts| ensures HartOk(t', t'.harts[g]) { assert HartOk(t, t.harts[g]); }
    forall p | p in t'.procs ensures ProcessOk(t', p) {
      if p != pid { assert ProcessOk(t, p); }
      if p == pid { forall g | 0 <= g < |t.harts| ensures !Runs(t.harts[g], pid) { assert HartOk(t, t.harts[g]); } }
    }
  }

  /** Every hart running `pid` is made to leave it, and the process is gone. */
  function Evicted(t: Table, pid: Pid): seq<Place> {
    seq(|t.harts|, h requires 0 <= h < |t.harts| => if Runs(t.harts[h], pid) then Kernel else t.harts[h])
  }

  function Ended(t: Table, pid: Pid): Table
    requires pid in t.procs
  {
    Table(t.procs[pid := Process(Free, t.procs[pid].current)], Evicted(t, pid))
  }

  lemma {:induction false} EndedKeeps(t: Table, pid: Pid)
    requires Sound(t) && pid in t.procs
    ensures Sound(Ended(t, pid))
  {
    var t' := Ended(t, pid);
    forall g | 0 <= g < |t'.harts| ensures HartOk(t', t'.harts[g]) { assert HartOk(t, t.harts[g]); }
    forall g, i | 0 <= g < |t'.harts| && 0 <= i < |t'.harts| && t'.harts[g].Thread? && t'.harts[g] == t'.harts[i]
      ensures g == i
    {
      assert t.harts[g] == t.harts[i];
    }
    forall p | p in t'.procs ensures ProcessOk(t', p) {
      assert ProcessOk(t, p);
      if p != pid && t.procs[p].state.Running? {
        var g :| 0 <= g < |t.harts| && Runs(t.harts[g], p);
        assert Runs(t'.harts[g], p);
      }
    }
  }

  lemma {:induction false} HartTells(t: Table, h: nat)
    requires Sound(t) && h < |t.harts|
    ensures HartOk(t, t.harts[h])
  {
  }

  lemma {:induction false} ProcessTells(t: Table, pid: Pid)
    requires Sound(t) && pid in t.procs
    ensures ProcessOk(t, pid)
  {
  }

  /** A hart that leaves one process changes nothing of another. */
  lemma {:induction false} LeftOther(t: Table, h: nat, resume: bool, pid: Pid)
    requires h < |t.harts| && (t.harts[h].Thread? ==> t.harts[h].pid in t.procs) && pid in t.procs
    requires !Runs(t.harts[h], pid)
    ensures pid in Left(t, h, resume).procs && Left(t, h, resume).procs[pid] == t.procs[pid]
    ensures Left(t, h, resume).harts == t.harts[h := Kernel]
  {
  }

  // --- Every run over any number of harts ---------------------------------------------------------------------------

  datatype Step =
    | Make(pid: Pid)
    | Drop(pid: Pid)
    | Start(pid: Pid)
    | Wake(pid: Pid, tid: Tid)
    | Leave(hart: nat, resume: bool)
    | Switch(hart: nat, pid: Pid, tid: Tid, resume: bool)
    | End(pid: Pid)

  ghost predicate CanSwitch(t: Table, h: nat, pid: Pid, tid: Tid, resume: bool) {
    h < |t.harts| && (t.harts[h].Thread? ==> t.harts[h].pid in t.procs) && CanJoin(Left(t, h, resume), pid, tid)
  }

  ghost predicate Can(t: Table, step: Step) {
    match step
    case Make(pid) => pid != KERNEL_PID && (pid in t.procs ==> t.procs[pid].state.Free?)
    case Drop(pid) => pid in t.procs && t.procs[pid].state.Allocated?
    case Start(pid) => pid in t.procs && t.procs[pid].state.Allocated?
    case Wake(pid, tid) => CanWake(t, pid, tid)
    case Leave(h, resume) => h < |t.harts| && (t.harts[h].Thread? ==> t.harts[h].pid in t.procs)
    case Switch(h, pid, tid, resume) => CanSwitch(t, h, pid, tid, resume)
    case End(pid) => pid in t.procs
  }

  ghost function Next(t: Table, step: Step): Table
    requires Can(t, step)
  {
    match step
    case Make(pid) => t.(procs := t.procs[pid := Process(Allocated, 0)])
    case Drop(pid) => t.(procs := t.procs[pid := Process(Free, 0)])
    case Start(pid) => t.(procs := t.procs[pid := Process(Ready({INITIAL_TID}), 0)])
    case Wake(pid, tid) => Woken(t, pid, tid)
    case Leave(h, resume) => Left(t, h, resume)
    case Switch(h, pid, tid, resume) => Joined(Left(t, h, resume), h, pid, tid)
    case End(pid) => Ended(t, pid)
  }

  lemma {:induction false} NextKeeps(t: Table, step: Step)
    requires Sound(t) && Can(t, step)
    ensures Sound(Next(t, step))
  {
    hide Sound, Left, Joined, Ended, Woken;
    match step {
      case Make(pid) => ResetKeeps(t, pid, Allocated, 0);
      case Drop(pid) => NotKernel(t); ResetKeeps(t, pid, Free, 0);
      case Start(pid) => NotKernel(t); ResetKeeps(t, pid, Ready({INITIAL_TID}), 0);
      case Wake(pid, tid) => WokenKeeps(t, pid, tid);
      case Leave(h, resume) => LeftKeeps(t, h, resume);
      case Switch(h, pid, tid, resume) =>
        LeftKeeps(t, h, resume);
        LeftAtKernel(t, h, resume);
        JoinedKeeps(Left(t, h, resume), h, pid, tid);
      case End(pid) => EndedKeeps(t, pid);
    }
  }

  lemma {:induction false} NotKernel(t: Table)
    requires Sound(t)
    ensures KERNEL_PID !in t.procs
  {
  }

  lemma {:induction false} LeftAtKernel(t: Table, h: nat, resume: bool)
    requires h < |t.harts| && (t.harts[h].Thread? ==> t.harts[h].pid in t.procs)
    ensures |Left(t, h, resume).harts| == |t.harts| && Left(t, h, resume).harts[h].Kernel?
  {
  }

  // --- What each step does to every thread and every hart ------------------------------------------------------------

  /** What hart `g` runs after the step. */
  function HartAfter(t: Table, step: Step, g: nat): Place
    requires g < |t.harts|
  {
    match step
    case Leave(h, _) => if g == h then Kernel else t.harts[g]
    case Switch(h, pid, tid, _) => if g == h then Thread(pid, tid) else t.harts[g]
    case End(pid) => if Runs(t.harts[g], pid) then Kernel else t.harts[g]
    case _ => t.harts[g]
  }

  /** Thread `tid` of `pid` is on hart `h`, which leaves it able to go on. */
  predicate Resumes(t: Table, h: nat, resume: bool, pid: Pid, tid: Tid) {
    h < |t.harts| && resume && t.harts[h] == Thread(pid, tid)
  }

  predicate WasReady(t: Table, pid: Pid, tid: Tid) { pid in t.procs && tid in ReadyOf(t.procs[pid].state) }

  /** Whether thread `tid` of `pid` is among the ready ones after the step. */
  predicate ReadyAfter(t: Table, step: Step, pid: Pid, tid: Tid) {
    match step
    case Make(p) => p != pid && WasReady(t, pid, tid)
    case Drop(p) => p != pid && WasReady(t, pid, tid)
    case Start(p) => if p == pid then tid == INITIAL_TID else WasReady(t, pid, tid)
    case Wake(p, x) => WasReady(t, pid, tid) || (p == pid && x == tid)
    case Leave(h, resume) => WasReady(t, pid, tid) || Resumes(t, h, resume, pid, tid)
    case Switch(h, p, x, resume) =>
      (WasReady(t, pid, tid) || Resumes(t, h, resume, pid, tid)) && !(p == pid && x == tid)
    case End(p) => p != pid && WasReady(t, pid, tid)
  }

  /** The thread `pid` last ran: the one a hart leaves, or the one it begins. */
  function CurrentAfter(t: Table, step: Step, pid: Pid): Tid
    requires pid in t.procs
  {
    match step
    case Make(p) => if p == pid then 0 else t.procs[pid].current
    case Drop(p) => if p == pid then 0 else t.procs[pid].current
    case Start(p) => if p == pid then 0 else t.procs[pid].current
    case Leave(h, _) => if h < |t.harts| && Runs(t.harts[h], pid) then t.harts[h].tid else t.procs[pid].current
    case Switch(h, p, x, _) =>
      if p == pid then x else if h < |t.harts| && Runs(t.harts[h], pid) then t.harts[h].tid else t.procs[pid].current
    case _ => t.procs[pid].current
  }

  lemma {:induction false} NextHart(t: Table, step: Step, g: nat)
    requires Can(t, step) && g < |t.harts|
    ensures |Next(t, step).harts| == |t.harts| && Next(t, step).harts[g] == HartAfter(t, step, g)
  {
  }

  lemma {:induction false} LeftReady(t: Table, h: nat, resume: bool, pid: Pid, tid: Tid)
    requires Sound(t) && h < |t.harts| && (t.harts[h].Thread? ==> t.harts[h].pid in t.procs)
    ensures WasReady(Left(t, h, resume), pid, tid) <==> WasReady(t, pid, tid) || Resumes(t, h, resume, pid, tid)
    ensures Left(t, h, resume).procs.Keys == t.procs.Keys
    ensures pid in t.procs ==>
              Left(t, h, resume).procs[pid].current == CurrentAfter(t, Leave(h, resume), pid)
  {
    hide Elsewhere;
    HartTells(t, h);
  }

  /** A step readies, runs and removes exactly the threads it should. */
  lemma {:induction false} NextThread(t: Table, step: Step, pid: Pid, tid: Tid)
    requires Sound(t) && Can(t, step)
    ensures WasReady(Next(t, step), pid, tid) <==> ReadyAfter(t, step, pid, tid)
    ensures pid in t.procs ==>
              pid in Next(t, step).procs && Next(t, step).procs[pid].current == CurrentAfter(t, step, pid)
  {
    hide Sound, Left;
    match step {
      case Leave(h, resume) => LeftReady(t, h, resume, pid, tid);
      case Switch(h, p, x, resume) => LeftReady(t, h, resume, pid, tid); LeftReady(t, h, resume, p, x);
      case _ =>
    }
  }

  /** A thread that is to run: ready, or on a hart. */
  ghost predicate Runnable(t: Table, pid: Pid, tid: Tid) {
    WasReady(t, pid, tid) || exists h :: 0 <= h < |t.harts| && t.harts[h] == Thread(pid, tid)
  }

  /** The step stops the thread: its hart leaves it for good, or its process ends. */
  predicate Stops(t: Table, step: Step, pid: Pid, tid: Tid) {
    match step
    case Leave(h, resume) => h < |t.harts| && !resume && t.harts[h] == Thread(pid, tid)
    case Switch(h, _, _, resume) => h < |t.harts| && !resume && t.harts[h] == Thread(pid, tid)
    case End(p) => p == pid
    case _ => false
  }

  lemma {:induction false} RunnableStep(t: Table, step: Step, pid: Pid, tid: Tid)
    requires Sound(t) && Can(t, step) && Runnable(t, pid, tid) && !Stops(t, step, pid, tid)
    ensures Runnable(Next(t, step), pid, tid)
  {
    hide Sound, Next;
    NextThread(t, step, pid, tid);
    NotReadyYet(t, step, pid, tid);
    forall g: nat | g < |t.harts|
      ensures |Next(t, step).harts| == |t.harts| && Next(t, step).harts[g] == HartAfter(t, step, g)
    {
      NextHart(t, step, g);
    }
    if step.Switch? && step.pid == pid && step.tid == tid {
      NextHart(t, step, step.hart);
      assert Next(t, step).harts[step.hart] == Thread(pid, tid);
    } else if !WasReady(t, pid, tid) {
      var h :| 0 <= h < |t.harts| && t.harts[h] == Thread(pid, tid);
      assert HartAfter(t, step, h) == t.harts[h] || ReadyAfter(t, step, pid, tid);
    }
  }

  /** A process made, dropped or started has no thread ready or on a hart. */
  lemma {:induction false} NotReadyYet(t: Table, step: Step, pid: Pid, tid: Tid)
    requires Sound(t) && Can(t, step)
    ensures (step.Make? || step.Drop? || step.Start?) && step.pid == pid ==> !Runnable(t, pid, tid)
    ensures step.Switch? ==> step.hart < |t.harts|
  {
    if (step.Make? || step.Drop? || step.Start?) && step.pid == pid {
      forall h | 0 <= h < |t.harts| ensures t.harts[h] != Thread(pid, tid) { HartTells(t, h); }
    }
  }

  ghost predicate IsRun(run: seq<Table>, steps: seq<Step>) {
    && |run| == |steps| + 1 && Sound(run[0])
    && (forall i :: 0 <= i < |steps| ==> Can(run[i], steps[i]) && run[i + 1] == Next(run[i], steps[i]))
  }

  /** At boot: `init` alone, set up and not yet run, and every hart in the kernel. */
  function Boot(harts: nat): Table { Table(map[INIT_PID := Process(Setup, INITIAL_TID)], seq(harts, _ => Kernel)) }

  lemma {:induction false} BootSound(harts: nat)
    ensures Sound(Boot(harts))
  {
  }

  /** In every run no thread is run by two harts, none that runs is also ready, no process is ready with no
      thread, and a process is running exactly while some hart runs it.
    */
  lemma {:induction false} EveryRun(run: seq<Table>, steps: seq<Step>, i: nat)
    requires IsRun(run, steps) && i <= |steps|
    ensures var t := run[i];
            && Sound(t)
            && (forall g, h :: 0 <= g < h < |t.harts| && t.harts[g].Thread? ==> t.harts[g] != t.harts[h])
            && (forall h :: 0 <= h < |t.harts| && t.harts[h].Thread? ==>
                  t.harts[h].pid in t.procs && t.harts[h].tid !in ReadyOf(t.procs[t.harts[h].pid].state))
            && (forall pid :: pid in t.procs ==>
                  (t.procs[pid].state.Running? <==> exists h :: 0 <= h < |t.harts| && Runs(t.harts[h], pid)))
            && (forall pid :: pid in t.procs && t.procs[pid].state.Ready? ==> t.procs[pid].state.ready != {})
  {
    hide Can, Next;
    if i > 0 {
      EveryRun(run, steps, i - 1);
      assert Can(run[i - 1], steps[i - 1]) && run[i - 1 + 1] == Next(run[i - 1], steps[i - 1]);
      NextKeeps(run[i - 1], steps[i - 1]);
    }
    var t := run[i];
    forall h | 0 <= h < |t.harts| && t.harts[h].Thread?
      ensures t.harts[h].pid in t.procs && t.harts[h].tid !in ReadyOf(t.procs[t.harts[h].pid].state)
    {
      HartTells(t, h);
    }
    forall pid | pid in t.procs ensures ProcessOk(t, pid) {}
  }

  /** No wake is lost: in every run a thread once woken, started or left able to go on is ready or on a hart in every
      later state, until a step stops it.
    */
  lemma {:induction false} RunnableStays(run: seq<Table>, steps: seq<Step>, i: nat, j: nat, pid: Pid, tid: Tid)
    requires IsRun(run, steps) && i <= j <= |steps| && Runnable(run[i], pid, tid)
    ensures Runnable(run[j], pid, tid) || exists k :: i <= k < j && Stops(run[k], steps[k], pid, tid)
    decreases j
  {
    hide Can, Next, Runnable, Stops;
    if i < j {
      RunnableStays(run, steps, i, j - 1, pid, tid);
      if Runnable(run[j - 1], pid, tid) && !Stops(run[j - 1], steps[j - 1], pid, tid) {
        EveryRun(run, steps, j - 1);
        assert Can(run[j - 1], steps[j - 1]) && run[j - 1 + 1] == Next(run[j - 1], steps[j - 1]);
        RunnableStep(run[j - 1], steps[j - 1], pid, tid);
      }
    }
  }

  /** A thread woken is ready at once, and so stays until it is stopped. */
  lemma {:induction false} WokenRuns(run: seq<Table>, steps: seq<Step>, i: nat, j: nat, pid: Pid, tid: Tid)
    requires IsRun(run, steps) && i < j <= |steps| && steps[i] == Wake(pid, tid)
    ensures WasReady(run[i + 1], pid, tid)
    ensures Runnable(run[j], pid, tid) || exists k :: i < k < j && Stops(run[k], steps[k], pid, tid)
  {
    hide Can, Next, Stops;
    EveryRun(run, steps, i);
    assert Can(run[i], steps[i]) && run[i + 1] == Next(run[i], steps[i]);
    NextThread(run[i], steps[i], pid, tid);
    RunnableStays(run, steps, i + 1, j, pid, tid);
  }

  // --- The table as the kernel changes it --------------------------------------------------------------------------

  /** The turn after `current`: the next of the ready threads above it, or else the lowest. */
  ghost predicate IsNext(ready: set<Tid>, current: Tid, next: Tid) {
    && next in ready
    && (next > current ==> forall t :: t in ready && t > current ==> next <= t)
    && (next <= current ==> forall t :: t in ready ==> next <= t && t <= current)
  }

  /** What the kernel asserts of a switch: it asks for a process with a thread to run, and never for the
      thread it is leaving for good.
    */
  ghost predicate Asked(t: Table, h: nat, pid: Pid, tid: Tid, resume: bool)
    requires h < |t.harts|
  {
    && (pid in t.procs && !Runs(t.harts[h], pid) && (t.procs[pid].state.Ready? || t.procs[pid].state.Running?) ==>
          t.procs[pid].state.ready != {})
    && (Runs(t.harts[h], pid) && pid in t.procs ==>
          && (tid == 0 ==> resume || ReadyOf(t.procs[pid].state) != {})
          && (tid == t.harts[h].tid ==> resume))
  }

  /** A thread the switch asked for may be this one. */
  ghost predicate Wanted(t: Table, pid: Pid, want: Tid, tid: Tid) {
    CanJoin(t, pid, tid) && (want == 0 || tid == want || t.procs[pid].state.Setup? || t.procs[pid].state.Allocated?)
  }

  /** With no thread named, the one that runs is the next in turn. */
  ghost predicate InTurn(t: Table, pid: Pid, tid: Tid) {
    pid in t.procs && (t.procs[pid].state.Ready? || t.procs[pid].state.Running? ==>
      IsNext(t.procs[pid].state.ready, t.procs[pid].current, tid))
  }

  class Processes {
    var procs: map<Pid, Process>
    var harts: seq<Place>

    ghost function View(): Table
      reads this
    {
      Table(procs, harts)
    }

    ghost predicate Valid()
      reads this
    {
      Sound(View())
    }

    constructor (n: nat)
      ensures Valid() && View() == Boot(n)
    {
      procs, harts := map[INIT_PID := Process(Setup, INITIAL_TID)], seq(n, _ => Kernel);
      new;
      BootSound(n);
    }

    method RunsElsewhere(h: nat, pid: Pid) returns (r: bool)
      ensures r == Elsewhere(View(), h, pid)
    {
      r := false;
      for g := 0 to |harts|
        invariant r <==> exists i :: 0 <= i < g && i != h && Runs(harts[i], pid)
      {
        if g != h && Runs(harts[g], pid) { r := true; }
      }
    }

    method OffHartState(h: nat, pid: Pid, ready: set<Tid>) returns (s: ProcessState)
      ensures s == OffHart(View(), h, pid, ready)
    {
      var elsewhere := RunsElsewhere(h, pid);
      s := if elsewhere then Running(ready) else if ready == {} then Sleeping else Ready(ready);
    }

    /** `find_next_thread`. */
    static method FindNextThread(ready: set<Tid>, current: Tid) returns (next: Tid)
      requires ready != {} && forall t :: t in ready ==> IsTid(t)
      ensures IsNext(ready, current, next)
    {
      var tid, lowest := 1, 0;
      while tid <= MAX_TID
        invariant 1 <= tid <= MAX_TID + 1
        invariant lowest == 0 ==> forall t :: t in ready ==> tid <= t
        invariant lowest != 0 ==> lowest in ready && lowest <= current && forall t :: t in ready ==> lowest <= t
        invariant forall t :: t in ready && t > current ==> tid <= t
      {
        if tid in ready {
          if tid > current { return tid; }
          if lowest == 0 { lowest := tid; }
        }
        tid := tid + 1;
      }
      assert exists t :: t in ready;
      next := lowest;
    }

    /** `ready_thread`: a waiting thread is ready to run. */
    method ReadyThread(pid: Pid, tid: Tid)
      requires Valid() && CanWake(View(), pid, tid)
      modifies this`procs
      ensures Valid() && View() == Woken(old(View()), pid, tid)
    {
      WokenKeeps(View(), pid, tid);
      var p := procs[pid];
      match p.state {
        case Running(x) => procs := procs[pid := p.(state := Running(x + {tid}))];
        case Ready(x) => procs := procs[pid := p.(state := Ready(x + {tid}))];
        case Sleeping =>
          assert {} + {tid} == {tid};
          procs := procs[pid := p.(state := Ready({tid}))];
      }
    }

    /** `start_process`: a process made but not started becomes ready with its first thread. */
    method StartProcess(pid: Pid) returns (r: Result<(), Error>)
      requires Valid() && pid != KERNEL_PID
      modifies this`procs
      ensures Valid() && (r.Ok? <==> pid in old(procs) && old(procs)[pid].state.Allocated?)
      ensures procs == if r.Ok? then old(procs)[pid := old(procs)[pid].(state := Ready({INITIAL_TID}))] else old(procs)
    {
      if pid !in procs || !procs[pid].state.Allocated? { return Err(NotFound); }
      ResetKeeps(View(), pid, Ready({INITIAL_TID}), procs[pid].current);
      procs := procs[pid := procs[pid].(state := Ready({INITIAL_TID}))];
      return Ok(());
    }

    /** `leave_previous`, and the hart back in `kmain`. */
    method LeavePrevious(h: nat, resume: bool)
      requires Valid() && h < |harts| && harts[h].Thread?
      modifies this
      ensures Valid() && View() == Left(old(View()), h, resume)
    {
      LeftKeeps(View(), h, resume);
      assert HartOk(View(), harts[h]);
      var pid, tid := harts[h].pid, harts[h].tid;
      var x := procs[pid].state.ready;
      var s := OffHartState(h, pid, if resume then x + {tid} else x);
      procs := procs[pid := Process(s, tid)];
      harts := harts[h := Kernel];
    }

    /** `activate_process_thread`: hart `h` goes from what it runs to thread `want` of `pid`, or to its next if
        `want` is 0. It fails, and changes nothing, exactly if there is no such thread to run.
      */
    method Activate(h: nat, pid: Pid, want: Tid, resume: bool) returns (r: Result<Tid, Error>)
      requires Valid() && h < |harts| && Asked(View(), h, pid, want, resume)
      modifies this
      ensures Valid()
      ensures pid == KERNEL_PID ==> r.Ok? && View() == Left(old(View()), h, resume)
      ensures pid != KERNEL_PID && r.Ok? ==>
                && Wanted(Left(old(View()), h, resume), pid, want, r.value)
                && (want == 0 ==> InTurn(Left(old(View()), h, resume), pid, r.value))
                && View() == Joined(Left(old(View()), h, resume), h, pid, r.value)
      ensures pid != KERNEL_PID && r.Err? ==>
                View() == old(View()) && forall tid :: !Wanted(Left(old(View()), h, resume), pid, want, tid)
    {
      LeftKeeps(View(), h, resume);
      assert HartOk(View(), harts[h]);
      if pid == KERNEL_PID {
        if harts[h].Thread? { LeavePrevious(h, resume); }
        return Ok(INITIAL_TID);
      }
      if pid !in procs { return Err(NotFound); }
      if Runs(harts[h], pid) {
        r := ActivateOwn(h, want, resume);
      } else {
        r := ActivateOther(h, pid, want, resume);
      }
    }

    /** To another thread of the process the hart runs. */
    method ActivateOwn(h: nat, want: Tid, resume: bool) returns (r: Result<Tid, Error>)
      requires Valid() && h < |harts| && harts[h].Thread? && harts[h].pid in procs
      requires Asked(View(), h, harts[h].pid, want, resume)
      modifies this
      ensures Valid()
      ensures r.Ok? ==>
                && Wanted(Left(old(View()), h, resume), old(harts)[h].pid, want, r.value)
                && (want == 0 ==> InTurn(Left(old(View()), h, resume), old(harts)[h].pid, r.value))
                && View() == Joined(Left(old(View()), h, resume), h, old(harts)[h].pid, r.value)
      ensures r.Err? ==>
                && View() == old(View())
                && forall tid :: !Wanted(Left(old(View()), h, resume), old(harts)[h].pid, want, tid)
    {
      hide Sound;
      ghost var t := View();
      LeftKeeps(t, h, resume);
      HartTells(t, h);
      ProcessTells(t, harts[h].pid);
      var pid, tid := harts[h].pid, harts[h].tid;
      var x := procs[pid].state.ready;
      if tid == want {
        JoinedKeeps(Left(t, h, resume), h, pid, tid);
        assert (x + {tid}) - {tid} == x;
        procs := procs[pid := procs[pid].(current := tid)];
        assert View() == Joined(Left(t, h, resume), h, pid, tid);
        return Ok(tid);
      }
      var y := if resume then x + {tid} else x;
      var next := want;
      if next == 0 { next := FindNextThread(y, tid); }
      if next !in y { return Err(NotReady); }
      JoinedKeeps(Left(t, h, resume), h, pid, next);
      procs := procs[pid := Process(Running(y - {next}), next)];
      harts := harts[h := Thread(pid, next)];
      assert View() == Joined(Left(t, h, resume), h, pid, next);
      return Ok(next);
    }

    /** Into another process. */
    method ActivateOther(h: nat, pid: Pid, want: Tid, resume: bool) returns (r: Result<Tid, Error>)
      requires Valid() && h < |harts| && pid in procs && !Runs(harts[h], pid) && Asked(View(), h, pid, want, resume)
      modifies this
      ensures Valid()
      ensures old(harts)[h].Thread? ==> old(harts)[h].pid in old(procs)
      ensures r.Ok? ==>
                && Wanted(Left(old(View()), h, resume), pid, want, r.value)
                && (want == 0 ==> InTurn(Left(old(View()), h, resume), pid, r.value))
                && View() == Joined(Left(old(View()), h, resume), h, pid, r.value)
      ensures r.Err? ==> View() == old(View()) && forall tid :: !Wanted(Left(old(View()), h, resume), pid, want, tid)
    {
      hide Sound, Joined, Left;
      LeftKeeps(View(), h, resume);
      LeftOther(View(), h, resume, pid);
      var next := Choose(pid, want, h, resume);
      if next.None? {
        forall tid ensures !Wanted(Left(View(), h, resume), pid, want, tid) { assert !Wanted(View(), pid, want, tid); }
        return Err(NotFound);
      }
      Enter(h, pid, next.value, resume);
      return Ok(next.value);
    }

    /** The thread of `pid` to run, if it has one that is wanted. */
    method Choose(pid: Pid, want: Tid, ghost h: nat, ghost resume: bool) returns (next: Option<Tid>)
      requires Valid() && pid in procs && h < |harts| && !Runs(harts[h], pid) && Asked(View(), h, pid, want, resume)
      ensures match next
              case Some(tid) => Wanted(View(), pid, want, tid) && (want == 0 ==> InTurn(View(), pid, tid))
              case None => forall tid :: !Wanted(View(), pid, want, tid)
    {
      assert ProcessOk(View(), pid);
      var p := procs[pid];
      match p.state {
        case Free => return None;
        case Sleeping => return None;
        case Setup => return Some(INITIAL_TID);
        case Allocated => return Some(INITIAL_TID);
        case _ =>
          assert ReadyOf(procs[pid].state) == p.state.ready;
          var tid := want;
          if tid == 0 { tid := FindNextThread(p.state.ready, p.current); }
          if tid !in p.state.ready { return None; }
          return Some(tid);
      }
    }

    /** The thread off the ready ones, then the one left behind. */
    method Enter(h: nat, pid: Pid, tid: Tid, resume: bool)
      requires Valid() && h < |harts| && pid in procs && !Runs(harts[h], pid) && CanJoin(View(), pid, tid)
      modifies this
      ensures Valid() && (old(harts)[h].Thread? ==> old(harts)[h].pid in old(procs))
      ensures View() == Joined(Left(old(View()), h, resume), h, pid, tid)
    {
      hide Sound;
      ghost var t := View();
      LeftKeeps(t, h, resume);
      LeftOther(t, h, resume, pid);
      HartTells(t, h);
      JoinedKeeps(Left(t, h, resume), h, pid, tid);
      procs := procs[pid := Process(Running(ReadyOf(procs[pid].state) - {tid}), tid)];
      if harts[h].Thread? {
        var from, left := harts[h].pid, harts[h].tid;
        var x := procs[from].state.ready;
        var s := OffHartState(h, from, if resume then x + {left} else x);
        procs := procs[from := Process(s, left)];
      }
      harts := harts[h := Thread(pid, tid)];
      assert View() == Joined(Left(t, h, resume), h, pid, tid);
    }

    /** `destroy_thread`: the running thread is gone; the hart goes on to a thread of its process that waits, or
        to `kmain` if none does.
      */
    method DestroyThread(h: nat)
      requires Valid() && h < |harts| && harts[h].Thread?
      modifies this
      ensures Valid()
      ensures old(harts)[h].pid in old(procs)
      ensures ReadyOf(old(procs)[old(harts)[h].pid].state) == {} ==> View() == Left(old(View()), h, false)
      ensures ReadyOf(old(procs)[old(harts)[h].pid].state) != {} ==>
                exists next :: IsNext(ReadyOf(old(procs)[old(harts)[h].pid].state), old(harts)[h].tid, next)
                               && View() == Joined(Left(old(View()), h, false), h, old(harts)[h].pid, next)
    {
      ghost var t := View();
      LeftKeeps(t, h, false);
      assert HartOk(t, harts[h]) && ProcessOk(t, harts[h].pid);
      var pid := harts[h].pid;
      var waiting := procs[pid].state.ready;
      LeavePrevious(h, false);
      if waiting != {} {
        var next := FindNextThread(waiting, procs[pid].current);
        JoinedKeeps(View(), h, pid, next);
        procs := procs[pid := Process(Running(waiting - {next}), next)];
        harts := harts[h := Thread(pid, next)];
        assert View() == Joined(Left(t, h, false), h, pid, next);
      }
    }

    /** `terminate_process` and `kill_process`: every hart running it is made to leave before it is gone. */
    method EndProcess(pid: Pid)
      requires Valid() && pid in procs
      modifies this
      ensures Valid() && View() == Ended(old(View()), pid)
    {
      EndedKeeps(View(), pid);
      var left := harts;
      for h := 0 to |harts|
        invariant |left| == |harts| && forall g :: 0 <= g < |harts| ==>
                    left[g] == if g < h && Runs(harts[g], pid) then Kernel else harts[g]
      {
        if Runs(harts[h], pid) { left := left[h := Kernel]; }
      }
      procs := procs[pid := procs[pid].(state := Free)];
      harts := left;
      assert View() == Ended(old(View()), pid);
    }
  }
}
