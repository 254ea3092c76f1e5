/** DMA frames: a run goes back to the pool only once no device can still write it (kernel/src/dma.rs,
    kernel/src/mem.rs, I16; the reset register of section 4.2.2 of virtio 1.2).
  */
module Dma {
  import opened Basics

  type Pid = nat

  /** A run of pool frames, held by a live process; or, its process dead and some device not reset, never to
      be pooled.
    */
  datatype Run = NoRun | Live(first: nat, npages: nat, holder: Pid) | Quarantined(first: nat, npages: nat)

  /** One DMA device: whether it can be reset at all, whether a reset of it failed, and the runs allocated
      through it.
    */
  datatype Slot = Slot(virtio: bool, quarantined: bool, runs: seq<Run>)

  /** `held`: the pool's frames in a run. `mapped`: the devices each process is recorded to have mapped. `at`: the run,
      by device and entry, each held frame is in. And of the world: `touched`, the devices each process has mapped or
      allocated through, and so can program; `armed`, the devices that could still write each frame.
    */
  datatype Pool = Pool(
    held: seq<bool>, slots: seq<Slot>, mapped: map<Pid, set<nat>>,
    at: map<nat, (nat, nat)>, touched: map<Pid, set<nat>>, armed: map<nat, set<nat>>)

  predicate Covers(r: Run, i: nat) { !r.NoRun? && r.first <= i < r.first + r.npages }

  function RunAt(d: Pool, s: nat, k: nat): Run {
    if s < |d.slots| && k < |d.slots[s].runs| then d.slots[s].runs[k] else NoRun
  }

  function MappedBy(d: Pool, pid: Pid): set<nat> { if pid in d.mapped then d.mapped[pid] else {} }

  predicate HeldBy(r: Run, pid: Pid) { r.Live? && r.holder == pid }

  predicate HoldsOn(runs: seq<Run>, pid: Pid) { exists k :: 0 <= k < |runs| && HeldBy(runs[k], pid) }

  /** The reset set: every device the process mapped, or holds a run through. */
  function ResetSet(d: Pool, pid: Pid): set<nat> {
    (set s | 0 <= s < |d.slots| && s in MappedBy(d, pid))
      + (set s | 0 <= s < |d.slots| && HoldsOn(d.slots[s].runs, pid))
  }

  function TouchedBy(d: Pool, pid: Pid): set<nat> { if pid in d.touched then d.touched[pid] else {} }

  function Armed(d: Pool, i: nat): set<nat> { if i in d.armed then d.armed[i] else {} }

  // --- What is always so --------------------------------------------------------------------------------------

  /** The held frames are the disjoint union of the runs: each is in exactly the one run `at` names. */
  ghost predicate Covered(d: Pool) {
    && (forall i: nat :: i in d.at <==> i < |d.held| && d.held[i])
    && (forall i :: i in d.at ==> Covers(RunAt(d, d.at[i].0, d.at[i].1), i))
    && (forall s: nat, k: nat, i: nat :: Covers(RunAt(d, s, k), i) ==> i in d.at && d.at[i] == (s, k))
    && (forall s: nat, k: nat :: !RunAt(d, s, k).NoRun? ==> RunAt(d, s, k).npages > 0)
  }

  /** A free frame can be written by no device; one of a live run only by those its holder could program. */
  ghost predicate Disarmed(d: Pool) {
    && (forall i: nat :: i !in d.at ==> Armed(d, i) == {})
    && (forall i :: i in d.at && RunAt(d, d.at[i].0, d.at[i].1).Live? ==>
          Armed(d, i) <= TouchedBy(d, RunAt(d, d.at[i].0, d.at[i].1).holder))
  }

  /** Every device a process could program is one its death resets. */
  ghost predicate Traced(d: Pool) { forall p: Pid :: TouchedBy(d, p) <= ResetSet(d, p) }

  ghost predicate Sound(d: Pool) { Covered(d) && Disarmed(d) && Traced(d) }

  // --- Allocation ------------------------------------------------------------------------------------------------

  /** `npages` free frames from `first`. */
  ghost predicate Stretch(held: seq<bool>, first: nat, npages: nat) {
    first + npages <= |held| && forall i :: first <= i < first + npages ==> !held[i]
  }

  function WithHeld(held: seq<bool>, first: nat, npages: nat, v: bool): seq<bool> {
    seq(|held|, i requires 0 <= i < |held| => if first <= i < first + npages then v else held[i])
  }

  function WithRun(slots: seq<Slot>, s: nat, k: nat, r: Run): seq<Slot>
    requires s < |slots| && k < |slots[s].runs|
  {
    slots[s := slots[s].(runs := slots[s].runs[k := r])]
  }

  /** Whether frame `i` is in a live run of `pid`'s. */
  ghost predicate FrameOf(d: Pool, pid: Pid, i: nat) {
    i in d.at && HeldBy(RunAt(d, d.at[i].0, d.at[i].1), pid)
  }

  predicate From(first: nat, i: nat) { first <= i }

  ghost function Span(first: nat, npages: nat): set<nat> { set i: nat | i < first + npages && From(first, i) }

  /** A run made, its address not yet given to its holder: no device can have it. */
  ghost function Made(d: Pool, pid: Pid, s: nat, k: nat, first: nat, npages: nat): Pool
    requires s < |d.slots| && k < |d.slots[s].runs|
  {
    d.(held := WithHeld(d.held, first, npages, true),
       slots := WithRun(d.slots, s, k, Live(first, npages, pid)),
       at := map i | i in d.at.Keys + Span(first, npages) :: if i in Span(first, npages) then (s, k) else d.at[i])
  }

  lemma {:induction false} MadeKeeps(d: Pool, pid: Pid, s: nat, k: nat, first: nat, npages: nat)
    requires Sound(d) && s < |d.slots| && k < |d.slots[s].runs| && d.slots[s].runs[k].NoRun?
    requires npages > 0 && Stretch(d.held, first, npages)
    ensures Sound(Made(d, pid, s, k, first, npages))
    ensures forall i: nat :: i in Span(first, npages) ==> Armed(Made(d, pid, s, k, first, npages), i) == {}
  {
    hide ResetSet;
    MadeCovered(d, pid, s, k, first, npages);
    MadeReach(d, pid, s, k, first, npages);
    MadeDisarmed(d, pid, s, k, first, npages);
  }

  lemma {:induction false} MadeRuns(d: Pool, pid: Pid, s: nat, k: nat, first: nat, npages: nat)
    requires s < |d.slots| && k < |d.slots[s].runs|
    ensures forall x: nat, y: nat ::
              RunAt(Made(d, pid, s, k, first, npages), x, y) ==
                if (x, y) == (s, k) then Live(first, npages, pid) else RunAt(d, x, y)
  {
  }

  lemma {:induction false} MadeCovered(d: Pool, pid: Pid, s: nat, k: nat, first: nat, npages: nat)
    requires Covered(d) && s < |d.slots| && k < |d.slots[s].runs| && d.slots[s].runs[k].NoRun?
    requires npages > 0 && Stretch(d.held, first, npages)
    ensures Covered(Made(d, pid, s, k, first, npages))
  {
    MadeRuns(d, pid, s, k, first, npages);
    hide RunAt;
    var d' := Made(d, pid, s, k, first, npages);
    RunThere(d, s, k);
    forall x: nat, y: nat, i: nat | Covers(RunAt(d', x, y), i) ensures i in d'.at && d'.at[i] == (x, y) {
      if (x, y) != (s, k) { assert Covers(RunAt(d, x, y), i); }
    }
  }

  lemma {:induction false} RunThere(d: Pool, s: nat, k: nat)
    requires s < |d.slots| && k < |d.slots[s].runs|
    ensures RunAt(d, s, k) == d.slots[s].runs[k]
  {
  }

  /** A run more takes nothing from any reset set. */
  lemma {:induction false} MadeReach(d: Pool, pid: Pid, s: nat, k: nat, first: nat, npages: nat)
    requires s < |d.slots| && k < |d.slots[s].runs| && d.slots[s].runs[k].NoRun?
    ensures forall p :: ResetSet(Made(d, pid, s, k, first, npages), p) >= ResetSet(d, p)
  {
    var d' := Made(d, pid, s, k, first, npages);
    forall p, x | 0 <= x < |d.slots| && HoldsOn(d.slots[x].runs, p) ensures HoldsOn(d'.slots[x].runs, p) {
      var y :| 0 <= y < |d.slots[x].runs| && HeldBy(d.slots[x].runs[y], p);
      assert HeldBy(d'.slots[x].runs[y], p);
    }
  }

  lemma {:induction false} MadeDisarmed(d: Pool, pid: Pid, s: nat, k: nat, first: nat, npages: nat)
    requires Sound(d) && s < |d.slots| && k < |d.slots[s].runs| && d.slots[s].runs[k].NoRun?
    requires Stretch(d.held, first, npages)
    requires forall p :: ResetSet(Made(d, pid, s, k, first, npages), p) >= ResetSet(d, p)
    ensures Disarmed(Made(d, pid, s, k, first, npages))
    ensures forall i: nat :: i in Span(first, npages) ==> Armed(d, i) == {}
  {
    MadeRuns(d, pid, s, k, first, npages);
    RunThere(d, s, k);
    hide RunAt, ResetSet;
    var d' := Made(d, pid, s, k, first, npages);
    forall i | i in d'.at && RunAt(d', d'.at[i].0, d'.at[i].1).Live?
      ensures Armed(d', i) <= TouchedBy(d', RunAt(d', d'.at[i].0, d'.at[i].1).holder)
    {
      if i !in Span(first, npages) {
        assert i in d.at && Covers(RunAt(d, d.at[i].0, d.at[i].1), i);
        assert d.at[i] != (s, k);
        assert Armed(d, i) <= TouchedBy(d, RunAt(d, d.at[i].0, d.at[i].1).holder);
      }
    }
  }

  /** Process `pid` can program device `s` from now on. */
  ghost function Touching(d: Pool, pid: Pid, s: nat): Pool {
    d.(touched := d.touched[pid := TouchedBy(d, pid) + {s}])
  }

  /** And programs every device it can with every frame of its runs. */
  ghost function Exposed(d: Pool, pid: Pid): Pool {
    d.(armed := map i | i in d.at.Keys + d.armed.Keys ::
       if FrameOf(d, pid, i) then Armed(d, i) + TouchedBy(d, pid) else Armed(d, i))
  }

  /** What a process is given of a device: the device within its reach, and its frames within the device's. */
  ghost function Reaching(d: Pool, pid: Pid, s: nat): Pool { Exposed(Touching(d, pid, s), pid) }

  lemma {:induction false} ReachingKeeps(d: Pool, pid: Pid, s: nat)
    requires Sound(d) && s in ResetSet(d, pid)
    ensures Sound(Reaching(d, pid, s))
  {
    hide Sound, Exposed, ResetSet;
    TouchingKeeps(d, pid, s);
    ExposedKeeps(Touching(d, pid, s), pid);
  }

  lemma {:induction false} SameSlots(d: Pool, d': Pool)
    requires d'.slots == d.slots
    ensures forall x: nat, y: nat :: RunAt(d', x, y) == RunAt(d, x, y)
    ensures d'.mapped == d.mapped ==> forall p: Pid :: ResetSet(d', p) == ResetSet(d, p)
  {
  }

  lemma {:induction false} TouchingKeeps(d: Pool, pid: Pid, s: nat)
    requires Sound(d) && s in ResetSet(d, pid)
    ensures Sound(Touching(d, pid, s))
  {
    hide ResetSet, RunAt;
    var d' := Touching(d, pid, s);
    SameSlots(d, d');
    forall i | i in d'.at && RunAt(d', d'.at[i].0, d'.at[i].1).Live?
      ensures Armed(d', i) <= TouchedBy(d', RunAt(d', d'.at[i].0, d'.at[i].1).holder)
    {
      assert Armed(d, i) <= TouchedBy(d, RunAt(d, d.at[i].0, d.at[i].1).holder);
    }
  }

  lemma {:induction false} ExposedKeeps(d: Pool, pid: Pid)
    requires Sound(d)
    ensures Sound(Exposed(d, pid))
  {
    hide ResetSet, RunAt;
    var d' := Exposed(d, pid);
    SameSlots(d, d');
    forall i | i in d'.at && RunAt(d', d'.at[i].0, d'.at[i].1).Live?
      ensures Armed(d', i) <= TouchedBy(d', RunAt(d', d'.at[i].0, d'.at[i].1).holder)
    {
      assert Armed(d, i) <= TouchedBy(d, RunAt(d, d.at[i].0, d.at[i].1).holder);
    }
  }

  /** `dma_mapped`: device `s` joins `pid`'s reset set. */
  function WithMapped(d: Pool, pid: Pid, s: nat): Pool { d.(mapped := d.mapped[pid := MappedBy(d, pid) + {s}]) }

  lemma {:induction false} MappedKeeps(d: Pool, pid: Pid, s: nat)
    requires Sound(d)
    ensures Sound(WithMapped(d, pid, s))
  {
    var d' := WithMapped(d, pid, s);
    forall x: nat, y: nat ensures RunAt(d', x, y) == RunAt(d, x, y) {}
    forall p ensures ResetSet(d', p) >= ResetSet(d, p) {}
    hide ResetSet, RunAt;
    forall i | i in d'.at && RunAt(d', d'.at[i].0, d'.at[i].1).Live?
      ensures Armed(d', i) <= TouchedBy(d', RunAt(d', d'.at[i].0, d'.at[i].1).holder)
    {
      assert Armed(d, i) <= TouchedBy(d, RunAt(d, d.at[i].0, d.at[i].1).holder);
    }
  }

  lemma {:induction false} JoinsResetSet(d: Pool, pid: Pid, s: nat)
    requires s < |d.slots|
    ensures s in ResetSet(WithMapped(d, pid, s), pid)
    ensures forall k: nat, first: nat, npages: nat :: k < |d.slots[s].runs| ==>
              s in ResetSet(Made(d, pid, s, k, first, npages), pid)
  {
    forall k: nat, first: nat, npages: nat | k < |d.slots[s].runs|
      ensures s in ResetSet(Made(d, pid, s, k, first, npages), pid)
    {
      var d' := Made(d, pid, s, k, first, npages);
      assert HeldBy(d'.slots[s].runs[k], pid);
    }
  }

  // --- The end of a holder (I16) ------------------------------------------------------------------------------------

  function Settled(r: Run, pid: Pid, pooled: bool): Run {
    if !HeldBy(r, pid) then r else if pooled then NoRun else Quarantined(r.first, r.npages)
  }

  function SettledRuns(runs: seq<Run>, pid: Pid, pooled: bool): seq<Run> {
    seq(|runs|, k requires 0 <= k < |runs| => Settled(runs[k], pid, pooled))
  }

  function SettledSlots(slots: seq<Slot>, pid: Pid, pooled: bool, failed: set<nat>): seq<Slot> {
    seq(|slots|, s requires 0 <= s < |slots| =>
      Slot(slots[s].virtio, slots[s].quarantined || s in failed, SettledRuns(slots[s].runs, pid, pooled)))
  }

  /** The runs of a dead process, `confirmed` of its reset set having confirmed a reset: all back in the pool
      if that is all of it, and all quarantined if not.
    */
  ghost function Released(d: Pool, pid: Pid, confirmed: set<nat>): Pool {
    var pooled := confirmed == ResetSet(d, pid);
    Pool(seq(|d.held|, i requires 0 <= i < |d.held| => d.held[i] && !(pooled && FrameOf(d, pid, i))),
         SettledSlots(d.slots, pid, pooled, ResetSet(d, pid) - confirmed), d.mapped,
         map i | i in d.at && !(pooled && FrameOf(d, pid, i)) :: d.at[i], d.touched - {pid},
         map i | i in d.armed :: if FrameOf(d, pid, i) then d.armed[i] - confirmed else d.armed[i])
  }

  lemma {:induction false} ReleasedRuns(d: Pool, pid: Pid, confirmed: set<nat>)
    ensures forall x: nat, y: nat ::
              RunAt(Released(d, pid, confirmed), x, y) == Settled(RunAt(d, x, y), pid, confirmed == ResetSet(d, pid))
  {
  }

  /** Nobody else's reset set changes. */
  lemma {:induction false} ReleasedReach(d: Pool, pid: Pid, confirmed: set<nat>, p: Pid)
    requires p != pid
    ensures ResetSet(Released(d, pid, confirmed), p) == ResetSet(d, p)
  {
    var d', pooled := Released(d, pid, confirmed), confirmed == ResetSet(d, pid);
    forall x | 0 <= x < |d.slots| ensures HoldsOn(d'.slots[x].runs, p) <==> HoldsOn(d.slots[x].runs, p) {
      if HoldsOn(d.slots[x].runs, p) {
        var y :| 0 <= y < |d.slots[x].runs| && HeldBy(d.slots[x].runs[y], p);
        assert HeldBy(d'.slots[x].runs[y], p);
      }
      if HoldsOn(d'.slots[x].runs, p) {
        var y :| 0 <= y < |d'.slots[x].runs| && HeldBy(d'.slots[x].runs[y], p);
        assert HeldBy(d.slots[x].runs[y], p);
      }
    }
  }

  lemma {:induction false} ReleasedKeeps(d: Pool, pid: Pid, confirmed: set<nat>)
    requires Sound(d) && confirmed <= ResetSet(d, pid)
    ensures Sound(Released(d, pid, confirmed))
  {
    ReleasedRuns(d, pid, confirmed);
    forall p | p != pid ensures ResetSet(Released(d, pid, confirmed), p) == ResetSet(d, p) {
      ReleasedReach(d, pid, confirmed, p);
    }
    hide ResetSet, RunAt;
    ReleasedCovered(d, pid, confirmed);
    ReleasedDisarmed(d, pid, confirmed);
  }

  lemma {:induction false} ReleasedCovered(d: Pool, pid: Pid, confirmed: set<nat>)
    requires Covered(d)
    ensures Covered(Released(d, pid, confirmed))
  {
    ReleasedRuns(d, pid, confirmed);
    hide ResetSet, RunAt;
    var d' := Released(d, pid, confirmed);
    forall x: nat, y: nat, i: nat | Covers(RunAt(d', x, y), i) ensures i in d'.at && d'.at[i] == (x, y) {
      assert Covers(RunAt(d, x, y), i);
    }
    forall i | i in d'.at ensures Covers(RunAt(d', d'.at[i].0, d'.at[i].1), i) {
      assert Covers(RunAt(d, d.at[i].0, d.at[i].1), i);
    }
  }

  lemma {:induction false} ReleasedDisarmed(d: Pool, pid: Pid, confirmed: set<nat>)
    requires Sound(d) && confirmed <= ResetSet(d, pid)
    requires forall p :: p != pid ==> ResetSet(Released(d, pid, confirmed), p) == ResetSet(d, p)
    ensures Disarmed(Released(d, pid, confirmed))
  {
    ReleasedRuns(d, pid, confirmed);
    hide ResetSet, RunAt;
    var d' := Released(d, pid, confirmed);
    forall i: nat | i !in d'.at ensures Armed(d', i) == {} {
      if i in d.at { assert Armed(d, i) <= TouchedBy(d, RunAt(d, d.at[i].0, d.at[i].1).holder); }
    }
    forall i | i in d'.at && RunAt(d', d'.at[i].0, d'.at[i].1).Live?
      ensures Armed(d', i) <= TouchedBy(d', RunAt(d', d'.at[i].0, d'.at[i].1).holder)
    {
      assert Armed(d, i) <= TouchedBy(d, RunAt(d, d.at[i].0, d.at[i].1).holder);
    }
  }

  /** I16: a held frame is freed by its holder's death only if every device the holder mapped, or allocated
      through, confirmed a reset then; and whatever is freed, no device can write.
    */
  lemma {:induction false} PooledOnlyReset(d: Pool, pid: Pid, confirmed: set<nat>, i: nat)
    requires Sound(d) && confirmed <= ResetSet(d, pid) && i < |d.held| && d.held[i]
    requires !Released(d, pid, confirmed).held[i]
    ensures confirmed == ResetSet(d, pid) && TouchedBy(d, pid) <= confirmed
    ensures FrameOf(d, pid, i) && Armed(Released(d, pid, confirmed), i) == {}
  {
    ReleasedKeeps(d, pid, confirmed);
  }

  // --- Every run -----------------------------------------------------------------------------------------------------

  /** `dma_alloc`, its run mapped; `map_device`; a process's end, with the devices that confirmed; and its
      account closed, its PID free for another process.
    */
  datatype Move =
    | Alloc(pid: Pid, slot: nat, entry: nat, first: nat, npages: nat)
    | Map(pid: Pid, slot: nat)
    | End(pid: Pid, confirmed: set<nat>)
    | Close(pid: Pid)

  ghost predicate Can(d: Pool, m: Move) {
    match m
    case Alloc(pid, s, k, first, npages) =>
      s < |d.slots| && k < |d.slots[s].runs| && d.slots[s].runs[k].NoRun? && npages > 0
      && Stretch(d.held, first, npages)
    case Map(pid, s) => s < |d.slots|
    case End(pid, confirmed) =>
      && confirmed <= ResetSet(d, pid)
      && forall s: nat | s < |d.slots| && s in confirmed :: d.slots[s].virtio && !d.slots[s].quarantined
    case Close(pid) => forall s | 0 <= s < |d.slots| :: !HoldsOn(d.slots[s].runs, pid)
  }

  ghost function After(d: Pool, m: Move): Pool
    requires Can(d, m)
  {
    match m
    case Alloc(pid, s, k, first, npages) => Reaching(Made(d, pid, s, k, first, npages), pid, s)
    case Map(pid, s) => Reaching(WithMapped(d, pid, s), pid, s)
    case End(pid, confirmed) => Released(d, pid, confirmed)
    case Close(pid) => WithoutAccount(d, pid)
  }

  /** The process's account closed: its PID is free for another, which has mapped nothing. */
  function WithoutAccount(d: Pool, pid: Pid): Pool {
    d.(mapped := d.mapped - {pid}, touched := d.touched - {pid})
  }

  ghost predicate IsRun(ds: seq<Pool>, ms: seq<Move>) {
    |ds| == |ms| + 1 && forall i :: 0 <= i < |ms| ==> Can(ds[i], ms[i]) && ds[i + 1] == After(ds[i], ms[i])
  }

  lemma {:induction false} ClosedKeeps(d: Pool, pid: Pid)
    requires Sound(d) && Can(d, Close(pid))
    ensures Sound(WithoutAccount(d, pid))
  {
    var d' := WithoutAccount(d, pid);
    forall x: nat, y: nat ensures RunAt(d', x, y) == RunAt(d, x, y) && !HeldBy(RunAt(d, x, y), pid) {
      if x < |d.slots| && y < |d.slots[x].runs| { assert !HoldsOn(d.slots[x].runs, pid); }
    }
    forall p | p != pid ensures ResetSet(d', p) == ResetSet(d, p) {}
    hide ResetSet, RunAt;
    forall i | i in d'.at && RunAt(d', d'.at[i].0, d'.at[i].1).Live?
      ensures Armed(d', i) <= TouchedBy(d', RunAt(d', d'.at[i].0, d'.at[i].1).holder)
    {
      assert Armed(d, i) <= TouchedBy(d, RunAt(d, d.at[i].0, d.at[i].1).holder);
    }
  }

  lemma {:induction false} MoveKeeps(d: Pool, m: Move)
    requires Sound(d) && Can(d, m)
    ensures Sound(After(d, m))
  {
    hide Sound, Reaching, Made, Released, WithMapped, ResetSet;
    match m
    case Alloc(pid, s, k, first, npages) =>
      MadeKeeps(d, pid, s, k, first, npages);
      JoinsResetSet(d, pid, s);
      ReachingKeeps(Made(d, pid, s, k, first, npages), pid, s);
    case Map(pid, s) =>
      MappedKeeps(d, pid, s);
      JoinsResetSet(d, pid, s);
      ReachingKeeps(WithMapped(d, pid, s), pid, s);
    case End(pid, confirmed) =>
      ReleasedKeeps(d, pid, confirmed);
    case Close(pid) =>
      ClosedKeeps(d, pid);
  }

  /** Nothing takes a run or a device out of quarantine. */
  lemma {:induction false} MoveQuarantine(d: Pool, m: Move, s: nat, k: nat)
    requires Can(d, m) && s < |d.slots|
    ensures s < |After(d, m).slots| && (d.slots[s].quarantined ==> After(d, m).slots[s].quarantined)
    ensures RunAt(d, s, k).Quarantined? ==> RunAt(After(d, m), s, k) == RunAt(d, s, k)
  {
    match m
    case Alloc(pid, x, y, first, npages) =>
      MadeRuns(d, pid, x, y, first, npages);
      assert RunAt(After(d, m), s, k) == RunAt(Made(d, pid, x, y, first, npages), s, k);
    case Map(pid, x) =>
    case End(pid, confirmed) =>
      ReleasedRuns(d, pid, confirmed);
    case Close(pid) =>
  }

  /** At boot: every frame free, every device known, no run and nothing mapped. */
  ghost predicate Boot(d: Pool) {
    && (forall i :: 0 <= i < |d.held| ==> !d.held[i]) && d.mapped == map[] && d.at == map[]
    && d.touched == map[] && d.armed == map[]
    && (forall s, k :: 0 <= s < |d.slots| && 0 <= k < |d.slots[s].runs| ==> d.slots[s].runs[k].NoRun?)
  }

  lemma {:induction false} BootSound(d: Pool)
    requires Boot(d)
    ensures Sound(d)
  {
    forall s: nat, k: nat ensures RunAt(d, s, k).NoRun? {}
  }

  // What the world is after each move, whatever the kernel records.

  predicate NowTouched(d: Pool, m: Move, p: Pid, s: nat) {
    match m
    case Alloc(pid, x, _, _, _) => s in TouchedBy(d, p) || (p == pid && s == x)
    case Map(pid, x) => s in TouchedBy(d, p) || (p == pid && s == x)
    case End(pid, _) => s in TouchedBy(d, p) && p != pid
    case Close(pid) => s in TouchedBy(d, p) && p != pid
  }

  /** A device comes to reach a frame with a process that holds the frame and can program the device, and is cut off
      from it only by a reset.
    */
  ghost predicate NowArmed(d: Pool, m: Move, i: nat, s: nat)
    requires Can(d, m)
  {
    match m
    case Alloc(pid, _, _, _, _) => s in Armed(d, i) || (FrameOf(After(d, m), pid, i) && NowTouched(d, m, pid, s))
    case Map(pid, _) => s in Armed(d, i) || (FrameOf(After(d, m), pid, i) && NowTouched(d, m, pid, s))
    case End(pid, confirmed) => s in Armed(d, i) && !(FrameOf(d, pid, i) && s in confirmed)
    case Close(_) => s in Armed(d, i)
  }

  lemma {:induction false} MoveWorld(d: Pool, m: Move, p: Pid, s: nat, i: nat)
    requires Can(d, m)
    ensures s in TouchedBy(After(d, m), p) <==> NowTouched(d, m, p, s)
    ensures s in Armed(After(d, m), i) <==> NowArmed(d, m, i, s)
  {
    hide RunAt, ResetSet, SettledSlots, WithHeld, WithRun;
    match m
    case Alloc(pid, x, k, first, npages) => ReachingWorld(Made(d, pid, x, k, first, npages), pid, x, p, s, i);
    case Map(pid, x) => ReachingWorld(WithMapped(d, pid, x), pid, x, p, s, i);
    case End(_, _) =>
    case Close(_) =>
  }

  lemma {:induction false} ReachingWorld(d: Pool, pid: Pid, x: nat, p: Pid, s: nat, i: nat)
    ensures var d' := Reaching(d, pid, x);
            && (s in TouchedBy(d', p) <==> s in TouchedBy(d, p) || (p == pid && s == x))
            && (s in Armed(d', i) <==> s in Armed(d, i) || (FrameOf(d', pid, i) && s in TouchedBy(d', pid)))
  {
    hide RunAt;
    SameSlots(d, Reaching(d, pid, x));
    SameSlots(d, Touching(d, pid, x));
  }

  /** What a process's end does to every run and every device. Everything confirmed, its runs are gone and their frames
      free; anything not, its runs are quarantined, their frames held on, and what did not confirm is quarantined too.
      Nobody else's runs or devices change.
    */
  lemma {:induction false} EndSettles(d: Pool, pid: Pid, confirmed: set<nat>, s: nat, k: nat, i: nat)
    requires Covered(d) && confirmed <= ResetSet(d, pid)
    ensures var d', all := Released(d, pid, confirmed), forall x :: x in ResetSet(d, pid) ==> x in confirmed;
            && |d'.slots| == |d.slots| && |d'.held| == |d.held|
            && RunAt(d', s, k) == (if !HeldBy(RunAt(d, s, k), pid) then RunAt(d, s, k) else if all then NoRun
                                   else Quarantined(RunAt(d, s, k).first, RunAt(d, s, k).npages))
            && (s < |d.slots| ==>
                  && d'.slots[s].virtio == d.slots[s].virtio
                  && (d'.slots[s].quarantined <==>
                        d.slots[s].quarantined || (s in ResetSet(d, pid) && s !in confirmed)))
            && (i < |d.held| ==> (d'.held[i] <==> d.held[i] && !(all && FrameOf(d, pid, i))))
  {
    ReleasedRuns(d, pid, confirmed);
    hide ResetSet, RunAt, FrameOf;
    assert (forall x :: x in ResetSet(d, pid) ==> x in confirmed) <==> confirmed == ResetSet(d, pid);
  }

  /** I16: a process that mapped a device, or allocated through it, and has not ended since, has it in the set its death
      resets; so its frames are freed only if that device confirms.
    */
  lemma {:induction false} TouchedIsReset(ds: seq<Pool>, ms: seq<Move>, i: nat, n: nat, pid: Pid, s: nat)
    requires IsRun(ds, ms) && Boot(ds[0]) && i < n < |ds|
    requires ms[i] == Map(pid, s) || (ms[i].Alloc? && ms[i].pid == pid && ms[i].slot == s)
    requires forall j :: i < j < n && (ms[j].End? || ms[j].Close?) ==> ms[j].pid != pid
    ensures s in TouchedBy(ds[n], pid) && s in ResetSet(ds[n], pid)
    ensures n < |ms| && ms[n].End? && ms[n].pid == pid ==>
              forall f :: 0 <= f < |ds[n].held| && ds[n].held[f] && !After(ds[n], ms[n]).held[f] ==>
                s in ms[n].confirmed
  {
    TouchLasts(ds, ms, i, n, pid, s);
    FreeIsUnreachable(ds, ms, n);
    assert Traced(ds[n]);
    hide ResetSet, Sound;
    if n < |ms| && ms[n].End? && ms[n].pid == pid {
      forall f | 0 <= f < |ds[n].held| && ds[n].held[f] && !After(ds[n], ms[n]).held[f] ensures s in ms[n].confirmed {
        PooledOnlyReset(ds[n], pid, ms[n].confirmed, f);
      }
    }
  }

  lemma {:induction false} TouchLasts(ds: seq<Pool>, ms: seq<Move>, i: nat, n: nat, pid: Pid, s: nat)
    requires IsRun(ds, ms) && i < n < |ds|
    requires ms[i] == Map(pid, s) || (ms[i].Alloc? && ms[i].pid == pid && ms[i].slot == s)
    requires forall j :: i < j < n && (ms[j].End? || ms[j].Close?) ==> ms[j].pid != pid
    ensures s in TouchedBy(ds[n], pid)
    decreases n
  {
    hide After, Can;
    assert Can(ds[n - 1], ms[n - 1]) && ds[n - 1 + 1] == After(ds[n - 1], ms[n - 1]);
    MoveWorld(ds[n - 1], ms[n - 1], pid, s, 0);
    if i < n - 1 { TouchLasts(ds, ms, i, n - 1, pid, s); }
  }

  /** I16 over every run from boot: no device can write a frame of the pool that is free, so none can write
      the frames the next allocation hands out.
    */
  lemma {:induction false} FreeIsUnreachable(ds: seq<Pool>, ms: seq<Move>, n: nat)
    requires IsRun(ds, ms) && Boot(ds[0]) && n < |ds|
    ensures Sound(ds[n])
    ensures forall i: nat | i < |ds[n].held| && !ds[n].held[i] :: Armed(ds[n], i) == {}
    decreases n
  {
    if n == 0 {
      BootSound(ds[0]);
    } else {
      FreeIsUnreachable(ds, ms, n - 1);
      MoveKeeps(ds[n - 1], ms[n - 1]);
    }
  }

  /** A run quarantined, and a device, stay so in every later state: that device never confirms a reset again,
      and every process that dies having mapped it, or holding a run through it, leaves its runs quarantined.
    */
  lemma {:induction false} QuarantineLasts(ds: seq<Pool>, ms: seq<Move>, s: nat, k: nat, n: nat)
    requires IsRun(ds, ms) && s < |ds[0].slots| && n < |ds|
    ensures s < |ds[n].slots| && (ds[0].slots[s].quarantined ==> ds[n].slots[s].quarantined)
    ensures RunAt(ds[0], s, k).Quarantined? ==> RunAt(ds[n], s, k) == RunAt(ds[0], s, k)
    ensures n < |ms| && ds[0].slots[s].quarantined && ms[n].End? && s in ResetSet(ds[n], ms[n].pid) ==>
              forall x: nat, y: nat | HeldBy(RunAt(ds[n], x, y), ms[n].pid) :: RunAt(ds[n + 1], x, y).Quarantined?
    decreases n
  {
    hide After, Can;
    if n > 0 {
      QuarantineLasts(ds, ms, s, k, n - 1);
      MoveQuarantine(ds[n - 1], ms[n - 1], s, k);
    }
    if n < |ms| && ds[0].slots[s].quarantined && ms[n].End? && s in ResetSet(ds[n], ms[n].pid) {
      forall x: nat, y: nat | HeldBy(RunAt(ds[n], x, y), ms[n].pid) ensures RunAt(ds[n + 1], x, y).Quarantined? {
        EndQuarantines(ds[n], ms[n], s, x, y);
      }
    }
  }

  lemma {:induction false} EndQuarantines(d: Pool, m: Move, s: nat, x: nat, y: nat)
    requires m.End? && Can(d, m) && s < |d.slots| && d.slots[s].quarantined && s in ResetSet(d, m.pid)
    requires HeldBy(RunAt(d, x, y), m.pid)
    ensures RunAt(After(d, m), x, y).Quarantined?
  {
    ReleasedRuns(d, m.pid, m.confirmed);
  }

  // --- The settling, run by run --------------------------------------------------------------------------------------

  predicate Before(at: (nat, nat), s: nat, k: nat) { at.0 < s || (at.0 == s && at.1 < k) }

  /** The pool's bits with the dead process's runs before entry `k` of device `s` given back. */
  ghost function HeldTo(d: Pool, pid: Pid, pooled: bool, s: nat, k: nat): seq<bool> {
    seq(|d.held|, i requires 0 <= i < |d.held| => d.held[i] && !(pooled && FrameOf(d, pid, i) && Before(d.at[i], s, k)))
  }

  ghost function SlotsTo(d: Pool, pid: Pid, pooled: bool, s: nat, k: nat): seq<Slot> {
    seq(|d.slots|, x requires 0 <= x < |d.slots| =>
      d.slots[x].(runs := seq(|d.slots[x].runs|, y requires 0 <= y < |d.slots[x].runs| =>
        if Before((x, y), s, k) then Settled(d.slots[x].runs[y], pid, pooled) else d.slots[x].runs[y])))
  }

  lemma {:induction false} SettleStep(d: Pool, pid: Pid, pooled: bool, s: nat, k: nat)
    requires Covered(d) && s < |d.slots| && k < |d.slots[s].runs|
    ensures var r := d.slots[s].runs[k];
            && |SlotsTo(d, pid, pooled, s, k)| == |d.slots|
            && |SlotsTo(d, pid, pooled, s, k)[s].runs| == |d.slots[s].runs|
            && SlotsTo(d, pid, pooled, s, k)[s].runs[k] == r
            && SlotsTo(d, pid, pooled, s, k + 1)
              == WithRun(SlotsTo(d, pid, pooled, s, k), s, k, Settled(r, pid, pooled))
            && HeldTo(d, pid, pooled, s, k + 1) ==
                 if pooled && HeldBy(r, pid) then WithHeld(HeldTo(d, pid, pooled, s, k), r.first, r.npages, false)
                 else HeldTo(d, pid, pooled, s, k)
  {
    SettleSlots(d, pid, pooled, s, k);
    SettleHeld(d, pid, pooled, s, k);
  }

  lemma {:induction false} SettleSlots(d: Pool, pid: Pid, pooled: bool, s: nat, k: nat)
    requires s < |d.slots| && k < |d.slots[s].runs|
    ensures SlotsTo(d, pid, pooled, s, k)[s].runs[k] == d.slots[s].runs[k]
    ensures SlotsTo(d, pid, pooled, s, k + 1)
            == WithRun(SlotsTo(d, pid, pooled, s, k), s, k, Settled(d.slots[s].runs[k], pid, pooled))
  {
    var a, b := SlotsTo(d, pid, pooled, s, k), SlotsTo(d, pid, pooled, s, k + 1);
    forall x | 0 <= x < |d.slots| ensures b[x] == WithRun(a, s, k, Settled(d.slots[s].runs[k], pid, pooled))[x] {
      assert b[x].runs == if x == s then a[x].runs[k := Settled(d.slots[s].runs[k], pid, pooled)] else a[x].runs;
    }
  }

  lemma {:induction false} SettleHeld(d: Pool, pid: Pid, pooled: bool, s: nat, k: nat)
    requires Covered(d) && s < |d.slots| && k < |d.slots[s].runs|
    ensures var r := d.slots[s].runs[k];
            HeldTo(d, pid, pooled, s, k + 1) ==
              if pooled && HeldBy(r, pid) then WithHeld(HeldTo(d, pid, pooled, s, k), r.first, r.npages, false)
              else HeldTo(d, pid, pooled, s, k)
  {
    hide FrameOf, Covered, Before;
    var r := d.slots[s].runs[k];
    RunThere(d, s, k);
    forall i: nat | i < |d.held|
      ensures FrameOf(d, pid, i) ==>
                i in d.at && (Before(d.at[i], s, k + 1) <==> Before(d.at[i], s, k) || d.at[i] == (s, k))
      ensures FrameOf(d, pid, i) && d.at[i] == (s, k) <==> HeldBy(r, pid) && r.first <= i < r.first + r.npages
    {
      FrameThere(d, pid, s, k, i);
    }
  }

  /** A frame of the process's is settled with the entry its run is in. */
  lemma {:induction false} FrameThere(d: Pool, pid: Pid, s: nat, k: nat, i: nat)
    requires Covered(d) && i < |d.held|
    ensures FrameOf(d, pid, i) ==>
              i in d.at && (Before(d.at[i], s, k + 1) <==> Before(d.at[i], s, k) || d.at[i] == (s, k))
    ensures FrameOf(d, pid, i) && d.at[i] == (s, k) <==>
              HeldBy(RunAt(d, s, k), pid) && RunAt(d, s, k).first <= i < RunAt(d, s, k).first + RunAt(d, s, k).npages
  {
    hide RunAt;
    if i in d.at { assert Covers(RunAt(d, d.at[i].0, d.at[i].1), i); }
    if Covers(RunAt(d, s, k), i) { assert i in d.at && d.at[i] == (s, k); }
  }

  lemma {:induction false} SettleNext(d: Pool, pid: Pid, pooled: bool, s: nat)
    requires Covered(d) && s < |d.slots|
    ensures SlotsTo(d, pid, pooled, s, |d.slots[s].runs|) == SlotsTo(d, pid, pooled, s + 1, 0)
    ensures HeldTo(d, pid, pooled, s, |d.slots[s].runs|) == HeldTo(d, pid, pooled, s + 1, 0)
  {
    SettleNextHeld(d, pid, pooled, s);
    SettleNextSlots(d, pid, pooled, s);
  }

  lemma {:induction false} SettleNextHeld(d: Pool, pid: Pid, pooled: bool, s: nat)
    requires Covered(d) && s < |d.slots|
    ensures HeldTo(d, pid, pooled, s, |d.slots[s].runs|) == HeldTo(d, pid, pooled, s + 1, 0)
  {
    forall i: nat | i < |d.held| && FrameOf(d, pid, i)
      ensures Before(d.at[i], s, |d.slots[s].runs|) <==> Before(d.at[i], s + 1, 0)
    {
      assert Covers(RunAt(d, d.at[i].0, d.at[i].1), i);
    }
  }

  lemma {:induction false} SettleNextSlots(d: Pool, pid: Pid, pooled: bool, s: nat)
    requires s < |d.slots|
    ensures SlotsTo(d, pid, pooled, s, |d.slots[s].runs|) == SlotsTo(d, pid, pooled, s + 1, 0)
  {
    var a, b := SlotsTo(d, pid, pooled, s, |d.slots[s].runs|), SlotsTo(d, pid, pooled, s + 1, 0);
    forall x | 0 <= x < |d.slots| ensures a[x] == b[x] { assert a[x].runs == b[x].runs; }
  }

  lemma {:induction false} SettleStarts(d: Pool, pid: Pid, pooled: bool)
    ensures SlotsTo(d, pid, pooled, 0, 0) == d.slots && HeldTo(d, pid, pooled, 0, 0) == d.held
  {
    var a := SlotsTo(d, pid, pooled, 0, 0);
    forall x | 0 <= x < |d.slots| ensures a[x] == d.slots[x] { assert a[x].runs == d.slots[x].runs; }
  }

  /** Once every entry is settled, and the devices that failed flagged, the release is done. */
  lemma {:induction false} SettleEnds(d: Pool, pid: Pid, confirmed: set<nat>, slots: seq<Slot>)
    requires Covered(d) && |slots| == |d.slots|
    requires var done := SlotsTo(d, pid, confirmed == ResetSet(d, pid), |d.slots|, 0);
             forall x :: 0 <= x < |slots| ==>
               slots[x] == if x in ResetSet(d, pid) - confirmed then done[x].(quarantined := true) else done[x]
    ensures slots == Released(d, pid, confirmed).slots
    ensures HeldTo(d, pid, confirmed == ResetSet(d, pid), |d.slots|, 0) == Released(d, pid, confirmed).held
  {
    hide ResetSet;
    var pooled, d' := confirmed == ResetSet(d, pid), Released(d, pid, confirmed);
    forall i: nat | i < |d.held| && FrameOf(d, pid, i) ensures Before(d.at[i], |d.slots|, 0) {
      assert Covers(RunAt(d, d.at[i].0, d.at[i].1), i);
    }
    var done := SlotsTo(d, pid, pooled, |d.slots|, 0);
    forall x | 0 <= x < |d.slots| ensures slots[x] == d'.slots[x] {
      assert done[x].runs == SettledRuns(d.slots[x].runs, pid, pooled);
    }
  }

  /** A free stretch ending where a run of `run` free frames ends is no longer than it. */
  lemma {:induction false} StretchRun(held: seq<bool>, i: nat, run: nat, g: nat, npages: nat)
    requires i < |held| && g + npages == i + 1 && run < npages && run <= i + 1
    requires i + 1 - run > 0 ==> held[i + 1 - run - 1]
    ensures !Stretch(held, g, npages)
  {
  }

  lemma {:induction false} ExposedParts(d: Pool, pid: Pid)
    ensures Exposed(d, pid) == d.(armed := Exposed(d, pid).armed)
  {
  }

  /** The entry just filled is the first that begins at its frame. */
  lemma {:induction false} DropTells(before: Pool, pid: Pid, s: nat, k: nat, first: nat, npages: nat)
    requires Sound(before) && s < |before.slots| && k < |before.slots[s].runs| && before.slots[s].runs[k].NoRun?
    requires npages > 0 && Stretch(before.held, first, npages)
    ensures var runs := Made(before, pid, s, k, first, npages).slots[s].runs;
            && k < |runs| && runs[k] == Live(first, npages, pid)
            && (forall j :: 0 <= j < k && !runs[j].NoRun? ==> runs[j].first != first)
            && first + npages <= |Made(before, pid, s, k, first, npages).held|
  {
    assert first !in before.at;
    forall j | 0 <= j < k && !before.slots[s].runs[j].NoRun? ensures before.slots[s].runs[j].first != first {
      RunThere(before, s, j);
      assert !Covers(RunAt(before, s, j), first);
    }
  }

  lemma {:induction false} DropRestores(before: Pool, pid: Pid, s: nat, k: nat, first: nat, npages: nat)
    requires s < |before.slots| && k < |before.slots[s].runs| && Stretch(before.held, first, npages)
    ensures WithHeld(Made(before, pid, s, k, first, npages).held, first, npages, false) == before.held
  {
  }

  lemma {:induction false} ResetWithin(d: Pool, pid: Pid)
    ensures forall s :: s in ResetSet(d, pid) ==> s < |d.slots|
  {
  }

  lemma {:induction false} SoundCovers(d: Pool)
    requires Sound(d)
    ensures Covered(d)
  {
  }

  lemma {:induction false} SlotsSize(d: Pool, pid: Pid, pooled: bool, s: nat, k: nat)
    requires s < |d.slots|
    ensures |SlotsTo(d, pid, pooled, s, k)| == |d.slots| && |SlotsTo(d, pid, pooled, s, k)[s].runs| == |d.slots[s].runs|
  {
  }

  lemma {:induction false} SameRun(slots: seq<Slot>, s: nat, k: nat)
    requires s < |slots| && k < |slots[s].runs|
    ensures WithRun(slots, s, k, slots[s].runs[k]) == slots
  {
    assert slots[s].runs[k := slots[s].runs[k]] == slots[s].runs;
  }

  lemma {:induction false} RunFits(d: Pool, pid: Pid, pooled: bool, s: nat, k: nat)
    requires Covered(d) && s < |d.slots| && k < |d.slots[s].runs|
    ensures var r := d.slots[s].runs[k]; !r.NoRun? ==> r.first + r.npages <= |HeldTo(d, pid, pooled, s, k)|
  {
    var r := d.slots[s].runs[k];
    RunThere(d, s, k);
    if !r.NoRun? {
      assert RunAt(d, s, k).npages > 0;
      var last: nat := r.first + r.npages - 1;
      assert Covers(RunAt(d, s, k), last);
      assert last in d.at;
    }
  }

  lemma {:induction false} ReleasedParts(d: Pool, pid: Pid, confirmed: set<nat>)
    ensures var r := Released(d, pid, confirmed); r == Pool(r.held, r.slots, d.mapped, r.at, r.touched, r.armed)
  {
  }

  // --- The registry as the kernel changes it -------------------------------------------------------------------------

  class Registry {
    var held: seq<bool>
    var slots: seq<Slot>
    var mapped: map<Pid, set<nat>>
    ghost var at: map<nat, (nat, nat)>
    ghost var touched: map<Pid, set<nat>>
    ghost var armed: map<nat, set<nat>>

    ghost function View(): Pool
      reads this
    {
      Pool(held, slots, mapped, at, touched, armed)
    }

    ghost predicate Valid()
      reads this
    {
      Sound(View())
    }

    /** A pool of `nframes` frames, and the devices found, each with `entries` run entries. */
    constructor (nframes: nat, devices: seq<bool>, entries: nat)
      ensures Valid() && Boot(View()) && |held| == nframes && |slots| == |devices|
    {
      held := seq(nframes, _ => false);
      slots := seq(|devices|, i requires 0 <= i < |devices| => Slot(devices[i], false, seq(entries, _ => NoRun)));
      mapped, at, touched, armed := map[], map[], map[], map[];
      new;
      BootSound(View());
    }

    /** `dma_pool_take`'s search: the first free stretch of `npages` frames, if there is one. */
    method FindStretch(npages: nat) returns (first: Option<nat>)
      requires npages > 0
      ensures match first
              case Some(f) => Stretch(held, f, npages) && forall g: nat :: g < f ==> !Stretch(held, g, npages)
              case None => forall g: nat :: !Stretch(held, g, npages)
    {
      var run := 0;
      for i := 0 to |held|
        invariant 0 <= run <= i && run < npages && Stretch(held, i - run, run)
        invariant i - run > 0 ==> held[i - run - 1]
        invariant forall g: nat :: g + npages <= i ==> !Stretch(held, g, npages)
      {
        run := if held[i] then 0 else run + 1;
        if run == npages {
          return Some(i + 1 - npages);
        }
        forall g: nat | g + npages <= i + 1 ensures !Stretch(held, g, npages) {
          if g + npages == i + 1 { StretchRun(held, i, run, g, npages); }
        }
      }
      return None;
    }

    static method SetHeld(bits: seq<bool>, first: nat, npages: nat, v: bool) returns (r: seq<bool>)
      requires first + npages <= |bits|
      ensures r == WithHeld(bits, first, npages, v)
    {
      r := bits;
      for i := first to first + npages
        invariant r == WithHeld(bits, first, i - first, v)
      {
        r := r[i := v];
      }
    }

    /** `dma_alloc`: a run charged (`pays`), its frames taken, its entry filled; mapped (`maps`), its address is
        the process's. Refused or undone, nothing has changed.
      */
    method Alloc(pid: Pid, s: nat, npages: nat, pays: bool, maps: bool) returns (r: Option<nat>)
      requires Valid() && s < |slots| && npages > 0
      modifies this
      ensures Valid() && (r.None? ==> View() == old(View()))
      ensures r.Some? <==>
                && (exists k :: 0 <= k < |old(slots)[s].runs| && old(slots)[s].runs[k].NoRun?)
                && pays && maps && exists g: nat :: Stretch(old(held), g, npages)
      ensures r.Some? ==>
                && Stretch(old(held), r.value, npages)
                && (forall g: nat :: g < r.value ==> !Stretch(old(held), g, npages))
                && exists k: nat ::
                     && k < |old(slots)[s].runs| && old(slots)[s].runs[k].NoRun?
                     && View() == Reaching(Made(old(View()), pid, s, k, r.value, npages), pid, s)
    {
      hide Sound, Made, Reaching, Stretch, ResetSet;
      var k := FreeEntry(s);
      if k == |slots[s].runs| || !pays { return None; }
      var first := FindStretch(npages);
      if first.None? { return None; }
      ghost var before := View();
      MadeKeeps(before, pid, s, k, first.value, npages);
      TakeRun(pid, s, k, first.value, npages);
      if !maps {
        DropRun(s, first.value, before, pid, k, npages);
        return None;
      }
      JoinsResetSet(before, pid, s);
      Reach(pid, s);
      return Some(first.value);
    }

    /** The world's part: the process can program the device, with all its frames. */
    ghost method Reach(pid: Pid, s: nat)
      requires Valid() && s in ResetSet(View(), pid)
      modifies this`touched, this`armed
      ensures Valid() && View() == Reaching(old(View()), pid, s)
    {
      hide Sound, Exposed, ResetSet;
      ReachingKeeps(View(), pid, s);
      ghost var d := Reaching(View(), pid, s);
      ExposedParts(Touching(View(), pid, s), pid);
      touched, armed := d.touched, d.armed;
    }

    method FreeEntry(s: nat) returns (k: nat)
      requires s < |slots|
      ensures k <= |slots[s].runs| && (k < |slots[s].runs| ==> slots[s].runs[k].NoRun?)
      ensures k == |slots[s].runs| ==> forall i :: 0 <= i < |slots[s].runs| ==> !slots[s].runs[i].NoRun?
    {
      k := 0;
      while k < |slots[s].runs| && !slots[s].runs[k].NoRun?
        invariant 0 <= k <= |slots[s].runs| && forall i :: 0 <= i < k ==> !slots[s].runs[i].NoRun?
      {
        k := k + 1;
      }
    }

    method TakeRun(pid: Pid, s: nat, k: nat, first: nat, npages: nat)
      requires Valid() && s < |slots| && k < |slots[s].runs| && slots[s].runs[k].NoRun?
      requires npages > 0 && Stretch(held, first, npages)
      modifies this
      ensures Valid() && View() == Made(old(View()), pid, s, k, first, npages)
    {
      hide Sound;
      ghost var d := View();
      MadeKeeps(d, pid, s, k, first, npages);
      var taken := SetHeld(held, first, npages, true);
      held := taken;
      slots := slots[s := slots[s].(runs := slots[s].runs[k := Live(first, npages, pid)])];
      at := Made(d, pid, s, k, first, npages).at;
    }

    /** `dma_drop_run`: a run whose address never reached its process goes straight back, found by its first
        frame.
      */
    method DropRun(s: nat, first: nat, ghost before: Pool, ghost pid: Pid, ghost k: nat, ghost npages: nat)
      requires Sound(before) && s < |before.slots| && k < |before.slots[s].runs| && before.slots[s].runs[k].NoRun?
      requires npages > 0 && Stretch(before.held, first, npages) && View() == Made(before, pid, s, k, first, npages)
      modifies this
      ensures View() == before
    {
      DropTells(before, pid, s, k, first, npages);
      var j := 0;
      while slots[s].runs[j].NoRun? || slots[s].runs[j].first != first
        invariant 0 <= j <= k
        decreases k - j
      {
        j := j + 1;
      }
      var run := slots[s].runs[j];
      var given := SetHeld(held, run.first, run.npages, false);
      held := given;
      slots := slots[s := slots[s].(runs := slots[s].runs[j := NoRun])];
      at := before.at;
      DropRestores(before, pid, s, k, first, npages);
      assert slots == before.slots by { assert slots[s].runs == before.slots[s].runs; }
    }

    /** `dma_mapped`: a device joins the process's reset set, and its frames are within that device's reach. */
    method Mapped(pid: Pid, s: nat)
      requires Valid() && s < |slots|
      modifies this
      ensures Valid() && View() == Reaching(WithMapped(old(View()), pid, s), pid, s)
    {
      hide Sound, Reaching, ResetSet;
      MappedKeeps(View(), pid, s);
      JoinsResetSet(View(), pid, s);
      mapped := mapped[pid := (if pid in mapped then mapped[pid] else {}) + {s}];
      Reach(pid, s);
    }

    /** A process's account closed, its runs settled. */
    method Close(pid: Pid)
      requires Valid() && forall s :: 0 <= s < |slots| ==> !HoldsOn(slots[s].runs, pid)
      modifies this
      ensures Valid() && View() == WithoutAccount(old(View()), pid)
    {
      ClosedKeeps(View(), pid);
      mapped, touched := mapped - {pid}, touched - {pid};
    }

    /** The devices to reset: those mapped, and those a run is held through. */
    method FindResetSet(pid: Pid) returns (r: set<nat>)
      ensures r == ResetSet(View(), pid)
    {
      r := {};
      for s := 0 to |slots|
        invariant r == set x | x in ResetSet(View(), pid) && x < s
      {
        if (pid in mapped && s in mapped[pid]) || HoldsOn(slots[s].runs, pid) { r := r + {s}; }
      }
    }

    /** `dma_reset` of each: only a virtio device no reset of which has failed is touched, and `answers` says
        which then confirm.
      */
    method ResetEach(reset: set<nat>, answers: set<nat>) returns (confirmed: set<nat>)
      requires forall s :: s in reset ==> s < |slots|
      ensures confirmed == set s | s in reset && s < |slots| && slots[s].virtio && !slots[s].quarantined && s in answers
    {
      confirmed := {};
      for s := 0 to |slots|
        invariant confirmed == set x | x in reset && x < s && slots[x].virtio && !slots[x].quarantined && x in answers
      {
        if s in reset && slots[s].virtio && !slots[s].quarantined && s in answers { confirmed := confirmed + {s}; }
      }
    }

    /** `dma_release`, as process `pid` ends: if every device of its reset set confirms, its runs are pooled; if
        any does not, they are all quarantined, and so is every device that did not.
      */
    method Release(pid: Pid, answers: set<nat>) returns (ghost confirmed: set<nat>)
      requires Valid()
      modifies this
      ensures Valid() && confirmed <= ResetSet(old(View()), pid) && View() == Released(old(View()), pid, confirmed)
      ensures confirmed == set s | s in ResetSet(old(View()), pid) && s < |old(slots)|
                                   && old(slots)[s].virtio && !old(slots)[s].quarantined && s in answers
    {
      hide Sound, ResetSet, Released, SlotsTo, HeldTo;
      ghost var d := View();
      var reset := FindResetSet(pid);
      ResetWithin(d, pid);
      var done := ResetEach(reset, answers);
      confirmed := done;
      ReleasedKeeps(d, pid, confirmed);
      var pooled := done == reset;
      SettleStarts(d, pid, pooled);
      SoundCovers(d);
      var s := 0;
      while s < |slots|
        invariant 0 <= s <= |slots| && |slots| == |d.slots| && mapped == d.mapped && at == d.at
        invariant slots == SlotsTo(d, pid, pooled, s, 0) && held == HeldTo(d, pid, pooled, s, 0)
      {
        SettleSlot(pid, s, pooled, d);
        s := s + 1;
      }
      FlagFailed(reset - done, d, pid, confirmed, pooled);
      ReleasedParts(d, pid, confirmed);
      ghost var r := Released(d, pid, confirmed);
      at, touched, armed := r.at, r.touched, r.armed;
    }

    method SettleSlot(pid: Pid, s: nat, pooled: bool, ghost d: Pool)
      requires Covered(d) && s < |slots| == |d.slots|
      requires slots == SlotsTo(d, pid, pooled, s, 0) && held == HeldTo(d, pid, pooled, s, 0)
      modifies this`held, this`slots
      ensures |slots| == |d.slots| && slots == SlotsTo(d, pid, pooled, s + 1, 0)
      ensures held == HeldTo(d, pid, pooled, s + 1, 0)
    {
      hide *;
      SlotsSize(d, pid, pooled, s, 0);
      SettleNext(d, pid, pooled, s);
      var k := 0;
      while k < |slots[s].runs|
        invariant |slots| == |d.slots| && |slots[s].runs| == |d.slots[s].runs| && 0 <= k <= |slots[s].runs|
        invariant slots == SlotsTo(d, pid, pooled, s, k) && held == HeldTo(d, pid, pooled, s, k)
      {
        SettleStep(d, pid, pooled, s, k);
        RunFits(d, pid, pooled, s, k);
        SlotsSize(d, pid, pooled, s, k + 1);
        SettleRun(pid, s, k, pooled);
        k := k + 1;
      }
    }

    method SettleRun(pid: Pid, s: nat, k: nat, pooled: bool)
      requires s < |slots| && k < |slots[s].runs|
      requires var r := slots[s].runs[k]; !r.NoRun? ==> r.first + r.npages <= |held|
      modifies this`held, this`slots
      ensures slots == WithRun(old(slots), s, k, Settled(old(slots)[s].runs[k], pid, pooled))
      ensures var r := old(slots)[s].runs[k];
              held == if pooled && HeldBy(r, pid) then WithHeld(old(held), r.first, r.npages, false) else old(held)
    {
      hide WithHeld;
      var run := slots[s].runs[k];
      if HeldBy(run, pid) {
        if pooled {
          var given := SetHeld(held, run.first, run.npages, false);
          held := given;
        }
        slots := WithRun(slots, s, k, if pooled then NoRun else Quarantined(run.first, run.npages));
      } else {
        SameRun(slots, s, k);
      }
    }

    method FlagFailed(failed: set<nat>, ghost d: Pool, ghost pid: Pid, ghost confirmed: set<nat>, ghost pooled: bool)
      requires Covered(d) && |slots| == |d.slots| && failed == ResetSet(d, pid) - confirmed
      requires pooled == (confirmed == ResetSet(d, pid))
      requires slots == SlotsTo(d, pid, pooled, |d.slots|, 0) && held == HeldTo(d, pid, pooled, |d.slots|, 0)
      modifies this`slots
      ensures slots == Released(d, pid, confirmed).slots && held == Released(d, pid, confirmed).held
    {
      hide ResetSet, SlotsTo, HeldTo, Released, Covered;
      ghost var settled := slots;
      for s := 0 to |slots|
        invariant |slots| == |settled|
        invariant forall x :: 0 <= x < |slots| ==>
                    slots[x] == if x < s && x in failed then settled[x].(quarantined := true) else settled[x]
      {
        if s in failed { slots := slots[s := slots[s].(quarantined := true)]; }
      }
      SettleEnds(d, pid, confirmed, slots);
    }
  }
}
