/** The budgets, processes, process objects and handle tables of one kernel, and a destruction from its mark to its
    end: the subtree's processes killed, the objects it paid for freed with their processes, the notices owed on its
    endpoints dropped, its budgets lifted, its chains closed, its budgets freed (kernel/src/budget.rs,
    kernel/src/process.rs, R10).
  */
module Destruction {
  import opened Basics
  import F = BudgetForest
  import L = BudgetLedger
  import B = BudgetBooks
  import S = BudgetSteps
  import C = BudgetCalls
  import H = HandleChains
  import opened Revocation

  /** A process object: its frame, and the exit endpoint its process reports to, until that is destroyed. */
  datatype Proc = Proc(frame: F.Frame, ear: Option<F.Frame>)

  /** `objects`: the budget each object is charged to. `frames`: those each process owns, its table's included. */
  datatype World = World(
    b: B.Books, objects: map<B.Pid, F.Frame>, procs: map<B.Pid, Proc>, frames: map<B.Pid, nat>,
    t: H.Tables, lists: H.Pair<H.Chains.Lists>)

  // --- What is always so ----------------------------------------------------------------------------------------

  ghost function ObjectFrames(procs: map<B.Pid, Proc>): set<F.Frame> { set x | x in procs :: procs[x].frame }

  /** Every object has a frame of its own, and a live handle to a process names one of them (I1). */
  ghost predicate Attached(
      procs: map<B.Pid, Proc>, objects: map<B.Pid, F.Frame>, budgets: set<F.Frame>,
      slots: map<H.Chains.Place, H.Holding>) {
    && procs.Keys == objects.Keys
    && (forall x, y :: x in procs && y in procs && procs[x].frame == procs[y].frame ==> x == y)
    && (forall x :: x in procs ==> procs[x].frame !in budgets)
    && (forall p :: p in slots && slots[p].Live? && slots[p].handle.names.ProcessObject? ==>
          slots[p].handle.names.frame in ObjectFrames(procs))
  }

  ghost predicate OwnersThere(owners: map<F.Frame, F.Frame>, budgets: set<F.Frame>) {
    forall e :: e in owners ==> owners[e] in budgets
  }

  /** A dead process's object is kept only for the notice its exit endpoint is owed. */
  ghost predicate Heard(procs: map<B.Pid, Proc>, lives: map<B.Pid, F.Frame>, owners: map<F.Frame, F.Frame>) {
    forall x :: x in procs ==>
      (x !in lives ==> procs[x].ear.Some?) && (procs[x].ear.Some? ==> procs[x].ear.value in owners)
  }

  /** Ledger, objects and tables together: a process holds its handles in the budget it runs in. */
  ghost predicate Joint(w: World) {
    && H.Sound(w.t, w.b.store, w.lists) && w.t.holders == w.b.lives && Funded(w.b, w.objects, w.frames)
    && Attached(w.procs, w.objects, w.b.store.Keys, w.t.slots) && OwnersThere(w.t.owners, w.b.store.Keys)
  }

  ghost predicate Whole(w: World) { Joint(w) && Heard(w.procs, w.b.lives, w.t.owners) }

  // --- A process ends, an object is freed -------------------------------------------------------------------------

  ghost predicate CanEnd(w: World, pid: B.Pid) {
    && pid in w.b.lives && w.b.lives[pid] in w.b.store && pid in w.b.counted && w.b.counted[pid] == w.b.lives[pid]
    && pid in w.frames && pid < PIDS && w.frames[pid] <= w.b.store[w.b.lives[pid]].pages.used
    && w.frames[pid] <= L.At(w.b.pages, w.b.lives[pid]) && w.b.store[w.b.lives[pid]].processes.used > 0
  }

  /** Its table gone, its frames back, and it runs no more. */
  ghost predicate AfterEnd(w: World, w': World, pid: B.Pid) {
    && CanEnd(w, pid)
    && w' == World(S.Ended(w.b, pid, w.frames[pid], pid in w.objects), w.objects, w.procs, w.frames - {pid}, w'.t,
                   w'.lists)
    && w'.t.slots == H.WithoutPid(w.t.slots, pid) && w'.t.owners == w.t.owners && w'.t.holders == w.t.holders - {pid}
  }

  ghost predicate Naming(x: H.Holding, f: F.Frame) { x.Live? && x.handle.names == H.ProcessObject(f) }

  /** Every handle to it dead, its page back with its creator's budget, its PID free. */
  ghost predicate AfterFree(w: World, w': World, pid: B.Pid) {
    && pid in w.objects && pid in w.procs && pid !in w.b.lives && S.CanFree(w.b, pid, w.objects[pid])
    && w' == World(S.Freed(w.b, pid, w.objects[pid]), w.objects - {pid}, w.procs - {pid}, w.frames, w'.t, w'.lists)
    && w'.t.slots == (map p | p in w.t.slots ::
                        if Naming(w.t.slots[p], w.procs[pid].frame) then H.Dead else w.t.slots[p])
    && w'.t.owners == w.t.owners && w'.t.holders == w.t.holders
  }

  lemma {:induction false} EndKeeps(w: World, w': World, pid: B.Pid)
    requires Joint(w) && AfterEnd(w, w', pid) && H.Sound(w'.t, w.b.store, w'.lists)
    ensures Joint(w')
  {
    hide H.Sound, Funded, S.Ended;
    EndedShape(w.b, pid, w.frames[pid], pid in w.objects);
    TablesStay(w'.t, w'.lists, w.b.store, w'.b.store);
    FundedEnded(w.b, w.objects, w.frames, pid, w'.b);
  }

  lemma {:induction false} FreeKeeps(w: World, w': World, pid: B.Pid)
    requires Joint(w) && AfterFree(w, w', pid) && H.Sound(w'.t, w.b.store, w'.lists)
    ensures Joint(w')
  {
    hide H.Sound, Funded, S.Freed, Attached;
    FreedShape(w.b, pid, w.objects[pid]);
    TablesStay(w'.t, w'.lists, w.b.store, w'.b.store);
    FundedFreed(w.b, w.objects, w.frames, pid, w'.b);
    AttachedFree(w.procs, w.objects, w.b.store.Keys, w.t.slots, pid, w'.t.slots);
  }

  lemma {:induction false} AttachedFree(
      procs: map<B.Pid, Proc>, objects: map<B.Pid, F.Frame>, budgets: set<F.Frame>,
      slots: map<H.Chains.Place, H.Holding>, pid: B.Pid, slots': map<H.Chains.Place, H.Holding>)
    requires Attached(procs, objects, budgets, slots) && pid in procs
    requires slots' == map p | p in slots :: if Naming(slots[p], procs[pid].frame) then H.Dead else slots[p]
    ensures Attached(procs - {pid}, objects - {pid}, budgets, slots')
  {
    forall p | p in slots' && slots'[p].Live? && slots'[p].handle.names.ProcessObject?
      ensures slots'[p].handle.names.frame in ObjectFrames(procs - {pid})
    {
      var g := slots[p].handle.names.frame;
      var x :| x in procs && procs[x].frame == g;
      assert x != pid && (procs - {pid})[x].frame == g;
    }
  }

  // --- What has ended and been freed so far ------------------------------------------------------------------------

  /** The PIDs still counted: those of processes and of objects. */
  function Counting(
      counted: map<B.Pid, F.Frame>, lives: map<B.Pid, F.Frame>, objects: map<B.Pid, F.Frame>): map<B.Pid, F.Frame> {
    map x | x in counted && (x in lives || x in objects) :: counted[x]
  }

  ghost function Gone(procs: map<B.Pid, Proc>, freed: set<B.Pid>): set<F.Frame> {
    set x | x in procs && x in freed :: procs[x].frame
  }

  ghost predicate NamingOne(x: H.Holding, gone: set<F.Frame>) {
    x.Live? && x.handle.names.ProcessObject? && x.handle.names.frame in gone
  }

  /** The tables without those of `ended`, and with every handle to an object of `gone` dead. */
  ghost function Pare(
      slots: map<H.Chains.Place, H.Holding>, ended: set<B.Pid>, gone: set<F.Frame>): map<H.Chains.Place, H.Holding> {
    map p | p in slots && p.pid !in ended :: if NamingOne(slots[p], gone) then H.Dead else slots[p]
  }

  /** Each budget's charges went down by what is no longer spoken for. */
  ghost predicate Unspoken(w0: World, w: World) {
    forall f :: L.At(w.b.pages, f) + Spoken(w0.b.lives, w0.objects, w0.frames, f)
                == L.At(w0.b.pages, f) + Spoken(w.b.lives, w.objects, w.frames, f)
  }

  /** But for `extra` more at `owner`. */
  ghost predicate UnspokenBut(w0: World, w: World, owner: F.Frame, extra: nat) {
    forall f :: L.At(w.b.pages, f) + Spoken(w0.b.lives, w0.objects, w0.frames, f)
                == L.At(w0.b.pages, f) + Spoken(w.b.lives, w.objects, w.frames, f) + if f == owner then extra else 0
  }

  lemma {:induction false} UnspokenSame(w: World)
    ensures Unspoken(w, w)
  {
    hide Spoken;
  }

  /** Since the mark exactly the processes `ended` have ended and exactly the objects `freed` been freed. */
  ghost predicate Pared(w0: World, w: World, ended: set<B.Pid>, freed: set<B.Pid>) {
    && S.Meanwhile(w0.b, w.b) && w.b.runs == w0.b.runs && w.b.lives == w0.b.lives - ended
    && w.objects == w0.objects - freed && w.frames == w0.frames - ended
    && w.b.counted == Counting(w0.b.counted, w.b.lives, w.objects) && Unspoken(w0, w)
    && w.t.owners == w0.t.owners && w.t.slots == Pare(w0.t.slots, ended, Gone(w0.procs, freed))
  }

  lemma {:induction false} ParedNone(w: World)
    requires w.b.counted.Keys == w.b.lives.Keys + w.objects.Keys && S.Meanwhile(w.b, w.b)
    ensures Pared(w, w, {}, {})
  {
    hide S.Meanwhile, Spoken;
    assert Gone(w.procs, {}) == {};
  }

  lemma {:induction false} ParedEnd(w0: World, w: World, w': World, ended: set<B.Pid>, freed: set<B.Pid>, pid: B.Pid)
    requires Pared(w0, w, ended, freed) && AfterEnd(w, w', pid)
    ensures Pared(w0, w', ended + {pid}, freed)
  {
    hide S.Meanwhile, S.Ended, Gone, Pare, Counting, Unspoken;
    EndedShape(w.b, pid, w.frames[pid], pid in w.objects);
    S.MeanwhileEnded(w0.b, w.b, pid, w.frames[pid], pid in w.objects);
    UnspokenEnd(w0, w, w', pid);
    PareMore(w0.t.slots, ended, Gone(w0.procs, freed), pid);
    MinusTwice(w0.b.lives, ended, pid);
    MinusTwice(w0.frames, ended, pid);
    CountingLess(w0.b.counted, w.b.lives, w.objects, pid);
  }

  lemma {:induction false} MinusTwice<V>(m: map<B.Pid, V>, a: set<B.Pid>, pid: B.Pid)
    ensures m - a - {pid} == m - (a + {pid})
  {
  }

  lemma {:induction false} UnspokenEnd(w0: World, w: World, w': World, pid: B.Pid)
    requires Unspoken(w0, w) && pid in w.b.lives && pid in w.frames && pid < PIDS
    requires w'.b.lives == w.b.lives - {pid} && w'.objects == w.objects && w'.frames == w.frames - {pid}
    requires forall f :: L.At(w'.b.pages, f) == L.At(w.b.pages, f) - if f == w.b.lives[pid] then w.frames[pid] else 0
    ensures Unspoken(w0, w')
  {
    hide Spoken;
    forall f ensures L.At(w'.b.pages, f) + Spoken(w0.b.lives, w0.objects, w0.frames, f)
                     == L.At(w0.b.pages, f) + Spoken(w'.b.lives, w'.objects, w'.frames, f) {
      SpokenLess(w.b.lives, w.objects, w.frames, pid, f);
    }
  }

  lemma {:induction false} UnspokenFree(w0: World, w: World, w': World, pid: B.Pid)
    requires Unspoken(w0, w) && pid in w.objects
    requires w'.b.lives == w.b.lives && w'.objects == w.objects - {pid} && w'.frames == w.frames
    requires forall f :: L.At(w'.b.pages, f) == L.At(w.b.pages, f) - if f == w.objects[pid] then 1 else 0
    ensures Unspoken(w0, w')
  {
    hide Spoken;
    forall f ensures L.At(w'.b.pages, f) + Spoken(w0.b.lives, w0.objects, w0.frames, f)
                     == L.At(w0.b.pages, f) + Spoken(w'.b.lives, w'.objects, w'.frames, f) {
      SpokenFreed(w.b.lives, w.objects, w.frames, pid, f);
    }
  }

  /** An end gives back exactly what the process had charged, a free exactly the object's page. */
  lemma {:induction false} EndSpoken(w: World, w': World, pid: B.Pid)
    requires AfterEnd(w, w', pid)
    ensures Unspoken(w, w')
  {
    hide S.Ended, Spoken;
    EndedShape(w.b, pid, w.frames[pid], pid in w.objects);
    UnspokenEnd(w, w, w', pid);
  }

  lemma {:induction false} FreeSpoken(w: World, w': World, pid: B.Pid)
    requires AfterFree(w, w', pid)
    ensures Unspoken(w, w')
  {
    hide S.Freed, Spoken;
    FreedShape(w.b, pid, w.objects[pid]);
    UnspokenFree(w, w, w', pid);
  }

  lemma {:induction false} UnspokenTwice(w: World, mid: World, w': World)
    requires Unspoken(w, mid) && Unspoken(mid, w')
    ensures Unspoken(w, w')
  {
    hide Spoken;
    forall f ensures L.At(w'.b.pages, f) + Spoken(w.b.lives, w.objects, w.frames, f)
                     == L.At(w.b.pages, f) + Spoken(w'.b.lives, w'.objects, w'.frames, f) {
      assert L.At(mid.b.pages, f) + Spoken(w.b.lives, w.objects, w.frames, f)
          == L.At(w.b.pages, f) + Spoken(mid.b.lives, mid.objects, mid.frames, f);
    }
  }

  lemma {:induction false} CountingLess(
      counted: map<B.Pid, F.Frame>, lives: map<B.Pid, F.Frame>, objects: map<B.Pid, F.Frame>, pid: B.Pid)
    ensures pid in objects ==> Counting(counted, lives - {pid}, objects) == Counting(counted, lives, objects)
    ensures pid !in objects ==> Counting(counted, lives - {pid}, objects) == Counting(counted, lives, objects) - {pid}
    ensures pid !in lives ==> Counting(counted, lives, objects - {pid}) == Counting(counted, lives, objects) - {pid}
  {
  }

  lemma {:induction false} PareMore(
      slots: map<H.Chains.Place, H.Holding>, ended: set<B.Pid>, gone: set<F.Frame>, pid: B.Pid)
    ensures H.WithoutPid(Pare(slots, ended, gone), pid) == Pare(slots, ended + {pid}, gone)
  {
  }

  lemma {:induction false} PareDead(
      slots: map<H.Chains.Place, H.Holding>, ended: set<B.Pid>, gone: set<F.Frame>, f: F.Frame)
    ensures (map p | p in Pare(slots, ended, gone) ::
               if Naming(Pare(slots, ended, gone)[p], f) then H.Dead else Pare(slots, ended, gone)[p])
         == Pare(slots, ended, gone + {f})
  {
  }

  lemma {:induction false} ParedFree(w0: World, w: World, w': World, ended: set<B.Pid>, freed: set<B.Pid>, pid: B.Pid)
    requires Pared(w0, w, ended, freed) && AfterFree(w, w', pid) && pid in w0.procs
    requires w.procs[pid].frame == w0.procs[pid].frame
    ensures Pared(w0, w', ended, freed + {pid})
  {
    hide S.Meanwhile, S.Freed, Gone, Pare, Counting, Unspoken;
    FreedShape(w.b, pid, w.objects[pid]);
    S.MeanwhileFreed(w0.b, w.b, pid, w.objects[pid]);
    UnspokenFree(w0, w, w', pid);
    PareDead(w0.t.slots, ended, Gone(w0.procs, freed), w0.procs[pid].frame);
    GoneMore(w0.procs, freed, pid);
    MinusTwice(w0.objects, freed, pid);
    CountingLess(w0.b.counted, w.b.lives, w.objects, pid);
  }

  lemma {:induction false} GoneMore(procs: map<B.Pid, Proc>, freed: set<B.Pid>, pid: B.Pid)
    requires pid in procs
    ensures Gone(procs, freed + {pid}) == Gone(procs, freed) + {procs[pid].frame}
  {
    forall g | g in Gone(procs, freed) + {procs[pid].frame} ensures g in Gone(procs, freed + {pid}) {
      if g in Gone(procs, freed) {
        var x :| x in procs && x in freed && procs[x].frame == g;
        assert x in freed + {pid};
      } else {
        assert pid in freed + {pid};
      }
    }
  }

  lemma {:induction false} HeardEnd(
      procs: map<B.Pid, Proc>, lives: map<B.Pid, F.Frame>, owners: map<F.Frame, F.Frame>, pid: B.Pid)
    requires Heard(procs, lives, owners)
    ensures (pid in procs ==> procs[pid].ear.Some?) ==> Heard(procs, lives - {pid}, owners)
    ensures Heard(procs - {pid}, lives - {pid}, owners) && Heard(procs - {pid}, lives, owners)
  {
  }

  // --- Whose ends and whose frees a destruction makes ---------------------------------------------------------------

  ghost function Dying(w: World): set<F.Frame> { B.DoomFrames(w.b.doom) }

  /** The processes below PID `n` running in dying budgets. */
  ghost function Killed(w: World, n: nat): set<B.Pid> { set x | x in w.b.lives && x < n && w.b.lives[x] in Dying(w) }

  ghost predicate Told(procs: map<B.Pid, Proc>, allowed: set<B.Pid>, x: B.Pid) {
    x in procs && procs[x].ear.Some? && x in allowed
  }

  /** Those of them whose notice nobody is to hear: their objects go at once. */
  ghost function Unheard(w: World, allowed: set<B.Pid>, n: nat): set<B.Pid> {
    set x | x in Killed(w, n) && x in w.procs && !Told(w.procs, allowed, x)
  }

  /** The objects of PIDs below `n` charged to dying budgets. */
  ghost function Charged(w: World, n: nat): set<B.Pid> { set x | x in w.objects && x < n && w.objects[x] in Dying(w) }

  ghost predicate EarDying(w: World, x: B.Pid) {
    x in w.procs && w.procs[x].ear.Some? && w.procs[x].ear.value in w.t.owners
    && w.t.owners[w.procs[x].ear.value] in Dying(w)
  }

  /** The objects of dead processes below PID `n` whose notice a dying budget's endpoint was owed. */
  ghost function Deaf(w: World, ended: set<B.Pid>, freed: set<B.Pid>, n: nat): set<B.Pid> {
    set x | x in w.procs && x < n && x !in freed && EarDying(w, x) && (x !in w.b.lives || x in ended)
  }

  /** The objects not freed; those below PID `n` with an ear a dying budget owned have lost it. */
  ghost function Eared(w: World, freed: set<B.Pid>, n: nat): map<B.Pid, Proc> {
    map x | x in w.procs && x !in freed :: if x < n && EarDying(w, x) then Proc(w.procs[x].frame, None) else w.procs[x]
  }

  lemma {:induction false} KilledNext(w: World, allowed: set<B.Pid>, n: nat)
    ensures var hit := n in w.b.lives && w.b.lives[n] in Dying(w);
            && n !in Killed(w, n) && n !in Unheard(w, allowed, n)
            && Killed(w, n + 1) == (if hit then Killed(w, n) + {n} else Killed(w, n))
            && Unheard(w, allowed, n + 1)
               == if hit && n in w.procs && !Told(w.procs, allowed, n) then Unheard(w, allowed, n) + {n}
                 else Unheard(w, allowed, n)
  {
  }

  lemma {:induction false} ChargedNext(w: World, n: nat)
    ensures n !in Charged(w, n)
    ensures Charged(w, n + 1) == Charged(w, n) + if n in w.objects && w.objects[n] in Dying(w) then {n} else {}
  {
  }

  lemma {:induction false} DeafNext(w: World, ended: set<B.Pid>, freed: set<B.Pid>, n: nat)
    ensures n !in Deaf(w, ended, freed, n)
    ensures Deaf(w, ended, freed, n + 1) == Deaf(w, ended, freed, n)
              + if n in w.procs && n !in freed && EarDying(w, n) && (n !in w.b.lives || n in ended) then {n} else {}
  {
    hide EarDying;
  }

  /** A process that ends with the subtree: one running in it, or one whose object it paid for. */
  ghost predicate Ends(w: World, doomed: set<F.Frame>, x: B.Pid) {
    x in w.b.lives && (w.b.lives[x] in doomed || (x in w.objects && w.objects[x] in doomed))
  }

  /** An object that outlives the subtree: somebody else paid for it, and its process runs on outside, or its notice
      is owed, or may flow, to an endpoint somebody else owns.
    */
  ghost predicate Outlives(w: World, doomed: set<F.Frame>, allowed: set<B.Pid>, x: B.Pid) {
    && x in w.objects && x in w.procs && w.objects[x] !in doomed
    && ((x in w.b.lives && w.b.lives[x] !in doomed) ||
        (w.procs[x].ear.Some? && w.procs[x].ear.value in w.t.owners && w.t.owners[w.procs[x].ear.value] !in doomed
         && (x in w.b.lives ==> x in allowed)))
  }

  ghost function Ended(w: World, doomed: set<F.Frame>): set<B.Pid> { set x | x in w.b.lives && Ends(w, doomed, x) }

  ghost function Freed(w: World, doomed: set<F.Frame>, allowed: set<B.Pid>): set<B.Pid> {
    set x | x in w.objects && !Outlives(w, doomed, allowed, x)
  }

  lemma {:induction false} EndsAre(w: World)
    requires forall x :: x in w.b.lives || x in w.objects ==> x < PIDS
    ensures Killed(w, PIDS) + (Charged(w, PIDS) * w.b.lives.Keys) == Ended(w, Dying(w))
  {
  }

  lemma {:induction false} FreesAre(w: World, allowed: set<B.Pid>)
    requires Heard(w.procs, w.b.lives, w.t.owners) && w.procs.Keys == w.objects.Keys
    requires forall x :: x in w.b.lives || x in w.objects ==> x < PIDS
    ensures var freed := Unheard(w, allowed, PIDS) + Charged(w, PIDS);
            freed + Deaf(w, Ended(w, Dying(w)), freed, PIDS) == Freed(w, Dying(w), allowed)
  {
    hide Dying;
    var freed := Unheard(w, allowed, PIDS) + Charged(w, PIDS);
    forall x ensures x in freed + Deaf(w, Ended(w, Dying(w)), freed, PIDS) <==> x in Freed(w, Dying(w), allowed) {
      if x in w.objects { assert x in w.procs && x < PIDS; }
    }
  }

  // --- The state in the middle of a destruction --------------------------------------------------------------------

  /** The marked subtree can be lifted, and every dead process left is owed a notice. */
  ghost predicate Midway(w0: World, w: World, ended: set<B.Pid>, freed: set<B.Pid>) {
    && Joint(w) && Pared(w0, w, ended, freed) && Heard(w.procs, w.b.lives, w.t.owners)
    && w.b.doom.Doom? && S.Liftable(w.b.store, w.b.doom.top, w.b.doom.top, w.b.doom.kids)
  }

  lemma {:induction false} MidwayTells(w0: World, w: World, ended: set<B.Pid>, freed: set<B.Pid>)
    requires Midway(w0, w, ended, freed)
    ensures Joint(w) && w.b.doom.Doom? && w.b.doom == w0.b.doom && w.objects == w0.objects - freed
    ensures w.b.lives == w0.b.lives - ended && w.t.owners == w0.t.owners && w.procs.Keys == w.objects.Keys
  {
  }

  lemma {:induction false} MidwayEnd(w0: World, w: World, w': World, ended: set<B.Pid>, freed: set<B.Pid>, pid: B.Pid)
    requires Midway(w0, w, ended, freed) && Joint(w') && AfterEnd(w, w', pid)
    requires pid in w.procs ==> w.procs[pid].ear.Some?
    ensures Midway(w0, w', ended + {pid}, freed)
  {
    hide Joint, Pared, Heard, S.Liftable, S.Ended;
    ParedEnd(w0, w, w', ended, freed, pid);
    HeardEnd(w.procs, w.b.lives, w.t.owners, pid);
    EndedShape(w.b, pid, w.frames[pid], pid in w.objects);
    S.EndedLiftable(w.b, pid, w.frames[pid], pid in w.objects, w.b.doom.top, w.b.doom.kids);
  }

  lemma {:induction false} MidwayFree(w0: World, w: World, w': World, ended: set<B.Pid>, freed: set<B.Pid>, pid: B.Pid)
    requires Midway(w0, w, ended, freed) && Joint(w') && AfterFree(w, w', pid)
    requires pid in w0.procs && w.procs[pid].frame == w0.procs[pid].frame
    ensures Midway(w0, w', ended, freed + {pid})
  {
    hide Joint, Pared, Heard, S.Liftable, S.Freed;
    ParedFree(w0, w, w', ended, freed, pid);
    HeardEnd(w.procs, w.b.lives, w.t.owners, pid);
    FreedShape(w.b, pid, w.objects[pid]);
    S.FreedLiftable(w.b, pid, w.objects[pid], w.b.doom.top, w.b.doom.kids);
  }

  /** A process ended and its object freed with it. */
  lemma {:induction false} MidwayBoth(
      w0: World, w: World, mid: World, w': World, ended: set<B.Pid>, freed: set<B.Pid>, pid: B.Pid)
    requires Midway(w0, w, ended, freed) && AfterEnd(w, mid, pid) && Joint(w') && AfterFree(mid, w', pid)
    requires pid in w0.procs && w.procs[pid].frame == w0.procs[pid].frame
    ensures Midway(w0, w', ended + {pid}, freed + {pid})
  {
    hide Joint, Pared, Heard, S.Liftable, S.Ended, S.Freed;
    ParedEnd(w0, w, mid, ended, freed, pid);
    ParedFree(w0, mid, w', ended + {pid}, freed, pid);
    HeardEnd(w.procs, w.b.lives, w.t.owners, pid);
    EndedShape(w.b, pid, w.frames[pid], pid in w.objects);
    S.EndedLiftable(w.b, pid, w.frames[pid], pid in w.objects, w.b.doom.top, w.b.doom.kids);
    FreedShape(mid.b, pid, mid.objects[pid]);
    S.FreedLiftable(mid.b, pid, mid.objects[pid], w.b.doom.top, w.b.doom.kids);
  }

  /** An exit endpoint is to go: its process has nobody to report to. */
  lemma {:induction false} MidwayDeaf(w0: World, w: World, ended: set<B.Pid>, freed: set<B.Pid>, pid: B.Pid)
    requires Midway(w0, w, ended, freed) && pid in w.procs
    ensures var w' := w.(procs := w.procs[pid := Proc(w.procs[pid].frame, None)]);
            Joint(w') && (pid in w.b.lives ==> Midway(w0, w', ended, freed))
  {
    hide H.Sound, Funded, S.Meanwhile, S.Liftable;
    AttachedSame(w.procs, w.procs[pid := Proc(w.procs[pid].frame, None)], w.objects, w.b.store.Keys, w.t.slots);
  }

  lemma {:induction false} AttachedSame(
      procs: map<B.Pid, Proc>, procs': map<B.Pid, Proc>, objects: map<B.Pid, F.Frame>, budgets: set<F.Frame>,
      slots: map<H.Chains.Place, H.Holding>)
    requires Attached(procs, objects, budgets, slots)
    requires procs'.Keys == procs.Keys && forall x :: x in procs ==> procs'[x].frame == procs[x].frame
    ensures Attached(procs', objects, budgets, slots)
  {
    assert ObjectFrames(procs') == ObjectFrames(procs) by {
      forall g | g in ObjectFrames(procs) ensures g in ObjectFrames(procs') {
        var x :| x in procs && procs[x].frame == g;
        assert procs'[x].frame == g;
      }
      forall g | g in ObjectFrames(procs') ensures g in ObjectFrames(procs) {
        var x :| x in procs' && procs'[x].frame == g;
        assert procs[x].frame == g;
      }
    }
  }

  lemma {:induction false} MidwayDeafFree(
      w0: World, w: World, mid: World, w': World, ended: set<B.Pid>, freed: set<B.Pid>, pid: B.Pid)
    requires Midway(w0, w, ended, freed) && pid in w.procs && pid in w0.procs
    requires w.procs[pid].frame == w0.procs[pid].frame
    requires mid == w.(procs := w.procs[pid := Proc(w.procs[pid].frame, None)]) && AfterFree(mid, w', pid) && Joint(w')
    ensures Midway(w0, w', ended, freed + {pid})
  {
    hide Joint, Heard, S.Liftable, S.Freed, S.Meanwhile;
    ParedFree(w0, mid, w', ended, freed, pid);
    HeardEnd(w.procs, w.b.lives, w.t.owners, pid);
    assert mid.procs - {pid} == w.procs - {pid};
    FreedShape(mid.b, pid, mid.objects[pid]);
    S.FreedLiftable(mid.b, pid, mid.objects[pid], w.b.doom.top, w.b.doom.kids);
  }

  lemma {:induction false} DyingTells(b: B.Books, pid: B.Pid)
    requires B.Sound(b) && B.DyingIs(b.store, B.DoomFrames(b.doom))
    ensures pid in b.lives ==>
              b.lives[pid] in b.store && (b.store[b.lives[pid]].dying <==> b.lives[pid] in B.DoomFrames(b.doom))
  {
    hide B.Treed, B.DoomLinked, B.Rooted, B.Paid, B.RunsPaid;
  }

  lemma {:induction false} KilledNone(w: World, allowed: set<B.Pid>)
    ensures Killed(w, 0) == {} && Unheard(w, allowed, 0) == {} && w.procs - {} == w.procs
  {
  }

  lemma {:induction false} ToldSame(procs: map<B.Pid, Proc>, procs': map<B.Pid, Proc>, allowed: set<B.Pid>, pid: B.Pid)
    requires (pid in procs' <==> pid in procs) && (pid in procs ==> procs'[pid] == procs[pid])
    ensures Told(procs', allowed, pid) == Told(procs, allowed, pid)
  {
  }

  lemma {:induction false} MinusAll<V>(m: map<B.Pid, V>, a: set<B.Pid>, b: set<B.Pid>)
    ensures forall c :: b == a + c ==> m - a - c == m - b
  {
  }

  lemma {:induction false} ChargedNone(w: World)
    ensures Charged(w, 0) == {}
    ensures forall s: set<B.Pid> :: s + {} == s
    ensures forall s: set<B.Pid> :: s + ({} * w.b.lives.Keys) == s
  {
  }

  /** The object was freed with its killed process already, or is not a dying budget's. */
  lemma {:induction false} ChargedSame(w: World, ended: set<B.Pid>, freed: set<B.Pid>, n: nat)
    requires n in w.objects && w.objects[n] in Dying(w) ==> n in freed && n in ended
    ensures freed + Charged(w, n + 1) == freed + Charged(w, n)
    ensures ended + (Charged(w, n + 1) * w.b.lives.Keys) == ended + (Charged(w, n) * w.b.lives.Keys)
  {
  }

  lemma {:induction false} ChargedStep(w: World, ended: set<B.Pid>, freed: set<B.Pid>, n: nat)
    requires n in w.objects && w.objects[n] in Dying(w)
    ensures var e := ended + (Charged(w, n) * w.b.lives.Keys);
            ended + (Charged(w, n + 1) * w.b.lives.Keys) == e + if n in w.b.lives && n !in e then {n} else {}
    ensures freed + Charged(w, n + 1) == freed + Charged(w, n) + {n}
    ensures w.procs - (freed + Charged(w, n)) - {n} == w.procs - (freed + Charged(w, n + 1))
  {
  }

  lemma {:induction false} EaredNone(w: World, ended: set<B.Pid>, freed: set<B.Pid>)
    ensures Deaf(w, ended, freed, 0) == {} && freed + {} == freed && Eared(w, freed, 0) == w.procs - freed
  {
    hide EarDying;
  }

  lemma {:induction false} EaredNext(w: World, ended: set<B.Pid>, freed: set<B.Pid>, n: nat)
    ensures var f := freed + Deaf(w, ended, freed, n);
            var live := n in w.b.lives && n !in ended;
            && (n in Eared(w, f, n) <==> n in w.procs && n !in freed)
            && (n in w.procs && n !in freed ==> Eared(w, f, n)[n] == w.procs[n])
            && freed + Deaf(w, ended, freed, n + 1)
               == (if n in w.procs && n !in freed && EarDying(w, n) && !live then f + {n} else f)
            && Eared(w, freed + Deaf(w, ended, freed, n + 1), n + 1)
               == if n in w.procs && n !in freed && EarDying(w, n) then
                    if live then Eared(w, f, n)[n := Proc(w.procs[n].frame, None)] else Eared(w, f, n) - {n}
                  else Eared(w, f, n)
  {
    hide EarDying;
    DeafNext(w, ended, freed, n);
    DeafBelow(w, ended, freed, n);
  }

  lemma {:induction false} DeafBelow(w: World, ended: set<B.Pid>, freed: set<B.Pid>, n: nat)
    ensures forall x :: x in Deaf(w, ended, freed, n) ==> x < n
  {
    hide EarDying;
  }

  lemma {:induction false} EarTells(w0: World, w: World, ended: set<B.Pid>, freed: set<B.Pid>, pid: B.Pid)
    requires Midway(w0, w, ended, freed) && pid in w.procs && pid in w0.procs && w.procs[pid] == w0.procs[pid]
    requires B.DyingIs(w.b.store, B.DoomFrames(w.b.doom))
    ensures w.procs[pid].ear.Some? ==>
              && w.procs[pid].ear.value in w.t.owners && w.t.owners[w.procs[pid].ear.value] in w.b.store
              && (w.b.store[w.t.owners[w.procs[pid].ear.value]].dying <==> EarDying(w0, pid))
    ensures w.procs[pid].ear.None? ==> !EarDying(w0, pid)
  {
    hide H.Sound, Funded, Attached, S.Meanwhile, S.Liftable, Unspoken, Pare;
    MidwayTells(w0, w, ended, freed);
  }

  // --- The end -----------------------------------------------------------------------------------------------------

  /** Nothing left runs in a dying budget, or was created from one. */
  ghost predicate NoneInside(w: World) {
    && (forall x :: x in w.b.lives ==> w.b.lives[x] !in Dying(w))
    && S.CreatorsThere(w.objects, w.b.store.Keys - Dying(w))
  }

  lemma {:induction false} InsideTells(w: World)
    requires NoneInside(w)
    ensures forall x :: x in w.b.lives ==> w.b.lives[x] !in B.DoomFrames(w.b.doom)
    ensures S.CreatorsThere(w.objects, w.b.store.Keys - B.DoomFrames(w.b.doom))
  {
  }

  /** Every handle that depended on the subtree dead, its endpoints and devices and its budgets freed. */
  ghost predicate Over(w: World, w': World) {
    && B.Sound(w.b) && w.b.doom.Doom? && w'.b == B.Destroyed(w.b)
    && w'.objects == w.objects && w'.procs == w.procs && w'.frames == w.frames
    && w'.t.slots == H.Swept(w.t, Dying(w)) && w'.t.holders == w.t.holders
    && w'.t.owners == (map e | e in w.t.owners && w.t.owners[e] !in Dying(w) :: w.t.owners[e])
    && (forall p :: p in w'.t.slots && w'.t.slots[p].Live? ==> !H.Doomed(w.t.owners, w'.t.slots[p].handle, Dying(w)))
  }

  lemma {:induction false} GoneAre(w: World, mid: World, gone: set<F.Frame>)
    requires OwnersThere(w.t.owners, w.b.store.Keys) && B.DyingIs(w.b.store, Dying(w)) && mid.t.owners == w.t.owners
    requires gone == set e | e in w.t.owners && w.t.owners[e] in w.b.store && w.b.store[w.t.owners[e]].dying
    requires forall p :: p in mid.t.slots && mid.t.slots[p].Live? ==>
               !H.Doomed(w.t.owners, mid.t.slots[p].handle, Dying(w))
    ensures gone == set e | e in w.t.owners && w.t.owners[e] in Dying(w)
    ensures w.t.owners - gone == map e | e in w.t.owners && w.t.owners[e] !in Dying(w) :: w.t.owners[e]
    ensures forall p :: p in mid.t.slots && mid.t.slots[p].Live? ==> !H.NamesOne(mid.t.slots[p].handle.names, gone)
  {
    forall p | p in mid.t.slots && mid.t.slots[p].Live? ensures !H.NamesOne(mid.t.slots[p].handle.names, gone) {
      assert !H.Doomed(w.t.owners, mid.t.slots[p].handle, Dying(w));
    }
  }

  lemma {:induction false} OverIs(w: World, mid: World, last: World, w': World, gone: set<F.Frame>)
    requires B.Sound(w.b) && w.b.doom.Doom? && w'.b == B.Destroyed(w.b)
    requires mid.t.slots == H.Swept(w.t, Dying(w)) && mid.t.owners == w.t.owners && mid.t.holders == w.t.holders
    requires forall p :: p in mid.t.slots && mid.t.slots[p].Live? ==>
               !H.Doomed(w.t.owners, mid.t.slots[p].handle, Dying(w))
    requires w.t.owners - gone == map e | e in w.t.owners && w.t.owners[e] !in Dying(w) :: w.t.owners[e]
    requires last.t.slots == mid.t.slots && last.t.holders == mid.t.holders && last.t.owners == mid.t.owners - gone
    requires w'.t == last.t && w'.objects == w.objects && w'.procs == w.procs && w'.frames == w.frames
    ensures Over(w, w')
  {
    hide B.Sound, B.Destroyed, H.Swept, H.Doomed, Dying;
  }

  lemma {:induction false} OverKeeps(w: World, last: World, w': World)
    requires Joint(w) && NoneInside(w) && Over(w, w') && last.t == w'.t && last.lists == w'.lists
    requires H.Sound(last.t, w.b.store, last.lists)
    ensures Joint(w')
  {
    hide B.Sound, B.Destroyed, H.Sound, Funded, S.CreatorsThere;
    OverApart(w, w');
    TablesOutlive(w'.t, w'.lists, w.b);
    FundedOutlives(w.b, w.objects, w.frames);
    S.DestroyedLives(w.b);
    DestroyedLinks(w.b);
    AttachedLess(w.procs, w.objects, w.b.store.Keys, w.t.slots, w'.b.store.Keys, w'.t.slots);
  }

  lemma {:induction false} OverApart(w: World, w': World)
    requires Over(w, w')
    ensures forall p :: p in w'.t.slots && w'.t.slots[p].Live? ==>
              !H.Doomed(w'.t.owners, w'.t.slots[p].handle, Dying(w))
    ensures forall p :: p in w'.t.slots ==> p in w.t.slots && (w'.t.slots[p].Live? ==> w'.t.slots[p] == w.t.slots[p])
  {
    hide B.Sound, B.Destroyed;
  }

  lemma {:induction false} AttachedLess(
      procs: map<B.Pid, Proc>, objects: map<B.Pid, F.Frame>, budgets: set<F.Frame>,
      slots: map<H.Chains.Place, H.Holding>,
      budgets': set<F.Frame>, slots': map<H.Chains.Place, H.Holding>)
    requires Attached(procs, objects, budgets, slots) && budgets' <= budgets
    requires forall p :: p in slots' ==> p in slots && (slots'[p].Live? ==> slots'[p] == slots[p])
    ensures Attached(procs, objects, budgets', slots')
  {
    hide ObjectFrames;
  }

  // --- From the mark to the end --------------------------------------------------------------------------------------

  lemma {:induction false} MarkedShape(b: B.Books, marked: B.Books, top: F.Frame)
    requires B.MarkedAt(b, marked, top)
    ensures F.SameRise(b.store, marked.store) && top in b.store && b.store[top].parent.Some?
    ensures b.store[top].parent.value in b.store
    ensures marked.store.Keys == b.store.Keys && marked.store[top].parent == b.store[top].parent
    ensures marked.lives == b.lives && marked.runs == b.runs && marked.pages == b.pages && marked.counted == b.counted
    ensures marked.doom.Doom? && marked.doom.top == top && B.DoomFrames(marked.doom) == Subtree(b.tree, top)
  {
    hide B.WeightBack, F.KidsOf;
  }

  /** Ledger links, processes and charges the same, nothing of the world but its meters and marks has changed. */
  lemma {:induction false} JointStays(w: World, b': B.Books)
    requires Joint(w) && F.SameRise(w.b.store, b'.store) && b'.store.Keys == w.b.store.Keys
    requires b'.lives == w.b.lives && b'.runs == w.b.runs && b'.pages == w.b.pages
    ensures Joint(w.(b := b'))
  {
    hide H.Sound, Funded, Attached, OwnersThere, F.SameRise;
    TablesStay(w.t, w.lists, w.b.store, b'.store);
    FundedStays(w.b, b', w.objects, w.frames);
  }

  lemma {:induction false} MidwayStarts(w: World, b': B.Books, top: F.Frame)
    requires Whole(w) && B.MarkedAt(w.b, b', top) && S.Liftable(b'.store, top, top, b'.doom.kids)
    requires w.b.counted.Keys == w.b.lives.Keys + w.objects.Keys
    ensures Midway(w.(b := b'), w.(b := b'), {}, {})
  {
    hide Joint, Pared, Heard, B.MarkedAt, S.Liftable, S.Meanwhile;
    MarkedShape(w.b, b', top);
    JointStays(w, b');
    S.MeanwhileNothing(w.b, b', top);
    ParedNone(w.(b := b'));
  }

  /** The processes and objects that go with the subtree have gone; everything else is as it was at the mark. */
  ghost predicate Emptied(w0: World, w: World, allowed: set<B.Pid>) {
    && Pared(w0, w, Ended(w0, Dying(w0)), Freed(w0, Dying(w0), allowed))
    && w.procs == Eared(w0, Freed(w0, Dying(w0), allowed), PIDS) && Heard(w.procs, w.b.lives, w.t.owners)
  }

  lemma {:induction false} PidsBounded(b: B.Books, objects: map<B.Pid, F.Frame>)
    requires B.Sound(b) && b.counted.Keys == b.lives.Keys + objects.Keys
    ensures forall x :: x in b.lives || x in objects ==> x < PIDS
  {
    hide B.Treed, B.DoomLinked, B.Rooted, B.Paid, B.RunsPaid, B.Living;
    forall x | x in b.lives || x in objects ensures x < PIDS {
      assert x in b.counted;
      assert B.IsPid(x);
    }
  }

  lemma {:induction false} EmptiedIs(w0: World, w: World, allowed: set<B.Pid>)
    requires Heard(w0.procs, w0.b.lives, w0.t.owners) && w0.procs.Keys == w0.objects.Keys
    requires B.Sound(w0.b) && w0.b.counted.Keys == w0.b.lives.Keys + w0.objects.Keys
    requires var ended := Killed(w0, PIDS) + (Charged(w0, PIDS) * w0.b.lives.Keys);
             var freed := Unheard(w0, allowed, PIDS) + Charged(w0, PIDS);
             var all := freed + Deaf(w0, ended, freed, PIDS);
             Midway(w0, w, ended, all) && w.procs == Eared(w0, all, PIDS)
    ensures Emptied(w0, w, allowed)
  {
    hide Joint, Pared, Heard, B.Sound, Killed, Charged, Unheard, Deaf, Ended, Freed, Eared, S.Liftable, Dying;
    PidsBounded(w0.b, w0.objects);
    EndsAre(w0);
    FreesAre(w0, allowed);
  }

  lemma {:induction false} EmptiedLifted(w0: World, w: World, allowed: set<B.Pid>)
    requires Emptied(w0, w, allowed) && Joint(w)
    ensures var b' := w.b.(store := S.Unladen(w.b.store, B.DoomFrames(w.b.doom)));
            Emptied(w0, w.(b := b'), allowed) && Joint(w.(b := b')) && b'.doom == w0.b.doom
  {
    hide Joint, Heard, Ended, Freed, Eared, S.Meanwhile, Spoken, Counting, Gone, Pare;
    var b' := w.b.(store := S.Unladen(w.b.store, B.DoomFrames(w.b.doom)));
    S.MeanwhileLifted(w0.b, w.b);
    MeanwhileDoom(w0.b, w.b);
    JointStays(w, b');
  }

  lemma {:induction false} MeanwhileDoom(marked: B.Books, b: B.Books)
    requires S.Meanwhile(marked, b)
    ensures b.doom == marked.doom && b.doom.Doom? && b.store.Keys == marked.store.Keys
    ensures b.doom.top in marked.store ==> b.store[b.doom.top].parent == marked.store[b.doom.top].parent
  {
  }

  lemma {:induction false} EmptiedInside(w0: World, w: World, allowed: set<B.Pid>)
    requires Emptied(w0, w, allowed) && S.CreatorsThere(w.objects, w.b.store.Keys)
    ensures NoneInside(w) && Dying(w) == Dying(w0)
  {
    hide Pare, Spoken, Eared, Counting, Gone, Dying;
    MeanwhileDoom(w0.b, w.b);
    DyingSame(w0, w);
    forall x | x in w.objects ensures w.objects[x] in w.b.store.Keys - Dying(w) {
      assert x !in Freed(w0, Dying(w0), allowed);
      assert Outlives(w0, Dying(w0), allowed, x);
    }
    forall x | x in w.b.lives ensures w.b.lives[x] !in Dying(w) {
      assert x !in Ended(w0, Dying(w0));
      assert !Ends(w0, Dying(w0), x);
    }
  }

  lemma {:induction false} DyingSame(w0: World, w: World)
    requires w0.b.doom == w.b.doom
    ensures Dying(w0) == Dying(w)
  {
  }

  lemma {:induction false} UnheardKilled(w: World, allowed: set<B.Pid>)
    ensures Unheard(w, allowed, PIDS) <= Killed(w, PIDS)
  {
  }

  lemma {:induction false} MidwayLiftable(w0: World, w: World, ended: set<B.Pid>, freed: set<B.Pid>)
    requires Midway(w0, w, ended, freed)
    ensures w.b.doom.Doom? && S.Liftable(w.b.store, w.b.doom.top, w.b.doom.top, w.b.doom.kids)
  {
  }

  // --- What a destruction leaves -------------------------------------------------------------------------------------

  /** The objects left: those whose exit endpoint `doomed` owned have nobody to report to. */
  ghost function Deafened(w: World, doomed: set<F.Frame>, freed: set<B.Pid>): map<B.Pid, Proc> {
    map x | x in w.procs && x !in freed ::
      var e := w.procs[x].ear;
      if e.Some? && e.value in w.t.owners && w.t.owners[e.value] in doomed then Proc(w.procs[x].frame, None)
      else w.procs[x]
  }

  /** The tables left: none of a process `ended`, every handle to an object `gone` dead, and every handle whose stamp
      is in `doomed` or that names something `doomed` owned.
    */
  ghost function Revoked(
      t: H.Tables, doomed: set<F.Frame>, ended: set<B.Pid>, gone: set<F.Frame>): map<H.Chains.Place, H.Holding> {
    map p | p in t.slots && p.pid !in ended ::
      if NamingOne(t.slots[p], gone) || (t.slots[p].Live? && H.Doomed(t.owners, t.slots[p].handle, doomed))
      then H.Dead else t.slots[p]
  }

  /** What a budget's charges are after its own share of the ends and frees, and of the subtree's quarantined runs. */
  ghost predicate Settles(w: World, w': World, f: F.Frame, quarantined: nat) {
    L.At(w'.b.pages, f) + Spoken(w.b.lives, w.objects, w.frames, f)
    == L.At(w.b.pages, f) + Spoken(w'.b.lives, w'.objects, w'.frames, f) + quarantined
  }

  /** Who answers for what `f` answered for, once `doomed` is gone: `p` for all of them. */
  function HandedTo(f: Option<F.Frame>, doomed: set<F.Frame>, p: F.Frame): Option<F.Frame> {
    if f.Some? && f.value in doomed then Some(p) else f
  }

  /** What is left of `w` once the subtree `top` heads is gone. */
  ghost predicate Leaves(w: World, w': World, top: F.Frame, allowed: set<B.Pid>)
    requires top in w.b.store && w.b.store[top].parent.Some?
  {
    var doomed, p := Subtree(w.b.tree, top), w.b.store[top].parent.value;
    var ended, freed := Ended(w, doomed), Freed(w, doomed, allowed);
    && w'.b.lives == w.b.lives - ended && w'.frames == w.frames - ended && w'.objects == w.objects - freed
    && w'.procs == Deafened(w, doomed, freed)
    && w'.b.counted == (map x | x in w.b.counted && (x in w'.b.lives || x in w'.objects) ::
                          if w.b.counted[x] in doomed then p else w.b.counted[x])
    && |w'.b.runs| == |w.b.runs|
    && (forall i :: 0 <= i < |w.b.runs| ==>
          w'.b.runs[i] == B.Run(w.b.runs[i].npages, HandedTo(w.b.runs[i].charged, doomed, p)))
    && (forall f :: f in w'.b.store ==>
          && f in w.b.store && w'.b.store[f].parent == w.b.store[f].parent
          && w'.b.store[f].depth == w.b.store[f].depth)
    && (forall f :: f in w'.b.store ==> Settles(w, w', f, if f == p then B.RunPagesIn(w.b.runs, doomed) else 0))
    && w'.t.owners == (map e | e in w.t.owners && w.t.owners[e] !in doomed :: w.t.owners[e])
    && w'.t.slots == Revoked(w.t, doomed, ended, Gone(w.procs, freed))
  }

  lemma {:induction false} LeavesIs(w: World, w0: World, last: World, w': World, top: F.Frame, allowed: set<B.Pid>)
    requires w0 == w.(b := w0.b) && B.MarkedAt(w.b, w0.b, top) && Emptied(w0, last, allowed) && Over(last, w')
    requires B.DyingIs(last.b.store, B.DoomFrames(last.b.doom)) && forall x :: x in w.procs ==> x < PIDS
    ensures Leaves(w, w', top, allowed)
  {
    hide B.Sound, B.MarkedAt, B.Destroyed, Spoken, Counting, Gone, Pare, Eared, Ended, Freed, Deafened, Revoked,
         H.Swept, B.DyingIs, B.MovePids, B.MoveRuns, B.RunPagesIn, S.Meanwhile, Dying, Subtree, Heard;
    MarkedShape(w.b, w0.b, top);
    MeanwhileDoom(w0.b, last.b);
    DyingSame(w0, last);
    DyingIsDoom(w0);
    var doomed, p := Subtree(w.b.tree, top), w.b.store[top].parent.value;
    S.DestroyedParts(last.b);
    EndedSame(w, w0, doomed, allowed);
    DeafenedIs(w, w0, doomed, Freed(w, doomed, allowed));
    RevokedIs(last.t, w.t, doomed, Ended(w, doomed), Gone(w.procs, Freed(w, doomed, allowed)));
    HandedOver(w.b.counted, w'.b.lives, w'.objects, w.b.runs, doomed, p);
    RisesOn(w.b, w0.b, last.b, top);
    forall f | f in w'.b.store ensures Settles(w, w', f, if f == p then B.RunPagesIn(w.b.runs, doomed) else 0) {
      DestroyedCharges(last.b, f);
    }
  }

  lemma {:induction false} HandedOver(
      counted: map<B.Pid, F.Frame>, lives: map<B.Pid, F.Frame>, objects: map<B.Pid, F.Frame>, runs: seq<B.Run>,
      doomed: set<F.Frame>, p: F.Frame)
    ensures B.MovePids(Counting(counted, lives, objects), doomed, p)
         == map x | x in counted && (x in lives || x in objects) :: if counted[x] in doomed then p else counted[x]
    ensures |B.MoveRuns(runs, doomed, p)| == |runs|
    ensures forall i :: 0 <= i < |runs| ==>
              B.MoveRuns(runs, doomed, p)[i] == B.Run(runs[i].npages, HandedTo(runs[i].charged, doomed, p))
  {
  }

  /** No budget left is moved. */
  lemma {:induction false} RisesOn(b: B.Books, marked: B.Books, last: B.Books, top: F.Frame)
    requires B.MarkedAt(b, marked, top) && S.Meanwhile(marked, last) && B.Sound(last) && last.doom.Doom?
    ensures forall f :: f in B.Destroyed(last).store ==>
              && f in b.store && B.Destroyed(last).store[f].parent == b.store[f].parent
              && B.Destroyed(last).store[f].depth == b.store[f].depth
  {
    hide B.Sound, B.WeightBack, S.WithCharges, B.Mark, B.Destroyed, F.KidsOf;
    DestroyedLinks(last);
  }

  lemma {:induction false} DyingIsDoom(w: World)
    ensures Dying(w) == B.DoomFrames(w.b.doom)
  {
  }

  lemma {:induction false} EndedSame(w: World, w0: World, doomed: set<F.Frame>, allowed: set<B.Pid>)
    requires w0 == w.(b := w0.b) && w0.b.lives == w.b.lives
    ensures Ended(w0, doomed) == Ended(w, doomed) && Freed(w0, doomed, allowed) == Freed(w, doomed, allowed)
  {
  }

  lemma {:induction false} DeafenedIs(w: World, w0: World, doomed: set<F.Frame>, freed: set<B.Pid>)
    requires w0 == w.(b := w0.b) && Dying(w0) == doomed && forall x :: x in w.procs ==> x < PIDS
    ensures Eared(w0, freed, PIDS) == Deafened(w, doomed, freed)
  {
    hide Dying;
  }

  lemma {:induction false} RevokedIs(
      mid: H.Tables, t: H.Tables, doomed: set<F.Frame>, ended: set<B.Pid>, gone: set<F.Frame>)
    requires mid.owners == t.owners && mid.slots == Pare(t.slots, ended, gone)
    ensures H.Swept(mid, doomed) == Revoked(t, doomed, ended, gone)
  {
    hide H.Doomed;
  }

  lemma {:induction false} DestroyedCharges(b: B.Books, f: F.Frame)
    requires B.Sound(b) && b.doom.Doom? && b.store[b.doom.top].parent.Some? && f in B.Destroyed(b).store
    ensures L.At(B.Destroyed(b).pages, f)
         == L.At(b.pages, f)
            + if f == b.store[b.doom.top].parent.value then B.RunPagesIn(b.runs, B.DoomFrames(b.doom)) else 0
  {
    hide B.Sound, B.RunPagesIn, B.CountedWithin, B.MovePids, B.MoveRuns;
    S.EndFits(b);
    B.CarveCovered(b);
    DestroyedLinks(b);
  }

  lemma {:induction false} HeardAfter(w0: World, w: World, w': World, allowed: set<B.Pid>)
    requires Emptied(w0, w, allowed) && Over(w, w') && w'.b.lives == w.b.lives && Dying(w) == Dying(w0)
    requires forall x :: x in w0.procs ==> x < PIDS
    ensures Heard(w'.procs, w'.b.lives, w'.t.owners)
  {
    hide B.Sound, B.Destroyed, S.Meanwhile, Spoken, Counting, Pare, Gone, Freed, Ended, H.Swept, H.Doomed, Dying;
    forall x | x in w'.procs && w'.procs[x].ear.Some? ensures w'.procs[x].ear.value in w'.t.owners {
      assert x in w0.procs && !EarDying(w0, x);
      assert w'.procs[x] == w0.procs[x];
    }
  }

  lemma {:induction false} WholeTells(w: World)
    requires Whole(w)
    ensures w.procs.Keys == w.objects.Keys
  {
  }

  lemma {:induction false} OverTells(w: World, w': World)
    requires Over(w, w')
    ensures B.Sound(w.b) && w.b.doom.Doom? && w'.b == B.Destroyed(w.b) && w'.b.lives == w.b.lives
  {
    hide B.Sound, B.Destroyed;
    S.DestroyedLives(w.b);
  }

  lemma {:induction false} EmptiedTells(w0: World, w: World, allowed: set<B.Pid>)
    requires Emptied(w0, w, allowed)
    ensures S.Meanwhile(w0.b, w.b)
  {
  }

  /** No live handle is left that depended on the subtree or names an object that went with it. */
  lemma {:induction false} NoneLeft(
      t: H.Tables, doomed: set<F.Frame>, ended: set<B.Pid>, gone: set<F.Frame>, p: H.Chains.Place)
    requires p in Revoked(t, doomed, ended, gone) && Revoked(t, doomed, ended, gone)[p].Live?
    ensures var h := Revoked(t, doomed, ended, gone)[p].handle;
            !H.Doomed(t.owners, h, doomed) && !(h.names.ProcessObject? && h.names.frame in gone)
  {
  }

  // --- How a system comes to be ------------------------------------------------------------------------------------

  /** A handle table's new page is its process's. */
  function Bought(frames: map<B.Pid, nat>, pid: B.Pid, room: S.TableRoom): map<B.Pid, nat> {
    if room.Grows? then frames[pid := FramesOf(frames, pid) + 1] else frames
  }

  ghost predicate Vacant(t: H.Tables, pid: B.Pid, place: H.Chains.Place) {
    place.pid == pid && place !in t.slots && H.T.IsIndex(place.index)
  }

  /** Process `pid` has `child`, in `target`: its pages paid there, its object, in frame `g`, by the creator's budget,
      whose table holds its handle at `place`.
    */
  ghost predicate Made(
      w: World, w': World, child: B.Pid, pid: B.Pid, target: F.Frame, ear: F.Frame, g: F.Frame, place: H.Chains.Place,
      space: nat, room: S.TableRoom) {
    && pid in w.b.lives && w.b.lives[pid] in w.b.store && target in w.b.store
    && var home := w.b.lives[pid];
       && w'.b == S.WithProcess(w.b, child, home, target, space, room)
       && w'.objects == w.objects[child := home] && w'.procs == w.procs[child := Proc(g, Some(ear))]
       && w'.frames == Bought(w.frames[child := space], pid, room)
       && w'.t.slots == w.t.slots[place := H.Live(H.Handle(H.ProcessObject(g), 0, home))]
       && w'.t.owners == w.t.owners && w'.t.holders == w.t.holders[child := target]
  }

  lemma {:induction false} BornShape(
      b: B.Books, pid: B.Pid, caller: F.Frame, target: F.Frame, space: nat, room: S.TableRoom)
    requires caller in b.store && target in b.store
    ensures var b' := S.WithProcess(b, pid, caller, target, space, room);
            && F.SameRise(b.store, b'.store) && b'.lives == b.lives[pid := target] && b'.runs == b.runs
            && forall f :: L.At(b'.pages, f) == L.At(b.pages, f) + (if f == target then space else 0)
                                              + if f == caller then (if room.Grows? then 2 else 1) else 0
  {
  }

  /** A process made charges exactly what it and its object answer for, and the page the creator's table grew by. */
  lemma {:induction false} MadeSpoken(
      w: World, w': World, child: B.Pid, pid: B.Pid, target: F.Frame, ear: F.Frame, g: F.Frame, place: H.Chains.Place,
      space: nat, room: S.TableRoom)
    requires Made(w, w', child, pid, target, ear, g, place, space, room) && Funded(w.b, w.objects, w.frames)
    requires child !in w.b.lives && child !in w.objects && child < PIDS && pid < PIDS
    ensures Unspoken(w, w')
  {
    hide S.WithProcess, Funded, Spoken;
    var home, born := w.b.lives[pid], w.frames[child := space];
    BornShape(w.b, child, home, target, space, room);
    FramesKeyed(w.b, w.objects, w.frames);
    forall f ensures L.At(w'.b.pages, f) + Spoken(w.b.lives, w.objects, w.frames, f)
                     == L.At(w.b.pages, f) + Spoken(w'.b.lives, w'.objects, w'.frames, f) {
      SpokenBorn(w.b.lives, w.objects, w.frames, child, target, space, home, f);
      SpokenGrown(w'.b.lives, w'.objects, born, pid, 1, f);
    }
  }

  lemma {:induction false} FundedMade(
      w: World, w': World, child: B.Pid, pid: B.Pid, target: F.Frame, ear: F.Frame, g: F.Frame, place: H.Chains.Place,
      space: nat, room: S.TableRoom)
    requires Made(w, w', child, pid, target, ear, g, place, space, room) && Funded(w.b, w.objects, w.frames)
    requires child !in w.b.lives && child !in w.objects && child < PIDS && pid < PIDS
    ensures Funded(w'.b, w'.objects, w'.frames)
  {
    hide S.WithProcess, Funded, Spoken;
    BornShape(w.b, child, w.b.lives[pid], target, space, room);
    FramesKeyed(w.b, w.objects, w.frames);
    MadeSpoken(w, w', child, pid, target, ear, g, place, space, room);
    FundedMore(w.b, w.objects, w.frames, w'.b, w'.objects, w'.frames);
  }

  lemma {:induction false} FramesKeyed(b: B.Books, objects: map<B.Pid, F.Frame>, frames: map<B.Pid, nat>)
    requires Funded(b, objects, frames)
    ensures frames.Keys == b.lives.Keys
  {
  }

  lemma {:induction false} AttachedMore(
      procs: map<B.Pid, Proc>, objects: map<B.Pid, F.Frame>, budgets: set<F.Frame>,
      slots: map<H.Chains.Place, H.Holding>,
      child: B.Pid, x: Proc, creator: F.Frame, place: H.Chains.Place, h: H.Handle)
    requires Attached(procs, objects, budgets, slots) && child !in procs && h.names == H.ProcessObject(x.frame)
    requires x.frame !in ObjectFrames(procs) && x.frame !in budgets
    ensures Attached(procs[child := x], objects[child := creator], budgets, slots[place := H.Live(h)])
  {
    var procs', slots' := procs[child := x], slots[place := H.Live(h)];
    forall y | y in procs ensures procs[y].frame in ObjectFrames(procs) { }
    forall p | p in slots' && slots'[p].Live? && slots'[p].handle.names.ProcessObject?
      ensures slots'[p].handle.names.frame in ObjectFrames(procs')
    {
      if p == place {
        assert procs'[child].frame == x.frame;
      } else {
        var y :| y in procs && procs[y].frame == slots[p].handle.names.frame;
        assert procs'[y].frame == slots[p].handle.names.frame;
      }
    }
  }

  lemma {:induction false} WholeMade(
      w: World, w': World, child: B.Pid, pid: B.Pid, target: F.Frame, ear: F.Frame, g: F.Frame, place: H.Chains.Place,
      space: nat, room: S.TableRoom)
    requires Whole(w) && Made(w, w', child, pid, target, ear, g, place, space, room)
    requires H.Sound(w'.t, w'.b.store, w'.lists)
    requires child !in w.b.lives && child !in w.objects && child < PIDS && pid < PIDS
    requires g !in w.b.store && g !in ObjectFrames(w.procs) && ear in w.t.owners
    ensures Whole(w') && Unspoken(w, w')
  {
    hide H.Sound, Funded, S.WithProcess, Attached, Unspoken;
    MadeSpoken(w, w', child, pid, target, ear, g, place, space, room);
    BornShape(w.b, child, w.b.lives[pid], target, space, room);
    FundedMade(w, w', child, pid, target, ear, g, place, space, room);
    AttachedKeys(w.procs, w.objects, w.b.store.Keys, w.t.slots);
    AttachedMore(w.procs, w.objects, w.b.store.Keys, w.t.slots, child, Proc(g, Some(ear)), w.b.lives[pid], place,
                 H.Handle(H.ProcessObject(g), 0, w.b.lives[pid]));
  }

  lemma {:induction false} AttachedKeys(
      procs: map<B.Pid, Proc>, objects: map<B.Pid, F.Frame>, budgets: set<F.Frame>,
      slots: map<H.Chains.Place, H.Holding>)
    requires Attached(procs, objects, budgets, slots)
    ensures procs.Keys == objects.Keys
  {
  }

  lemma {:induction false} ChargedShape(b: B.Books, f: F.Frame, n: nat)
    requires f in b.store
    ensures F.SameRise(b.store, B.Charged(b, f, n).store) && B.Charged(b, f, n).lives == b.lives
    ensures B.Charged(b, f, n).runs == b.runs && B.Charged(b, f, n).doom == b.doom
    ensures forall x :: L.At(B.Charged(b, f, n).pages, x) == L.At(b.pages, x) + if x == f then n else 0
  {
  }

  lemma {:induction false} TableShape(b: B.Books, f: F.Frame, room: S.TableRoom)
    requires f in b.store
    ensures var b' := S.TableCharged(b, f, room);
            && F.SameRise(b.store, b'.store) && b'.lives == b.lives && b'.runs == b.runs && b'.doom == b.doom
            && forall x :: L.At(b'.pages, x) == L.At(b.pages, x) + if x == f && room.Grows? then 1 else 0
  {
    hide B.Charged;
    ChargedShape(b, f, 1);
  }

  lemma {:induction false} ObjectShape(b: B.Books, owner: F.Frame, f: F.Frame, room: S.TableRoom)
    requires owner in b.store && f in b.store
    ensures f in B.Charged(b, owner, 1).store
    ensures var b' := S.TableCharged(B.Charged(b, owner, 1), f, room);
            && F.SameRise(b.store, b'.store) && b'.store.Keys == b.store.Keys
            && b'.lives == b.lives && b'.runs == b.runs && b'.doom == b.doom
            && forall x :: L.At(b'.pages, x) == L.At(b.pages, x) + (if x == owner then 1 else 0)
                                              + if x == f && room.Grows? then 1 else 0
  {
    hide B.Charged, S.TableCharged;
    ChargedShape(b, owner, 1);
    TableShape(B.Charged(b, owner, 1), f, room);
  }

  /** Pages charged, one of them a process's own or none. */
  lemma {:induction false} FundedBought(w: World, b': B.Books, pid: B.Pid, room: S.TableRoom)
    requires Funded(w.b, w.objects, w.frames) && pid in w.b.lives && pid < PIDS
    requires b'.store.Keys == w.b.store.Keys && b'.lives == w.b.lives && b'.runs == w.b.runs
    requires forall f :: f in w.b.store ==>
               L.At(w.b.pages, f) + (if f == w.b.lives[pid] && room.Grows? then 1 else 0) <= L.At(b'.pages, f)
    ensures Funded(b', w.objects, Bought(w.frames, pid, room))
  {
    hide Funded, Spoken;
    FramesKeyed(w.b, w.objects, w.frames);
    forall f | f in w.b.store
      ensures Spoken(b'.lives, w.objects, Bought(w.frames, pid, room), f) + L.At(w.b.pages, f)
              <= Spoken(w.b.lives, w.objects, w.frames, f) + L.At(b'.pages, f)
    {
      SpokenGrown(w.b.lives, w.objects, w.frames, pid, 1, f);
    }
    FundedMore(w.b, w.objects, w.frames, b', w.objects, Bought(w.frames, pid, room));
  }

  /** The page a table grew by is its process's. */
  lemma {:induction false} BoughtSpoken(
      w: World, w': World, pid: B.Pid, room: S.TableRoom, owner: F.Frame, extra: nat)
    requires Funded(w.b, w.objects, w.frames) && pid in w.b.lives && pid < PIDS
    requires w'.b.lives == w.b.lives && w'.objects == w.objects && w'.frames == Bought(w.frames, pid, room)
    requires forall f :: L.At(w'.b.pages, f) == L.At(w.b.pages, f) + (if f == owner then extra else 0)
                                                + if f == w.b.lives[pid] && room.Grows? then 1 else 0
    ensures UnspokenBut(w, w', owner, extra) && (extra == 0 ==> Unspoken(w, w'))
  {
    hide Funded, Spoken;
    FramesKeyed(w.b, w.objects, w.frames);
    forall f ensures L.At(w'.b.pages, f) + Spoken(w.b.lives, w.objects, w.frames, f)
                     == L.At(w.b.pages, f) + Spoken(w'.b.lives, w'.objects, w'.frames, f)
                        + if f == owner then extra else 0 {
      SpokenGrown(w.b.lives, w.objects, w.frames, pid, 1, f);
    }
  }

  /** A handle that may be installed: one to a process names a process object. */
  ghost predicate Nameable(w: World, h: H.Handle) {
    H.Names(w.t, w.b.store, h) && (h.names.ProcessObject? ==> h.names.frame in ObjectFrames(w.procs))
  }

  /** A handle more at `place`, its page, if the table grows, with its process. */
  ghost predicate Placed(w: World, w': World, place: H.Chains.Place, h: H.Handle, room: S.TableRoom) {
    && w'.objects == w.objects && w'.procs == w.procs && w'.frames == Bought(w.frames, place.pid, room)
    && w'.t.slots == w.t.slots[place := H.Live(h)] && w'.t.holders == w.t.holders
  }

  lemma {:induction false} WholePlaced(w: World, w': World, place: H.Chains.Place, h: H.Handle, room: S.TableRoom)
    requires Whole(w) && Placed(w, w', place, h, room) && H.Sound(w'.t, w'.b.store, w'.lists)
    requires h.names.ProcessObject? ==> h.names.frame in ObjectFrames(w.procs)
    requires place.pid in w.b.lives && place.pid < PIDS
    requires w'.b.store.Keys == w.b.store.Keys && w'.b.lives == w.b.lives && w'.b.runs == w.b.runs
    requires forall f :: f in w.b.store ==>
               L.At(w.b.pages, f) + (if f == w.b.lives[place.pid] && room.Grows? then 1 else 0) <= L.At(w'.b.pages, f)
    requires w.t.owners.Keys <= w'.t.owners.Keys && OwnersThere(w'.t.owners, w.b.store.Keys)
    ensures Whole(w')
  {
    hide H.Sound, Funded, Bought, ObjectFrames, OwnersThere;
    FundedBought(w, w'.b, place.pid, room);
  }

  lemma {:induction false} OwnersMore(owners: map<F.Frame, F.Frame>, budgets: set<F.Frame>, e: F.Frame, owner: F.Frame)
    requires OwnersThere(owners, budgets) && owner in budgets
    ensures OwnersThere(owners[e := owner], budgets)
  {
  }

  lemma {:induction false} CarveShape(b: B.Books, p: F.Frame, child: F.Frame, id: nat, spec: B.Spec)
    requires p in b.store && child !in b.store
    ensures var b' := B.Carve(b, p, child, id, spec);
            && b'.store.Keys == b.store.Keys + {child} && b'.lives == b.lives && b'.runs == b.runs
            && (forall f :: f in b.store ==>
                  && b'.store[f].parent == b.store[f].parent && b'.store[f].depth == b.store[f].depth
                  && L.At(b'.pages, f) == L.At(b.pages, f))
  {
    hide F.WithKids, F.KidsOf;
  }

  /** A new budget has nothing charged to it that is spoken for. */
  lemma {:induction false} ChildApart(b: B.Books, objects: map<B.Pid, F.Frame>, frames: map<B.Pid, nat>, child: F.Frame)
    requires B.Sound(b) && S.CreatorsThere(objects, b.store.Keys) && child !in b.store
    ensures Spoken(b.lives, objects, frames, child) == 0 && B.RunPages(b.runs, child) == 0
  {
    hide B.Treed, B.DoomLinked, B.Rooted, B.Paid;
    FramesNone(b.lives, frames, child, PIDS);
    B.NoRuns(b.runs, child);
    B.CountsAt(objects, child);
  }

  lemma {:induction false} FundedCarved(w: World, b': B.Books, child: F.Frame)
    requires Funded(w.b, w.objects, w.frames) && B.Sound(w.b) && S.CreatorsThere(w.objects, w.b.store.Keys)
    requires child !in w.b.store
    requires b'.store.Keys == w.b.store.Keys + {child} && b'.lives == w.b.lives && b'.runs == w.b.runs
    requires forall f :: f in w.b.store ==> L.At(b'.pages, f) == L.At(w.b.pages, f)
    ensures Funded(b', w.objects, w.frames)
  {
    hide B.Sound, S.CreatorsThere, Spoken, B.RunPages;
    ChildApart(w.b, w.objects, w.frames, child);
  }

  lemma {:induction false} WholeCarved(w: World, p: F.Frame, child: F.Frame, id: nat, spec: B.Spec)
    requires Whole(w) && p in w.b.store && child !in w.b.store && child !in ObjectFrames(w.procs)
    requires B.Sound(w.b) && B.Sound(B.Carve(w.b, p, child, id, spec)) && S.CreatorsThere(w.objects, w.b.store.Keys)
    ensures Whole(w.(b := B.Carve(w.b, p, child, id, spec)))
  {
    hide B.Sound, B.Carve, H.Wired, H.Placed, Funded, H.Rising, H.Names, S.CreatorsThere, ObjectFrames;
    var b' := B.Carve(w.b, p, child, id, spec);
    CarveShape(w.b, p, child, id, spec);
    FundedCarved(w, b', child);
    TreeRises(b');
    FrameOf(w.procs);
    ObjectsApart(w, child);
    H.BudgetsChange(w.t, w.b.store, b'.store, w.lists, {});
  }

  lemma {:induction false} FrameOf(procs: map<B.Pid, Proc>)
    ensures forall x :: x in procs ==> procs[x].frame in ObjectFrames(procs)
  {
  }

  lemma {:induction false} ObjectsApart(w: World, child: F.Frame)
    requires Attached(w.procs, w.objects, w.b.store.Keys, w.t.slots) && child !in ObjectFrames(w.procs)
    ensures forall q :: q in w.t.slots && w.t.slots[q].Live? && w.t.slots[q].handle.names.ProcessObject? ==>
              w.t.slots[q].handle.names.frame !in w.b.store.Keys + {child}
  {
  }

  lemma {:induction false} QuarantinedShape(w: World, f: F.Frame, npages: nat)
    requires B.Sound(w.b) && Joint(w) && f in w.b.store
    requires Spoken(w.b.lives, w.objects, w.frames, f) + B.RunPages(w.b.runs, f) + npages <= L.At(w.b.pages, f)
    ensures Joint(w.(b := w.b.(runs := w.b.runs + [B.Run(npages, Some(f))])))
  {
    hide Spoken, B.RunPages, B.Treed, B.DoomLinked, B.Rooted, B.Paid, B.Counted, B.Living, H.Sound, Attached,
         OwnersThere;
    S.RunsMore(w.b, f, npages);
  }

  class Kernel {
    const budgets: C.Budgets
    const handles: H.Handles
    var procs: map<B.Pid, Proc>
    var frames: map<B.Pid, nat>

    ghost function View(): World
      reads this, budgets, handles
    {
      World(budgets.View(), budgets.objects, procs, frames, handles.View(), handles.lists)
    }

    ghost predicate Together()
      reads this, budgets, handles
    {
      budgets.Valid() && Joint(View())
    }

    ghost predicate Valid()
      reads this, budgets, handles
    {
      budgets.Settled() && Whole(View())
    }

    /** `root` alone, and nothing running. */
    constructor (root: F.Frame, limit: nat)
      ensures Valid() && fresh(budgets) && fresh(handles)
      ensures budgets.View() == S.RootOnly(root, limit) && handles.slots == map[] && procs == map[]
    {
      var b := new C.Budgets(root, limit);
      TreeRises(b.View());
      var h := new H.Handles(b.store);
      budgets, handles, procs, frames := b, h, map[], map[];
      new;
      FramesNone(map[], map[], root, PIDS);
    }

    /** A process ends: its table goes, its frames go back, and it runs no more. */
    method EndProcess(pid: B.Pid)
      requires Together() && pid in budgets.lives
      modifies this`frames, budgets, handles
      ensures Together() && AfterEnd(old(View()), View(), pid) && Unspoken(old(View()), View())
    {
      hide Funded, H.Sound, B.Sound, S.Ended, Attached, OwnersThere, B.DyingIs, S.CreatorsThere, B.RunPages, Unspoken,
           UnspokenBut;
      ghost var w := View();
      ProcessFunded(w.b, w.objects, w.frames, pid);
      handles.ProcessEnded(budgets.store, pid);
      budgets.ProcessEnded(pid, frames[pid]);
      frames := frames - {pid};
      EndKeeps(w, View(), pid);
      EndSpoken(w, View(), pid);
    }

    /** `free_object`, its process gone. */
    method FreeObject(pid: B.Pid)
      requires Together() && pid in procs && pid !in budgets.lives
      modifies this`procs, budgets, handles
      ensures Together() && AfterFree(old(View()), View(), pid) && Unspoken(old(View()), View())
    {
      hide Funded, H.Sound, B.Sound, S.Freed, OwnersThere, B.DyingIs, B.RunPages, Unspoken, UnspokenBut;
      ghost var w := View();
      ObjectFunded(w.b, w.objects, w.frames, pid);
      handles.CloseHandlesTo(budgets.store, procs[pid].frame);
      budgets.FreeObject(pid);
      procs := procs - {pid};
      assert handles.slots == map p | p in w.t.slots ::
               if Naming(w.t.slots[p], w.procs[pid].frame) then H.Dead else w.t.slots[p];
      FreeKeeps(w, View(), pid);
      FreeSpoken(w, View(), pid);
    }

    // --- How a system comes to be ----------------------------------------------------------------------------------

    /** `process_create`: a process in `target`, reporting to endpoint `ear`, its handle in the caller's table. */
    method CreateProcess(
        pid: B.Pid, target: F.Frame, ear: F.Frame, g: F.Frame, place: H.Chains.Place,
        draw: nat, space: nat, free: nat, frame: bool, room: S.TableRoom)
      returns (r: Result<B.Pid, S.Error>)
      requires Valid() && pid in budgets.lives && target in budgets.store && ear in handles.owners
      requires g !in budgets.store && g !in ObjectFrames(procs) && (!room.Full? ==> Vacant(handles.View(), pid, place))
      modifies this, budgets, handles
      ensures Valid() && old(budgets.lives)[pid] in old(budgets.store)
      ensures match S.ProcessRefusal(old(budgets.View()), old(budgets.lives)[pid], target, space, free, frame, room)
              case Some(e) => r == Err(e) && View() == old(View())
              case None =>
                && r.Ok? && r.value !in old(budgets.counted)
                && Made(old(View()), View(), r.value, pid, target, ear, g, place, space, room)
      ensures Unspoken(old(View()), View())
    {
      hide Funded, B.Sound, B.DyingIs, H.Sound, S.WithProcess, S.CreatorsThere, Attached, OwnersThere, Heard,
           B.RunPages, Unspoken, UnspokenBut, Bought, S.ProcessRefusal, H.Installed, F.SameRise;
      ghost var w := View();
      UnspokenSame(w);
      ProcessFunded(w.b, w.objects, w.frames, pid);
      var home := budgets.lives[pid];
      r := budgets.ProcessCreate(home, target, draw, space, free, frame, room);
      if r.Ok? {
        S.ProcessRoom(w.b, home, target, space, free, frame, room);
        BornShape(w.b, r.value, home, target, space, room);
        TablesStay(w.t, w.lists, w.b.store, budgets.store);
        handles.ProcessCreated(budgets.store, r.value, target);
        ghost var t := handles.View();
        var h := H.Handle(H.ProcessObject(g), 0, home);
        handles.Install(budgets.store, place, h);
        H.InstalledSame(t, budgets.store, place, h);
        procs := procs[r.value := Proc(g, Some(ear))];
        frames := Bought(frames[r.value := space], pid, room);
        WholeMade(w, View(), r.value, pid, target, ear, g, place, space, room);
      }
    }

    /** `budget_create`'s part: a child of `p` in a free frame. */
    method CreateBudget(p: F.Frame, child: F.Frame, id: nat, spec: B.Spec)
      requires Valid() && p in budgets.store && child !in budgets.store && child !in ObjectFrames(procs)
      requires B.Room(budgets.View(), p, spec)
      modifies budgets
      ensures Valid() && View() == old(View()).(b := B.Carve(old(budgets.View()), p, child, id, spec))
    {
      hide Whole, B.Sound, B.DyingIs, B.Room, B.Carve, S.CreatorsThere;
      ghost var w := View();
      budgets.NewBudget(p, child, id, spec);
      WholeCarved(w, p, child, id, spec);
    }

    /** A frame more for process `pid`, if its budget can pay. */
    method ChargeFrame(pid: B.Pid) returns (r: Result<(), S.Error>)
      requires Valid() && pid in budgets.lives
      modifies this, budgets
      ensures Valid() && old(budgets.lives)[pid] in old(budgets.store) && pid in old(frames)
      ensures var home := old(budgets.store)[old(budgets.lives)[pid]];
              r.Ok? <==> home.pages.used < home.pages.limit
      ensures View() == if r.Ok? then
                old(View()).(b := B.Charged(old(budgets.View()), old(budgets.lives)[pid], 1),
                             frames := old(frames)[pid := old(frames)[pid] + 1])
              else old(View())
      ensures Unspoken(old(View()), View())
    {
      hide Funded, B.Sound, B.DyingIs, H.Sound, B.Charged, S.CreatorsThere, Attached, OwnersThere, Heard, B.RunPages,
           Unspoken, UnspokenBut;
      ghost var w := View();
      UnspokenSame(w);
      ProcessFunded(w.b, w.objects, w.frames, pid);
      r := budgets.Charge(budgets.lives[pid], 1);
      if r.Ok? {
        ChargedShape(w.b, w.b.lives[pid], 1);
        TablesStay(w.t, w.lists, w.b.store, budgets.store);
        FundedBought(w, budgets.View(), pid, S.Grows(true));
        frames := frames[pid := frames[pid] + 1];
        BoughtSpoken(w, View(), pid, S.Grows(true), w.b.lives[pid], 0);
      }
    }

    /** A DMA run of `f`'s quarantined: its pages were charged apart from every process's frames and every object. */
    method Quarantine(f: F.Frame, npages: nat)
      requires Valid() && f in budgets.store
      requires Spoken(budgets.lives, budgets.objects, frames, f) + B.RunPages(budgets.runs, f) + npages
               <= L.At(budgets.pages, f)
      modifies budgets
      ensures Valid()
      ensures View() == old(View()).(b := old(budgets.View()).(runs := old(budgets.runs) + [B.Run(npages, Some(f))]))
    {
      hide B.Sound, B.DyingIs, Joint, Heard, S.CreatorsThere, Spoken, B.RunPages;
      QuarantinedShape(View(), f, npages);
      budgets.Quarantine(f, npages);
    }

    /** `died`: a process ends by itself. Its object goes with it unless its notice may flow to the endpoint that is to
        hear it.
      */
    method Die(pid: B.Pid, allowed: bool) returns (ghost mid: World)
      requires Valid() && pid in budgets.lives
      modifies this, budgets, handles
      ensures Valid() && AfterEnd(old(View()), mid, pid)
      ensures if pid in old(procs) && !(old(procs)[pid].ear.Some? && allowed) then AfterFree(mid, View(), pid)
              else View() == mid
      ensures Unspoken(old(View()), View())
    {
      hide Joint, Heard, B.Sound, B.DyingIs, S.CreatorsThere, S.Ended, S.Freed, Unspoken;
      ghost var w := View();
      EndProcess(pid);
      mid := View();
      EndedShape(w.b, pid, w.frames[pid], pid in w.objects);
      HeardEnd(w.procs, w.b.lives, w.t.owners, pid);
      if pid in procs && !(procs[pid].ear.Some? && allowed) {
        FreeObject(pid);
        FreedShape(mid.b, pid, mid.objects[pid]);
        UnspokenTwice(w, mid, View());
      }
    }

    /** A dead process's notice received: its object goes. */
    method TakeNotice(pid: B.Pid)
      requires Valid() && pid in procs && pid !in budgets.lives
      modifies this, budgets, handles
      ensures Valid() && AfterFree(old(View()), View(), pid) && Unspoken(old(View()), View())
    {
      hide Joint, Heard, B.Sound, B.DyingIs, S.CreatorsThere, S.Freed, Unspoken, UnspokenBut;
      ghost var w := View();
      FreeObject(pid);
      FreedShape(w.b, pid, w.objects[pid]);
      HeardEnd(w.procs, w.b.lives, w.t.owners, pid);
    }

    /** `install_handle` in process `place.pid`'s table, whose new page, if it needs one, its budget pays for. */
    method Install(place: H.Chains.Place, h: H.Handle, room: S.TableRoom) returns (r: Result<(), S.Error>)
      requires Valid() && place.pid in budgets.lives && Nameable(View(), h)
      requires !room.Full? ==> Vacant(handles.View(), place.pid, place)
      modifies this, budgets, handles
      ensures Valid() && old(budgets.lives)[place.pid] in old(budgets.store)
      ensures var home := old(budgets.lives)[place.pid];
              match S.TableRefusal(old(budgets.View()), home, room)
              case Some(e) => r == Err(e) && View() == old(View())
              case None =>
                && r == Ok(()) && Placed(old(View()), View(), place, h, room) && handles.owners == old(handles.owners)
                && budgets.View() == S.TableCharged(old(budgets.View()), home, room)
      ensures Unspoken(old(View()), View())
    {
      hide Funded, B.Sound, B.DyingIs, H.Sound, S.TableCharged, S.CreatorsThere, Attached, OwnersThere, Heard,
           B.RunPages, Bought, Unspoken, UnspokenBut;
      ghost var w := View();
      UnspokenSame(w);
      ProcessFunded(w.b, w.objects, w.frames, place.pid);
      var home := budgets.lives[place.pid];
      r := budgets.InstallHandle(home, room);
      if r.Ok? {
        TableShape(w.b, home, room);
        TablesStay(w.t, w.lists, w.b.store, budgets.store);
        handles.Install(budgets.store, place, h);
        H.InstalledSame(w.t, budgets.store, place, h);
        frames := Bought(frames, place.pid, room);
        WholePlaced(w, View(), place, h, room);
        BoughtSpoken(w, View(), place.pid, room, home, 0);
      }
    }

    /** `endpoint_create` past its permission checks: an endpoint of `owner`'s in frame `e`, its page charged there, its
        handle, stamped with `owner`, in the caller's table.
      */
    method CreateEndpoint(owner: F.Frame, e: F.Frame, place: H.Chains.Place, frame: bool, room: S.TableRoom)
      returns (r: Result<(), S.Error>)
      requires Valid() && place.pid in budgets.lives && owner in budgets.store && e !in handles.owners
      requires !room.Full? ==> Vacant(handles.View(), place.pid, place)
      modifies this, budgets, handles
      ensures Valid() && old(budgets.lives)[place.pid] in old(budgets.store)
      ensures var home := old(budgets.lives)[place.pid];
              match S.NameRefusal(old(budgets.View()), owner, home, frame, room)
              case Some(e) => r == Err(e) && View() == old(View())
              case None =>
                && r == Ok(()) && Placed(old(View()), View(), place, H.Handle(H.EndpointObject(e), 0, owner), room)
                && handles.owners == old(handles.owners)[e := owner]
                && budgets.View() == S.TableCharged(B.Charged(old(budgets.View()), owner, 1), home, room)
                && UnspokenBut(old(View()), View(), owner, 1)
    {
      hide Funded, B.Sound, B.DyingIs, H.Sound, B.Charged, S.TableCharged, S.CreatorsThere, Attached, OwnersThere,
           Heard, B.RunPages, Bought, F.SameRise, S.NameRefusal, H.Installed, Unspoken, UnspokenBut;
      ghost var w := View();
      ProcessFunded(w.b, w.objects, w.frames, place.pid);
      var home := budgets.lives[place.pid];
      ObjectShape(w.b, owner, home, room);
      S.NameRoom(w.b, owner, home, frame, room);
      r := budgets.NameObject(owner, home, frame, room);
      if r.Ok? {
        TablesStay(w.t, w.lists, w.b.store, budgets.store);
        handles.ObjectCreated(budgets.store, e, owner);
        ghost var t := handles.View();
        var h := H.Handle(H.EndpointObject(e), 0, owner);
        handles.Install(budgets.store, place, h);
        H.InstalledSame(t, budgets.store, place, h);
        frames := Bought(frames, place.pid, room);
        OwnersMore(w.t.owners, w.b.store.Keys, e, owner);
        WholePlaced(w, View(), place, h, room);
        BoughtSpoken(w, View(), place.pid, room, owner, 1);
      }
    }

    /** A process killed: its object goes with it unless its notice may flow to an endpoint that is to hear it. */
    method KillOne(pid: B.Pid, allowed: set<B.Pid>, ghost w0: World, ghost ended: set<B.Pid>, ghost freed: set<B.Pid>)
      requires Together() && Midway(w0, View(), ended, freed) && pid in budgets.lives && procs == w0.procs - freed
      modifies this, budgets, handles
      ensures Together() && budgets.doom == old(budgets.doom)
      ensures var gone := if pid in old(procs) && !Told(old(procs), allowed, pid) then {pid} else {};
              Midway(w0, View(), ended + {pid}, if gone == {} then freed else freed + gone)
              && procs == old(procs) - gone
    {
      hide Joint, B.Sound, B.DyingIs, S.CreatorsThere, Midway, S.Ended, S.Freed, Unspoken, UnspokenBut;
      ghost var w := View();
      MidwayTells(w0, w, ended, freed);
      EndProcess(pid);
      ghost var mid := View();
      EndedShape(w.b, pid, w.frames[pid], pid in w.objects);
      if pid in procs && !(procs[pid].ear.Some? && pid in allowed) {
        FreeObject(pid);
        FreedShape(mid.b, pid, mid.objects[pid]);
        MidwayBoth(w0, w, mid, View(), ended, freed, pid);
      } else {
        MidwayEnd(w0, w, mid, ended, freed, pid);
        assert procs - {} == procs;
      }
    }

    /** Every process running in a dying budget is killed. */
    method KillInside(allowed: set<B.Pid>, ghost w0: World)
      requires Together() && Midway(w0, View(), {}, {}) && View() == w0
      modifies this, budgets, handles
      ensures Together() && budgets.doom == old(budgets.doom)
      ensures Midway(w0, View(), Killed(w0, PIDS), Unheard(w0, allowed, PIDS))
      ensures procs == w0.procs - Unheard(w0, allowed, PIDS)
    {
      hide Joint, B.Sound, B.DyingIs, S.CreatorsThere, Midway, Killed, Unheard, Told;
      KilledNone(w0, allowed);
      for pid := 0 to PIDS
        invariant Together() && budgets.doom == old(budgets.doom)
        invariant Midway(w0, View(), Killed(w0, pid), Unheard(w0, allowed, pid))
        invariant procs == w0.procs - Unheard(w0, allowed, pid)
      {
        ghost var w := View();
        MidwayTells(w0, w, Killed(w0, pid), Unheard(w0, allowed, pid));
        KilledNext(w0, allowed, pid);
        DyingTells(w.b, pid);
        if pid in budgets.lives && budgets.store[budgets.lives[pid]].dying {
          ToldSame(w0.procs, w.procs, allowed, pid);
          KillOne(pid, allowed, w0, Killed(w0, pid), Unheard(w0, allowed, pid));
          MinusAll(w0.procs, Unheard(w0, allowed, pid), Unheard(w0, allowed, pid + 1));
        }
      }
    }

    /** An object of a dying budget's: its process, wherever it runs, ends first, and nobody is told. */
    method FreeOne(pid: B.Pid, ghost w0: World, ghost ended: set<B.Pid>, ghost freed: set<B.Pid>)
      requires Together() && Midway(w0, View(), ended, freed) && pid in procs && procs == w0.procs - freed
      modifies this, budgets, handles
      ensures Together() && budgets.doom == old(budgets.doom) && procs == old(procs) - {pid}
      ensures Midway(w0, View(), ended + if pid in old(budgets.lives) then {pid} else {}, freed + {pid})
    {
      hide Joint, B.Sound, B.DyingIs, S.CreatorsThere, Midway, S.Ended, S.Freed, Unspoken, UnspokenBut;
      ghost var w := View();
      MidwayTells(w0, w, ended, freed);
      if pid in budgets.lives {
        EndProcess(pid);
        ghost var mid := View();
        EndedShape(w.b, pid, w.frames[pid], pid in w.objects);
        FreeObject(pid);
        FreedShape(mid.b, pid, mid.objects[pid]);
        MidwayBoth(w0, w, mid, View(), ended, freed, pid);
      } else {
        FreeObject(pid);
        FreedShape(w.b, pid, w.objects[pid]);
        MidwayFree(w0, w, View(), ended, freed, pid);
        assert ended + {} == ended;
      }
    }

    /** `budgets_dying`: every process object charged to a dying budget is freed. */
    method FreeCharged(ghost w0: World, ghost ended: set<B.Pid>, ghost freed: set<B.Pid>)
      requires Together() && Midway(w0, View(), ended, freed) && procs == w0.procs - freed
      requires w0.procs.Keys == w0.objects.Keys && freed <= ended
      modifies this, budgets, handles
      ensures Together() && budgets.doom == old(budgets.doom) && procs == w0.procs - (freed + Charged(w0, PIDS))
      ensures Midway(w0, View(), ended + (Charged(w0, PIDS) * w0.b.lives.Keys), freed + Charged(w0, PIDS))
    {
      hide Joint, B.Sound, S.CreatorsThere, Midway, Charged;
      ChargedNone(w0);
      for pid := 0 to PIDS
        invariant Together() && budgets.doom == old(budgets.doom) && procs == w0.procs - (freed + Charged(w0, pid))
        invariant Midway(w0, View(), ended + (Charged(w0, pid) * w0.b.lives.Keys), freed + Charged(w0, pid))
      {
        ghost var w, e, f := View(), ended + (Charged(w0, pid) * w0.b.lives.Keys), freed + Charged(w0, pid);
        MidwayTells(w0, w, e, f);
        ChargedNext(w0, pid);
        S.CreatorsFewer(budgets.objects, budgets.store.Keys, pid);
        if pid in procs && budgets.store[budgets.objects[pid]].dying {
          FreeOne(pid, w0, e, f);
          ChargedStep(w0, ended, freed, pid);
        } else {
          ChargedSame(w0, ended, freed, pid);
        }
      }
    }

    /** An object whose exit endpoint a dying budget owns: dropped if it is kept for a notice alone. */
    method DropEar(pid: B.Pid, ghost w0: World, ghost ended: set<B.Pid>, ghost freed: set<B.Pid>)
      requires Together() && Midway(w0, View(), ended, freed) && pid in procs && pid in w0.procs
      requires procs[pid].frame == w0.procs[pid].frame
      modifies this, budgets, handles
      ensures Together() && budgets.doom == old(budgets.doom)
      ensures Midway(w0, View(), ended, if pid in old(budgets.lives) then freed else freed + {pid})
      ensures procs == if pid in old(budgets.lives) then old(procs)[pid := Proc(old(procs)[pid].frame, None)]
              else old(procs) - {pid}
    {
      hide Joint, B.Sound, B.DyingIs, S.CreatorsThere, Midway, S.Freed, Unspoken, UnspokenBut;
      ghost var w := View();
      MidwayTells(w0, w, ended, freed);
      MidwayDeaf(w0, w, ended, freed, pid);
      procs := procs[pid := Proc(procs[pid].frame, None)];
      ghost var mid := View();
      if pid !in budgets.lives {
        FreeObject(pid);
        FreedShape(mid.b, pid, mid.objects[pid]);
        MidwayDeafFree(w0, w, mid, View(), ended, freed, pid);
        assert mid.procs - {pid} == w.procs - {pid};
      }
    }

    /** `endpoint_dying`, for every endpoint of a dying budget. */
    method DropEars(ghost w0: World, ghost ended: set<B.Pid>, ghost freed: set<B.Pid>)
      requires Together() && Midway(w0, View(), ended, freed) && procs == w0.procs - freed
      modifies this, budgets, handles
      ensures Together() && budgets.doom == old(budgets.doom)
      ensures Midway(w0, View(), ended, freed + Deaf(w0, ended, freed, PIDS))
      ensures procs == Eared(w0, freed + Deaf(w0, ended, freed, PIDS), PIDS)
    {
      hide Joint, B.Sound, S.CreatorsThere, Midway, Deaf, Eared, EarDying;
      EaredNone(w0, ended, freed);
      for pid := 0 to PIDS
        invariant Together() && budgets.doom == old(budgets.doom)
        invariant Midway(w0, View(), ended, freed + Deaf(w0, ended, freed, pid))
        invariant procs == Eared(w0, freed + Deaf(w0, ended, freed, pid), pid)
      {
        ghost var w, f := View(), freed + Deaf(w0, ended, freed, pid);
        MidwayTells(w0, w, ended, f);
        EaredNext(w0, ended, freed, pid);
        if pid in procs {
          EarTells(w0, w, ended, f, pid);
          if procs[pid].ear.Some? && budgets.store[handles.owners[procs[pid].ear.value]].dying {
            DropEar(pid, w0, ended, f);
          }
        }
      }
    }

    /** `destroy_marked`, the subtree's processes and objects gone: its chains closed, its endpoints and devices and
        then its budgets freed.
      */
    method CloseAndFree(top: F.Frame, ghost w: World)
      requires Together() && View() == w && w.b.doom.Doom? && w.b.doom.top == top && NoneInside(w)
      modifies budgets, handles
      ensures budgets.Settled() && Joint(View()) && Over(w, View())
    {
      hide B.Sound, B.DyingIs, B.Destroyed, H.Sound, H.Doomed, H.Swept, F.Walkable, Funded, Attached, OwnersThere,
           S.CreatorsThere, NoneInside;
      SubtreeIsApart(w.b);
      InsideTells(w);
      handles.CloseSubtree(budgets.store, top, budgets.doom.kids);
      ghost var mid := View();
      var gone := set e | e in handles.owners && handles.owners[e] in budgets.store
        && budgets.store[handles.owners[e]].dying;
      GoneAre(w, mid, gone);
      handles.ObjectsFreed(budgets.store, gone);
      ghost var last := View();
      S.DestroyedParts(w.b);
      budgets.DestroyMarked(top);
      OverIs(w, mid, last, View(), gone);
      OverKeeps(w, last, View());
    }

    /** `destroy` up to `destroy_marked`: the mark, the kills, the frees, the notices dropped, the lift. */
    method MarkAndKill(top: F.Frame, allowed: set<B.Pid>) returns (ghost w0: World)
      requires Valid() && top in budgets.store && budgets.store[top].parent.Some?
      modifies this, budgets, handles
      ensures Together() && w0 == old(View()).(b := w0.b) && B.MarkedAt(old(budgets.View()), w0.b, top) && B.Sound(w0.b)
      ensures Emptied(w0, View(), allowed) && budgets.doom == w0.b.doom
    {
      hide Joint, Heard, B.Sound, B.MarkedAt, B.DyingIs, S.Liftable, S.CreatorsThere, Midway, Emptied, Killed, Unheard,
           Charged, Deaf, Eared;
      ghost var w := View();
      budgets.MarkDying(top);
      w0 := View();
      MidwayStarts(w, w0.b, top);
      MarkedShape(w.b, w0.b, top);
      MidwayTells(w0, w0, {}, {});
      KillInside(allowed, w0);
      UnheardKilled(w0, allowed);
      FreeCharged(w0, Killed(w0, PIDS), Unheard(w0, allowed, PIDS));
      ghost var ended := Killed(w0, PIDS) + (Charged(w0, PIDS) * w0.b.lives.Keys);
      ghost var freed := Unheard(w0, allowed, PIDS) + Charged(w0, PIDS);
      DropEars(w0, ended, freed);
      EmptiedIs(w0, View(), allowed);
      MidwayTells(w0, View(), ended, freed + Deaf(w0, ended, freed, PIDS));
      MidwayLiftable(w0, View(), ended, freed + Deaf(w0, ended, freed, PIDS));
      EmptiedLifted(w0, View(), allowed);
      budgets.LiftDying(top);
    }

    /** Destroying a budget (R10). The processes that end are those running in its subtree and those whose objects the
        subtree paid for; `allowed` says of a process killed whether the flow rule lets its notice through.
      */
    method Destroy(top: F.Frame, allowed: set<B.Pid>)
      requires Valid() && top in budgets.store && budgets.store[top].parent.Some?
      modifies this, budgets, handles
      ensures Valid() && old(budgets.store)[top].parent.value in old(budgets.store)
      ensures S.CarveReturned(old(budgets.View()), budgets.View(), top) && Leaves(old(View()), View(), top, allowed)
    {
      hide Joint, Heard, B.Sound, B.MarkedAt, B.Destroyed, B.DyingIs, S.CreatorsThere, S.CarveReturned, Emptied, Over,
           Leaves, NoneInside;
      ghost var w := View();
      ghost var w0 := MarkAndKill(top, allowed);
      ghost var last := View();
      MarkedShape(w.b, w0.b, top);
      EmptiedInside(w0, last, allowed);
      CloseAndFree(top, last);
      WholeTells(w);
      PidsBounded(w.b, w.objects);
      OverTells(last, View());
      HeardAfter(w0, last, View(), allowed);
      LeavesIs(w, w0, last, View(), top, allowed);
      EmptiedTells(w0, last, allowed);
      S.DestructionReturns(w.b, w0.b, last.b, top);
    }
  }
}
