/** What the steps of a destruction, and of a refused creation, come to (kernel/src/budget.rs). */
module BudgetSteps {
  import opened Basics
  import opened BudgetForest
  import opened BudgetLedger
  import opened BudgetBooks

  // --- Lifting the dying budgets (R10, R12) ------------------------------------------------------------

  function WithWeight(store: Store, f: Frame, used: nat): Store
    requires f in store
  {
    store[f := store[f].(weight := store[f].weight.(used := used))]
  }

  /** The budgets of `frames` with all they carved of their weight back. */
  function Unladen(store: Store, frames: set<Frame>): Store {
    map x | x in store :: if x in frames then store[x].(weight := store[x].weight.(used := 0)) else store[x]
  }

  /** The subtree `f` heads lifted: every weight carved in it back, and `f`'s own with its parent unless
      `f` is the destroyed `top`.
    */
  ghost function Lifted(store: Store, f: Frame, top: Frame, kids: Forest): Store
    requires f in store
    requires f != top ==> store[f].parent.Some? && store[f].parent.value in store
  {
    var u := Unladen(store, {f} + Frames(kids));
    if f == top then u else
      var p := store[f].parent.value;
      if store[f].weight.limit <= u[p].weight.used then Lighter(u, p, store[f].weight.limit) else u
  }

  /** What lifting the subtree `f` heads asks: its weights balance, and its own is in its parent's use. */
  ghost predicate Liftable(store: Store, f: Frame, top: Frame, kids: Forest) {
    && Walkable(store, f, kids) && top !in Frames(kids)
    && Balanced(store, Weight, map[], kids) && store[f].weight.used == Carved(store, Weight, kids)
    && (f != top ==>
          && store[f].parent.Some? && store[f].parent.value in store
          && store[f].parent.value != f && store[f].parent.value !in Frames(kids)
          && store[f].weight.limit <= store[store[f].parent.value].weight.used)
  }

  /** The lifting of `kids`, `f`'s children, with only the children `rest` still to go. */
  ghost predicate Lifting(was: Store, store: Store, f: Frame, kids: Forest, rest: Forest) {
    && f in was && Distinct(rest) && Frames(rest) <= Frames(kids) && Size(rest) <= Size(kids)
    && Linked(was, Some(f), was[f].depth + 1, rest) && Balanced(was, Weight, map[], rest)
    && store == WithWeight(Unladen(was, Frames(kids) - Frames(rest)), f, Carved(was, Weight, rest))
  }

  lemma {:induction false} LiftStarts(was: Store, f: Frame, top: Frame, kids: Forest)
    requires Liftable(was, f, top, kids)
    ensures f in was && was[f].firstChild == Head(kids) && Lifting(was, was, f, kids, kids)
  {
    assert Frames(kids) - Frames(kids) == {};
    assert Unladen(was, {}) == was;
  }

  /** The next child can be lifted in turn. */
  lemma {:induction false} LiftChild(was: Store, store: Store, f: Frame, top: Frame, kids: Forest, rest: Forest)
    requires Liftable(was, f, top, kids) && Lifting(was, store, f, kids, rest) && rest.Cons?
    ensures Liftable(store, rest.frame, top, rest.kids) && rest.frame != top && Size(rest.kids) < Size(kids)
    ensures rest.frame in store && store[rest.frame].nextSibling == Head(rest.siblings)
  {
    var c := rest.frame;
    LinkedSame(was, store, Some(f), was[f].depth + 1, rest);
    forall x | x in Frames(rest.kids) ensures Same(was, store, Weight, map[], map[], x) {}
    BalancedSame(was, store, Weight, map[], map[], rest.kids);
    LinkedFrames(was, Some(c), was[f].depth + 2, rest.kids);
    CarvedSame(was, store, rest.kids);
  }

  lemma {:induction false} CarvedSame(was: Store, store: Store, g: Forest)
    requires forall x :: x in Frames(g) && x in was ==> x in store && store[x].weight == was[x].weight
    requires forall x :: x in Frames(g) ==> x in was
    ensures Carved(store, Weight, g) == Carved(was, Weight, g)
  {
    if g.Cons? { CarvedSame(was, store, g.siblings); }
  }

  lemma {:induction false} LiftGoesOn(was: Store, store: Store, f: Frame, top: Frame, kids: Forest, rest: Forest)
    requires Liftable(was, f, top, kids) && Lifting(was, store, f, kids, rest) && rest.Cons?
    requires Liftable(store, rest.frame, top, rest.kids) && rest.frame != top
    ensures Lifting(was, Lifted(store, rest.frame, top, rest.kids), f, kids, rest.siblings)
  {
    var c := rest.frame;
    var now := Lifted(store, c, top, rest.kids);
    assert Frames(kids) - Frames(rest.siblings) == (Frames(kids) - Frames(rest)) + ({c} + Frames(rest.kids));
    UnladenMore(was, Frames(kids) - Frames(rest), {c} + Frames(rest.kids), f, Carved(was, Weight, rest));
    LinkedFrames(was, Some(f), was[f].depth + 1, rest);
  }

  lemma {:induction false} UnladenMore(was: Store, done: set<Frame>, more: set<Frame>, f: Frame, used: nat)
    requires f in was && f !in more
    ensures Unladen(WithWeight(Unladen(was, done), f, used), more) == WithWeight(Unladen(was, done + more), f, used)
  {
  }

  lemma {:induction false} LiftEnds(was: Store, store: Store, f: Frame, top: Frame, kids: Forest)
    requires Liftable(was, f, top, kids) && Lifting(was, store, f, kids, Nil)
    ensures f == top ==> store == Lifted(was, f, top, kids) == Unladen(was, {f} + Frames(kids))
    ensures f in store && store[f].parent == was[f].parent && store[f].weight.limit == was[f].weight.limit
    ensures f != top ==>
              && was[f].parent.Some? && was[f].parent.value in store
              && was[f].weight.limit <= store[was[f].parent.value].weight.used
              && Lifted(was, f, top, kids) == Lighter(store, was[f].parent.value, was[f].weight.limit)
  {
    assert Frames(kids) - Frames(Nil) == Frames(kids);
    assert store == Unladen(was, {f} + Frames(kids));
  }

  lemma {:induction false} LiftedTop(store: Store, top: Frame, kids: Forest)
    requires top in store
    ensures Lifted(store, top, top, kids) == Unladen(store, {top} + Frames(kids))
    ensures forall f :: f in store ==> Unladen(store, {top} + Frames(kids))[f].dying == store[f].dying
  {
  }

  /** A subtree just marked can be lifted: its weights are as they were. */
  lemma {:induction false} MarkedLiftable(b: Books, marked: Books, top: Frame)
    requires Sound(b) && b.doom.NoDoom? && MarkedAt(b, marked, top) && Sound(marked)
    ensures marked.doom == Doom(top, KidsOf(b.tree, top)) && Liftable(marked.store, top, top, marked.doom.kids)
  {
    hide Sound, Balanced, Carved, Detached, Mark;
    var kids := marked.doom.kids;
    WeightsBalance(b, top);
    MarkedApart(b, marked, top);
    forall x | x in Frames(kids) ensures Same(b.store, marked.store, Weight, map[], map[], x) {}
    BalancedSame(b.store, marked.store, Weight, map[], map[], kids);
  }

  lemma {:induction false} WeightsBalance(b: Books, top: Frame)
    requires Sound(b) && b.doom.NoDoom? && top in b.store
    ensures Balanced(b.store, Weight, map[], KidsOf(b.tree, top))
    ensures b.store[top].weight.used == Carved(b.store, Weight, KidsOf(b.tree, top))
  {
    BalancedAt(b.store, Weight, map[], b.tree, top);
  }

  lemma {:induction false} MarkedApart(b: Books, marked: Books, top: Frame)
    requires Sound(marked) && MarkedAt(b, marked, top)
    ensures b.store[top].parent.value !in Frames(marked.doom.kids) && b.store[top].parent.value != top
    ensures Walkable(marked.store, top, marked.doom.kids)
  {
    hide Sound, Mark, WeightBack, Linked, Distinct;
    SoundIsTreed(marked);
    assert marked.store[top].parent == b.store[top].parent;
  }

  /** Lifting a marked subtree keeps the ledger: no counter outside it moves. */
  lemma {:induction false} LiftKeeps(b: Books)
    requires Sound(b) && b.doom.Doom?
    ensures Sound(b.(store := Unladen(b.store, DoomFrames(b.doom))))
  {
    hide Treed, DoomLinked, Rooted, Paid, Counted, Living, RunsPaid;
    var b' := b.(store := Unladen(b.store, DoomFrames(b.doom)));
    LinksKept(b, b');
    LiftPaid(b, Pages);
    LiftPaid(b, Processes);
    LiftPaid(b, Weight);
    LiftRest(b);
  }

  lemma {:induction false} LiftRest(b: Books)
    requires Treed(b) && Rooted(b) && Counted(b) && Living(b) && RunsPaid(b)
    ensures var b' := b.(store := Unladen(b.store, DoomFrames(b.doom)));
            Rooted(b') && Counted(b') && Living(b') && RunsPaid(b')
  {
  }

  lemma {:induction false} LiftPaid(b: Books, r: Resource)
    requires Treed(b) && DoomLinked(b) && Paid(b, r) && b.doom.Doom?
    ensures Paid(b.(store := Unladen(b.store, DoomFrames(b.doom))), r)
  {
    var b' := b.(store := Unladen(b.store, DoomFrames(b.doom)));
    var d, d' := Owing(b, r), Owing(b', r);
    forall x | x in Frames(b.tree) ensures Same(b.store, b'.store, r, d, d', x) {}
    BalancedSame(b.store, b'.store, r, d, d', b.tree);
    if r != Weight {
      var g := Cons(b.doom.top, b.doom.kids, Nil);
      forall x | x in Frames(g) ensures Same(b.store, b'.store, r, d, d', x) {}
      BalancedSame(b.store, b'.store, r, d, d', g);
    }
  }

  // --- The end of a destruction (R10 step 8) --------------------------------------------------------------

  /** Every quarantined run still charged is charged to a budget there is. */
  ghost predicate RunsWithin(runs: seq<Run>, store: Store) {
    forall i :: 0 <= i < |runs| && runs[i].charged.Some? ==> runs[i].charged.value in store
  }

  /** The first `i` quarantined runs looked at, and those of dying budgets charged to `p`. */
  ghost predicate Requarantined(
      was: Store, store: Store, before: seq<Run>, runs: seq<Run>, p: Frame, frames: set<Frame>, i: nat) {
    && p in was && i <= |before| && runs == MovedTo(before, i, frames, p)
    && store == WithPages(was, p, was[p].pages.used + RunPagesIn(before[..i], frames))
  }

  lemma {:induction false} RequarantineStarts(was: Store, before: seq<Run>, p: Frame, frames: set<Frame>)
    requires p in was
    ensures Requarantined(was, was, before, before, p, frames, 0)
  {
  }

  lemma {:induction false} RequarantineStep(
      was: Store, store: Store, before: seq<Run>, runs: seq<Run>, p: Frame, frames: set<Frame>, i: nat)
    requires Requarantined(was, store, before, runs, p, frames, i) && i < |before|
    requires DyingIs(was, frames) && RunsWithin(before, was) && p !in frames
    ensures p in store && |runs| == |before|
    ensures runs[i].charged.Some? ==>
              && runs[i].charged.value in store
              && (store[runs[i].charged.value].dying <==> runs[i].charged.value in frames)
    ensures if runs[i].charged.Some? && runs[i].charged.value in frames then
              Requarantined(was, WithPages(store, p, store[p].pages.used + runs[i].npages), before,
                            runs[i := runs[i].(charged := Some(p))], p, frames, i + 1)
            else Requarantined(was, store, before, runs, p, frames, i + 1)
  {
    MoveStep(before, i, frames, p);
  }

  lemma {:induction false} RequarantineEnds(
      was: Store, store: Store, before: seq<Run>, runs: seq<Run>, p: Frame, frames: set<Frame>)
    requires Requarantined(was, store, before, runs, p, frames, |before|)
    ensures runs == MoveRuns(before, frames, p)
    ensures store == WithPages(was, p, was[p].pages.used + RunPagesIn(before, frames))
  {
    assert before[..|before|] == before;
  }

  /** The parent repaid the carve of `top`, having taken `pages` quarantined pages and `pids` held PIDs. */
  function Settling(store: Store, p: Frame, top: Frame, pages: nat, pids: nat): Store
    requires p in store && top in store
    requires store[p].pages.used >= 1 + store[top].pages.limit && store[p].processes.used >= store[top].processes.limit
  {
    store[p := Repaid(store[p], store[top], pages, pids)]
  }

  lemma {:induction false} SettlingSteps(
      store: Store, p: Frame, top: Frame, pages: nat, counted: map<Pid, Frame>, frames: set<Frame>)
    requires p in store && top in store && p != top
    requires store[p].pages.used >= 1 + store[top].pages.limit && store[p].processes.used >= store[top].processes.limit
    ensures var back := Settling(store, p, top, 0, 0);
            WithPages(back, p, back[p].pages.used + pages) == Settling(store, p, top, pages, 0)
    ensures HeldBy(Settling(store, p, top, pages, 0), p, counted, frames)
         == Settling(store, p, top, pages, |CountedWithin(counted, frames)|)
  {
  }

  lemma {:induction false} SettlingWalkable(store: Store, p: Frame, top: Frame, pages: nat, pids: nat, kids: Forest)
    requires p in store && Walkable(store, top, kids) && p != top
    requires store[p].pages.used >= 1 + store[top].pages.limit && store[p].processes.used >= store[top].processes.limit
    ensures Walkable(Settling(store, p, top, pages, pids), top, kids)
  {
    LinkedSame(store, Settling(store, p, top, pages, pids), Some(top), store[top].depth + 1, kids);
  }

  /** What each step asks holds as it comes: nothing underflows, and everything moved fits. */
  lemma {:induction false} EndFits(b: Books)
    requires Sound(b) && b.doom.Doom?
    ensures var top := b.doom.top;
            && Walkable(b.store, top, b.doom.kids) && b.store[top].parent.Some?
            && var p := b.store[top].parent.value;
               && p in b.store && p != top && p !in DoomFrames(b.doom)
               && b.store[p].pages.used >= 1 + b.store[top].pages.limit
               && b.store[p].processes.used >= b.store[top].processes.limit
               && b.store[p].pages.used <= b.store[p].pages.limit
               && b.store[p].processes.used <= b.store[p].processes.limit
  {
    hide Sound, Linked, Distinct;
    SoundIsTreed(b);
    CarveCovered(b);
    WithinLimit(b, b.store[b.doom.top].parent.value);
  }

  lemma {:induction false} RunsLive(b: Books)
    requires Sound(b)
    ensures RunsWithin(b.runs, b.store) && (b.doom.Doom? ==> b.doom.top in b.store)
  {
  }

  /** The steps of `destroy_marked` one by one, each with what it asks. */
  lemma {:induction false} EndSteps(b: Books)
    requires Sound(b) && b.doom.Doom? && DyingIs(b.store, DoomFrames(b.doom))
    ensures var top, frames := b.doom.top, DoomFrames(b.doom);
            var pages, pids := RunPagesIn(b.runs, frames), |CountedWithin(b.counted, frames)|;
            && frames == {top} + Frames(b.doom.kids) && top in b.store && b.store[top].parent.Some?
            && var p := b.store[top].parent.value;
               && p in b.store && p != top && p !in frames
               && b.store[p].pages.used >= 1 + b.store[top].pages.limit
               && b.store[p].processes.used >= b.store[top].processes.limit
               && (var back := Settling(b.store, p, top, 0, 0);
                   && p in back && DyingIs(back, frames) && RunsWithin(b.runs, back)
                   && back[p].pages.used + pages <= back[p].pages.limit
                   && WithPages(back, p, back[p].pages.used + pages) == Settling(b.store, p, top, pages, 0))
               && (var held := Settling(b.store, p, top, pages, 0);
                   && p in held && held[p].processes.used + pids <= held[p].processes.limit
                   && Walkable(held, top, b.doom.kids)
                   && HeldBy(held, p, b.counted, frames) == Settling(b.store, p, top, pages, pids))
               && Walkable(Settling(b.store, p, top, pages, pids), top, b.doom.kids)
               && Settling(b.store, p, top, pages, pids) - frames == Destroyed(b).store
  {
    hide Sound, Walkable, Linked, RunPagesIn, CountedWithin;
    RunsLive(b);
    EndFits(b);
    MovesFit(b);
    CarveCovered(b);
    var top, frames := b.doom.top, DoomFrames(b.doom);
    var p := b.store[top].parent.value;
    var pages, pids := RunPagesIn(b.runs, frames), |CountedWithin(b.counted, frames)|;
    SettlingSteps(b.store, p, top, pages, b.counted, frames);
    SettlingWalkable(b.store, p, top, pages, 0, b.doom.kids);
    SettlingWalkable(b.store, p, top, pages, pids, b.doom.kids);
  }

  lemma {:induction false} DestroyedParts(b: Books)
    requires Sound(b) && b.doom.Doom? && DyingIs(b.store, DoomFrames(b.doom))
    ensures var gone := Destroyed(b);
            && gone == Books(gone.store, b.tree, NoDoom, gone.pages, gone.counted, b.lives, gone.runs)
            && gone.counted == MovePids(b.counted, DoomFrames(b.doom), b.store[b.doom.top].parent.value)
            && gone.runs == MoveRuns(b.runs, DoomFrames(b.doom), b.store[b.doom.top].parent.value)
            && (b.pages.Keys == b.store.Keys ==> gone.pages.Keys == gone.store.Keys)
            && gone.store.Keys == b.store.Keys - DoomFrames(b.doom)
            && DyingIs(gone.store, DoomFrames(gone.doom)) && gone.counted.Keys == b.counted.Keys
  {
    hide Sound, RunPagesIn, CountedWithin, MoveRuns;
    CarveCovered(b);
    EndFits(b);
  }

  lemma {:induction false} DestroyedLives(b: Books)
    requires Sound(b) && b.doom.Doom?
    ensures Destroyed(b).lives == b.lives
  {
    hide Sound;
    CarveCovered(b);
  }

  /** Between the mark and the end processes end and objects are freed, in the subtree or not: no budget's meter
      moves but with its own charges, and no weight moves outside the subtree.
    */
  ghost predicate Meanwhile(marked: Books, b: Books) {
    && marked.doom.Doom? && b.doom == marked.doom && b.tree == marked.tree && b.store.Keys == marked.store.Keys
    && (forall f :: f in marked.store && f !in DoomFrames(marked.doom) ==> b.store[f].weight == marked.store[f].weight)
    && (forall f :: f in marked.store ==> SameLinks(marked.store[f], b.store[f]) && WithCharges(marked, b, f))
  }

  /** A meter less its budget's own charges is as it was. */
  ghost predicate WithCharges(b: Books, b': Books, f: Frame)
    requires f in b.store && f in b'.store
  {
    && b'.store[f].pages.limit == b.store[f].pages.limit
    && b'.store[f].processes.limit == b.store[f].processes.limit
    && b'.store[f].pages.used + At(b.pages, f) == b.store[f].pages.used + At(b'.pages, f)
    && b'.store[f].processes.used + At(Counts(b.counted), f) == b.store[f].processes.used + At(Counts(b'.counted), f)
  }

  lemma {:induction false} MeanwhileUncharged(marked: Books, b: Books, f: Frame, n: nat, lives: map<Pid, Frame>)
    requires Meanwhile(marked, b) && f in b.store && n <= b.store[f].pages.used && n <= At(b.pages, f)
    ensures Meanwhile(marked, Uncharged(b, f, n).(lives := lives))
  {
    hide Counts;
    var b' := Uncharged(b, f, n).(lives := lives);
    forall x | x in marked.store ensures WithCharges(marked, b', x) { assert WithCharges(marked, b, x); }
  }

  lemma {:induction false} MeanwhileUncounted(marked: Books, b: Books, pid: Pid)
    requires Meanwhile(marked, b) && pid in b.counted && b.counted[pid] in b.store
    requires b.store[b.counted[pid]].processes.used > 0
    ensures Meanwhile(marked, Uncount(b, pid))
  {
    hide Counts;
    CountsDrop(b.counted, pid);
    var b' := Uncount(b, pid);
    forall x | x in marked.store ensures WithCharges(marked, b', x) { assert WithCharges(marked, b, x); }
  }

  lemma {:induction false} MeanwhileEnded(marked: Books, b: Books, pid: Pid, n: nat, named: bool)
    requires Meanwhile(marked, b) && pid in b.lives
    requires b.lives[pid] in b.store && pid in b.counted && b.counted[pid] == b.lives[pid]
    requires n <= b.store[b.lives[pid]].pages.used && n <= At(b.pages, b.lives[pid])
    requires b.store[b.lives[pid]].processes.used > 0
    ensures Meanwhile(marked, Ended(b, pid, n, named))
  {
    hide Meanwhile;
    MeanwhileUncharged(marked, b, b.lives[pid], n, b.lives - {pid});
    if !named { MeanwhileUncounted(marked, Uncharged(b, b.lives[pid], n).(lives := b.lives - {pid}), pid); }
  }

  lemma {:induction false} MeanwhileFreed(marked: Books, b: Books, pid: Pid, creator: Frame)
    requires Meanwhile(marked, b) && CanFree(b, pid, creator)
    ensures Meanwhile(marked, Freed(b, pid, creator))
  {
    hide Meanwhile;
    MeanwhileUncharged(marked, b, creator, 1, b.lives);
    MeanwhileUncounted(marked, Uncharged(b, creator, 1), pid);
  }

  lemma {:induction false} FreedLiftable(b: Books, pid: Pid, creator: Frame, top: Frame, kids: Forest)
    requires CanFree(b, pid, creator) && Liftable(b.store, top, top, kids)
    ensures Liftable(Freed(b, pid, creator).store, top, top, kids)
  {
    var store' := Freed(b, pid, creator).store;
    LinkedSame(b.store, store', Some(top), b.store[top].depth + 1, kids);
    forall x | x in Frames(kids) ensures Same(b.store, store', Weight, map[], map[], x) {}
    BalancedSame(b.store, store', Weight, map[], map[], kids);
  }

  /** Nor does a process's end keep the subtree from being lifted: no weight moves, and no link. */
  lemma {:induction false} EndedLiftable(b: Books, pid: Pid, n: nat, named: bool, top: Frame, kids: Forest)
    requires pid in b.lives && b.lives[pid] in b.store && pid in b.counted && b.counted[pid] == b.lives[pid]
    requires n <= b.store[b.lives[pid]].pages.used && n <= At(b.pages, b.lives[pid])
    requires b.store[b.lives[pid]].processes.used > 0
    requires Liftable(b.store, top, top, kids)
    ensures Liftable(Ended(b, pid, n, named).store, top, top, kids)
  {
    var store' := Ended(b, pid, n, named).store;
    LinkedSame(b.store, store', Some(top), b.store[top].depth + 1, kids);
    forall x | x in Frames(kids) ensures Same(b.store, store', Weight, map[], map[], x) {}
    BalancedSame(b.store, store', Weight, map[], map[], kids);
  }

  lemma {:induction false} MeanwhileNothing(b: Books, marked: Books, top: Frame)
    requires MarkedAt(b, marked, top)
    ensures Meanwhile(marked, marked) && marked.runs == b.runs && marked.counted == b.counted
  {
    hide Counts;
  }

  lemma {:induction false} MeanwhileLifted(marked: Books, b: Books)
    requires Meanwhile(marked, b)
    ensures Meanwhile(marked, b.(store := Unladen(b.store, DoomFrames(b.doom))))
  {
    hide Counts;
    var b' := b.(store := Unladen(b.store, DoomFrames(b.doom)));
    forall f | f in marked.store ensures WithCharges(marked, b', f) { assert WithCharges(marked, b, f); }
  }

  /** The subtree of `top` gone, its parent has back exactly what `top` carved from it, and beyond that every
      budget's meters moved with its own charges alone.
    */
  ghost predicate CarveReturned(b: Books, gone: Books, top: Frame)
    requires top in b.store && b.store[top].parent.Some? && b.store[top].parent.value in b.store
  {
    var p := b.store[top].parent.value;
    && p in gone.store && gone.store.Keys == b.store.Keys - {top} - Frames(KidsOf(b.tree, top))
    && (forall f :: f in gone.store ==> Repaying(b, gone, f, if f == p then Some(top) else None))
  }

  ghost predicate Repaying(b: Books, gone: Books, f: Frame, top: Option<Frame>)
    requires f in b.store && f in gone.store && (top.Some? ==> top.value in b.store)
  {
    var (pages, pids, weight) :=
      if top.None? then (0, 0, 0)
      else (1 + b.store[top.value].pages.limit, b.store[top.value].processes.limit, b.store[top.value].weight.limit);
    && (forall r: Resource :: Of(gone.store[f], r).limit == Of(b.store[f], r).limit)
    && gone.store[f].pages.used + pages + At(b.pages, f) == b.store[f].pages.used + At(gone.pages, f)
    && gone.store[f].processes.used + pids + At(Counts(b.counted), f)
       == b.store[f].processes.used + At(Counts(gone.counted), f)
    && gone.store[f].weight.used + weight == b.store[f].weight.used
  }

  /** I10: whatever ended and was freed meanwhile, the parent has back exactly what the destroyed budget carved
      from it; the quarantined pages and held PIDs that outlive the subtree are among its own charges now.
    */
  lemma {:induction false} DestructionReturns(b: Books, marked: Books, last: Books, top: Frame)
    requires Sound(b) && b.doom.NoDoom? && MarkedAt(b, marked, top) && Sound(marked)
    requires Meanwhile(marked, last) && Sound(last)
    ensures last.doom == Doom(top, KidsOf(b.tree, top)) && CarveReturned(b, Destroyed(last), top)
  {
    hide Sound, RunPagesIn, CountedWithin, Detached, Counts, MovePids, MoveRuns, KidsOf, Repaying, WithCharges,
         WeightBack;
    CarveCovered(last);
    EndFits(last);
    var p, gone := b.store[top].parent.value, Destroyed(last);
    forall f | f in gone.store ensures Repaying(b, gone, f, if f == p then Some(top) else None) {
      RepaidAt(b, marked, last, top, p, f);
    }
  }

  lemma {:induction false} RepaidAt(b: Books, marked: Books, last: Books, top: Frame, p: Frame, f: Frame)
    requires Sound(last) && last.doom.Doom? && last.doom.top == top && Meanwhile(marked, last)
    requires top in b.store && p in b.store && f in b.store && last.store[top].parent == Some(p)
    requires marked.store.Keys == b.store.Keys && WeightBack(b.store, marked.store, top, p)
    requires marked.pages == b.pages && marked.counted == b.counted && f in Destroyed(last).store
    ensures Repaying(b, Destroyed(last), f, if f == p then Some(top) else None)
  {
    hide Sound, RunPagesIn, CountedWithin, Counts, MovePids, MoveRuns, Walkable;
    CarveCovered(last);
    EndFits(last);
    assert WithCharges(marked, last, f) && WithCharges(marked, last, top);
    MovedCounts(last.counted, DoomFrames(last.doom), p, f);
  }

  /** Every object's creator is a budget there is. */
  ghost predicate CreatorsThere(objects: map<Pid, Frame>, frames: set<Frame>) {
    forall pid :: pid in objects ==> objects[pid] in frames
  }

  lemma {:induction false} CreatorsMore(objects: map<Pid, Frame>, frames: set<Frame>, child: Frame)
    requires CreatorsThere(objects, frames)
    ensures CreatorsThere(objects, frames + {child})
  {
  }

  lemma {:induction false} CreatorsFewer(objects: map<Pid, Frame>, frames: set<Frame>, pid: Pid)
    requires CreatorsThere(objects, frames)
    ensures CreatorsThere(objects - {pid}, frames) && (pid in objects ==> objects[pid] in frames)
  {
  }

  lemma {:induction false} CreatorsAdd(objects: map<Pid, Frame>, frames: set<Frame>, pid: Pid, f: Frame)
    requires CreatorsThere(objects, frames) && f in frames
    ensures CreatorsThere(objects[pid := f], frames)
  {
  }

  // --- Creation and its undoing (R6, R7) ----------------------------------------------------------------------

  datatype Error = OutOfMemory | OutOfProcesses | TooLarge | InvalidArgument

  /** Whether the caller's handle table has a slot for one more handle, must buy a page for it (and
      whether there is a frame to be one), or is full.
    */
  datatype TableRoom = Fits | Grows(frame: bool) | Full

  /** What `install_handle` answers the caller, and what it costs. */
  function TableRefusal(b: Books, caller: Frame, room: TableRoom): Option<Error>
    requires caller in b.store
  {
    match room
    case Fits => None
    case Full => Some(TooLarge)
    case Grows(frame) =>
      if b.store[caller].pages.used + 1 > b.store[caller].pages.limit || !frame then Some(OutOfMemory) else None
  }

  function TableCharged(b: Books, caller: Frame, room: TableRoom): Books
    requires caller in b.store
  {
    if room.Grows? then Charged(b, caller, 1) else b
  }

  /** The first check of `budget_create` that fails. */
  ghost function CreateRefusal(
      b: Books, caller: Frame, p: Frame, child: Option<Frame>, spec: Spec, room: TableRoom): Option<Error>
    requires caller in b.store && p in b.store
  {
    var pb := b.store[p];
    if pb.depth + 1 >= MAX_DEPTH then Some(TooLarge)
    else if pb.pages.used + spec.pages + 1 > pb.pages.limit then Some(OutOfMemory)
    else if pb.processes.used + spec.processes > pb.processes.limit then Some(OutOfProcesses)
    else if pb.weight.used + spec.weight > pb.weight.limit then Some(InvalidArgument)
    else if spec.weight > 0 && pb.weight.used + spec.weight == pb.weight.limit && Holds(b, p) then Some(InvalidArgument)
    else if child.None? then Some(OutOfMemory)
    else TableRefusal(Carve(b, p, child.value, 0, spec), caller, room)
  }

  /** A process runs in `f`. */
  ghost predicate Holds(b: Books, f: Frame) {
    exists pid :: pid in b.lives && b.lives[pid] == f
  }

  /** What `budget_create` asks, and all it asks: depth, and pages, processes and weight free in the parent, some of
      the weight left to a parent with a process of its own; a frame; and a slot, the caller paying the page the
      table grows by out of what the creation leaves it. Each error names what was missing.
    */
  lemma {:induction false} CreatesWhenRoom(
      b: Books, caller: Frame, p: Frame, child: Option<Frame>, spec: Spec, room: TableRoom)
    requires caller in b.store && p in b.store && (child.Some? ==> child.value !in b.store)
    ensures var pb, cb, r := b.store[p], b.store[caller], CreateRefusal(b, caller, p, child, spec, room);
            var left := pb.weight.limit - pb.weight.used - spec.weight;
            var pages := pb.pages.limit - pb.pages.used - spec.pages - 1;
            var buys := (if caller == p then pages else cb.pages.limit - cb.pages.used) >= 1;
            var deep, light := pb.depth + 1 >= MAX_DEPTH, left < 0 || (left == 0 && spec.weight > 0 && Holds(b, p));
            var crowded := pb.processes.limit - pb.processes.used < spec.processes;
            && (r == None <==>
                && !deep && pages >= 0 && !crowded && !light && child.Some?
                && (room == Fits || (room == Grows(true) && buys)))
            && (r == Some(TooLarge) ==> deep || room == Full)
            && (r == Some(OutOfProcesses) ==> crowded)
            && (r == Some(InvalidArgument) ==> light)
            && (r == Some(OutOfMemory) ==> pages < 0 || child == None || room == Grows(false) || (room.Grows? && !buys))
  {
    hide WithKids, KidsOf;
  }

  lemma {:induction false} CarveParts(b: Books, p: Frame, child: Frame, id: nat, spec: Spec)
    requires Sound(b) && DyingIs(b.store, {}) && p in b.store && child !in b.store
    ensures var b' := Carve(b, p, child, id, spec);
            && b' == b.(store := b'.store, tree := b'.tree, pages := b.pages[child := 0])
            && b'.store.Keys == b.store.Keys + {child} && DyingIs(b'.store, {})
            && (forall f, room :: f in b.store ==>
                TableRefusal(b', f, room) == TableRefusal(Carve(b, p, child, 0, spec), f, room))
  {
  }

  /** What undoing a creation asks, and that it undoes it: the store is as it was. */
  lemma {:induction false} RollbackSteps(b: Books, p: Frame, child: Frame, id: nat, spec: Spec)
    requires Treed(b) && b.doom.NoDoom? && p in b.store && child !in b.store
    ensures var carved := Carve(b, p, child, id, spec).store;
            var k := Cons(child, Nil, KidsOf(b.tree, p));
            && child in carved && p in carved && p != child
            && carved[p].pages.used >= 1 + carved[child].pages.limit
            && carved[p].processes.used >= carved[child].processes.limit
            && carved[p].weight.used >= carved[child].weight.limit
            && var back := Settling(Lighter(carved, p, carved[child].weight.limit), p, child, 0, 0);
               && p in back && child in back && TopLevel(k, child) && Distinct(k) && p !in Frames(k)
               && Linked(back, Some(p), back[p].depth + 1, k) && back[p].firstChild == Head(k)
               && Unlinked(back, p, k, child) - {child} == b.store
  {
    var carved := Carve(b, p, child, id, spec).store;
    var k := KidsOf(b.tree, p);
    KidsWithin(b.store, None, 0, b.tree, p);
    var back := Settling(Lighter(carved, p, carved[child].weight.limit), p, child, 0, 0);
    LinkedSame(b.store, back, Some(p), b.store[p].depth + 1, k);
    assert back[p] == b.store[p].(firstChild := Some(child));
    assert Unlinked(back, p, Cons(child, Nil, k), child) - {child} == b.store;
  }

  /** I10: a budget created and destroyed with nothing done in it between leaves every budget, and every
      charge, as it was.
    */
  lemma {:induction false} CreateThenDestroy(b: Books, p: Frame, child: Frame, id: nat, spec: Spec, marked: Books)
    requires Sound(b) && b.doom.NoDoom? && p in b.store && child !in b.store && Room(b, p, spec)
    requires MarkedAt(Carve(b, p, child, id, spec), marked, child) && Sound(marked)
    ensures var gone := Destroyed(marked);
            && gone.store.Keys == b.store.Keys && gone.tree == b.tree && gone.counted == b.counted
            && gone.runs == b.runs
            && (forall f :: f in b.store ==>
                  && gone.store[f].pages == b.store[f].pages && gone.store[f].processes == b.store[f].processes
                  && gone.store[f].weight == b.store[f].weight && At(gone.pages, f) == At(b.pages, f))
  {
    hide Sound, MarkedAt, Meanwhile, Carve, Destroyed, CarveReturned, Repaying, Counts, RunPagesIn, CountedWithin,
         MoveRuns, MovePids, DoomFrames, WithKids, KidsOf, RemoveTop;
    var made := Carve(b, p, child, id, spec);
    CarveKeeps(b, p, child, id, spec);
    CarveMeters(b, p, child, id, spec);
    CarvedAlone(b, p, child, id, spec);
    MeanwhileNothing(made, marked, child);
    DestructionReturns(made, marked, marked, child);
    ReturnedKeys(made, Destroyed(marked), child);
    NothingThere(b, p, child);
    CreatedGone(b, p, child, id, spec, marked);
    forall f | f in b.store ensures SameMeters(b.store[f], Destroyed(marked).store[f]) {
      ReturnedAt(made, Destroyed(marked), child, f);
      MadeRepaid(b, p, child, id, spec, Destroyed(marked), f);
    }
  }

  lemma {:induction false} ReturnedAt(b: Books, gone: Books, top: Frame, f: Frame)
    requires top in b.store && b.store[top].parent.Some? && b.store[top].parent.value in b.store
    requires CarveReturned(b, gone, top) && f in b.store && f in gone.store
    ensures Repaying(b, gone, f, if f == b.store[top].parent.value then Some(top) else None)
  {
    hide Repaying;
  }

  lemma {:induction false} ReturnedKeys(b: Books, gone: Books, top: Frame)
    requires top in b.store && b.store[top].parent.Some? && b.store[top].parent.value in b.store
    requires CarveReturned(b, gone, top)
    ensures gone.store.Keys == b.store.Keys - {top} - Frames(KidsOf(b.tree, top))
  {
    hide Repaying, KidsOf, Frames;
  }

  predicate SameMeters(a: Budget, b: Budget) {
    b.pages == a.pages && b.processes == a.processes && b.weight == a.weight
  }

  lemma {:induction false} MadeRepaid(b: Books, p: Frame, child: Frame, id: nat, spec: Spec, gone: Books, f: Frame)
    requires p in b.store && child !in b.store && f in b.store && f in gone.store
    requires Repaying(Carve(b, p, child, id, spec), gone, f, if f == p then Some(child) else None)
    requires At(gone.pages, f) == At(b.pages, f) && gone.counted == b.counted
    ensures SameMeters(b.store[f], gone.store[f])
  {
    hide Counts, WithKids, KidsOf;
    var made := Carve(b, p, child, id, spec);
    assert forall r: Resource :: Of(gone.store[f], r).limit == Of(made.store[f], r).limit;
    assert Of(gone.store[f], Pages).limit == Of(made.store[f], Pages).limit;
    assert Of(gone.store[f], Processes).limit == Of(made.store[f], Processes).limit;
    assert Of(gone.store[f], Weight).limit == Of(made.store[f], Weight).limit;
  }

  lemma {:induction false} CarveMeters(b: Books, p: Frame, child: Frame, id: nat, spec: Spec)
    requires p in b.store && child !in b.store
    ensures var made := Carve(b, p, child, id, spec);
            && made.doom == b.doom && made.counted == b.counted && made.runs == b.runs
            && made.store.Keys == b.store.Keys + {child} && made.store[child].parent == Some(p)
            && made.store[p].pages.used == b.store[p].pages.used + 1 + made.store[child].pages.limit
            && made.store[p].processes.used == b.store[p].processes.used + made.store[child].processes.limit
            && made.store[p].weight.used == b.store[p].weight.used + made.store[child].weight.limit
            && (forall r: Resource :: Of(made.store[p], r).limit == Of(b.store[p], r).limit)
            && (forall f :: f in b.store && f != p ==> made.store[f] == b.store[f])
  {
  }

  lemma {:induction false} CarvedAlone(b: Books, p: Frame, child: Frame, id: nat, spec: Spec)
    requires Sound(b) && b.doom.NoDoom? && p in b.store && child !in b.store
    ensures var made := Carve(b, p, child, id, spec);
            && KidsOf(made.tree, child) == Nil && made.store[child].parent == Some(p) && p != child
            && WithKids(made.tree, p, RemoveTop(KidsOf(made.tree, p), child)) == b.tree
  {
    var k := KidsOf(b.tree, p);
    KidsWithin(b.store, None, 0, b.tree, p);
    WithKidsBack(b.tree, p, Cons(child, Nil, k), child);
  }

  lemma {:induction false} WithKidsBack(g: Forest, p: Frame, h: Forest, child: Frame)
    requires Distinct(g) && p in Frames(g) && child !in Frames(g) && h == Cons(child, Nil, KidsOf(g, p))
    ensures KidsOf(WithKids(g, p, h), p) == h && WithKids(WithKids(g, p, h), p, KidsOf(g, p)) == g
    ensures KidsOf(WithKids(g, p, h), child) == Nil
  {
    if g.frame == p {
    } else if p in Frames(g.kids) {
      WithKidsBack(g.kids, p, h, child);
      WithKidsFrames(g.kids, p, h);
    } else {
      WithKidsBack(g.siblings, p, h, child);
      WithKidsFrames(g.siblings, p, h);
    }
  }

  lemma {:induction false} NothingThere(b: Books, p: Frame, child: Frame)
    requires Sound(b) && p in b.store && child !in b.store
    ensures RunPagesIn(b.runs, {child}) == 0 && CountedWithin(b.counted, {child}) == {}
    ensures MoveRuns(b.runs, {child}, p) == b.runs && MovePids(b.counted, {child}, p) == b.counted
  {
    NoRunsIn(b.runs, child);
  }

  lemma {:induction false} NoRunsIn(runs: seq<Run>, f: Frame)
    requires forall i :: 0 <= i < |runs| ==> runs[i].charged != Some(f)
    ensures RunPagesIn(runs, {f}) == 0
  {
    if runs != [] { NoRunsIn(runs[..|runs| - 1], f); }
  }

  lemma {:induction false} CreatedGone(b: Books, p: Frame, child: Frame, id: nat, spec: Spec, marked: Books)
    requires p in b.store && child !in b.store && p != child
    requires MarkedAt(Carve(b, p, child, id, spec), marked, child) && Sound(marked)
    requires KidsOf(Carve(b, p, child, id, spec).tree, child) == Nil
    requires WithKids(Carve(b, p, child, id, spec).tree, p,
                      RemoveTop(KidsOf(Carve(b, p, child, id, spec).tree, p), child)) == b.tree
    requires RunPagesIn(b.runs, {child}) == 0
    ensures DoomFrames(marked.doom) == {child}
    ensures var gone := Destroyed(marked);
            && gone.tree == b.tree && gone.counted == MovePids(b.counted, {child}, p)
            && gone.runs == MoveRuns(b.runs, {child}, p)
            && (forall f :: f in b.store ==> At(gone.pages, f) == At(b.pages, f))
  {
    hide Sound, Detached;
    CarveCovered(marked);
    assert DoomFrames(marked.doom) == {child} + Frames(Nil) == {child};
  }

  // --- Processes -----------------------------------------------------------------------------------------------

  /** Process `pid`, held by nobody, counts and runs in `f`. */
  function Born(b: Books, pid: Pid, f: Frame): Books
    requires f in b.store
  {
    Count(b, pid, f).(lives := b.lives[pid := f])
  }

  lemma {:induction false} BornKeeps(b: Books, pid: Pid, f: Frame)
    requires Sound(b) && f in b.store && IsPid(pid) && pid !in b.counted
    requires b.store[f].processes.used < b.store[f].processes.limit && b.store[f].weight.used < b.store[f].weight.limit
    ensures Sound(Born(b, pid, f))
  {
    hide Sound;
    CountKeeps(b, pid, f);
    LivingMore(b, pid, f);
    LivesKeep(Count(b, pid, f), b.lives[pid := f]);
  }

  lemma {:induction false} LivingMore(b: Books, pid: Pid, f: Frame)
    requires Sound(b) && f in b.store && pid !in b.counted && b.store[f].weight.used < b.store[f].weight.limit
    ensures Living(Count(b, pid, f).(lives := b.lives[pid := f]))
  {
  }

  /** Process `pid`'s `n` pages given back and it no longer runs. Its PID stays counted if an object names
      it.
    */
  function Ended(b: Books, pid: Pid, n: nat, named: bool): Books
    requires pid in b.lives && b.lives[pid] in b.store && pid in b.counted && b.counted[pid] == b.lives[pid]
    requires n <= b.store[b.lives[pid]].pages.used && n <= At(b.pages, b.lives[pid])
    requires b.store[b.lives[pid]].processes.used > 0
  {
    var gone := Uncharged(b, b.lives[pid], n).(lives := b.lives - {pid});
    if named then gone else Uncount(gone, pid)
  }

  lemma {:induction false} EndedKeeps(b: Books, pid: Pid, n: nat, named: bool)
    requires Sound(b) && pid in b.lives
    requires b.lives[pid] in b.store ==> RunPages(b.runs, b.lives[pid]) + n <= At(b.pages, b.lives[pid])
    ensures var f := b.lives[pid];
            && f in b.store && pid in b.counted && b.counted[pid] == f
            && n <= b.store[f].pages.used && b.store[f].processes.used > 0
            && Sound(Ended(b, pid, n, named))
  {
    hide Sound, RunPages;
    LivesIn(b, pid);
    var f := b.lives[pid];
    UnchargeKeeps(b, f, n);
    LivesFewer(Uncharged(b, f, n), pid);
    LivesKeep(Uncharged(b, f, n), b.lives - {pid});
    if !named {
      UncountKeeps(Uncharged(b, f, n).(lives := b.lives - {pid}), pid);
    }
  }

  lemma {:induction false} LivesIn(b: Books, pid: Pid)
    requires Sound(b) && pid in b.lives
    ensures b.lives[pid] in b.store && pid in b.counted && b.counted[pid] == b.lives[pid]
    ensures b.store[b.lives[pid]].processes.used > 0
  {
    CountsDrop(b.counted, pid);
    UsedCovers(b, Processes, b.lives[pid]);
  }

  lemma {:induction false} LivesFewer(b: Books, pid: Pid)
    requires Sound(b)
    ensures Living(b.(lives := b.lives - {pid}))
  {
  }

  /** A refused creation's process, ended, leaves the ledger as it was. */
  lemma {:induction false} UnbornIsBefore(b: Books, pid: Pid, f: Frame, n: nat)
    requires f in b.store && pid !in b.counted && pid !in b.lives && f in b.pages
    ensures Ended(Charged(Born(b, pid, f), f, n), pid, n, false) == b
  {
    var b' := Ended(Charged(Born(b, pid, f), f, n), pid, n, false);
    assert b'.store == b.store && b'.pages == b.pages && b'.counted == b.counted && b'.lives == b.lives;
  }

  lemma {:induction false} ChargedMore(b: Books, f: Frame, n: nat)
    requires f in b.store
    ensures Charged(Charged(b, f, n), f, 1) == Charged(b, f, n + 1) && (f in b.pages ==> Charged(b, f, 0) == b)
    ensures f in b.pages ==> Uncharged(Charged(b, f, n), f, n) == b
  {
  }

  /** A DMA run held by a dead process whose device would not reset: its pages, charged to `f` already, stay
      charged.
    */
  lemma {:induction false} QuarantineKeeps(b: Books, f: Frame, npages: nat)
    requires Sound(b) && f in b.store && RunPages(b.runs, f) + npages <= At(b.pages, f)
    ensures Sound(b.(runs := b.runs + [Run(npages, Some(f))]))
  {
    hide Treed, DoomLinked, Rooted, Paid, Counted, Living;
    RunsMore(b, f, npages);
    SameButRuns(b, b.runs + [Run(npages, Some(f))]);
  }

  lemma {:induction false} RunsOne(runs: seq<Run>, run: Run, x: Frame)
    ensures RunPages(runs + [run], x) == RunPages(runs, x) + if run.charged == Some(x) then run.npages else 0
  {
    assert (runs + [run])[..|runs|] == runs;
  }

  lemma {:induction false} RunsMore(b: Books, f: Frame, npages: nat)
    requires RunsPaid(b) && f in b.store && RunPages(b.runs, f) + npages <= At(b.pages, f)
    ensures RunsPaid(b.(runs := b.runs + [Run(npages, Some(f))]))
    ensures forall x :: RunPages(b.runs + [Run(npages, Some(f))], x)
                        == RunPages(b.runs, x) + if x == f then npages else 0
  {
    hide RunPages;
    var runs := b.runs + [Run(npages, Some(f))];
    forall x ensures RunPages(runs, x) == RunPages(b.runs, x) + if x == f then npages else 0 {
      RunsOne(b.runs, Run(npages, Some(f)), x);
    }
  }

  lemma {:induction false} SameButRuns(b: Books, runs: seq<Run>)
    ensures var b' := b.(runs := runs);
            && Treed(b') == Treed(b) && DoomLinked(b') == DoomLinked(b) && Rooted(b') == Rooted(b)
            && Counted(b') == Counted(b)
            && Living(b') == Living(b) && Paid(b', Pages) == Paid(b, Pages)
            && Paid(b', Processes) == Paid(b, Processes) && Paid(b', Weight) == Paid(b, Weight)
  {
    hide Balanced, Linked, Distinct;
  }

  lemma {:induction false} RunsCovered(b: Books, f: Frame)
    requires Sound(b) && f in b.store
    ensures RunPages(b.runs, f) <= At(b.pages, f)
  {
  }

  lemma {:induction false} SoundIsTreed(b: Books)
    requires Sound(b)
    ensures Treed(b) && DoomLinked(b)
  {
  }

  lemma {:induction false} WeightWithin(b: Books, f: Frame)
    requires Sound(b) && b.doom.NoDoom? && f in b.store
    ensures b.store[f].weight.used <= b.store[f].weight.limit
  {
    BalancedAt(b.store, Weight, map[], b.tree, f);
  }

  lemma {:induction false} ProcessesSame(store: Store, f: Frame, used: nat)
    requires f in store
    ensures WithProcesses(store, f, used).Keys == store.Keys
    ensures forall frames :: DyingIs(store, frames) ==> DyingIs(WithProcesses(store, f, used), frames)
  {
  }

  lemma {:induction false} ChargedStore(b: Books, f: Frame, n: nat)
    requires f in b.store
    ensures Charged(b, f, n).store.Keys == b.store.Keys && Charged(b, f, n).doom == b.doom
    ensures Charged(b, f, n) == b.(store := Charged(b, f, n).store, pages := Charged(b, f, n).pages)
    ensures At(Charged(b, f, n).pages, f) == At(b.pages, f) + n
    ensures Charged(b, f, n).store[f].pages.used == b.store[f].pages.used + n
  {
  }

  /** What refuses the caller an object of one page, charged to `payer`, with its handle. */
  function NameRefusal(b: Books, payer: Frame, caller: Frame, frame: bool, room: TableRoom): Option<Error>
    requires payer in b.store && caller in b.store
  {
    if b.store[payer].pages.used + 1 > b.store[payer].pages.limit || !frame then Some(OutOfMemory)
    else TableRefusal(Charged(b, payer, 1), caller, room)
  }

  /** The first check of `process_create` that fails. */
  function ProcessRefusal(
      b: Books, caller: Frame, target: Frame, space: nat, frames: nat, frame: bool, room: TableRoom): Option<Error>
    requires caller in b.store && target in b.store
  {
    var tb := b.store[target];
    if tb.weight.limit <= tb.weight.used then Some(InvalidArgument)
    else if tb.processes.limit <= tb.processes.used then Some(OutOfProcesses)
    else if tb.pages.used + space > tb.pages.limit || space > frames then Some(OutOfMemory)
    else NameRefusal(Charged(b, target, space), caller, caller, frame, room)
  }

  /** What `process_create` asks, and all it asks: weight and a process free in the target, its `space` pages there
      and frames for them, a page of the caller's for the object with a frame, and a slot. Each error names what was
      missing.
    */
  lemma {:induction false} ProcessWhenRoom(
      b: Books, caller: Frame, target: Frame, space: nat, frames: nat, frame: bool, room: TableRoom)
    requires caller in b.store && target in b.store
    ensures var tb, cb := b.store[target], b.store[caller];
            var r := ProcessRefusal(b, caller, target, space, frames, frame, room);
            var pages := tb.pages.limit - tb.pages.used - space;
            var left := if caller == target then pages else cb.pages.limit - cb.pages.used;
            var light, crowded := tb.weight.used >= tb.weight.limit, tb.processes.used >= tb.processes.limit;
            && (r == None <==>
                && !light && !crowded && pages >= 0 && space <= frames && frame
                && (if room.Fits? then left >= 1 else room == Grows(true) && left >= 2))
            && (r == Some(InvalidArgument) ==> light)
            && (r == Some(OutOfProcesses) ==> crowded)
            && (r == Some(TooLarge) ==> room == Full)
            && (r == Some(OutOfMemory) ==>
                  || pages < 0 || frames < space || !frame || room == Grows(false)
                  || left < (if room.Grows? then 2 else 1))
  {
  }

  /** The ledger with process `pid` in `target`, its `space` pages and its object paid for. */
  function WithProcess(b: Books, pid: Pid, caller: Frame, target: Frame, space: nat, room: TableRoom): Books
    requires caller in b.store && target in b.store
  {
    TableCharged(Charged(Charged(Born(b, pid, target), target, space), caller, 1), caller, room)
  }

  lemma {:induction false} NameRoom(b: Books, payer: Frame, caller: Frame, frame: bool, room: TableRoom)
    requires payer in b.store && caller in b.store
    ensures NameRefusal(b, payer, caller, frame, room).None? ==> !room.Full?
  {
  }

  lemma {:induction false} ProcessRoom(
      b: Books, caller: Frame, target: Frame, space: nat, frames: nat, frame: bool, room: TableRoom)
    requires caller in b.store && target in b.store
    ensures ProcessRefusal(b, caller, target, space, frames, frame, room).None? ==> !room.Full?
  {
  }

  lemma {:induction false} BornCharge(b: Books, pid: Pid, f: Frame, n: nat, caller: Frame, frame: bool, room: TableRoom)
    requires f in b.store && caller in b.store
    ensures f in Born(b, pid, f).store && Born(b, pid, f).store[f].pages == b.store[f].pages
    ensures var born := Charged(Born(b, pid, f), f, n);
            && born.store.Keys == b.store.Keys && born.doom == b.doom && born.runs == b.runs
            && At(born.pages, f) == At(b.pages, f) + n
            && born.lives == b.lives[pid := f] && born.counted == b.counted[pid := f]
            && NameRefusal(born, caller, caller, frame, room)
              == NameRefusal(Charged(b, f, n), caller, caller, frame, room)
  {
  }

  /** Process object `pid` freed. */
  ghost predicate CanFree(b: Books, pid: Pid, creator: Frame) {
    && creator in b.store && 1 <= b.store[creator].pages.used && 1 <= At(b.pages, creator)
    && pid in b.counted && b.counted[pid] in b.store && b.store[b.counted[pid]].processes.used > 0
  }

  /** An object freed: its page back with its creator's budget, and its PID counted no more. */
  ghost function Freed(b: Books, pid: Pid, creator: Frame): Books
    requires CanFree(b, pid, creator)
  {
    Uncount(Uncharged(b, creator, 1), pid)
  }

  lemma {:induction false} UnchargedSame(b: Books, f: Frame)
    requires f in b.store && 1 <= b.store[f].pages.used && 1 <= At(b.pages, f)
    ensures Uncharged(b, f, 1) == b.(store := Uncharged(b, f, 1).store, pages := Uncharged(b, f, 1).pages)
    ensures Uncharged(b, f, 1).store.Keys == b.store.Keys
    ensures forall x :: x in b.store ==> Uncharged(b, f, 1).store[x].processes == b.store[x].processes
  {
  }

  lemma {:induction false} UncountSame(b: Books, pid: Pid)
    requires pid in b.counted && b.counted[pid] in b.store && b.store[b.counted[pid]].processes.used > 0
    ensures Uncount(b, pid) == b.(store := Uncount(b, pid).store, counted := b.counted - {pid})
    ensures Uncount(b, pid).store.Keys == b.store.Keys
    ensures forall frames :: DyingIs(b.store, frames) ==> DyingIs(Uncount(b, pid).store, frames)
  {
  }

  // --- Boot ------------------------------------------------------------------------------------------------------

  const ROOT_WEIGHT: nat := 1_000_000
  const INIT_WEIGHT: nat := 1000
  const INIT_PAGES: nat := 1024
  const INIT_PID: Pid := 2

  function RootOnly(root: Frame, pages: nat): Books {
    Books(map[root := Budget(0, None, None, None, 0, false, Meter(pages, 0), Meter(MAX_PROCESS_COUNT - 1, 0),
                             Meter(ROOT_WEIGHT, 0))],
          Cons(root, Nil, Nil), NoDoom, map[root := 0], map[], map[], [])
  }

  lemma {:induction false} RootSound(root: Frame, pages: nat)
    ensures Sound(RootOnly(root, pages))
  {
  }

  /** A budget with the limits asked for, nothing of them used yet, below `p`. */
  predicate Made(c: Budget, p: Frame, id: nat, spec: Spec) {
    && c.id == id && c.parent == Some(p) && c.firstChild == None && !c.dying
    && c.pages == Meter(spec.pages, 0) && c.processes == Meter(spec.processes, 0) && c.weight == Meter(spec.weight, 0)
  }

  lemma {:induction false} CarveSpec(b: Books, p: Frame, child: Frame, id: nat, spec: Spec)
    requires p in b.store && child !in b.store
    ensures var made := Carve(b, p, child, id, spec);
            && made.store.Keys == b.store.Keys + {child} && made.lives == b.lives && made.counted == b.counted
            && made.store[p].pages == b.store[p].pages.(used := b.store[p].pages.used + 1 + spec.pages)
            && made.store[p].processes == b.store[p].processes.(used := b.store[p].processes.used + spec.processes)
            && made.store[p].weight == b.store[p].weight.(used := b.store[p].weight.used + spec.weight)
            && made.store[p].depth == b.store[p].depth
            && (forall f :: f in b.store && f != p ==> made.store[f] == b.store[f])
            && Made(made.store[child], p, id, spec) && made.store[child].depth == b.store[p].depth + 1
  {
  }

  lemma {:induction false} GrownSpec(
      b: Books, p: Frame, child: Frame, id: nat, spec: Spec, caller: Frame, room: TableRoom)
    requires p in b.store && child !in b.store && caller in b.store
    ensures caller in Carve(b, p, child, id, spec).store
    ensures var made := TableCharged(Carve(b, p, child, id, spec), caller, room);
            child in made.store && Made(made.store[child], p, id, spec)
  {
  }

  lemma {:induction false} BornSame(b: Books, pid: Pid, f: Frame)
    requires f in b.store
    ensures var born := Born(b, pid, f);
            && born.store.Keys == b.store.Keys && born.lives == b.lives[pid := f] && born.doom == b.doom
            && born.store[f] == b.store[f].(processes := b.store[f].processes.(used := b.store[f].processes.used + 1))
            && (forall x :: x in b.store && x != f ==> born.store[x] == b.store[x])
  {
  }

  lemma {:induction false} ChargedSame(b: Books, f: Frame, n: nat)
    requires f in b.store
    ensures var after := Charged(b, f, n);
            && after.store.Keys == b.store.Keys && after.lives == b.lives && after.doom == b.doom
            && after.store[f] == b.store[f].(pages := b.store[f].pages.(used := b.store[f].pages.used + n))
            && (forall x :: x in b.store && x != f ==> after.store[x] == b.store[x])
  {
  }
}
