/** The kernel's budgets as the calls change them (kernel/src/budget.rs, kernel/src/process.rs). */
module BudgetCalls {
  import opened Basics
  import opened BudgetForest
  import opened BudgetLedger
  import opened BudgetBooks
  import opened BudgetSteps

  class Budgets {
    var store: Store
    /** The budget counting each held PID. */
    var counted: map<Pid, Frame>
    /** The budget each live process runs in. */
    var lives: map<Pid, Frame>
    /** The PIDs a process object names, the process alive or its notice not yet taken, and the budget of its
        creator, which pays for the object.
      */
    var objects: map<Pid, Frame>
    /** The quarantined DMA runs. */
    var runs: seq<Run>
    ghost var tree: Forest
    ghost var doom: Doom
    ghost var pages: Direct

    /** `root` alone. */
    constructor (root: Frame, limit: nat)
      ensures Settled() && objects == map[] && View() == RootOnly(root, limit)
    {
      store := map[root := Budget(0, None, None, None, 0, false,
                                  Meter(limit, 0), Meter(MAX_PROCESS_COUNT - 1, 0), Meter(ROOT_WEIGHT, 0))];
      counted, lives, objects, runs := map[], map[], map[], [];
      tree, doom, pages := Cons(root, Nil, Nil), NoDoom, map[root := 0];
      new;
      RootSound(root, limit);
    }

    ghost function View(): Books
      reads this
    {
      Books(store, tree, doom, pages, counted, lives, runs)
    }

    ghost predicate Valid()
      reads this
    {
      && Sound(View())
      && counted.Keys == lives.Keys + objects.Keys && pages.Keys == store.Keys
      && CreatorsThere(objects, store.Keys)
      && DyingIs(store, DoomFrames(doom))
    }

    /** Outside a destruction. */
    ghost predicate Settled()
      reads this
    {
      Valid() && doom.NoDoom?
    }

    // --- Charging (R6) -------------------------------------------------------------------------------

    method Charge(f: Frame, n: nat) returns (r: Result<(), Error>)
      requires Valid() && f in store
      modifies this
      ensures Valid() && objects == old(objects)
      ensures r.Ok? <==> old(store[f].pages.used) + n <= old(store[f].pages.limit)
      ensures View() == if r.Ok? then Charged(old(View()), f, n) else old(View())
    {
      hide Sound, CreatorsThere;
      WithinLimit(View(), f);
      var b := store[f];
      if n > b.pages.limit - b.pages.used {
        return Err(OutOfMemory);
      }
      ChargeKeeps(View(), f, n);
      ghost var after := Charged(View(), f, n);
      store := store[f := b.(pages := b.pages.(used := b.pages.used + n))];
      pages := Plus(pages, f, n);
      assert View() == after && store.Keys == old(store.Keys);
      return Ok(());
    }

    /** Gives back `n` pages of what is charged to `f` itself, other than its quarantined runs. */
    method Uncharge(f: Frame, n: nat)
      requires Valid() && f in store && RunPages(runs, f) + n <= At(pages, f)
      modifies this
      ensures Valid() && objects == old(objects)
      ensures n <= old(store[f].pages.used) && View() == Uncharged(old(View()), f, n)
    {
      hide Sound, CreatorsThere;
      UnchargeKeeps(View(), f, n);
      ghost var after := Uncharged(View(), f, n);
      var b := store[f];
      store := store[f := b.(pages := b.pages.(used := b.pages.used - n))];
      pages := pages[f := At(pages, f) - n];
      assert View() == after && store.Keys == old(store.Keys);
    }

    /** A DMA run of `f`'s, its holder dead and some device of its not reset: charged to `f` until `f` goes. */
    method Quarantine(f: Frame, npages: nat)
      requires Valid() && f in store && RunPages(runs, f) + npages <= At(pages, f)
      modifies this
      ensures Valid() && objects == old(objects) && View() == old(View()).(runs := old(runs) + [Run(npages, Some(f))])
    {
      hide Sound, CreatorsThere;
      QuarantineKeeps(View(), f, npages);
      runs := runs + [Run(npages, Some(f))];
    }

    // --- PIDs (R6, R20) ----------------------------------------------------------------------------------

    /** The free PIDs below `limit`, in order: no process runs under one, and no object names one. */
    ghost function FreePids(limit: nat): seq<Pid>
      reads this
    {
      if limit <= 2 then []
      else FreePids(limit - 1) + if limit - 1 in lives || limit - 1 in objects then [] else [limit - 1]
    }

    lemma {:induction false} FreePidsAre(limit: nat)
      ensures forall i :: 0 <= i < |FreePids(limit)| ==>
                2 <= FreePids(limit)[i] < limit && FreePids(limit)[i] !in lives && FreePids(limit)[i] !in objects
      ensures forall pid :: 2 <= pid < limit && pid !in lives && pid !in objects ==> pid in FreePids(limit)
    {
      if limit > 2 { FreePidsAre(limit - 1); }
    }

    /** `random_free_pid`: the `draw`-th of the free PIDs, none only if there is none. */
    method RandomFreePid(draw: nat) returns (pid: Option<Pid>)
      ensures var free := FreePids(MAX_PROCESS_COUNT + 1);
              pid == if free == [] then None else Some(free[draw % |free|])
    {
      var free: seq<Pid> := [];
      for p := 2 to MAX_PROCESS_COUNT + 1
        invariant free == FreePids(p)
      {
        if p !in lives && p !in objects { free := free + [p]; }
      }
      pid := if |free| == 0 then None else Some(free[draw % |free|]);
    }

    // --- The child list and the walk (R10) -----------------------------------------------------------------

    /** Link `c` out of `p`'s child list, found from its head. */
    method UnlinkChild(p: Frame, c: Frame, ghost k: Forest)
      requires p in store && c in store && TopLevel(k, c) && Distinct(k) && p !in Frames(k)
      requires Linked(store, Some(p), store[p].depth + 1, k) && store[p].firstChild == Head(k)
      modifies this`store
      ensures store == Unlinked(old(store), p, k, c)
    {
      if store[p].firstChild == Some(c) {
        store := store[p := store[p].(firstChild := store[c].nextSibling)];
        return;
      }
      var cur := store[p].firstChild;
      ghost var rest := k;
      while cur.Some?
        invariant store == old(store) && cur == Head(rest) && Linked(store, Some(p), store[p].depth + 1, rest)
        invariant Distinct(rest) && TopLevel(rest, c) && rest.frame != c && Before(rest, c) == Before(k, c)
        decreases rest
      {
        if store[cur.value].nextSibling == Some(c) {
          store := store[cur.value := store[cur.value].(nextSibling := store[c].nextSibling)];
          return;
        }
        cur := store[cur.value].nextSibling;
        rest := rest.siblings;
      }
    }

    /** `subtree_next`: the budget after `cur` in the walk of the subtree `top` heads. */
    method Next(top: Frame, cur: Frame, ghost kids: Forest) returns (next: Option<Frame>)
      requires Walkable(store, top, kids) && (cur == top || cur in Frames(kids))
      ensures cur in store && next == SubtreeNext(store, top, cur)
    {
      LinkedFrames(store, Some(top), store[top].depth + 1, kids);
      if store[cur].firstChild.Some? {
        return store[cur].firstChild;
      }
      var at := cur;
      while true
        invariant at == top || at in Frames(kids)
        invariant at in store && Climb(store, top, cur) == Climb(store, top, at)
        decreases store[at].depth
      {
        if at == top {
          return None;
        }
        if store[at].nextSibling.Some? {
          return store[at].nextSibling;
        }
        ClimbGoesOn(store, top, kids, at);
        at := store[at].parent.value;
      }
    }

    /** Mark every budget of the subtree `top` heads dying: each once, through the links alone. */
    method MarkSubtree(top: Frame, ghost kids: Forest)
      requires Walkable(store, top, kids)
      modifies this`store
      ensures store == WithDying(old(store), {top} + Frames(kids))
    {
      var cur := Some(top);
      ghost var walk, i := Walk(top, kids), 0;
      WalkVisitsOnce(top, kids);
      while cur.Some?
        invariant 0 <= i <= |walk| && cur == if i < |walk| then Some(walk[i]) else None
        invariant store == WithDying(old(store), Elements(walk[..i]))
        decreases |walk| - i
      {
        WithDyingWalkable(old(store), Elements(walk[..i]), top, kids);
        NextInWalk(store, top, kids, i);
        assert walk[i] in Elements(walk);
        WithDyingMore(old(store), Elements(walk[..i]), walk[i]);
        ElementsNext(walk, i);
        store := store[cur.value := store[cur.value].(dying := true)];
        WithDyingWalkable(old(store), Elements(walk[..i + 1]), top, kids);
        NextInWalk(store, top, kids, i);
        i := i + 1;
        cur := Next(top, cur.value, kids);
      }
      assert walk[..|walk|] == walk;
    }

    /** `mark_dying`: `top`'s weight back to its parent, `top` out of its parent's list, and everything
        from it down marked.
      */
    method MarkDying(top: Frame)
      requires Settled() && top in store && store[top].parent.Some?
      modifies this
      ensures Valid() && objects == old(objects) && MarkedAt(old(View()), View(), top)
      ensures doom.Doom? && doom.top == top && Liftable(store, top, top, doom.kids)
    {
      hide Sound, CreatorsThere, MarkedAt, Liftable, DyingIs, Unlinked, WithDying, Linked, TopLevel, Distinct, Walkable,
           RemoveTop, KidsOf, WithKids;
      ghost var b := View();
      var p := store[top].parent.value;
      ghost var k := KidsOf(tree, p);
      ghost var kids := KidsOf(k, top);
      TopInTree(b, top);
      LoosenedWalkable(store, p, k, top);
      MarkStep(b, top);
      MarkStoreDying(store, p, k, top);
      GiveWeightBack(p, top);
      UnlinkChild(p, top, k);
      MarkSubtree(top, kids);
      tree := WithKids(tree, p, RemoveTop(k, top));
      doom := Doom(top, kids);
      assert View() == Mark(b, store, top, p);
      MarkedLiftable(b, View(), top);
    }

    method GiveWeightBack(p: Frame, top: Frame)
      requires p in store && top in store && p != top && store[top].weight.limit <= store[p].weight.used
      modifies this`store
      ensures store == Lighter(old(store), p, old(store[top]).weight.limit)
      ensures forall parent, depth, g :: Linked(old(store), parent, depth, g) ==> Linked(store, parent, depth, g)
    {
      var limit := store[top].weight.limit;
      store := store[p := store[p].(weight := store[p].weight.(used := store[p].weight.used - limit))];
      forall parent, depth, g | Linked(old(store), parent, depth, g)
        ensures Linked(store, parent, depth, g)
      {
        LinkedSame(old(store), store, parent, depth, g);
      }
    }

    // --- The end of a destruction (R10) -----------------------------------------------------------------------

    /** `return_carve`: to `p` what `c` carved from it, and `c`'s own page; its weight too if `weight`. */
    method ReturnCarve(c: Frame, p: Frame, weight: bool)
      requires c in store && p in store && c != p
      requires store[p].pages.used >= 1 + store[c].pages.limit && store[p].processes.used >= store[c].processes.limit
      requires weight ==> store[p].weight.used >= store[c].weight.limit
      modifies this`store
      ensures var lighter := if weight then Lighter(old(store), p, old(store[c]).weight.limit) else old(store);
              store == Settling(lighter, p, c, 0, 0)
    {
      var cb, pb := store[c], store[p];
      pb := pb.(pages := pb.pages.(used := pb.pages.used - (1 + cb.pages.limit)),
                processes := pb.processes.(used := pb.processes.used - cb.processes.limit));
      if weight {
        pb := pb.(weight := pb.weight.(used := pb.weight.used - cb.weight.limit));
      }
      store := store[p := pb];
    }

    /** `dma_migrate_quarantine`: every quarantined run charged to a dying budget is charged to `p`. */
    method MigrateQuarantine(p: Frame, ghost frames: set<Frame>)
      requires p in store && p !in frames && DyingIs(store, frames) && RunsWithin(runs, store)
      requires store[p].pages.used + RunPagesIn(runs, frames) <= store[p].pages.limit
      modifies this`store, this`runs
      ensures runs == MoveRuns(old(runs), frames, p)
      ensures store == WithPages(old(store), p, old(store[p].pages.used) + RunPagesIn(old(runs), frames))
    {
      hide Requarantined, MoveRuns, RunPagesIn, DyingIs, RunsWithin, MoveRun;
      ghost var before, was := runs, store;
      RequarantineStarts(was, before, p, frames);
      for i := 0 to |runs|
        invariant |runs| == |before| && Requarantined(was, store, before, runs, p, frames, i)
      {
        RequarantineStep(was, store, before, runs, p, frames, i);
        var run := runs[i];
        if run.charged.Some? && store[run.charged.value].dying {
          store := store[p := store[p].(pages := store[p].pages.(used := store[p].pages.used + run.npages))];
          runs := runs[i := run.(charged := Some(p))];
        }
      }
      RequarantineEnds(was, store, before, runs, p, frames);
    }

    /** Every PID counted in dying budget `f` counts in `p`. */
    method MigrateFrom(f: Frame, p: Frame)
      requires p in store && f != p
      requires store[p].processes.used + |CountedIn(counted, f)| <= store[p].processes.limit
      modifies this`store, this`counted
      ensures counted == MovePids(old(counted), {f}, p)
      ensures store == WithProcesses(old(store), p, old(store[p].processes.used) + |CountedIn(old(counted), f)|)
    {
      hide Moving, CountedIn, MovePids, WithProcesses;
      ghost var moved: set<Pid> := {};
      ghost var before, was := counted, store;
      MovedNone(was, before, f, p);
      while exists pid :: pid in counted && counted[pid] == f
        invariant moved <= CountedIn(before, f) && counted == Moving(before, moved, p)
        invariant store == WithProcesses(was, p, was[p].processes.used + |moved|)
        decreases CountedIn(before, f) - moved
      {
        var pid :| pid in counted && counted[pid] == f;
        MoveOne(was, before, moved, pid, f, p, was[p].processes.used);
        CountOne(p);
        counted := counted[pid := p];
        moved := moved + {pid};
      }
      MovedEvery(before, moved, f, p);
    }

    /** `count_process`, where there is room. */
    method CountOne(p: Frame)
      requires p in store
      modifies this`store
      ensures store == WithProcesses(old(store), p, old(store[p].processes.used) + 1)
    {
      store := store[p := store[p].(processes := store[p].processes.(used := store[p].processes.used + 1))];
    }

    /** `migrate_held_pids`: every PID still counted in the subtree `top` heads counts in `p`. */
    method MigrateHeldPids(top: Frame, p: Frame, ghost kids: Forest)
      requires Walkable(store, top, kids) && p in store && p != top && p !in Frames(kids)
      requires store[p].processes.used + |CountedWithin(counted, {top} + Frames(kids))| <= store[p].processes.limit
      modifies this`store, this`counted
      ensures counted == MovePids(old(counted), {top} + Frames(kids), p)
      ensures store == HeldBy(old(store), p, old(counted), {top} + Frames(kids))
    {
      hide *;
      var cur := Some(top);
      ghost var i, before, was := 0, counted, store;
      MigratedNone(was, before, p, top, kids);
      while cur.Some?
        invariant 0 <= i <= |Walk(top, kids)| && cur == WalkAt(top, kids, i)
        invariant Migrated(was, store, before, counted, p, Walk(top, kids), i)
        decreases |Walk(top, kids)| - i
      {
        cur := MigrateNext(top, cur.value, p, kids, was, before, i);
        i := i + 1;
      }
      MigratedAll(was, store, before, counted, p, top, kids, i);
    }

    /** One budget of the walk: the PIDs counted in `cur`, then the budget after it. */
    method MigrateNext(top: Frame, cur: Frame, p: Frame, ghost kids: Forest, ghost was: Store,
                       ghost before: map<Pid, Frame>, ghost i: nat)
      returns (next: Option<Frame>)
      requires Walkable(was, top, kids) && p in was && p != top && p !in Frames(kids)
      requires was[p].processes.used + |CountedWithin(before, {top} + Frames(kids))| <= was[p].processes.limit
      requires i <= |Walk(top, kids)| && Some(cur) == WalkAt(top, kids, i)
      requires Migrated(was, store, before, counted, p, Walk(top, kids), i)
      modifies this`store, this`counted
      ensures i + 1 <= |Walk(top, kids)|
      ensures Migrated(was, store, before, counted, p, Walk(top, kids), i + 1)
      ensures next == WalkAt(top, kids, i + 1)
    {
      hide *;
      MigratedStep(was, store, before, counted, p, top, kids, i, cur);
      MigrateFrom(cur, p);
      MigratedWalkable(was, store, before, counted, p, top, kids, i, cur);
      next := Next(top, cur, kids);
    }

    /** `lift_dying`: the subtree `f` heads, every budget after those below it; each but `top` gives its
        weight back to its parent as it goes.
      */
    method Lift(f: Frame, top: Frame, ghost kids: Forest)
      requires Liftable(store, f, top, kids)
      modifies this`store
      ensures store == Lifted(old(store), f, top, kids)
      decreases Size(kids)
    {
      hide Liftable, Lifting, Lifted, Lighter;
      ghost var was := store;
      LiftStarts(was, f, top, kids);
      var child := store[f].firstChild;
      ghost var rest := kids;
      while child.Some?
        invariant child == Head(rest) && Lifting(was, store, f, kids, rest)
        decreases rest
      {
        var c := child.value;
        LiftChild(was, store, f, top, kids, rest);
        LiftGoesOn(was, store, f, top, kids, rest);
        var next := store[c].nextSibling;
        Lift(c, top, rest.kids);
        rest := rest.siblings;
        child := next;
      }
      LiftEnds(was, store, f, top, kids);
      if f != top {
        GiveBack(store[f].parent.value, store[f].weight.limit);
      }
    }

    method GiveBack(p: Frame, weight: nat)
      requires p in store && weight <= store[p].weight.used
      modifies this`store
      ensures store == Lighter(old(store), p, weight)
    {
      store := store[p := store[p].(weight := store[p].weight.(used := store[p].weight.used - weight))];
    }

    /** The dying budgets give all the weight carved in the subtree back, and nothing else moves. */
    method LiftDying(top: Frame)
      requires Valid() && doom.Doom? && doom.top == top && Liftable(store, top, top, doom.kids)
      modifies this
      ensures Valid() && objects == old(objects)
      ensures View() == old(View()).(store := Unladen(old(store), DoomFrames(old(doom))))
      ensures forall f :: f in store ==>
                && f in old(store)
                && store[f] == if f in DoomFrames(doom)
                    then old(store)[f].(weight := Meter(old(store)[f].weight.limit, 0)) else old(store)[f]
    {
      hide Sound, CreatorsThere, Liftable;
      LiftKeeps(View());
      RunsLive(View());
      Lift(top, top, doom.kids);
      LiftedTop(old(store), top, old(doom.kids));
      assert store.Keys == old(store.Keys);
    }

    /** `free_dying_budgets`: the subtree `f` heads, every budget after those below it. */
    method FreeDying(f: Frame, ghost kids: Forest) returns (ghost order: seq<Frame>)
      requires Walkable(store, f, kids)
      modifies this`store
      ensures store == old(store) - ({f} + Frames(kids))
      ensures order == Post(kids) + [f]
      decreases Size(kids)
    {
      hide Linked, Distinct, Frames, Post;
      NoFrames();
      var child := store[f].firstChild;
      ghost var rest := kids;
      order := [];
      while child.Some?
        invariant child == Head(rest) && Distinct(rest) && Frames(rest) <= Frames(kids) && Size(rest) <= Size(kids)
        invariant store == old(store) - (Frames(kids) - Frames(rest))
        invariant Linked(store, Some(f), old(store[f].depth) + 1, rest)
        invariant order + Post(rest) == Post(kids)
        decreases rest
      {
        var c := child.value;
        ghost var before := store;
        FirstOf(store, f, old(store[f].depth) + 1, rest);
        var next := store[c].nextSibling;
        ghost var freed := FreeDying(c, rest.kids);
        SiblingsStay(before, store, f, old(store[f].depth) + 1, rest);
        StoreLess(old(store), Frames(kids), Frames(rest), {c} + Frames(rest.kids));
        PostGoesOn(order, rest);
        order := order + freed;
        rest := rest.siblings;
        child := next;
      }
      store := store - {f};
      order := order + [f];
    }

    /** `destroy_marked`, once the subtree's processes are gone: the carve back, the pages and PIDs that
        outlive it moved up, and its budgets freed.
      */
    method DestroyMarked(top: Frame)
      requires Valid() && doom.Doom? && doom.top == top
      requires forall pid :: pid in lives ==> lives[pid] !in DoomFrames(doom)
      requires CreatorsThere(objects, store.Keys - DoomFrames(doom))
      modifies this
      ensures Settled() && objects == old(objects) && View() == Destroyed(old(View()))
    {
      hide Sound, CreatorsThere, Walkable, RunPagesIn, CountedWithin, Destroyed, Settling, DyingIs, RunsWithin,
           WithPages, HeldBy, DoomFrames;
      ghost var b, frames := View(), DoomFrames(doom);
      EndSteps(b);
      DestroyKeeps(b);
      DestroyedParts(b);
      var p := store[top].parent.value;
      ReturnCarve(top, p, false);
      MigrateQuarantine(p, frames);
      MigrateHeldPids(top, p, doom.kids);
      ghost var order := FreeDying(top, doom.kids);
      pages := Destroyed(b).pages;
      doom := NoDoom;
      assert View() == Destroyed(b);
    }

    // --- budget_create (R6, R7) -----------------------------------------------------------------------------------

    /** `new_budget`: the child's frame written, and its page and its limits carved from its parent. */
    method NewBudget(p: Frame, child: Frame, id: nat, spec: Spec)
      requires Settled() && p in store && child !in store && Room(View(), p, spec)
      modifies this
      ensures Settled() && objects == old(objects) && View() == Carve(old(View()), p, child, id, spec)
    {
      hide Sound, CreatorsThere, Room, DyingIs, WithKids, KidsOf;
      ghost var b := View();
      CarveKeeps(b, p, child, id, spec);
      CarveParts(b, p, child, id, spec);
      CreatorsMore(objects, store.Keys, child);
      store := store[child := Budget(id, Some(p), None, store[p].firstChild, store[p].depth + 1, false,
                                     Meter(spec.pages, 0), Meter(spec.processes, 0), Meter(spec.weight, 0))];
      var pb := store[p];
      store := store[p := pb.(firstChild := Some(child),
                              pages := pb.pages.(used := pb.pages.used + 1 + spec.pages),
                              processes := pb.processes.(used := pb.processes.used + spec.processes),
                              weight := pb.weight.(used := pb.weight.used + spec.weight))];
      tree := Carve(b, p, child, id, spec).tree;
      pages := pages[child := 0];
      assert View() == Carve(b, p, child, id, spec);
    }

    /** What `install_handle` charges the caller: a page, if the table must grow. */
    method InstallHandle(caller: Frame, room: TableRoom) returns (r: Result<(), Error>)
      requires Valid() && caller in store
      modifies this
      ensures Valid() && objects == old(objects) && doom == old(doom)
      ensures r == match TableRefusal(old(View()), caller, room) case Some(e) => Err(e) case None => Ok(())
      ensures View() == if r.Ok? then TableCharged(old(View()), caller, room) else old(View())
    {
      hide Sound, CreatorsThere, DyingIs;
      match room {
        case Fits => return Ok(());
        case Full => return Err(TooLarge);
        case Grows(frame) =>
          r := Charge(caller, 1);
          if r.Err? { return Err(OutOfMemory); }
          if !frame {
            ChargedMore(old(View()), caller, 1);
            RunsCovered(old(View()), caller);
            Uncharge(caller, 1);
            return Err(OutOfMemory);
          }
          return Ok(());
      }
    }

    /** `budget_create`'s undoing: the carve back, the child out of its parent's list, its frame freed. */
    method Undo(p: Frame, child: Frame, ghost b: Books, ghost id: nat, ghost spec: Spec)
      requires Sound(b) && b.doom.NoDoom? && p in b.store && child !in b.store && View() == Carve(b, p, child, id, spec)
      modifies this
      ensures View() == b && objects == old(objects)
    {
      hide Sound, CreatorsThere, Linked, Distinct, TopLevel, Unlinked, Settling, Lighter, KidsOf, WithKids;
      SoundIsTreed(b);
      RollbackSteps(b, p, child, id, spec);
      ReturnCarve(child, p, true);
      UnlinkChild(p, child, Cons(child, Nil, KidsOf(b.tree, p)));
      store := store - {child};
      tree, pages := b.tree, b.pages;
    }

    /** `budget_create`, the handle named, after the label and class checks: every refusal in order, and a
        refused creation leaves the ledger exactly as it was.
      */
    method BudgetCreate(caller: Frame, p: Frame, child: Option<Frame>, id: nat, spec: Spec, room: TableRoom)
      returns (r: Result<Frame, Error>)
      requires Settled() && caller in store && p in store && (child.Some? ==> child.value !in store)
      modifies this
      ensures Settled() && objects == old(objects)
      ensures match CreateRefusal(old(View()), caller, p, child, spec, room)
              case Some(e) => r == Err(e) && View() == old(View())
              case None =>
                && child.Some? && r == Ok(child.value)
                && View() == TableCharged(Carve(old(View()), p, child.value, id, spec), caller, room)
                && child.value in store && Made(store[child.value], p, id, spec)
    {
      hide Sound, CreatorsThere, DyingIs, Carve, TableRefusal, TableCharged, Made;
      ghost var b := View();
      var pb := store[p];
      WithinLimit(b, p);
      WeightWithin(b, p);
      if pb.depth + 1 >= MAX_DEPTH { return Err(TooLarge); }
      if spec.pages + 1 > pb.pages.limit - pb.pages.used { return Err(OutOfMemory); }
      if spec.processes > pb.processes.limit - pb.processes.used { return Err(OutOfProcesses); }
      var free := pb.weight.limit - pb.weight.used;
      if spec.weight > free ||
         (spec.weight > 0 && spec.weight == free && exists pid :: pid in lives && lives[pid] == p) {
        return Err(InvalidArgument);
      }
      if child.None? { return Err(OutOfMemory); }
      CarveParts(b, p, child.value, id, spec);
      NewBudget(p, child.value, id, spec);
      var installed := InstallHandle(caller, room);
      if installed.Err? {
        Undo(p, child.value, b, id, spec);
        return Err(installed.error);
      }
      GrownSpec(b, p, child.value, id, spec, caller, room);
      return Ok(child.value);
    }

    // --- process_create, a process's end, and its object's (R6, R20) ------------------------------------------------

    /** `count_process` and `process_created`: `pid` counts and runs in `f`. */
    method ProcessCreated(pid: Pid, f: Frame)
      requires Settled() && f in store && IsPid(pid) && pid !in counted
      requires store[f].processes.used < store[f].processes.limit && store[f].weight.used < store[f].weight.limit
      modifies this
      ensures Settled() && objects == old(objects) && View() == Born(old(View()), pid, f)
    {
      hide Sound, CreatorsThere, DyingIs, WithProcesses;
      ghost var b := View();
      BornKeeps(b, pid, f);
      ProcessesSame(b.store, f, b.store[f].processes.used + 1);
      CountOne(f);
      counted, lives := counted[pid := f], lives[pid := f];
      assert View() == Born(b, pid, f);
    }

    /** `process_ended`: its `n` pages back; its PID stays counted while an object names it. */
    method ProcessEnded(pid: Pid, n: nat)
      requires Valid() && pid in lives
      requires lives[pid] in store ==> RunPages(runs, lives[pid]) + n <= At(pages, lives[pid])
      modifies this
      ensures Valid() && objects == old(objects)
      ensures old(lives[pid]) in old(store) && pid in old(counted) && old(counted[pid]) == old(lives[pid])
      ensures n <= old(store[lives[pid]].pages.used) && n <= At(old(pages), old(lives[pid]))
      ensures old(store[lives[pid]].processes.used) > 0
      ensures View() == Ended(old(View()), pid, n, pid in old(objects))
    {
      hide Sound, CreatorsThere, DyingIs, RunPages;
      ghost var b := View();
      EndedKeeps(b, pid, n, pid in objects);
      var f := lives[pid];
      Uncharge(f, n);
      lives := lives - {pid};
      if pid !in objects {
        ProcessesSame(store, f, store[f].processes.used - 1);
        store := store[f := store[f].(processes := store[f].processes.(used := store[f].processes.used - 1))];
        counted := counted - {pid};
      }
      assert View() == Ended(b, pid, n, pid in objects);
    }

    /** `init`, running in `root` with everything the loader gave it and its first thread. */
    method StartInit(root: Frame, initFrames: nat)
      requires Settled() && root in store && INIT_PID !in counted && store[root].weight.used < store[root].weight.limit
      requires store[root].processes.used < store[root].processes.limit
      requires store[root].pages.used + initFrames + 1 <= store[root].pages.limit
      modifies this
      ensures Settled() && store.Keys == old(store.Keys) && lives == old(lives)[INIT_PID := root]
      ensures store[root].weight == old(store[root].weight)
      ensures store[root].pages == old(store[root].pages).(used := old(store[root].pages.used) + initFrames + 1)
      ensures store[root].processes == old(store[root].processes).(used := old(store[root].processes.used) + 1)
      ensures forall f :: f in old(store) && f != root ==> store[f] == old(store[f])
    {
      hide Sound, CreatorsThere, DyingIs, Charged, Born;
      BornSame(View(), INIT_PID, root);
      ProcessCreated(INIT_PID, root);
      ChargedSame(View(), root, initFrames);
      var charged := Charge(root, initFrames);
      ChargedSame(View(), root, 1);
      var thread := Charge(root, 1);
    }

    /** `free_object`, its process gone: its page back to its creator's budget, and its PID free. */
    method FreeObject(pid: Pid)
      requires Valid() && pid in objects && pid !in lives
      requires RunPages(runs, objects[pid]) + 1 <= At(pages, objects[pid])
      modifies this
      ensures Valid() && objects == old(objects) - {pid} && CanFree(old(View()), pid, old(objects)[pid])
      ensures View() == Freed(old(View()), pid, old(objects)[pid])
    {
      hide Sound, CreatorsThere, DyingIs, RunPages, Uncharged, Uncount;
      ghost var b := View();
      var creator := objects[pid];
      Uncharge(creator, 1);
      UnchargedSame(b, creator);
      UncountProcess(pid);
    }

    /** `uncount_process`: the PID of an object being freed counts no more. */
    method UncountProcess(pid: Pid)
      requires Valid() && pid in objects && pid !in lives
      modifies this
      ensures Valid() && objects == old(objects) - {pid}
      ensures old(counted)[pid] in old(store) && old(store)[old(counted)[pid]].processes.used > 0
      ensures View() == Uncount(old(View()), pid)
    {
      hide Sound, CreatorsThere, DyingIs;
      UncountKeeps(View(), pid);
      UncountSame(View(), pid);
      CreatorsFewer(objects, store.Keys, pid);
      var f := counted[pid];
      store := store[f := store[f].(processes := store[f].processes.(used := store[f].processes.used - 1))];
      counted := counted - {pid};
      objects := objects - {pid};
    }

    /** `new_address_space`: `space` pages charged to `f` one by one, as far as there are frames for them. */
    method ChargeSpace(f: Frame, space: nat, frames: nat) returns (r: Result<(), Error>, charged: nat)
      requires Settled() && f in store
      modifies this
      ensures Settled() && objects == old(objects) && View() == Charged(old(View()), f, charged)
      ensures r.Ok? ==> charged == space
      ensures r == if old(store[f].pages.used) + space <= old(store[f].pages.limit) && space <= frames then Ok(())
              else Err(OutOfMemory)
    {
      hide Sound, CreatorsThere, DyingIs, Plus;
      ghost var b := View();
      charged := 0;
      WithinLimit(b, f);
      ChargedMore(b, f, 0);
      while charged < space
        invariant 0 <= charged <= space && charged <= frames && Settled() && f in store && objects == old(objects)
        invariant View() == Charged(b, f, charged) && b.store[f].pages.used + charged <= b.store[f].pages.limit
      {
        if charged == frames { return Err(OutOfMemory), charged; }
        ChargedMore(b, f, charged);
        var one := Charge(f, 1);
        if one.Err? { return Err(OutOfMemory), charged; }
        charged := charged + 1;
      }
      return Ok(()), charged;
    }

    /** A free PID: there always is one, since `target` has room for a process. */
    method DrawPid(target: Frame, draw: nat) returns (pid: Pid)
      requires Settled() && target in store && store[target].processes.used < store[target].processes.limit
      ensures IsPid(pid) && pid !in counted && pid !in lives && pid !in objects
    {
      hide Sound, CreatorsThere, DyingIs, FreePids;
      FreePidExists(View(), target);
      var drawn := RandomFreePid(draw);
      FreePidsAre(MAX_PROCESS_COUNT + 1);
      pid := drawn.value;
    }

    /** An object of one page: the page charged to `payer`, its frame, its handle in the caller's table. */
    method NameObject(payer: Frame, caller: Frame, frame: bool, room: TableRoom) returns (r: Result<(), Error>)
      requires Settled() && payer in store && caller in store
      modifies this
      ensures Settled() && objects == old(objects)
      ensures match NameRefusal(old(View()), payer, caller, frame, room)
              case Some(e) => r == Err(e) && View() == old(View())
              case None => r == Ok(()) && View() == TableCharged(Charged(old(View()), payer, 1), caller, room)
    {
      hide Sound, CreatorsThere, DyingIs, Charged, TableRefusal, TableCharged;
      ghost var b := View();
      ChargedMore(b, payer, 1);
      ChargedStore(b, payer, 1);
      RunsCovered(b, payer);
      var one := Charge(payer, 1);
      if one.Err? { return Err(OutOfMemory); }
      if !frame {
        Uncharge(payer, 1);
        return Err(OutOfMemory);
      }
      r := InstallHandle(caller, room);
      if r.Err? { Uncharge(payer, 1); }
    }

    /** The process object, charged to the caller. */
    method NameProcess(caller: Frame, frame: bool, room: TableRoom, pid: Pid) returns (r: Result<(), Error>)
      requires Settled() && caller in store && pid in lives && pid !in objects
      modifies this
      ensures Settled()
      ensures match NameRefusal(old(View()), caller, caller, frame, room)
              case Some(e) => r == Err(e) && View() == old(View()) && objects == old(objects)
              case None =>
                && r == Ok(()) && objects == old(objects)[pid := caller]
                && View() == TableCharged(Charged(old(View()), caller, 1), caller, room)
    {
      hide Sound, CreatorsThere, DyingIs, Charged, TableRefusal;
      ChargedStore(View(), caller, 1);
      ChargedStore(Charged(View(), caller, 1), caller, 1);
      r := NameObject(caller, caller, frame, room);
      if r.Ok? {
        CreatorsAdd(objects, store.Keys, pid, caller);
        objects := objects[pid := caller];
      }
    }

    /** `drop_unstarted`: a process that never ran ends, and the ledger is as it was before it. */
    method DropUnstarted(pid: Pid, f: Frame, n: nat, ghost b: Books)
      requires Settled() && Sound(b) && f in b.store && f in b.pages && pid !in b.counted && pid !in b.lives
      requires pid !in objects
      requires View() == Charged(Born(b, pid, f), f, n)
      modifies this
      ensures Valid() && objects == old(objects) && View() == b
    {
      hide Sound, CreatorsThere, DyingIs, Born, Charged, RunPages, Ended;
      UnbornIsBefore(b, pid, f, n);
      BornCharge(b, pid, f, n, f, true, Fits);
      RunsCovered(b, f);
      ProcessEnded(pid, n);
    }

    /** `process_create`, the handles named: every refusal in order; a refused creation leaves the ledger
        exactly as it was, and a PID is always found, one that no process, object or notice still holds.
      */
    method ProcessCreate(caller: Frame, target: Frame, draw: nat, space: nat, frames: nat, frame: bool, room: TableRoom)
      returns (r: Result<Pid, Error>)
      requires Settled() && caller in store && target in store
      modifies this
      ensures Settled()
      ensures match ProcessRefusal(old(View()), caller, target, space, frames, frame, room)
              case Some(e) => r == Err(e) && View() == old(View()) && objects == old(objects)
              case None =>
                && r.Ok? && IsPid(r.value) && r.value !in old(counted) && r.value !in old(objects)
                && objects == old(objects)[r.value := caller]
                && View() == WithProcess(old(View()), r.value, caller, target, space, room)
    {
      hide Sound, CreatorsThere, DyingIs, Born, Charged, NameRefusal, TableCharged;
      ghost var b := View();
      if store[target].weight.limit <= store[target].weight.used { return Err(InvalidArgument); }
      if store[target].processes.limit <= store[target].processes.used { return Err(OutOfProcesses); }
      var pid := DrawPid(target, draw);
      ProcessCreated(pid, target);
      BornCharge(b, pid, target, 0, caller, frame, room);
      var made, n := ChargeSpace(target, space, frames);
      BornCharge(b, pid, target, n, caller, frame, room);
      if made.Ok? { made := NameProcess(caller, frame, room, pid); }
      if made.Err? {
        DropUnstarted(pid, target, n, b);
        return Err(made.error);
      }
      return Ok(pid);
    }
  }

  /** `boot_budgets`: `root`, with `system` and `users` carved from it, and `init` running in it. It fails
      only where `init`'s pages do not fit; `init` is left exactly its own weight and pages to work in, and
      every PID but its own is carved out.
    */
  method Boot(root: Frame, system: Frame, users: Frame, limit: nat, initFrames: nat) returns (k: Option<Budgets>)
    requires root != system && root != users && system != users
    ensures k.Some? <==> limit >= initFrames + 1 + INIT_PAGES + 2
    ensures k.Some? ==>
              && fresh(k.value) && k.value.Settled() && k.value.store.Keys == {root, system, users}
              && k.value.lives == map[INIT_PID := root]
              && var rb := k.value.store[root];
                 && rb.pages.limit == limit && rb.pages.used + INIT_PAGES == limit
                 && rb.processes.used == rb.processes.limit == MAX_PROCESS_COUNT - 1
                 && rb.weight.limit == ROOT_WEIGHT && rb.weight.used + INIT_WEIGHT == ROOT_WEIGHT
    ensures k.Some? ==>
              var rest := limit - (initFrames + 1 + INIT_PAGES + 2);
              && Made(k.value.store[system], root, 1, Spec(rest / 4, 127, 250_000))
              && Made(k.value.store[users], root, 2, Spec(rest - rest / 4, 382, 749_000))
  {
    if limit < initFrames + 1 + INIT_PAGES + 2 { return None; }
    var budgets := BootTree(root, system, users, limit, limit - (initFrames + 1 + INIT_PAGES + 2));
    budgets.StartInit(root, initFrames);
    k := Some(budgets);
  }

  /** The three boot budgets, `rest` pages shared between `system` and `users`. */
  method BootTree(root: Frame, system: Frame, users: Frame, limit: nat, rest: nat) returns (budgets: Budgets)
    requires root != system && root != users && system != users && rest + 2 <= limit
    ensures fresh(budgets) && budgets.Settled() && budgets.store.Keys == {root, system, users}
    ensures budgets.lives == map[] && budgets.counted == map[]
    ensures var rb := budgets.store[root];
            && rb.pages == Meter(limit, rest + 2) && rb.processes == Meter(MAX_PROCESS_COUNT - 1, MAX_PROCESS_COUNT - 2)
            && rb.weight == Meter(ROOT_WEIGHT, ROOT_WEIGHT - INIT_WEIGHT)
    ensures Made(budgets.store[system], root, 1, Spec(rest / 4, 127, 250_000))
    ensures Made(budgets.store[users], root, 2, Spec(rest - rest / 4, 382, 749_000))
  {
    hide Sound, CreatorsThere, DyingIs, Carve;
    var processes := MAX_PROCESS_COUNT - 1;
    budgets := new Budgets(root, limit);
    var ours := Spec(rest / 4, processes / 4, ROOT_WEIGHT / 4);
    var theirs := Spec(rest - rest / 4, processes - processes / 4 - 1, ROOT_WEIGHT - ROOT_WEIGHT / 4 - INIT_WEIGHT);
    CarveSpec(budgets.View(), root, system, 1, ours);
    budgets.NewBudget(root, system, 1, ours);
    CarveSpec(budgets.View(), root, users, 2, theirs);
    budgets.NewBudget(root, users, 2, theirs);
  }
}
