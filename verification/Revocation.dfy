/** A destruction's two halves together: the budget tree marks and frees the subtree (kernel/src/budget.rs),
    and the handle tables lose every handle that depends on it (kernel/src/handle.rs).
  */
module Revocation {
  import opened Basics
  import F = BudgetForest
  import L = BudgetLedger
  import B = BudgetBooks
  import S = BudgetSteps
  import H = HandleChains

  /** In a ledger that keeps its invariant every budget's parent is there and nearer the root. */
  lemma {:induction false} TreeRises(b: B.Books)
    requires B.Sound(b)
    ensures H.Rising(b.store)
  {
    hide B.Sound;
    S.SoundIsTreed(b);
    forall f | f in b.store && b.store[f].parent.Some? ensures H.Above(b.store, f, b.store[f].parent.value) {
      ParentRises(b, f);
    }
  }

  lemma {:induction false} ParentRises(b: B.Books, f: F.Frame)
    requires B.Treed(b) && B.DoomLinked(b) && f in b.store && b.store[f].parent.Some?
    ensures H.Above(b.store, f, b.store[f].parent.value)
  {
    if f in F.Frames(b.tree) {
      ParentAbove(b.store, None, 0, b.tree, f);
    } else if f in F.Frames(b.doom.kids) {
      F.ParentDepth(b.store, b.doom.top, b.store[b.doom.top].depth + 1, b.doom.kids, f);
    }
  }

  lemma {:induction false} ParentAbove(store: F.Store, parent: Option<F.Frame>, depth: nat, g: F.Forest, f: F.Frame)
    requires F.Linked(store, parent, depth, g) && f in F.Frames(g)
    requires parent.Some? ==> parent.value in store && store[parent.value].depth < depth
    ensures f in store && (store[f].parent.Some? ==> H.Above(store, f, store[f].parent.value))
    decreases g
  {
    if f == g.frame {
    } else if f in F.Frames(g.kids) {
      ParentAbove(store, Some(g.frame), depth + 1, g.kids, f);
    } else {
      ParentAbove(store, parent, depth, g.siblings, f);
    }
  }

  /** A marked subtree can be walked, and nothing outside it is below any of its budgets. */
  lemma {:induction false} SubtreeIsApart(b: B.Books)
    requires B.Sound(b) && b.doom.Doom?
    ensures F.Walkable(b.store, b.doom.top, b.doom.kids) && H.UpClosed(b.store, B.DoomFrames(b.doom))
    ensures B.DoomFrames(b.doom) == {b.doom.top} + F.Frames(b.doom.kids) && B.DoomFrames(b.doom) <= b.store.Keys
  {
    hide B.Sound;
    S.SoundIsTreed(b);
    forall f | f in b.store && f !in B.DoomFrames(b.doom) && b.store[f].parent.Some?
      ensures b.store[f].parent.value !in B.DoomFrames(b.doom)
    {
      F.ParentWithin(b.store, None, 0, b.tree, f);
    }
  }

  /** Once the subtree's processes are gone and its chains closed, freeing its budgets keeps the chains right. */
  lemma {:induction false} TablesOutlive(t: H.Tables, lists: H.Pair<H.Chains.Lists>, b: B.Books)
    requires B.Sound(b) && b.doom.Doom? && H.Sound(t, b.store, lists) && t.holders == b.lives
    requires forall pid :: pid in b.lives ==> b.lives[pid] !in B.DoomFrames(b.doom)
    requires forall p :: p in t.slots && t.slots[p].Live? ==>
               !H.Doomed(t.owners, t.slots[p].handle, B.DoomFrames(b.doom))
    ensures H.Sound(t, B.Destroyed(b).store, lists)
  {
    hide B.Sound, H.Wired, H.Placed, B.Destroyed;
    SubtreeIsApart(b);
    B.DestroyKeeps(b);
    TreeRises(B.Destroyed(b));
    DestroyedLinks(b);
    H.BudgetsChange(t, b.store, B.Destroyed(b).store, lists, B.DoomFrames(b.doom));
  }

  lemma {:induction false} DestroyedLinks(b: B.Books)
    requires B.Sound(b) && b.doom.Doom?
    ensures B.Destroyed(b).store.Keys == b.store.Keys - B.DoomFrames(b.doom)
    ensures forall f :: f in b.store && f !in B.DoomFrames(b.doom) ==>
              B.Destroyed(b).store[f].parent == b.store[f].parent && B.Destroyed(b).store[f].depth == b.store[f].depth
  {
    hide B.Sound;
    S.EndFits(b);
    B.CarveCovered(b);
  }

  /** No budget moves while none comes or goes: the chains stay right. */
  lemma {:induction false} TablesStay(t: H.Tables, lists: H.Pair<H.Chains.Lists>, store: F.Store, store': F.Store)
    requires H.Sound(t, store, lists) && F.SameRise(store, store')
    ensures H.Sound(t, store', lists)
  {
    hide H.Wired, H.Placed;
    forall f | f in store' && store'[f].parent.Some? ensures H.Above(store', f, store'[f].parent.value) {
      assert H.Above(store, f, store[f].parent.value);
    }
    H.BudgetsChange(t, store, store', lists, {});
  }

  // --- Which handles are chained ---------------------------------------------------------------------------------

  /** A budget and every budget below it. */
  ghost function Subtree(tree: F.Forest, top: F.Frame): set<F.Frame> { {top} + F.Frames(F.KidsOf(tree, top)) }

  /** The climb from a budget of the forest passes just the budgets whose subtree it is in, and those above. */
  lemma {:induction false} WithinForest(
      store: F.Store, parent: Option<F.Frame>, depth: nat, g: F.Forest, at: F.Frame, x: F.Frame)
    requires F.Linked(store, parent, depth, g) && F.Distinct(g) && at in F.Frames(g) && at in store
    requires parent.Some? ==> parent.value in store && store[parent.value].depth < depth
    ensures H.Within(store, at, x) <==>
              || (x in F.Frames(g) && at in Subtree(g, x))
              || (parent.Some? && H.Within(store, parent.value, x))
    decreases g
  {
    F.KidsOfIn(g.kids, x);
    F.KidsOfIn(g.siblings, x);
    if at == g.frame {
    } else if at in F.Frames(g.kids) {
      WithinForest(store, Some(g.frame), depth + 1, g.kids, at, x);
    } else {
      WithinForest(store, parent, depth, g.siblings, at, x);
    }
  }

  lemma {:induction false} WithinIsSubtree(b: B.Books, at: F.Frame, x: F.Frame)
    requires B.Sound(b) && b.doom.NoDoom? && at in b.store
    ensures H.Within(b.store, at, x) <==> x in b.store && at in Subtree(b.tree, x)
  {
    hide B.Sound, H.Within, Subtree;
    S.SoundIsTreed(b);
    WithinForest(b.store, None, 0, b.tree, at, x);
  }

  /** Whether a live handle names `f`, or something `f` pays for. */
  ghost predicate Against(owners: map<F.Frame, F.Frame>, o: H.Object, f: F.Frame) {
    match o
    case BudgetObject(g) => g == f
    case EndpointObject(g) => g in owners && owners[g] == f
    case DeviceObject(g) => g in owners && owners[g] == f
    case ProcessObject(g) => g == f
  }

  /** The chains, exactly: frame `f`'s hold a slot if and only if it holds a live handle stamped with `f`, or naming
      `f` or something of `f`'s, and its process runs outside `f`'s subtree, or what it names is a process.
    */
  lemma {:induction false} ChainedOutside(
      b: B.Books, t: H.Tables, lists: H.Pair<H.Chains.Lists>, p: H.Chains.Place, f: F.Frame)
    requires B.Sound(b) && b.doom.NoDoom? && H.Sound(t, b.store, lists)
    ensures p in t.slots ==> p.pid in t.holders
    ensures p in H.Chains.ListOf(lists.stamps, f) <==>
              && p in t.slots && t.slots[p].Live? && t.slots[p].handle.stamp == f
              && t.holders[p.pid] !in Subtree(b.tree, f)
    ensures p in H.Chains.ListOf(lists.objects, f) <==>
              && p in t.slots && t.slots[p].Live? && Against(t.owners, t.slots[p].handle.names, f)
              && (t.slots[p].handle.names.ProcessObject? || t.holders[p.pid] !in Subtree(b.tree, f))
  {
    hide B.Sound, H.Wired, H.Within, Subtree, H.Rising;
    assert H.InPlace(t, b.store, lists, p);
    assert lists.Of(H.Stamps) == lists.stamps && lists.Of(H.Objects) == lists.objects;
    assert p in H.Chains.ListOf(lists.Of(H.Stamps), f) <==> H.HeadFor(t, b.store, H.Stamps, p) == Some(f);
    assert p in H.Chains.ListOf(lists.Of(H.Objects), f) <==> H.HeadFor(t, b.store, H.Objects, p) == Some(f);
    if p in t.slots && t.slots[p].Live? {
      WithinIsSubtree(b, t.holders[p.pid], f);
    }
  }

  // --- What each process has charged ---------------------------------------------------------------------------

  const PIDS: nat := B.MAX_PROCESS_COUNT + 1

  function FramesOf(frames: map<B.Pid, nat>, pid: B.Pid): nat { if pid in frames then frames[pid] else 0 }

  /** The frames of the processes below PID `n` that run in `f`. */
  function FramesIn(lives: map<B.Pid, F.Frame>, frames: map<B.Pid, nat>, f: F.Frame, n: nat): nat {
    if n == 0 then 0
    else FramesIn(lives, frames, f, n - 1) + if n - 1 in lives && lives[n - 1] == f then FramesOf(frames, n - 1) else 0
  }

  /** One process more, or less. */
  lemma {:induction false} FramesPut(
      lives: map<B.Pid, F.Frame>, frames: map<B.Pid, nat>, pid: B.Pid, home: F.Frame, k: nat, f: F.Frame, n: nat)
    requires pid !in lives
    ensures FramesIn(lives[pid := home], frames[pid := k], f, n)
         == FramesIn(lives, frames, f, n) + if pid < n && home == f then k else 0
    ensures FramesIn(lives, frames - {pid}, f, n) == FramesIn(lives, frames, f, n)
  {
    if n > 0 { FramesPut(lives, frames, pid, home, k, f, n - 1); }
  }

  lemma {:induction false} FramesTake(
      lives: map<B.Pid, F.Frame>, frames: map<B.Pid, nat>, pid: B.Pid, f: F.Frame, n: nat)
    requires pid in lives && pid in frames
    ensures FramesIn(lives, frames, f, n)
         == FramesIn(lives - {pid}, frames - {pid}, f, n) + if pid < n && lives[pid] == f then frames[pid] else 0
  {
    FramesPut(lives - {pid}, frames - {pid}, pid, lives[pid], frames[pid], f, n);
    assert (lives - {pid})[pid := lives[pid]] == lives;
    assert (frames - {pid})[pid := frames[pid]] == frames;
  }

  lemma {:induction false} FramesNone(lives: map<B.Pid, F.Frame>, frames: map<B.Pid, nat>, f: F.Frame, n: nat)
    requires forall pid :: pid in lives ==> lives[pid] != f
    ensures FramesIn(lives, frames, f, n) == 0
  {
    if n > 0 { FramesNone(lives, frames, f, n - 1); }
  }

  /** What of a budget's charges is spoken for: its processes' frames, and the objects its processes created. */
  ghost function Spoken(
      lives: map<B.Pid, F.Frame>, objects: map<B.Pid, F.Frame>, frames: map<B.Pid, nat>, f: F.Frame): nat {
    FramesIn(lives, frames, f, PIDS) + L.At(B.Counts(objects), f)
  }

  /** The processes' frames, the objects and the quarantined runs are apart, and among what their budgets are
      charged.
    */
  ghost predicate Funded(b: B.Books, objects: map<B.Pid, F.Frame>, frames: map<B.Pid, nat>) {
    && frames.Keys == b.lives.Keys
    && (forall f :: f in b.store ==> Spoken(b.lives, objects, frames, f) + B.RunPages(b.runs, f) <= L.At(b.pages, f))
  }

  lemma {:induction false} SpokenLess(
      lives: map<B.Pid, F.Frame>, objects: map<B.Pid, F.Frame>, frames: map<B.Pid, nat>, pid: B.Pid, f: F.Frame)
    requires pid in lives && pid in frames && pid < PIDS
    ensures Spoken(lives, objects, frames, f)
         == Spoken(lives - {pid}, objects, frames - {pid}, f) + if lives[pid] == f then frames[pid] else 0
  {
    FramesTake(lives, frames, pid, f, PIDS);
  }

  lemma {:induction false} SpokenFreed(
      lives: map<B.Pid, F.Frame>, objects: map<B.Pid, F.Frame>, frames: map<B.Pid, nat>, pid: B.Pid, f: F.Frame)
    requires pid in objects
    ensures Spoken(lives, objects, frames, f) == Spoken(lives, objects - {pid}, frames, f)
            + if objects[pid] == f then 1 else 0
  {
    hide B.Counts;
    B.CountsDrop(objects, pid);
  }

  /** A live process's PID is one, and its budget, whose charges cover its frames, is there. */
  lemma {:induction false} ProcessFunded(b: B.Books, objects: map<B.Pid, F.Frame>, frames: map<B.Pid, nat>, pid: B.Pid)
    requires B.Sound(b) && Funded(b, objects, frames) && pid in b.lives
    ensures b.lives[pid] in b.store && pid in frames && pid < PIDS && pid in b.counted && b.counted[pid] == b.lives[pid]
    ensures B.RunPages(b.runs, b.lives[pid]) + frames[pid] <= L.At(b.pages, b.lives[pid])
  {
    hide B.Treed, B.DoomLinked, B.Rooted, B.Paid, B.RunsPaid, Spoken;
    assert B.IsPid(pid);
    SpokenLess(b.lives, objects, frames, pid, b.lives[pid]);
  }

  lemma {:induction false} ObjectFunded(b: B.Books, objects: map<B.Pid, F.Frame>, frames: map<B.Pid, nat>, pid: B.Pid)
    requires Funded(b, objects, frames) && pid in objects && objects[pid] in b.store
    ensures B.RunPages(b.runs, objects[pid]) + 1 <= L.At(b.pages, objects[pid])
  {
    hide Spoken;
    SpokenFreed(b.lives, objects, frames, pid, objects[pid]);
  }

  lemma {:induction false} EndedShape(b: B.Books, pid: B.Pid, n: nat, named: bool)
    requires pid in b.lives && b.lives[pid] in b.store && pid in b.counted && b.counted[pid] == b.lives[pid]
    requires n <= b.store[b.lives[pid]].pages.used && n <= L.At(b.pages, b.lives[pid])
    requires b.store[b.lives[pid]].processes.used > 0
    ensures var b' := S.Ended(b, pid, n, named);
            && F.SameRise(b.store, b'.store) && b'.lives == b.lives - {pid} && b'.runs == b.runs && b'.doom == b.doom
            && (forall f :: L.At(b'.pages, f) == L.At(b.pages, f) - if f == b.lives[pid] then n else 0)
            && b'.counted == if named then b.counted else b.counted - {pid}
  {
  }

  lemma {:induction false} FreedShape(b: B.Books, pid: B.Pid, creator: F.Frame)
    requires S.CanFree(b, pid, creator)
    ensures var b' := S.Freed(b, pid, creator);
            && F.SameRise(b.store, b'.store) && b'.lives == b.lives && b'.runs == b.runs && b'.doom == b.doom
            && (forall f :: L.At(b'.pages, f) == L.At(b.pages, f) - if f == creator then 1 else 0)
            && b'.counted == b.counted - {pid}
  {
  }

  /** A process ended: its frames go back, and are no longer spoken for. */
  lemma {:induction false} FundedEnded(
      b: B.Books, objects: map<B.Pid, F.Frame>, frames: map<B.Pid, nat>, pid: B.Pid, b': B.Books)
    requires Funded(b, objects, frames) && pid in b.lives && pid in frames && pid < PIDS
    requires b'.store.Keys == b.store.Keys && b'.lives == b.lives - {pid} && b'.runs == b.runs
    requires forall f :: L.At(b'.pages, f) == L.At(b.pages, f) - if f == b.lives[pid] then frames[pid] else 0
    ensures Funded(b', objects, frames - {pid})
  {
    hide Spoken, B.RunPages;
    forall f | f in b'.store
      ensures Spoken(b'.lives, objects, frames - {pid}, f) + B.RunPages(b'.runs, f) <= L.At(b'.pages, f)
    {
      SpokenLess(b.lives, objects, frames, pid, f);
    }
  }

  lemma {:induction false} FundedFreed(
      b: B.Books, objects: map<B.Pid, F.Frame>, frames: map<B.Pid, nat>, pid: B.Pid, b': B.Books)
    requires Funded(b, objects, frames) && pid in objects
    requires b'.store.Keys == b.store.Keys && b'.lives == b.lives && b'.runs == b.runs
    requires forall f :: L.At(b'.pages, f) == L.At(b.pages, f) - if f == objects[pid] then 1 else 0
    ensures Funded(b', objects - {pid}, frames)
  {
    hide Spoken, B.RunPages;
    forall f | f in b'.store
      ensures Spoken(b'.lives, objects - {pid}, frames, f) + B.RunPages(b'.runs, f) <= L.At(b'.pages, f)
    {
      SpokenFreed(b.lives, objects, frames, pid, f);
    }
  }

  lemma {:induction false} FundedStays(b: B.Books, b': B.Books, objects: map<B.Pid, F.Frame>, frames: map<B.Pid, nat>)
    requires Funded(b, objects, frames) && b'.store.Keys == b.store.Keys && b'.lives == b.lives && b'.runs == b.runs
    requires forall f :: f in b.store ==> L.At(b.pages, f) <= L.At(b'.pages, f)
    ensures Funded(b', objects, frames)
  {
    hide Spoken, B.RunPages;
  }

  /** The subtree freed: what it was charged went up with what is charged there. */
  lemma {:induction false} FundedOutlives(b: B.Books, objects: map<B.Pid, F.Frame>, frames: map<B.Pid, nat>)
    requires B.Sound(b) && b.doom.Doom? && Funded(b, objects, frames)
    ensures Funded(B.Destroyed(b), objects, frames)
  {
    hide B.Sound, Spoken, B.RunPages;
    S.EndFits(b);
    DestroyedLinks(b);
    B.CarveCovered(b);
    var p := b.store[b.doom.top].parent.value;
    forall f | f in B.Destroyed(b).store
      ensures Spoken(b.lives, objects, frames, f) + B.RunPages(B.Destroyed(b).runs, f) <= L.At(B.Destroyed(b).pages, f)
    {
      B.MovedRunPages(b.runs, B.DoomFrames(b.doom), p, f);
    }
  }

  // --- What grows --------------------------------------------------------------------------------------------------

  /** Charges and what they are spoken for grew together. */
  lemma {:induction false} FundedMore(
      b: B.Books, objects: map<B.Pid, F.Frame>, frames: map<B.Pid, nat>,
      b': B.Books, objects': map<B.Pid, F.Frame>, frames': map<B.Pid, nat>)
    requires Funded(b, objects, frames) && b'.store.Keys == b.store.Keys && b'.runs == b.runs
    requires frames'.Keys == b'.lives.Keys
    requires forall f :: f in b.store ==> Spoken(b'.lives, objects', frames', f) + L.At(b.pages, f)
                                          <= Spoken(b.lives, objects, frames, f) + L.At(b'.pages, f)
    ensures Funded(b', objects', frames')
  {
    hide Spoken, B.RunPages;
  }

  lemma {:induction false} SpokenGrown(
      lives: map<B.Pid, F.Frame>, objects: map<B.Pid, F.Frame>, frames: map<B.Pid, nat>, pid: B.Pid, k: nat, f: F.Frame)
    requires pid in lives && pid in frames && pid < PIDS
    ensures Spoken(lives, objects, frames[pid := frames[pid] + k], f)
         == Spoken(lives, objects, frames, f) + if lives[pid] == f then k else 0
  {
    hide Spoken;
    var more := frames[pid := frames[pid] + k];
    SpokenLess(lives, objects, frames, pid, f);
    SpokenLess(lives, objects, more, pid, f);
    assert more - {pid} == frames - {pid};
  }

  lemma {:induction false} SpokenBorn(
      lives: map<B.Pid, F.Frame>, objects: map<B.Pid, F.Frame>, frames: map<B.Pid, nat>,
      pid: B.Pid, home: F.Frame, space: nat, creator: F.Frame, f: F.Frame)
    requires pid !in lives && pid !in objects && pid < PIDS
    ensures Spoken(lives[pid := home], objects[pid := creator], frames[pid := space], f)
         == Spoken(lives, objects, frames, f) + (if home == f then space else 0) + if creator == f then 1 else 0
  {
    hide B.Counts;
    FramesPut(lives, frames, pid, home, space, f, PIDS);
    B.CountsDrop(objects[pid := creator], pid);
    assert objects[pid := creator] - {pid} == objects;
  }
}
