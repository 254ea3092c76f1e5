/** The budget tree as its frames link it (kernel/src/budget.rs): each budget names its parent, its
    first child and its next sibling. The walks of a destruction read only those links.
  */
module BudgetForest {
  import opened Basics

  /** A budget is named by its frame. */
  type Frame = nat

  /** What a budget may spend of one resource, and has spent. */
  datatype Meter = Meter(limit: nat, used: nat)

  datatype Budget = Budget(
    id: nat, parent: Option<Frame>, firstChild: Option<Frame>, nextSibling: Option<Frame>, depth: nat,
    dying: bool,
    pages: Meter, processes: Meter, weight: Meter)

  type Store = map<Frame, Budget>

  /** Budgets under one parent, in sibling order, each with the budgets below it. */
  datatype Forest = Nil | Cons(frame: Frame, kids: Forest, siblings: Forest)

  function Head(g: Forest): Option<Frame> {
    if g.Nil? then None else Some(g.frame)
  }

  /** Every budget once, each before those below it: the order of `subtree_next`. */
  function Pre(g: Forest): seq<Frame> {
    if g.Nil? then [] else [g.frame] + Pre(g.kids) + Pre(g.siblings)
  }

  /** Every budget once, each after those below it: the order of `for_each_descendant_post`. */
  function Post(g: Forest): seq<Frame> {
    if g.Nil? then [] else Post(g.kids) + [g.frame] + Post(g.siblings)
  }

  function Frames(g: Forest): set<Frame> {
    if g.Nil? then {} else {g.frame} + Frames(g.kids) + Frames(g.siblings)
  }

  /** No frame is in the forest twice. */
  predicate Distinct(g: Forest) {
    g.Cons? ==>
      && g.frame !in Frames(g.kids) && g.frame !in Frames(g.siblings)
      && Frames(g.kids) !! Frames(g.siblings)
      && Distinct(g.kids) && Distinct(g.siblings)
  }

  /** The frames of `store` link the budgets of `g` under `parent`, `depth` deep. */
  ghost predicate Linked(store: Store, parent: Option<Frame>, depth: nat, g: Forest)
    decreases g
  {
    g.Cons? ==>
      && g.frame in store
      && store[g.frame].parent == parent && store[g.frame].depth == depth
      && store[g.frame].firstChild == Head(g.kids)
      && store[g.frame].nextSibling == Head(g.siblings)
      && Linked(store, Some(g.frame), depth + 1, g.kids)
      && Linked(store, parent, depth, g.siblings)
  }

  predicate SameLinks(a: Budget, b: Budget) {
    a.parent == b.parent && a.firstChild == b.firstChild && a.nextSibling == b.nextSibling && a.depth == b.depth
  }

  /** The same budgets, each under the parent it was. */
  ghost predicate SameRise(store: Store, store': Store) {
    && store'.Keys == store.Keys
    && forall f :: f in store ==> store'[f].parent == store[f].parent && store'[f].depth == store[f].depth
  }

  lemma {:induction false} LinkedSame(store: Store, store': Store, parent: Option<Frame>, depth: nat, g: Forest)
    requires Linked(store, parent, depth, g)
    requires forall f :: f in Frames(g) && f in store ==> f in store' && SameLinks(store[f], store'[f])
    ensures Linked(store', parent, depth, g)
    decreases g
  {
    if g.Cons? {
      assert g.frame in Frames(g);
      LinkedSame(store, store', Some(g.frame), depth + 1, g.kids);
      LinkedSame(store, store', parent, depth, g.siblings);
    }
  }

  lemma {:induction false} LinkedFrames(store: Store, parent: Option<Frame>, depth: nat, g: Forest)
    requires Linked(store, parent, depth, g)
    ensures forall f :: f in Frames(g) ==> f in store && store[f].depth >= depth
    decreases g
  {
    if g.Cons? {
      LinkedFrames(store, Some(g.frame), depth + 1, g.kids);
      LinkedFrames(store, parent, depth, g.siblings);
    }
  }

  // --- The two orders ------------------------------------------------------------------------------

  ghost predicate Unique(s: seq<Frame>) {
    forall i, j :: 0 <= i < j < |s| ==> s[i] != s[j]
  }

  ghost function Elements(s: seq<Frame>): set<Frame> {
    set i | 0 <= i < |s| :: s[i]
  }

  lemma {:induction false} ConcatUnique(a: seq<Frame>, b: seq<Frame>)
    requires Unique(a) && Unique(b) && Elements(a) !! Elements(b)
    ensures Unique(a + b) && Elements(a + b) == Elements(a) + Elements(b)
  {
    var c := a + b;
    assert forall i :: 0 <= i < |a| ==> a[i] in Elements(a) && c[i] == a[i];
    assert forall i :: 0 <= i < |b| ==> b[i] in Elements(b) && c[|a| + i] == b[i];
    forall f | f in Elements(a) + Elements(b) ensures f in Elements(c) {
      if f in Elements(a) { var i :| 0 <= i < |a| && a[i] == f; assert c[i] == f; }
      else { var i :| 0 <= i < |b| && b[i] == f; assert c[|a| + i] == f; }
    }
    forall i, j | 0 <= i < j < |c| ensures c[i] != c[j] {
      if i < |a| <= j { assert c[i] in Elements(a) && c[j] in Elements(b); }
      else if i >= |a| { assert b[i - |a|] != b[j - |a|]; }
    }
  }

  /** The pre-order visits each budget of the forest exactly once. */
  lemma {:induction false} PreVisitsOnce(g: Forest)
    requires Distinct(g)
    ensures Unique(Pre(g)) && Elements(Pre(g)) == Frames(g)
  {
    if g.Cons? {
      PreVisitsOnce(g.kids);
      PreVisitsOnce(g.siblings);
      assert Elements([g.frame]) == {g.frame} by { assert [g.frame][0] == g.frame; }
      ConcatUnique([g.frame], Pre(g.kids));
      ConcatUnique([g.frame] + Pre(g.kids), Pre(g.siblings));
    }
  }

  /** So does the post-order. */
  lemma {:induction false} PostVisitsOnce(g: Forest)
    requires Distinct(g)
    ensures Unique(Post(g)) && Elements(Post(g)) == Frames(g)
  {
    if g.Cons? {
      PostVisitsOnce(g.kids);
      PostVisitsOnce(g.siblings);
      assert Elements([g.frame]) == {g.frame} by { assert [g.frame][0] == g.frame; }
      ConcatUnique(Post(g.kids), [g.frame]);
      ConcatUnique(Post(g.kids) + [g.frame], Post(g.siblings));
    }
  }

  /** In the post-order every budget comes before its parent: none is freed after a frame whose links
      the walk still reads.
    */
  lemma {:induction false} ChildrenFirst(store: Store, parent: Option<Frame>, depth: nat, g: Forest, i: nat)
    requires Linked(store, parent, depth, g) && Distinct(g) && i < |Post(g)|
    requires parent.Some? ==> parent.value !in Frames(g)
    ensures Post(g)[i] in store
    ensures store[Post(g)[i]].parent.Some? ==> store[Post(g)[i]].parent.value !in Post(g)[..i]
    decreases g
  {
    PostElements(g.kids);
    PostElements(g.siblings);
    var k, s := Post(g.kids), Post(g.siblings);
    assert Post(g) == k + [g.frame] + s;
    if i < |k| {
      assert Post(g)[i] == k[i] && Post(g)[..i] == k[..i];
      ChildrenFirst(store, Some(g.frame), depth + 1, g.kids, i);
    } else if i == |k| {
      assert Post(g)[..i] == k;
    } else {
      var n := |k| + 1;
      assert Post(g)[i] == s[i - n] && Post(g)[..i] == k + [g.frame] + s[..i - n];
      ChildrenFirst(store, parent, depth, g.siblings, i - n);
      ParentWithin(store, parent, depth, g.siblings, s[i - n]);
    }
  }

  lemma {:induction false} PostElements(g: Forest)
    ensures forall f :: f in Post(g) <==> f in Frames(g)
  {
    if g.Cons? {
      PostElements(g.kids);
      PostElements(g.siblings);
    }
  }

  /** A budget of the forest has its parent in it, or is at its top. */
  lemma {:induction false} ParentWithin(store: Store, parent: Option<Frame>, depth: nat, g: Forest, f: Frame)
    requires Linked(store, parent, depth, g) && f in Frames(g)
    ensures f in store
    ensures store[f].parent == parent || (store[f].parent.Some? && store[f].parent.value in Frames(g))
    decreases g
  {
    if f == g.frame {
    } else if f in Frames(g.kids) {
      ParentWithin(store, Some(g.frame), depth + 1, g.kids, f);
    } else {
      ParentWithin(store, parent, depth, g.siblings, f);
    }
  }

  // --- `subtree_next` --------------------------------------------------------------------------------

  /** Up from `at` to the nearest sibling still to come, no higher than `top`. */
  function Climb(store: Store, top: Frame, at: Frame): Option<Frame>
    decreases if at in store then store[at].depth else 0
  {
    if at == top || at !in store then None
    else if store[at].nextSibling.Some? then store[at].nextSibling
    else match store[at].parent
      case None => None
      case Some(p) => if p in store && store[p].depth < store[at].depth then Climb(store, top, p) else None
  }

  function SubtreeNext(store: Store, top: Frame, cur: Frame): Option<Frame>
    requires cur in store
  {
    if store[cur].firstChild.Some? then store[cur].firstChild else Climb(store, top, cur)
  }

  /** From each budget of the forest the links lead to the next of its pre-order, and from the last to
      where the climb from its parent leads.
    */
  lemma {:induction false} NextInPre(store: Store, top: Frame, p: Frame, depth: nat, g: Forest, i: nat)
    requires p in store && store[p].depth < depth
    requires Linked(store, Some(p), depth, g) && top !in Frames(g) && i < |Pre(g)|
    ensures Pre(g)[i] in store
    ensures SubtreeNext(store, top, Pre(g)[i])
         == if i + 1 < |Pre(g)| then Some(Pre(g)[i + 1]) else Climb(store, top, p)
    decreases g
  {
    var f, k, s := g.frame, Pre(g.kids), Pre(g.siblings);
    assert Climb(store, top, f) == if g.siblings.Cons? then Some(g.siblings.frame) else Climb(store, top, p);
    if i == 0 {
    } else if i <= |k| {
      assert Pre(g)[i] == k[i - 1];
      NextInPre(store, top, f, depth + 1, g.kids, i - 1);
    } else {
      assert Pre(g)[i] == s[i - 1 - |k|];
      NextInPre(store, top, p, depth, g.siblings, i - 1 - |k|);
    }
  }

  /** The walk a destruction makes from `top`: exactly the subtree, whatever `top`'s own sibling link
      still says.
    */
  function Walk(top: Frame, kids: Forest): seq<Frame> {
    [top] + Pre(kids)
  }

  lemma {:induction false} NextInWalk(store: Store, top: Frame, kids: Forest, i: nat)
    requires top in store && store[top].firstChild == Head(kids) && top !in Frames(kids)
    requires Linked(store, Some(top), store[top].depth + 1, kids) && i < |Walk(top, kids)|
    ensures Walk(top, kids)[i] in store
    ensures SubtreeNext(store, top, Walk(top, kids)[i])
         == if i + 1 < |Walk(top, kids)| then Some(Walk(top, kids)[i + 1]) else None
  {
    if i > 0 { NextInPre(store, top, top, store[top].depth + 1, kids, i - 1); }
  }

  lemma {:induction false} WalkVisitsOnce(top: Frame, kids: Forest)
    requires Distinct(kids) && top !in Frames(kids)
    ensures Unique(Walk(top, kids)) && Elements(Walk(top, kids)) == {top} + Frames(kids)
  {
    PreVisitsOnce(kids);
    assert Elements([top]) == {top} by { assert [top][0] == top; }
    ConcatUnique([top], Pre(kids));
  }

  // --- Changing the children of one budget ------------------------------------------------------------

  /** The budgets carved from `p`. */
  function KidsOf(g: Forest, p: Frame): Forest {
    if g.Nil? then Nil
    else if g.frame == p then g.kids
    else if p in Frames(g.kids) then KidsOf(g.kids, p)
    else KidsOf(g.siblings, p)
  }

  lemma {:induction false} KidsOfIn(g: Forest, p: Frame)
    ensures Frames(KidsOf(g, p)) <= Frames(g)
    decreases g
  {
    if g.Cons? && g.frame != p {
      if p in Frames(g.kids) { KidsOfIn(g.kids, p); } else { KidsOfIn(g.siblings, p); }
    }
  }

  function WithKids(g: Forest, p: Frame, h: Forest): Forest {
    if g.Nil? then Nil
    else if g.frame == p then Cons(p, h, g.siblings)
    else if p in Frames(g.kids) then Cons(g.frame, WithKids(g.kids, p, h), g.siblings)
    else Cons(g.frame, g.kids, WithKids(g.siblings, p, h))
  }

  lemma {:induction false} KidsWithin(store: Store, parent: Option<Frame>, depth: nat, g: Forest, p: Frame)
    requires Linked(store, parent, depth, g) && Distinct(g) && p in Frames(g)
    ensures p in store && p !in Frames(KidsOf(g, p)) && Frames(KidsOf(g, p)) <= Frames(g)
    ensures Distinct(KidsOf(g, p)) && store[p].firstChild == Head(KidsOf(g, p))
    ensures Linked(store, Some(p), store[p].depth + 1, KidsOf(g, p))
    decreases g
  {
    if g.frame == p {
    } else if p in Frames(g.kids) {
      KidsWithin(store, Some(g.frame), depth + 1, g.kids, p);
    } else {
      KidsWithin(store, parent, depth, g.siblings, p);
    }
  }

  lemma {:induction false} WithKidsFrames(g: Forest, p: Frame, h: Forest)
    requires Distinct(g) && p in Frames(g)
    ensures Frames(KidsOf(g, p)) <= Frames(g) && p !in Frames(KidsOf(g, p))
    ensures Frames(WithKids(g, p, h)) == Frames(g) - Frames(KidsOf(g, p)) + Frames(h)
    ensures Distinct(h) && Frames(h) !! Frames(g) - Frames(KidsOf(g, p)) ==> Distinct(WithKids(g, p, h))
    ensures Head(WithKids(g, p, h)) == Head(g)
  {
    if g.frame == p {
    } else if p in Frames(g.kids) {
      WithKidsFrames(g.kids, p, h);
    } else {
      WithKidsFrames(g.siblings, p, h);
    }
  }

  /** A budget that is neither `p` nor below it. */
  predicate Outside(g: Forest, p: Frame, f: Frame) {
    f in Frames(g) && f != p && f !in Frames(KidsOf(g, p))
  }

  lemma {:induction false} OutsideParts(g: Forest, p: Frame)
    requires Distinct(g) && p in Frames(g)
    ensures g.frame == p ==> forall f :: f in Frames(g.siblings) ==> Outside(g, p, f)
    ensures g.frame != p ==> Outside(g, p, g.frame)
    ensures g.frame != p && p in Frames(g.kids) ==>
              && (forall f :: Outside(g.kids, p, f) ==> Outside(g, p, f))
              && (forall f :: f in Frames(g.siblings) ==> Outside(g, p, f))
    ensures g.frame != p && p !in Frames(g.kids) ==>
              && (forall f :: Outside(g.siblings, p, f) ==> Outside(g, p, f))
              && (forall f :: f in Frames(g.kids) ==> Outside(g, p, f))
  {
    if g.frame == p {
    } else if p in Frames(g.kids) {
      WithKidsFrames(g.kids, p, Nil);
    } else {
      WithKidsFrames(g.siblings, p, Nil);
    }
  }

  /** New links under `p`, and no other link changed: the forest with `p`'s children replaced. */
  lemma {:induction false} WithKidsLinked(
      store: Store, store': Store, parent: Option<Frame>, depth: nat, g: Forest, p: Frame, h: Forest)
    requires Linked(store, parent, depth, g) && Distinct(g) && p in Frames(g) && p in store && p in store'
    requires forall f :: Outside(g, p, f) && f in store ==> f in store' && SameLinks(store[f], store'[f])
    requires SameLinks(store'[p], store[p].(firstChild := Head(h)))
    requires Linked(store', Some(p), store[p].depth + 1, h)
    ensures Linked(store', parent, depth, WithKids(g, p, h))
    decreases g
  {
    OutsideParts(g, p);
    if g.frame == p {
      LinkedSame(store, store', parent, depth, g.siblings);
    } else if p in Frames(g.kids) {
      HeadKept(g.kids, p, h);
      WithKidsLinked(store, store', Some(g.frame), depth + 1, g.kids, p, h);
      LinkedSame(store, store', parent, depth, g.siblings);
    } else {
      HeadKept(g.siblings, p, h);
      LinkedSame(store, store', Some(g.frame), depth + 1, g.kids);
      WithKidsLinked(store, store', parent, depth, g.siblings, p, h);
    }
  }

  lemma {:induction false} HeadKept(g: Forest, p: Frame, h: Forest)
    ensures Head(WithKids(g, p, h)) == Head(g)
  {
  }

  // --- Taking one budget out of its parent's child list -------------------------------------------------

  /** `c` is one of the forest's own budgets, not below one. */
  predicate TopLevel(g: Forest, c: Frame) {
    g.Cons? && (g.frame == c || TopLevel(g.siblings, c))
  }

  function RemoveTop(g: Forest, c: Frame): Forest {
    if g.Nil? then Nil
    else if g.frame == c then g.siblings
    else Cons(g.frame, g.kids, RemoveTop(g.siblings, c))
  }

  lemma {:induction false} TopLevelWithin(g: Forest, c: Frame)
    requires TopLevel(g, c)
    ensures c in Frames(g)
  {
    if g.frame != c { TopLevelWithin(g.siblings, c); }
  }

  lemma {:induction false} RemoveTopFrames(g: Forest, c: Frame)
    requires Distinct(g) && TopLevel(g, c)
    ensures Distinct(RemoveTop(g, c)) && Distinct(KidsOf(g, c)) && c !in Frames(KidsOf(g, c))
    ensures Frames(KidsOf(g, c)) <= Frames(g)
    ensures Frames(RemoveTop(g, c)) == Frames(g) - {c} - Frames(KidsOf(g, c))
  {
    TopLevelWithin(g, c);
    if g.frame != c {
      TopLevelWithin(g.siblings, c);
      RemoveTopFrames(g.siblings, c);
    }
  }

  /** The budget before `c` now names the one after it. */
  lemma {:induction false} SkipLinked(
      store: Store, parent: Option<Frame>, depth: nat, g: Forest, before: Frame, c: Frame)
    requires Linked(store, parent, depth, g) && Distinct(g) && TopLevel(g, before)
    requires before in store && c in store && store[before].nextSibling == Some(c)
    ensures Linked(store[before := store[before].(nextSibling := store[c].nextSibling)], parent, depth, RemoveTop(g, c))
    ensures Head(RemoveTop(g, c)) == Head(g)
    decreases g
  {
    var store' := store[before := store[before].(nextSibling := store[c].nextSibling)];
    if g.frame == before {
      assert g.siblings.frame == c;
      LinkedSame(store, store', Some(g.frame), depth + 1, g.kids);
      LinkedSame(store, store', parent, depth, g.siblings.siblings);
    } else {
      TopLevelWithin(g.siblings, before);
      NextIsSibling(store, parent, depth, g.siblings, before);
      SkipLinked(store, parent, depth, g.siblings, before, c);
      LinkedSame(store, store', Some(g.frame), depth + 1, g.kids);
    }
  }

  lemma {:induction false} NextIsSibling(store: Store, parent: Option<Frame>, depth: nat, g: Forest, c: Frame)
    requires Linked(store, parent, depth, g) && TopLevel(g, c) && c in store && store[c].nextSibling.Some?
    ensures store[c].nextSibling.value in Frames(g)
    decreases g
  {
    if g.frame == c {
    } else {
      NextIsSibling(store, parent, depth, g.siblings, c);
    }
  }

  /** The budget listed before `c`, which does not head the list. */
  function Before(g: Forest, c: Frame): Frame
    requires TopLevel(g, c) && g.frame != c
  {
    assert TopLevel(g.siblings, c);
    if g.siblings.frame == c then g.frame else Before(g.siblings, c)
  }

  lemma {:induction false} BeforeNames(store: Store, parent: Option<Frame>, depth: nat, g: Forest, c: Frame)
    requires Linked(store, parent, depth, g) && Distinct(g) && g.Cons? && TopLevel(g, c) && g.frame != c
    ensures TopLevel(g, Before(g, c)) && Before(g, c) in store && store[Before(g, c)].nextSibling == Some(c)
    ensures Before(g, c) != c && Before(g, c) in Frames(g) && Before(g, c) !in Frames(KidsOf(g, c))
    decreases g
  {
    TopLevelWithin(g.siblings, c);
    RemoveTopFrames(g.siblings, c);
    if g.siblings.frame != c { BeforeNames(store, parent, depth, g.siblings, c); }
  }

  /** `unlink_child`: `c` out of the list `p` heads. */
  function Unlinked(store: Store, p: Frame, k: Forest, c: Frame): Store
    requires p in store && c in store && TopLevel(k, c)
  {
    if k.frame == c then store[p := store[p].(firstChild := store[c].nextSibling)]
    else
      var before := Before(k, c);
      if before in store then store[before := store[before].(nextSibling := store[c].nextSibling)] else store
  }

  lemma {:induction false} UnlinkedLinks(store: Store, p: Frame, k: Forest, c: Frame)
    requires p in store && c in store && TopLevel(k, c) && Distinct(k) && p !in Frames(k)
    requires Linked(store, Some(p), store[p].depth + 1, k) && store[p].firstChild == Head(k)
    ensures var store' := Unlinked(store, p, k, c);
            && store'.Keys == store.Keys
            && Linked(store', Some(p), store[p].depth + 1, RemoveTop(k, c))
            && SameLinks(store'[p], store[p].(firstChild := Head(RemoveTop(k, c))))
            && (forall f :: f in store && f != p && (f !in Frames(k) || f == c || f in Frames(KidsOf(k, c))) ==>
                  store'[f] == store[f])
            && (forall f :: f in store ==>
                  store'[f].pages == store[f].pages && store'[f].processes == store[f].processes
                  && store'[f].weight == store[f].weight && store'[f].dying == store[f].dying)
  {
    var store' := Unlinked(store, p, k, c);
    if k.frame == c {
      LinkedSame(store, store', Some(p), store[p].depth + 1, k.siblings);
    } else {
      BeforeNames(store, Some(p), store[p].depth + 1, k, c);
      SkipLinked(store, Some(p), store[p].depth + 1, k, Before(k, c), c);
    }
  }

  /** A subtree the walks can follow from `top`. */
  ghost predicate Walkable(store: Store, top: Frame, kids: Forest) {
    && top in store && store[top].firstChild == Head(kids) && top !in Frames(kids) && Distinct(kids)
    && Linked(store, Some(top), store[top].depth + 1, kids)
  }

  /** A child freed with its subtree, its siblings are still there to be walked. */
  lemma {:induction false} SiblingsStay(store: Store, store': Store, f: Frame, depth: nat, g: Forest)
    requires g.Cons? && Distinct(g) && Linked(store, Some(f), depth, g)
    requires store' == store - ({g.frame} + Frames(g.kids))
    ensures Linked(store', Some(f), depth, g.siblings)
  {
    LinkedFrames(store, Some(f), depth, g.siblings);
    LinkedSame(store, store', Some(f), depth, g.siblings);
  }

  lemma {:induction false} FirstOf(store: Store, f: Frame, depth: nat, g: Forest)
    requires g.Cons? && Distinct(g) && Linked(store, Some(f), depth, g)
    ensures Walkable(store, g.frame, g.kids) && store[g.frame].nextSibling == Head(g.siblings) && Distinct(g.siblings)
    ensures {g.frame} + Frames(g.kids) <= Frames(g)
    ensures Frames(g.siblings) == Frames(g) - ({g.frame} + Frames(g.kids))
  {
  }

  lemma {:induction false} StoreLess(store: Store, all: set<Frame>, rest: set<Frame>, first: set<Frame>)
    requires first <= rest <= all
    ensures store - (all - rest) - first == store - (all - (rest - first))
  {
  }

  lemma {:induction false} NoFrames()
    ensures Frames(Nil) == {} && Post(Nil) == []
  {
  }

  /** The order so far, once the first of the rest is walked. */
  lemma {:induction false} PostGoesOn(before: seq<Frame>, g: Forest)
    requires g.Cons?
    ensures before + Post(g) == (before + (Post(g.kids) + [g.frame])) + Post(g.siblings)
  {
  }

  /** The `i`-th budget of the walk. */
  ghost function WalkAt(top: Frame, kids: Forest, i: nat): Option<Frame> {
    if i < |Walk(top, kids)| then Some(Walk(top, kids)[i]) else None
  }

  /** From every budget of the subtree but `top` the climb goes on to its parent, higher up. */
  lemma {:induction false} ClimbGoesOn(store: Store, top: Frame, kids: Forest, at: Frame)
    requires Walkable(store, top, kids) && at in Frames(kids)
    ensures at in store && store[at].parent.Some?
    ensures var p := store[at].parent.value;
            p in store && store[p].depth < store[at].depth && (p == top || p in Frames(kids))
  {
    ParentDepth(store, top, store[top].depth + 1, kids, at);
    ParentWithin(store, Some(top), store[top].depth + 1, kids, at);
  }

  lemma {:induction false} ParentDepth(store: Store, p: Frame, depth: nat, g: Forest, f: Frame)
    requires p in store && store[p].depth + 1 == depth && Linked(store, Some(p), depth, g) && f in Frames(g)
    ensures f in store && store[f].parent.Some? && store[f].parent.value in store
    ensures store[store[f].parent.value].depth < store[f].depth
    decreases g
  {
    if f == g.frame {
    } else if f in Frames(g.kids) {
      ParentDepth(store, g.frame, depth + 1, g.kids, f);
    } else {
      ParentDepth(store, p, depth, g.siblings, f);
    }
  }

  lemma {:induction false} ElementsNext(s: seq<Frame>, i: nat)
    requires i < |s|
    ensures Elements(s[..i + 1]) == Elements(s[..i]) + {s[i]}
  {
    assert s[..i + 1][i] == s[i];
    forall f | f in Elements(s[..i]) ensures f in Elements(s[..i + 1]) {
      var k :| 0 <= k < i && s[..i][k] == f;
      assert s[..i + 1][k] == f;
    }
  }

  /** The store with `frames` marked dying. */
  function WithDying(store: Store, frames: set<Frame>): Store {
    map f | f in store :: if f in frames then store[f].(dying := true) else store[f]
  }

  lemma {:induction false} WithDyingWalkable(store: Store, frames: set<Frame>, top: Frame, kids: Forest)
    requires Walkable(store, top, kids)
    ensures Walkable(WithDying(store, frames), top, kids)
  {
    LinkedSame(store, WithDying(store, frames), Some(top), store[top].depth + 1, kids);
  }

  lemma {:induction false} WithDyingMore(store: Store, frames: set<Frame>, f: Frame)
    requires f in store
    ensures WithDying(store, frames)[f := WithDying(store, frames)[f].(dying := true)] == WithDying(store, frames + {f})
  {
  }

  lemma {:induction false} UnlinkedDying(store: Store, p: Frame, k: Forest, c: Frame)
    requires p in store && c in store && TopLevel(k, c)
    ensures Unlinked(store, p, k, c).Keys == store.Keys
    ensures forall f :: f in store ==> Unlinked(store, p, k, c)[f].dying == store[f].dying
  {
  }
}
