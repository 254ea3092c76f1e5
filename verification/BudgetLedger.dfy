/** What each budget has spent (kernel/src/budget.rs, R6 and R7): its own charges and what its children
    were given.
  */
module BudgetLedger {
  import opened Basics
  import opened BudgetForest

  datatype Resource = Pages | Processes | Weight

  function Of(b: Budget, r: Resource): Meter {
    match r
    case Pages => b.pages
    case Processes => b.processes
    case Weight => b.weight
  }

  /** What a budget costs its parent beside its limit: its own page. */
  function Own(r: Resource): nat {
    if r == Pages then 1 else 0
  }

  /** The charges made to a budget itself; none recorded is none made. */
  type Direct = map<Frame, nat>

  function At(direct: Direct, f: Frame): nat {
    if f in direct then direct[f] else 0
  }

  /** What the forest's own budgets took from their parent. */
  function Carved(store: Store, r: Resource, g: Forest): nat {
    if g.Nil? then 0
    else Own(r) + (if g.frame in store then Of(store[g.frame], r).limit else 0) + Carved(store, r, g.siblings)
  }

  /** Every budget's use is its own charges and its children's carves, within its limit. */
  ghost predicate Balanced(store: Store, r: Resource, direct: Direct, g: Forest) {
    g.Cons? ==>
      && g.frame in store
      && Of(store[g.frame], r).used == At(direct, g.frame) + Carved(store, r, g.kids)
      && Of(store[g.frame], r).used <= Of(store[g.frame], r).limit
      && Balanced(store, r, direct, g.kids) && Balanced(store, r, direct, g.siblings)
  }

  /** Every charge in the forest, with every budget's own page. */
  function Total(r: Resource, direct: Direct, g: Forest): nat {
    if g.Nil? then 0
    else Own(r) + At(direct, g.frame) + Total(r, direct, g.kids) + Total(r, direct, g.siblings)
  }

  /** Charges never exceed what was carved: `root`'s limit bounds every charge in the tree. */
  lemma {:induction false} Conserved(store: Store, r: Resource, direct: Direct, g: Forest)
    requires Balanced(store, r, direct, g)
    ensures Total(r, direct, g) <= Carved(store, r, g)
  {
    if g.Cons? {
      Conserved(store, r, direct, g.kids);
      Conserved(store, r, direct, g.siblings);
    }
  }

  /** What any one budget still has free is free in the whole tree. */
  lemma {:induction false} FreeIsFree(store: Store, r: Resource, direct: Direct, g: Forest, f: Frame)
    requires Balanced(store, r, direct, g) && f in Frames(g)
    ensures f in store && Total(r, direct, g) + Of(store[f], r).limit - Of(store[f], r).used <= Carved(store, r, g)
  {
    Conserved(store, r, direct, g.kids);
    Conserved(store, r, direct, g.siblings);
    if f == g.frame {
    } else if f in Frames(g.kids) {
      FreeIsFree(store, r, direct, g.kids, f);
    } else {
      FreeIsFree(store, r, direct, g.siblings, f);
    }
  }

  /** Budget `x` has the same meter, and the same charges of its own. */
  ghost predicate Same(store: Store, store': Store, r: Resource, direct: Direct, direct': Direct, x: Frame) {
    x in store ==> x in store' && Of(store'[x], r) == Of(store[x], r) && At(direct', x) == At(direct, x)
  }

  lemma {:induction false} BalancedSame(
      store: Store, store': Store, r: Resource, direct: Direct, direct': Direct, g: Forest)
    requires Balanced(store, r, direct, g)
    requires forall f :: f in Frames(g) ==> Same(store, store', r, direct, direct', f)
    ensures Balanced(store', r, direct', g) && Carved(store', r, g) == Carved(store, r, g)
  {
    if g.Cons? {
      assert Same(store, store', r, direct, direct', g.frame);
      BalancedSame(store, store', r, direct, direct', g.kids);
      BalancedSame(store, store', r, direct, direct', g.siblings);
    }
  }

  /** A charge, or its return, to one budget. */
  lemma {:induction false} BalancedCharge(
      store: Store, store': Store, r: Resource, direct: Direct, direct': Direct, g: Forest, f: Frame)
    requires Balanced(store, r, direct, g) && Distinct(g) && f in store && f in store'
    requires forall x :: x in Frames(g) && x != f ==> Same(store, store', r, direct, direct', x)
    requires Of(store'[f], r).limit == Of(store[f], r).limit
    requires Of(store'[f], r).used - Of(store[f], r).used == At(direct', f) - At(direct, f)
    requires Of(store'[f], r).used <= Of(store'[f], r).limit
    ensures Balanced(store', r, direct', g) && Carved(store', r, g) == Carved(store, r, g)
  {
    if g.Cons? {
      assert g.frame != f ==> Same(store, store', r, direct, direct', g.frame);
      BalancedCharge(store, store', r, direct, direct', g.kids, f);
      BalancedCharge(store, store', r, direct, direct', g.siblings, f);
    }
  }

  /** One budget's children replaced, and its use with them. */
  lemma {:induction false} BalancedWithKids(
      store: Store, store': Store, r: Resource, direct: Direct, direct': Direct, g: Forest, p: Frame, h: Forest)
    requires Balanced(store, r, direct, g) && Distinct(g) && p in Frames(g) && p in store && p in store'
    requires forall x :: Outside(g, p, x) ==> Same(store, store', r, direct, direct', x)
    requires Balanced(store', r, direct', h)
    requires Of(store'[p], r).limit == Of(store[p], r).limit >= Of(store'[p], r).used
    requires Of(store'[p], r).used == At(direct', p) + Carved(store', r, h)
    ensures Balanced(store', r, direct', WithKids(g, p, h))
    ensures Carved(store', r, WithKids(g, p, h)) == Carved(store, r, g)
  {
    OutsideParts(g, p);
    if g.frame == p {
      BalancedSame(store, store', r, direct, direct', g.siblings);
    } else if p in Frames(g.kids) {
      BalancedWithKids(store, store', r, direct, direct', g.kids, p, h);
      BalancedSame(store, store', r, direct, direct', g.siblings);
      BalancedNode(store, store', r, direct, direct', g, WithKids(g.kids, p, h), g.siblings);
    } else {
      BalancedSame(store, store', r, direct, direct', g.kids);
      BalancedWithKids(store, store', r, direct, direct', g.siblings, p, h);
      BalancedNode(store, store', r, direct, direct', g, g.kids, WithKids(g.siblings, p, h));
    }
  }

  lemma {:induction false} BalancedNode(
      store: Store, store': Store, r: Resource, direct: Direct, direct': Direct, g: Forest,
                     kids: Forest, siblings: Forest)
    requires Balanced(store, r, direct, g) && g.Cons? && Same(store, store', r, direct, direct', g.frame)
    requires Balanced(store', r, direct', kids) && Carved(store', r, kids) == Carved(store, r, g.kids)
    requires Balanced(store', r, direct', siblings) && Carved(store', r, siblings) == Carved(store, r, g.siblings)
    ensures Balanced(store', r, direct', Cons(g.frame, kids, siblings))
    ensures Carved(store', r, Cons(g.frame, kids, siblings)) == Carved(store, r, g)
  {
  }

  /** One budget of the forest with what is below it. */
  lemma {:induction false} BalancedAt(store: Store, r: Resource, direct: Direct, g: Forest, p: Frame)
    requires Balanced(store, r, direct, g) && p in Frames(g)
    ensures p in store && Balanced(store, r, direct, KidsOf(g, p))
    ensures Of(store[p], r).used == At(direct, p) + Carved(store, r, KidsOf(g, p))
    ensures Of(store[p], r).used <= Of(store[p], r).limit
  {
    if g.frame == p {
    } else if p in Frames(g.kids) {
      BalancedAt(store, r, direct, g.kids, p);
    } else {
      BalancedAt(store, r, direct, g.siblings, p);
    }
  }

  /** A budget taken from its parent's list takes its carve and its page with it. */
  lemma {:induction false} BalancedRemove(store: Store, r: Resource, direct: Direct, g: Forest, c: Frame)
    requires Balanced(store, r, direct, g) && Distinct(g) && TopLevel(g, c)
    ensures c in store && Balanced(store, r, direct, RemoveTop(g, c)) && Balanced(store, r, direct, KidsOf(g, c))
    ensures Carved(store, r, g) == Carved(store, r, RemoveTop(g, c)) + Own(r) + Of(store[c], r).limit
  {
    TopLevelWithin(g, c);
    if g.frame != c {
      TopLevelWithin(g.siblings, c);
      BalancedRemove(store, r, direct, g.siblings, c);
    }
  }
}
