/** The whole ledger at once: the budget tree, the charges made to each budget, the PIDs counted in
    each, and the quarantined DMA runs charged to each (kernel/src/budget.rs, process.rs, dma.rs).
  */
module BudgetBooks {
  import opened Basics
  import opened BudgetForest
  import opened BudgetLedger

  type Pid = nat

  /** PID 1 is the kernel's, which has no budget. */
  const MAX_PROCESS_COUNT: nat := 511
  const MAX_DEPTH: nat := 16

  ghost predicate IsPid(pid: Pid) {
    2 <= pid <= MAX_PROCESS_COUNT
  }

  /** A quarantined DMA run and the budget paying for it. */
  datatype Run = Run(npages: nat, charged: Option<Frame>)

  /** The subtree a destruction has marked, out of its parent's list but not yet freed. */
  datatype Doom = NoDoom | Doom(top: Frame, kids: Forest)

  function DoomFrames(d: Doom): set<Frame> {
    if d.NoDoom? then {} else {d.top} + Frames(d.kids)
  }

  /** `pages`: what is charged to each budget itself. `counted`: the budget counting each held PID.
      `lives`: the budget each live process runs in.
    */
  datatype Books = Books(
    store: Store, tree: Forest, doom: Doom, pages: Direct,
    counted: map<Pid, Frame>, lives: map<Pid, Frame>, runs: seq<Run>)

  // --- The charges of each resource ------------------------------------------------------------------

  ghost function CountedIn(counted: map<Pid, Frame>, f: Frame): set<Pid> {
    set pid | pid in counted && counted[pid] == f
  }

  ghost function Counts(counted: map<Pid, Frame>): Direct {
    map f | f in counted.Values :: |CountedIn(counted, f)|
  }

  lemma {:induction false} CountsAt(counted: map<Pid, Frame>, f: Frame)
    ensures At(Counts(counted), f) == |CountedIn(counted, f)|
  {
    if f !in counted.Values {
      assert CountedIn(counted, f) == {};
    }
  }

  function Plus(direct: Direct, f: Frame, n: nat): Direct {
    direct[f := At(direct, f) + n]
  }

  ghost function Charges(b: Books, r: Resource): Direct {
    match r
    case Pages => b.pages
    case Processes => Counts(b.counted)
    case Weight => map[]
  }

  /** The budgets' own charges, with the carve a marked subtree has not yet given back to its parent
      (its weight went back as it was marked).
    */
  ghost function Owing(b: Books, r: Resource): Direct {
    if b.doom.NoDoom? || r == Weight || b.doom.top !in b.store || b.store[b.doom.top].parent.None? then Charges(b, r)
    else Plus(Charges(b, r), b.store[b.doom.top].parent.value, Own(r) + Of(b.store[b.doom.top], r).limit)
  }

  function RunPages(runs: seq<Run>, f: Frame): nat {
    if runs == [] then 0
    else (if runs[|runs| - 1].charged == Some(f) then runs[|runs| - 1].npages else 0) + RunPages(runs[..|runs| - 1], f)
  }

  // --- What the ledger always keeps --------------------------------------------------------------------

  ghost predicate Treed(b: Books) {
    && b.tree.Cons? && b.tree.siblings.Nil?
    && Distinct(b.tree) && Linked(b.store, None, 0, b.tree)
    && b.store.Keys == Frames(b.tree) + DoomFrames(b.doom) && Frames(b.tree) !! DoomFrames(b.doom)
  }

  ghost predicate DoomLinked(b: Books) {
    b.doom.Doom? ==>
      var top := b.doom.top;
      && top in b.store && b.store[top].parent.Some? && b.store[top].parent.value in Frames(b.tree)
      && b.store[top].parent.value in b.store && b.store[b.store[top].parent.value].depth < b.store[top].depth
      && Distinct(b.doom.kids) && top !in Frames(b.doom.kids)
      && b.store[top].firstChild == Head(b.doom.kids)
      && Linked(b.store, Some(top), b.store[top].depth + 1, b.doom.kids)
  }

  /** Each budget's use of `r` is its own charges and its children's carves, within its limit. */
  ghost predicate Paid(b: Books, r: Resource) {
    && Balanced(b.store, r, Owing(b, r), b.tree)
    && (b.doom.Doom? && r != Weight ==>
          Balanced(b.store, r, Owing(b, r), Cons(b.doom.top, b.doom.kids, Nil)))
  }

  /** Every held PID counts in one live budget. */
  ghost predicate Counted(b: Books) {
    forall pid :: pid in b.counted ==> IsPid(pid) && b.counted[pid] in b.store
  }

  /** A live process counts in the budget it runs in, which keeps free weight to run it. */
  ghost predicate Living(b: Books) {
    forall pid :: pid in b.lives ==>
      && pid in b.counted && b.counted[pid] == b.lives[pid] && b.lives[pid] in b.store
      && b.store[b.lives[pid]].weight.used < b.store[b.lives[pid]].weight.limit
  }

  /** Quarantined runs are part of what their budgets are charged. */
  ghost predicate RunsPaid(b: Books) {
    && (forall i :: 0 <= i < |b.runs| && b.runs[i].charged.Some? ==> b.runs[i].charged.value in b.store)
    && (forall f :: f in b.store ==> RunPages(b.runs, f) <= At(b.pages, f))
  }

  /** `root` carves out no more processes than there are PIDs. */
  ghost predicate Rooted(b: Books) {
    b.tree.Cons? && b.tree.frame in b.store && b.store[b.tree.frame].processes.limit <= MAX_PROCESS_COUNT - 1
  }

  ghost predicate Sound(b: Books) {
    && Treed(b) && DoomLinked(b) && Rooted(b)
    && Paid(b, Pages) && Paid(b, Processes) && Paid(b, Weight)
    && Counted(b) && Living(b) && RunsPaid(b)
  }

  // --- What follows of every charge in the tree ----------------------------------------------------------

  /** The pages charged in the forest, and its budgets. */
  function SumPages(direct: Direct, g: Forest): nat {
    if g.Nil? then 0 else At(direct, g.frame) + SumPages(direct, g.kids) + SumPages(direct, g.siblings)
  }

  function Size(g: Forest): nat {
    if g.Nil? then 0 else 1 + Size(g.kids) + Size(g.siblings)
  }

  lemma {:induction false} TotalSplits(direct: Direct, g: Forest)
    ensures Total(Pages, direct, g) == SumPages(direct, g) + Size(g)
    ensures Total(Processes, direct, g) == SumPages(direct, g)
  {
    if g.Cons? {
      TotalSplits(direct, g.kids);
      TotalSplits(direct, g.siblings);
    }
  }

  /** R6: every charge in the tree, with a page for every budget but `root`, is within `root`'s limit. */
  lemma {:induction false} RootBoundsCharges(b: Books)
    requires Sound(b) && b.doom.NoDoom?
    ensures SumPages(b.pages, b.tree) + Size(b.tree) - 1 <= b.store[b.tree.frame].pages.limit
  {
    Conserved(b.store, Pages, b.pages, b.tree);
    TotalSplits(b.pages, b.tree);
  }

  // --- By pigeonhole, a budget with room finds a PID --------------------------------------------------------

  ghost function CountedWithin(counted: map<Pid, Frame>, frames: set<Frame>): set<Pid> {
    set pid | pid in counted && counted[pid] in frames
  }

  /** The counts of the forest's budgets are the PIDs counted in it, each once. */
  lemma {:induction false} CountsSum(counted: map<Pid, Frame>, g: Forest)
    requires Distinct(g)
    ensures SumPages(Counts(counted), g) == |CountedWithin(counted, Frames(g))|
  {
    if g.Nil? {
      assert CountedWithin(counted, {}) == {};
    } else {
      CountsSum(counted, g.kids);
      CountsSum(counted, g.siblings);
      CountsAt(counted, g.frame);
      CountedSplit(counted, g.frame, Frames(g.kids), Frames(g.siblings));
    }
  }

  lemma {:induction false} CountedSplit(counted: map<Pid, Frame>, f: Frame, k: set<Frame>, s: set<Frame>)
    requires f !in k && f !in s && k !! s
    ensures |CountedWithin(counted, {f} + k + s)|
         == |CountedIn(counted, f)| + |CountedWithin(counted, k)| + |CountedWithin(counted, s)|
  {
    var inF, inK, inS := CountedIn(counted, f), CountedWithin(counted, k), CountedWithin(counted, s);
    assert CountedWithin(counted, {f} + k + s) == inF + inK + inS;
    assert inF !! inK && (inF + inK) !! inS;
  }

  /** The first `n` PIDs a process may have. */
  ghost function Pids(n: nat): set<Pid> {
    if n == 0 then {} else Pids(n - 1) + {n + 1}
  }

  lemma {:induction false} PidsSize(n: nat)
    ensures |Pids(n)| == n && forall pid :: pid in Pids(n) ==> 2 <= pid <= n + 1
  {
    if n > 0 { PidsSize(n - 1); }
  }

  /** R6: limits are carved from `root`'s, which is every PID, so whenever a budget has room for one
      more process, some PID is held by nobody.
    */
  lemma {:induction false} FreePidExists(b: Books, target: Frame)
    requires Sound(b) && b.doom.NoDoom? && target in b.store
    requires b.store[target].processes.used < b.store[target].processes.limit
    ensures exists pid :: IsPid(pid) && pid !in b.counted
  {
    hide Linked, DoomLinked, Living, RunsPaid;
    FreeIsFree(b.store, Processes, Counts(b.counted), b.tree, target);
    TotalSplits(Counts(b.counted), b.tree);
    CountsSum(b.counted, b.tree);
    assert CountedWithin(b.counted, Frames(b.tree)) == b.counted.Keys;
    PidsSize(MAX_PROCESS_COUNT - 1);
    if forall pid :: IsPid(pid) ==> pid in b.counted {
      assert Pids(MAX_PROCESS_COUNT - 1) <= b.counted.Keys;
      SubsetSize(Pids(MAX_PROCESS_COUNT - 1), b.counted.Keys);
    }
  }

  lemma {:induction false} SubsetSize<T>(a: set<T>, c: set<T>)
    requires a <= c
    ensures |a| <= |c|
  {
    assert c == a + (c - a);
  }

  // --- What a change of one budget keeps ----------------------------------------------------------------------

  /** The same budgets, linked the same. */
  ghost predicate SameTree(b: Books, b': Books) {
    && b'.tree == b.tree && b'.doom == b.doom && b'.store.Keys == b.store.Keys
    && (forall f :: f in b.store ==> SameLinks(b.store[f], b'.store[f]))
  }

  lemma {:induction false} LinksKept(b: Books, b': Books)
    requires Treed(b) && DoomLinked(b) && SameTree(b, b')
    ensures Treed(b') && DoomLinked(b')
  {
    hide Linked, Distinct;
    LinkedSame(b.store, b'.store, None, 0, b.tree);
    if b.doom.Doom? {
      LinkedSame(b.store, b'.store, Some(b.doom.top), b.store[b.doom.top].depth + 1, b.doom.kids);
    }
  }

  ghost predicate SameMeter(b: Books, b': Books, r: Resource, f: Frame)
    requires f in b.store && f in b'.store
  {
    Of(b'.store[f], r) == Of(b.store[f], r) && At(Charges(b', r), f) == At(Charges(b, r), f)
  }

  /** Budget `f` is charged, or given back, what its own charges say, within its limit. */
  ghost predicate Recharged(b: Books, b': Books, r: Resource, f: Frame)
    requires f in b.store && f in b'.store
  {
    && Of(b'.store[f], r).limit == Of(b.store[f], r).limit >= Of(b'.store[f], r).used
    && Of(b'.store[f], r).used - Of(b.store[f], r).used == At(Charges(b', r), f) - At(Charges(b, r), f)
  }

  lemma {:induction false} PaidRecharged(b: Books, b': Books, r: Resource, f: Frame)
    requires Treed(b) && DoomLinked(b) && Paid(b, r) && SameTree(b, b') && f in b.store
    requires Recharged(b, b', r, f)
    requires forall x :: x in b.store && x != f ==> SameMeter(b, b', r, x)
    requires b.doom.Doom? ==> Of(b'.store[b.doom.top], r).limit == Of(b.store[b.doom.top], r).limit
    ensures Paid(b', r)
  {
    var d, d' := Owing(b, r), Owing(b', r);
    forall x | x in b.store ensures At(d', x) - At(d, x) == At(Charges(b', r), x) - At(Charges(b, r), x) {}
    forall x | x in b.store && x != f ensures Same(b.store, b'.store, r, d, d', x) {
      assert SameMeter(b, b', r, x);
    }
    BalancedCharge(b.store, b'.store, r, d, d', b.tree, f);
    if b.doom.Doom? && r != Weight {
      BalancedCharge(b.store, b'.store, r, d, d', Cons(b.doom.top, b.doom.kids, Nil), f);
    }
  }

  lemma {:induction false} PaidKept(b: Books, b': Books, r: Resource)
    requires Treed(b) && DoomLinked(b) && Paid(b, r) && SameTree(b, b')
    requires forall x :: x in b.store ==> SameMeter(b, b', r, x)
    ensures Paid(b', r)
  {
    var root := b.tree.frame;
    assert SameMeter(b, b', r, root);
    BalancedAt(b.store, r, Owing(b, r), b.tree, root);
    if b.doom.Doom? { assert SameMeter(b, b', r, b.doom.top); }
    PaidRecharged(b, b', r, root);
  }

  // --- Charges -------------------------------------------------------------------------------------------------

  function Charged(b: Books, f: Frame, n: nat): Books
    requires f in b.store
  {
    b.(store := b.store[f := b.store[f].(pages := b.store[f].pages.(used := b.store[f].pages.used + n))],
       pages := Plus(b.pages, f, n))
  }

  lemma {:induction false} ChargeKeeps(b: Books, f: Frame, n: nat)
    requires Sound(b) && f in b.store && b.store[f].pages.used + n <= b.store[f].pages.limit
    ensures Sound(Charged(b, f, n))
  {
    PagesMoved(b, Charged(b, f, n), f);
  }

  /** Only budget `f`'s pages changed, with its own charges. */
  ghost predicate PagesOnly(b: Books, b': Books, f: Frame)
    requires f in b.store && f in b'.store
  {
    && b'.store == b.store[f := b.store[f].(pages := b.store[f].pages.(used := b'.store[f].pages.used))]
    && b'.pages == b.pages[f := At(b'.pages, f)]
    && b' == b.(store := b'.store, pages := b'.pages)
  }

  lemma {:induction false} PagesMoved(b: Books, b': Books, f: Frame)
    requires Sound(b) && f in b.store && f in b'.store && PagesOnly(b, b', f) && Recharged(b, b', Pages, f)
    requires RunPages(b.runs, f) <= At(b'.pages, f)
    ensures Sound(b')
  {
    hide Treed, DoomLinked, Rooted, Paid, Counted, Living, RunsPaid;
    LinksKept(b, b');
    PaidPages(b, b', f);
    PaidOther(b, b', f, Processes);
    PaidOther(b, b', f, Weight);
    PagesRest(b, b', f);
  }

  lemma {:induction false} PagesRest(b: Books, b': Books, f: Frame)
    requires Rooted(b) && Counted(b) && Living(b) && RunsPaid(b)
    requires f in b.store && f in b'.store && PagesOnly(b, b', f) && RunPages(b.runs, f) <= At(b'.pages, f)
    ensures Rooted(b') && Counted(b') && Living(b') && RunsPaid(b')
  {
  }

  lemma {:induction false} PaidPages(b: Books, b': Books, f: Frame)
    requires Treed(b) && DoomLinked(b) && Paid(b, Pages)
    requires f in b.store && f in b'.store && PagesOnly(b, b', f) && Recharged(b, b', Pages, f)
    ensures Paid(b', Pages)
  {
    PaidRecharged(b, b', Pages, f);
  }

  lemma {:induction false} PaidOther(b: Books, b': Books, f: Frame, r: Resource)
    requires Treed(b) && DoomLinked(b) && Paid(b, r) && r != Pages
    requires f in b.store && f in b'.store && PagesOnly(b, b', f)
    ensures Paid(b', r)
  {
    PaidKept(b, b', r);
  }

  function Uncharged(b: Books, f: Frame, n: nat): Books
    requires f in b.store && n <= b.store[f].pages.used && n <= At(b.pages, f)
  {
    b.(store := b.store[f := b.store[f].(pages := b.store[f].pages.(used := b.store[f].pages.used - n))],
       pages := b.pages[f := At(b.pages, f) - n])
  }

  /** What was charged to a budget itself, other than by a quarantined run, can be given back. */
  lemma {:induction false} UnchargeKeeps(b: Books, f: Frame, n: nat)
    requires Sound(b) && f in b.store && RunPages(b.runs, f) + n <= At(b.pages, f)
    ensures n <= b.store[f].pages.used && Sound(Uncharged(b, f, n))
  {
    UsedCovers(b, Pages, f);
    PagesMoved(b, Uncharged(b, f, n), f);
  }

  /** A budget's use is at least its own charges: no counter underflows (I5). */
  lemma {:induction false} UsedCovers(b: Books, r: Resource, f: Frame)
    requires Treed(b) && DoomLinked(b) && Paid(b, r) && f in b.store && r != Weight
    ensures At(Charges(b, r), f) <= Of(b.store[f], r).used <= Of(b.store[f], r).limit
  {
    if f in Frames(b.tree) {
      BalancedAt(b.store, r, Owing(b, r), b.tree, f);
    } else {
      BalancedAt(b.store, r, Owing(b, r), Cons(b.doom.top, b.doom.kids, Nil), f);
    }
  }

  lemma {:induction false} WithinLimit(b: Books, f: Frame)
    requires Sound(b) && f in b.store
    ensures At(b.pages, f) <= b.store[f].pages.used <= b.store[f].pages.limit
    ensures b.store[f].processes.used <= b.store[f].processes.limit
  {
    UsedCovers(b, Pages, f);
    UsedCovers(b, Processes, f);
  }

  // --- PIDs ------------------------------------------------------------------------------------------------------

  function WithProcesses(store: Store, f: Frame, used: nat): Store
    requires f in store
  {
    store[f := store[f].(processes := store[f].processes.(used := used))]
  }

  /** Only budget `f`'s processes changed, with the PIDs counted in it. */
  ghost predicate ProcessesOnly(b: Books, b': Books, f: Frame)
    requires f in b.store && f in b'.store
  {
    && b'.store == WithProcesses(b.store, f, b'.store[f].processes.used)
    && b' == b.(store := b'.store, counted := b'.counted, lives := b'.lives)
    && (forall x :: x in b.store && x != f ==> At(Counts(b'.counted), x) == At(Counts(b.counted), x))
  }

  lemma {:induction false} PaidProcesses(b: Books, b': Books, f: Frame)
    requires Treed(b) && DoomLinked(b) && Paid(b, Processes)
    requires f in b.store && f in b'.store && ProcessesOnly(b, b', f) && Recharged(b, b', Processes, f)
    ensures Paid(b', Processes)
  {
    PaidRecharged(b, b', Processes, f);
  }

  lemma {:induction false} PaidNotProcesses(b: Books, b': Books, f: Frame, r: Resource)
    requires Treed(b) && DoomLinked(b) && Paid(b, r) && r != Processes
    requires f in b.store && f in b'.store && ProcessesOnly(b, b', f)
    ensures Paid(b', r)
  {
    PaidKept(b, b', r);
  }

  lemma {:induction false} ProcessesMoved(b: Books, b': Books, f: Frame)
    requires Sound(b) && f in b.store && f in b'.store && ProcessesOnly(b, b', f) && Recharged(b, b', Processes, f)
    requires Counted(b') && Living(b')
    ensures Sound(b')
  {
    hide Treed, DoomLinked, Rooted, Paid, Counted, Living, RunsPaid;
    LinksKept(b, b');
    PaidProcesses(b, b', f);
    PaidNotProcesses(b, b', f, Pages);
    PaidNotProcesses(b, b', f, Weight);
    ProcessesRest(b, b', f);
  }

  lemma {:induction false} ProcessesRest(b: Books, b': Books, f: Frame)
    requires Rooted(b) && RunsPaid(b) && f in b.store && f in b'.store && ProcessesOnly(b, b', f)
    requires Recharged(b, b', Processes, f)
    ensures Rooted(b') && RunsPaid(b')
  {
  }

  /** `pid`, held by nobody, counts in `f`. */
  function Count(b: Books, pid: Pid, f: Frame): Books
    requires f in b.store
  {
    b.(store := WithProcesses(b.store, f, b.store[f].processes.used + 1), counted := b.counted[pid := f])
  }

  lemma {:induction false} CountsAdd(counted: map<Pid, Frame>, pid: Pid, f: Frame, x: Frame)
    requires pid !in counted
    ensures At(Counts(counted[pid := f]), x) == At(Counts(counted), x) + if x == f then 1 else 0
  {
    CountsAt(counted, x);
    CountsAt(counted[pid := f], x);
    CountedAdd(counted, pid, f, x);
  }

  lemma {:induction false} CountedAdd(counted: map<Pid, Frame>, pid: Pid, f: Frame, x: Frame)
    requires pid !in counted
    ensures |CountedIn(counted[pid := f], x)| == |CountedIn(counted, x)| + if x == f then 1 else 0
  {
    if x == f {
      assert CountedIn(counted[pid := f], f) == CountedIn(counted, f) + {pid};
    } else {
      assert CountedIn(counted[pid := f], x) == CountedIn(counted, x);
    }
  }

  lemma {:induction false} CountKeeps(b: Books, pid: Pid, f: Frame)
    requires Sound(b) && f in b.store && IsPid(pid) && pid !in b.counted
    requires b.store[f].processes.used < b.store[f].processes.limit
    ensures Sound(Count(b, pid, f))
  {
    hide Sound, Counts, Counted, Living;
    var b' := Count(b, pid, f);
    forall x ensures At(Counts(b'.counted), x) == At(Counts(b.counted), x) + if x == f then 1 else 0 {
      CountsAdd(b.counted, pid, f, x);
    }
    CountRest(b, pid, f);
    ProcessesMoved(b, b', f);
  }

  lemma {:induction false} CountRest(b: Books, pid: Pid, f: Frame)
    requires Sound(b) && f in b.store && IsPid(pid) && pid !in b.counted
    ensures Counted(Count(b, pid, f)) && Living(Count(b, pid, f))
  {
    hide Treed, DoomLinked, Rooted, Paid, RunsPaid;
  }

  /** Held PID `pid` is free again, its process gone. */
  function Uncount(b: Books, pid: Pid): Books
    requires pid in b.counted && b.counted[pid] in b.store && b.store[b.counted[pid]].processes.used > 0
  {
    var f := b.counted[pid];
    b.(store := WithProcesses(b.store, f, b.store[f].processes.used - 1), counted := b.counted - {pid})
  }

  lemma {:induction false} UncountKeeps(b: Books, pid: Pid)
    requires Sound(b) && pid in b.counted && pid !in b.lives
    ensures b.counted[pid] in b.store && b.store[b.counted[pid]].processes.used > 0 && Sound(Uncount(b, pid))
  {
    hide Sound, Counts, Counted, Living;
    HeldSomewhere(b, pid);
    CountsDrop(b.counted, pid);
    UncountRest(b, pid);
    ProcessesMoved(b, Uncount(b, pid), b.counted[pid]);
  }

  /** A held PID counts in a budget there is, which counts at least it. */
  lemma {:induction false} HeldSomewhere(b: Books, pid: Pid)
    requires Sound(b) && pid in b.counted
    ensures b.counted[pid] in b.store
    ensures 0 < b.store[b.counted[pid]].processes.used <= b.store[b.counted[pid]].processes.limit
  {
    hide Treed, DoomLinked, Rooted, Paid, RunsPaid, Living, Counts;
    CountsDrop(b.counted, pid);
    UsedCovers(b, Processes, b.counted[pid]);
  }

  lemma {:induction false} UncountRest(b: Books, pid: Pid)
    requires Sound(b) && pid in b.counted && pid !in b.lives
    requires b.counted[pid] in b.store && b.store[b.counted[pid]].processes.used > 0
    ensures Counted(Uncount(b, pid)) && Living(Uncount(b, pid))
  {
    hide Treed, DoomLinked, Rooted, Paid, RunsPaid;
  }

  lemma {:induction false} CountsDrop(counted: map<Pid, Frame>, pid: Pid)
    requires pid in counted
    ensures At(Counts(counted), counted[pid]) > 0
    ensures forall x :: At(Counts(counted), x) == At(Counts(counted - {pid}), x) + if x == counted[pid] then 1 else 0
  {
    var f, rest := counted[pid], counted - {pid};
    assert counted == rest[pid := f];
    forall x ensures At(Counts(counted), x) == At(Counts(rest), x) + if x == f then 1 else 0 {
      CountsAdd(rest, pid, f, x);
    }
  }

  /** A process starts or stops running; its PID's count does not move. */
  lemma {:induction false} LivesKeep(b: Books, lives: map<Pid, Frame>)
    requires Sound(b) && Living(b.(lives := lives))
    ensures Sound(b.(lives := lives))
  {
    hide Treed, DoomLinked, Paid, Living;
    var b' := b.(lives := lives);
    LinksKept(b, b');
    PaidKept(b, b', Pages);
    PaidKept(b, b', Processes);
    PaidKept(b, b', Weight);
  }

  // --- Creation ----------------------------------------------------------------------------------------------------

  /** The limits a new budget is to have. */
  datatype Spec = Spec(pages: nat, processes: nat, weight: nat)

  function NewChild(b: Books, p: Frame, id: nat, spec: Spec): Budget
    requires p in b.store
  {
    Budget(id, Some(p), None, b.store[p].firstChild, b.store[p].depth + 1, false,
           Meter(spec.pages, 0), Meter(spec.processes, 0), Meter(spec.weight, 0))
  }

  /** The parent pays the child's own page, carves its limits, and lists it first. */
  function CarvedParent(pb: Budget, child: Frame, spec: Spec): Budget {
    pb.(firstChild := Some(child),
        pages := pb.pages.(used := pb.pages.used + 1 + spec.pages),
        processes := pb.processes.(used := pb.processes.used + spec.processes),
        weight := pb.weight.(used := pb.weight.used + spec.weight))
  }

  ghost function Carve(b: Books, p: Frame, child: Frame, id: nat, spec: Spec): Books
    requires p in b.store
  {
    b.(store := b.store[child := NewChild(b, p, id, spec)][p := CarvedParent(b.store[p], child, spec)],
       tree := WithKids(b.tree, p, Cons(child, Nil, KidsOf(b.tree, p))),
       pages := b.pages[child := 0])
  }

  /** What `budget_create` checks of the parent. */
  ghost predicate Room(b: Books, p: Frame, spec: Spec)
    requires p in b.store
  {
    && b.store[p].pages.used + 1 + spec.pages <= b.store[p].pages.limit
    && b.store[p].processes.used + spec.processes <= b.store[p].processes.limit
    && b.store[p].weight.used + spec.weight <= b.store[p].weight.limit
    && (spec.weight > 0 && (exists pid :: pid in b.lives && b.lives[pid] == p) ==>
          b.store[p].weight.used + spec.weight < b.store[p].weight.limit)
  }

  lemma {:induction false} NoRuns(runs: seq<Run>, f: Frame)
    requires forall i :: 0 <= i < |runs| ==> runs[i].charged != Some(f)
    ensures RunPages(runs, f) == 0
  {
    if runs != [] { NoRuns(runs[..|runs| - 1], f); }
  }

  lemma {:induction false} CarveLinks(b: Books, p: Frame, child: Frame, id: nat, spec: Spec)
    requires Treed(b) && b.doom.NoDoom? && p in b.store && child !in b.store
    ensures Treed(Carve(b, p, child, id, spec))
  {
    var b' := Carve(b, p, child, id, spec);
    var k := KidsOf(b.tree, p);
    var h := Cons(child, Nil, k);
    KidsWithin(b.store, None, 0, b.tree, p);
    LinkedSame(b.store, b'.store, Some(p), b.store[p].depth + 1, k);
    WithKidsFrames(b.tree, p, h);
    WithKidsLinked(b.store, b'.store, None, 0, b.tree, p, h);
  }

  lemma {:induction false} CarveCharges(b: Books, p: Frame, child: Frame, id: nat, spec: Spec, r: Resource)
    requires Counted(b) && p in b.store && child !in b.store
    ensures At(Charges(Carve(b, p, child, id, spec), r), child) == 0
    ensures forall x :: x in b.store ==> At(Charges(Carve(b, p, child, id, spec), r), x) == At(Charges(b, r), x)
  {
    CountsAt(b.counted, child);
    assert CountedIn(b.counted, child) == {};
  }

  lemma {:induction false} CarvePaid(b: Books, p: Frame, child: Frame, id: nat, spec: Spec, r: Resource)
    requires Treed(b) && Counted(b) && Paid(b, r) && b.doom.NoDoom? && p in b.store && child !in b.store
    requires Room(b, p, spec)
    ensures Paid(Carve(b, p, child, id, spec), r)
  {
    CarveCharges(b, p, child, id, spec, r);
    var b' := Carve(b, p, child, id, spec);
    KidsWithin(b.store, None, 0, b.tree, p);
    CarveBalanced(b.store, b'.store, r, Charges(b, r), Charges(b', r), b.tree, p, child);
  }

  /** A child with nothing used, listed first, its cost added to its parent's use. */
  lemma {:induction false} CarveBalanced(
      store: Store, store': Store, r: Resource, d: Direct, d': Direct, g: Forest, p: Frame, child: Frame)
    requires Balanced(store, r, d, g) && Distinct(g) && p in Frames(g) && p in store && p in store'
    requires child !in Frames(g) && child in store' && Of(store'[child], r).used == 0 && At(d', child) == 0
    requires forall x :: x in Frames(g) && x != p ==> Same(store, store', r, d, d', x)
    requires At(d', p) == At(d, p) && Of(store'[p], r).limit == Of(store[p], r).limit >= Of(store'[p], r).used
    requires Of(store'[p], r).used == Of(store[p], r).used + Own(r) + Of(store'[child], r).limit
    ensures Balanced(store', r, d', WithKids(g, p, Cons(child, Nil, KidsOf(g, p))))
  {
    var k := KidsOf(g, p);
    WithKidsFrames(g, p, Nil);
    BalancedAt(store, r, d, g, p);
    BalancedSame(store, store', r, d, d', k);
    BalancedWithKids(store, store', r, d, d', g, p, Cons(child, Nil, k));
  }

  lemma {:induction false} CarveRest(b: Books, p: Frame, child: Frame, id: nat, spec: Spec)
    requires b.tree.Cons? && Rooted(b) && Counted(b) && Living(b) && RunsPaid(b)
    requires p in b.store && child !in b.store && Room(b, p, spec)
    ensures var b' := Carve(b, p, child, id, spec); Rooted(b') && Counted(b') && Living(b') && RunsPaid(b')
  {
    NoRuns(b.runs, child);
  }

  lemma {:induction false} CarveKeeps(b: Books, p: Frame, child: Frame, id: nat, spec: Spec)
    requires Sound(b) && b.doom.NoDoom? && p in b.store && child !in b.store && Room(b, p, spec)
    ensures Sound(Carve(b, p, child, id, spec))
  {
    hide Treed, Rooted, Paid, Counted, Living, RunsPaid;
    CarveLinks(b, p, child, id, spec);
    CarvePaid(b, p, child, id, spec, Pages);
    CarvePaid(b, p, child, id, spec, Processes);
    CarvePaid(b, p, child, id, spec, Weight);
    CarveRest(b, p, child, id, spec);
  }

  // --- Destruction ---------------------------------------------------------------------------------------------------

  /** Budget `top` taken out of its parent `p`'s list, and no other link changed. */
  ghost predicate Detached(store: Store, store': Store, tree: Forest, top: Frame, p: Frame)
    requires p in store && p in store'
  {
    var k := KidsOf(tree, p);
    && store'.Keys == store.Keys && TopLevel(k, top)
    && SameLinks(store'[p], store[p].(firstChild := Head(RemoveTop(k, top))))
    && Linked(store', Some(p), store[p].depth + 1, RemoveTop(k, top))
    && (forall f :: f in store && (Outside(tree, p, f) || f == top || f in Frames(KidsOf(k, top))) ==>
          SameLinks(store[f], store'[f]))
  }

  lemma {:induction false} DetachedTree(store: Store, store': Store, tree: Forest, top: Frame, p: Frame)
    requires Linked(store, None, 0, tree) && Distinct(tree) && p in Frames(tree) && p in store && p in store'
    requires Detached(store, store', tree, top, p)
    ensures var h := RemoveTop(KidsOf(tree, p), top);
            var doomed := KidsOf(KidsOf(tree, p), top);
            && Linked(store', None, 0, WithKids(tree, p, h)) && Distinct(WithKids(tree, p, h))
            && Frames(WithKids(tree, p, h)) == Frames(tree) - {top} - Frames(doomed)
            && top in Frames(tree) && Frames(doomed) <= Frames(tree) && top !in Frames(doomed) && Distinct(doomed)
            && p != top && p !in Frames(doomed)
  {
    var k := KidsOf(tree, p);
    var h := RemoveTop(k, top);
    KidsWithin(store, None, 0, tree, p);
    TopLevelWithin(k, top);
    RemoveTopFrames(k, top);
    WithKidsFrames(tree, p, h);
    WithKidsLinked(store, store', None, 0, tree, p, h);
  }

  lemma {:induction false} DetachedDoom(store: Store, store': Store, tree: Forest, top: Frame, p: Frame)
    requires Linked(store, None, 0, tree) && Distinct(tree) && p in Frames(tree) && p in store && p in store'
    requires Detached(store, store', tree, top, p)
    ensures top in store' && store'[top].parent == Some(p) && store'[p].depth < store'[top].depth
    ensures var doomed := KidsOf(KidsOf(tree, p), top);
            store'[top].firstChild == Head(doomed) && Linked(store', Some(top), store'[top].depth + 1, doomed)
  {
    var k := KidsOf(tree, p);
    KidsWithin(store, None, 0, tree, p);
    TopLevelWithin(k, top);
    TopLevelParent(store, Some(p), store[p].depth + 1, k, top);
    KidsWithin(store, Some(p), store[p].depth + 1, k, top);
    LinkedSame(store, store', Some(top), store[top].depth + 1, KidsOf(k, top));
  }

  lemma {:induction false} TopLevelParent(store: Store, parent: Option<Frame>, depth: nat, g: Forest, c: Frame)
    requires Linked(store, parent, depth, g) && TopLevel(g, c)
    ensures c in store && store[c].parent == parent && store[c].depth == depth
    decreases g
  {
    if g.frame != c { TopLevelParent(store, parent, depth, g.siblings, c); }
  }

  /** The tree without `top`'s subtree, its carve of pages and processes still to come back. */
  ghost function Mark(b: Books, store': Store, top: Frame, p: Frame): Books {
    b.(store := store',
       tree := WithKids(b.tree, p, RemoveTop(KidsOf(b.tree, p), top)),
       doom := Doom(top, KidsOf(KidsOf(b.tree, p), top)))
  }

  lemma {:induction false} MarkLinks(b: Books, store': Store, top: Frame, p: Frame)
    requires Treed(b) && b.doom.NoDoom? && p in b.store && p in store' && Detached(b.store, store', b.tree, top, p)
    ensures Treed(Mark(b, store', top, p)) && DoomLinked(Mark(b, store', top, p))
  {
    DetachedTree(b.store, store', b.tree, top, p);
    DetachedDoom(b.store, store', b.tree, top, p);
  }

  /** A marking changes no meter but the parent's weight, which gets `top`'s back. */
  ghost predicate WeightBack(store: Store, store': Store, top: Frame, p: Frame)
    requires top in store && p in store && store'.Keys == store.Keys
  {
    && (forall f :: f in store ==> store'[f].pages == store[f].pages && store'[f].processes == store[f].processes)
    && (forall f :: f in store && f != p ==> store'[f].weight == store[f].weight)
    && store'[p].weight.limit == store[p].weight.limit
    && store'[p].weight.used + store[top].weight.limit == store[p].weight.used
  }

  lemma {:induction false} KidsDistinct(g: Forest, p: Frame)
    requires Distinct(g) && p in Frames(g)
    ensures Distinct(KidsOf(g, p)) && Frames(KidsOf(g, p)) <= Frames(g) && p !in Frames(KidsOf(g, p))
  {
    if g.frame == p {
    } else if p in Frames(g.kids) {
      KidsDistinct(g.kids, p);
    } else {
      KidsDistinct(g.siblings, p);
    }
  }

  /** Budget `top` goes from `p`'s children with its carve, or its carve stays owed. */
  lemma {:induction false} RemoveBalanced(
      store: Store, store': Store, r: Resource, d: Direct, d': Direct, g: Forest, p: Frame, top: Frame)
    requires Balanced(store, r, d, g) && Distinct(g) && p in Frames(g) && p in store && p in store' && top in store
    requires TopLevel(KidsOf(g, p), top)
    requires forall x :: x in Frames(g) && x != p ==> Same(store, store', r, d, d', x)
    requires Of(store'[p], r).limit == Of(store[p], r).limit
    requires Of(store'[p], r).used <= Of(store[p], r).used
    requires Of(store'[p], r).used - At(d', p) == Of(store[p], r).used - At(d, p) - Own(r) - Of(store[top], r).limit
    ensures Balanced(store', r, d', WithKids(g, p, RemoveTop(KidsOf(g, p), top)))
    ensures Balanced(store', r, d', Cons(top, KidsOf(KidsOf(g, p), top), Nil))
  {
    var k := KidsOf(g, p);
    KidsDistinct(g, p);
    BalancedAt(store, r, d, g, p);
    BalancedSame(store, store', r, d, d', k);
    RemoveFromKids(store', r, d', k, top);
    TopLevelWithin(k, top);
    assert Same(store, store', r, d, d', top);
    BalancedWithKids(store, store', r, d, d', g, p, RemoveTop(k, top));
  }

  lemma {:induction false} RemoveFromKids(store: Store, r: Resource, d: Direct, k: Forest, top: Frame)
    requires Balanced(store, r, d, k) && Distinct(k) && TopLevel(k, top)
    ensures top in store && Balanced(store, r, d, RemoveTop(k, top))
    ensures Carved(store, r, k) == Carved(store, r, RemoveTop(k, top)) + Own(r) + Of(store[top], r).limit
    ensures Balanced(store, r, d, Cons(top, KidsOf(k, top), Nil))
  {
    BalancedRemove(store, r, d, k, top);
    TopLevelWithin(k, top);
    BalancedAt(store, r, d, k, top);
  }

  lemma {:induction false} MarkOwing(b: Books, store': Store, top: Frame, p: Frame, r: Resource)
    requires b.doom.NoDoom? && top in store' && store'[top].parent == Some(p)
    ensures var d, d' := Owing(b, r), Owing(Mark(b, store', top, p), r);
            && (forall x :: x != p ==> At(d', x) == At(d, x))
            && At(d', p) == At(d, p) + if r == Weight then 0 else Own(r) + Of(store'[top], r).limit
  {
  }

  lemma {:induction false} MarkPaid(b: Books, store': Store, top: Frame, p: Frame, r: Resource)
    requires Treed(b) && b.doom.NoDoom? && Paid(b, r) && p in b.store && p in store'
    requires Detached(b.store, store', b.tree, top, p) && top in b.store && WeightBack(b.store, store', top, p)
    requires top in store' && store'[top].parent == Some(p) && top != p
    ensures Paid(Mark(b, store', top, p), r)
  {
    MarkOwing(b, store', top, p, r);
    RemoveBalanced(b.store, store', r, Owing(b, r), Owing(Mark(b, store', top, p), r), b.tree, p, top);
  }

  lemma {:induction false} MarkRest(b: Books, store': Store, top: Frame, p: Frame)
    requires Rooted(b) && Counted(b) && Living(b) && RunsPaid(b) && p in b.store && store'.Keys == b.store.Keys
    requires top in b.store && WeightBack(b.store, store', top, p)
    ensures var b' := Mark(b, store', top, p); Rooted(b') && Counted(b') && Living(b') && RunsPaid(b')
  {
    HeadKept(b.tree, p, RemoveTop(KidsOf(b.tree, p), top));
  }

  lemma {:induction false} MarkKeeps(b: Books, store': Store, top: Frame, p: Frame)
    requires Sound(b) && b.doom.NoDoom? && p in b.store && p in store'
    requires Detached(b.store, store', b.tree, top, p) && top in b.store && WeightBack(b.store, store', top, p)
    ensures Sound(Mark(b, store', top, p))
  {
    DetachedTree(b.store, store', b.tree, top, p);
    DetachedDoom(b.store, store', b.tree, top, p);
    MarkLinks(b, store', top, p);
    MarkPaid(b, store', top, p, Pages);
    MarkPaid(b, store', top, p, Processes);
    MarkPaid(b, store', top, p, Weight);
    MarkRest(b, store', top, p);
  }

  // --- Its end -------------------------------------------------------------------------------------------------------

  /** The pages of the quarantined runs charged within `frames`. */
  function RunPagesIn(runs: seq<Run>, frames: set<Frame>): nat {
    if runs == [] then 0
    else
      var run := runs[|runs| - 1];
      (if run.charged.Some? && run.charged.value in frames then run.npages else 0)
      + RunPagesIn(runs[..|runs| - 1], frames)
  }

  function MoveRun(run: Run, frames: set<Frame>, p: Frame): Run {
    if run.charged.Some? && run.charged.value in frames then run.(charged := Some(p)) else run
  }

  function MoveRuns(runs: seq<Run>, frames: set<Frame>, p: Frame): seq<Run> {
    seq(|runs|, i requires 0 <= i < |runs| => MoveRun(runs[i], frames, p))
  }

  function MovePids(counted: map<Pid, Frame>, frames: set<Frame>, p: Frame): map<Pid, Frame> {
    map pid | pid in counted :: if counted[pid] in frames then p else counted[pid]
  }

  lemma {:induction false} RunPagesSplit(runs: seq<Run>, f: Frame, k: set<Frame>, s: set<Frame>)
    requires f !in k && f !in s && k !! s
    ensures RunPagesIn(runs, {f} + k + s) == RunPages(runs, f) + RunPagesIn(runs, k) + RunPagesIn(runs, s)
  {
    if runs != [] { RunPagesSplit(runs[..|runs| - 1], f, k, s); }
  }

  lemma {:induction false} RunPagesNone(runs: seq<Run>)
    ensures RunPagesIn(runs, {}) == 0
  {
    if runs != [] { RunPagesNone(runs[..|runs| - 1]); }
  }

  /** The quarantined pages charged in a forest are among its charges. */
  lemma {:induction false} RunsWithinCharges(runs: seq<Run>, direct: Direct, g: Forest)
    requires Distinct(g) && forall f :: f in Frames(g) ==> RunPages(runs, f) <= At(direct, f)
    ensures RunPagesIn(runs, Frames(g)) <= SumPages(direct, g)
  {
    if g.Nil? {
      RunPagesNone(runs);
    } else {
      RunsWithinCharges(runs, direct, g.kids);
      RunsWithinCharges(runs, direct, g.siblings);
      RunPagesSplit(runs, g.frame, Frames(g.kids), Frames(g.siblings));
    }
  }

  lemma {:induction false} MovedRunPages(runs: seq<Run>, frames: set<Frame>, p: Frame, f: Frame)
    requires f !in frames && p !in frames
    ensures RunPages(MoveRuns(runs, frames, p), f) == RunPages(runs, f) + if f == p then RunPagesIn(runs, frames) else 0
  {
    if runs != [] {
      var init := runs[..|runs| - 1];
      MovedRunPages(init, frames, p, f);
      assert MoveRuns(runs, frames, p)[..|runs| - 1] == MoveRuns(init, frames, p);
    }
  }

  lemma {:induction false} MovedCounts(counted: map<Pid, Frame>, frames: set<Frame>, p: Frame, f: Frame)
    requires f !in frames && p !in frames
    ensures At(Counts(MovePids(counted, frames, p)), f)
         == At(Counts(counted), f) + if f == p then |CountedWithin(counted, frames)| else 0
  {
    var moved := MovePids(counted, frames, p);
    CountsAt(counted, f);
    CountsAt(moved, f);
    if f == p {
      assert CountedIn(moved, p) == CountedIn(counted, p) + CountedWithin(counted, frames);
      assert CountedIn(counted, p) !! CountedWithin(counted, frames);
    } else {
      assert CountedIn(moved, f) == CountedIn(counted, f);
    }
  }

  /** The quarantined pages and held PIDs of a marked subtree are no more than its carve: once that is
      back with the parent, they fit there.
    */
  lemma {:induction false} MovesFit(b: Books)
    requires Sound(b) && b.doom.Doom?
    ensures RunPagesIn(b.runs, DoomFrames(b.doom)) <= b.store[b.doom.top].pages.limit
    ensures |CountedWithin(b.counted, DoomFrames(b.doom))| <= b.store[b.doom.top].processes.limit
  {
    var g := Cons(b.doom.top, b.doom.kids, Nil);
    assert Frames(g) == DoomFrames(b.doom);
    forall f | f in Frames(g) ensures At(Owing(b, Pages), f) == At(b.pages, f) {}
    forall f | f in Frames(g) ensures At(Owing(b, Processes), f) == At(Counts(b.counted), f) {}
    Conserved(b.store, Pages, Owing(b, Pages), g);
    Conserved(b.store, Processes, Owing(b, Processes), g);
    TotalSplits(Owing(b, Pages), g);
    TotalSplits(Owing(b, Processes), g);
    SumSame(Owing(b, Pages), b.pages, g);
    SumSame(Owing(b, Processes), Counts(b.counted), g);
    RunsWithinCharges(b.runs, b.pages, g);
    CountsSum(b.counted, g);
  }

  lemma {:induction false} SumSame(d: Direct, d': Direct, g: Forest)
    requires forall f :: f in Frames(g) ==> At(d', f) == At(d, f)
    ensures SumPages(d', g) == SumPages(d, g)
  {
    if g.Cons? {
      SumSame(d, d', g.kids);
      SumSame(d, d', g.siblings);
    }
  }

  /** The parent once the subtree is gone: its carve back, the pages and PIDs that outlive it taken. */
  function Repaid(pb: Budget, top: Budget, pages: nat, pids: nat): Budget
    requires pb.pages.used >= 1 + top.pages.limit && pb.processes.used >= top.processes.limit
  {
    pb.(pages := pb.pages.(used := pb.pages.used - (1 + top.pages.limit) + pages),
        processes := pb.processes.(used := pb.processes.used - top.processes.limit + pids))
  }

  /** The carve of a marked subtree is still in its parent's use: giving it back never underflows. */
  lemma {:induction false} CarveCovered(b: Books)
    requires Sound(b) && b.doom.Doom?
    ensures b.store[b.doom.top].parent.Some? && b.store[b.doom.top].parent.value in b.store
    ensures var pb, top := b.store[b.store[b.doom.top].parent.value], b.store[b.doom.top];
            pb.pages.used >= 1 + top.pages.limit && pb.processes.used >= top.processes.limit
  {
    var p := b.store[b.doom.top].parent.value;
    BalancedAt(b.store, Pages, Owing(b, Pages), b.tree, p);
    BalancedAt(b.store, Processes, Owing(b, Processes), b.tree, p);
  }

  function Gone(b: Books, frames: set<Frame>, p: Frame, top: Frame, pages: nat, pids: nat): Books
    requires p in b.store && top in b.store
    requires b.store[p].pages.used >= 1 + b.store[top].pages.limit
    requires b.store[p].processes.used >= b.store[top].processes.limit
  {
    b.(store := (b.store - frames)[p := Repaid(b.store[p], b.store[top], pages, pids)],
       doom := NoDoom,
       pages := Plus(b.pages - frames, p, pages),
       counted := MovePids(b.counted, frames, p),
       runs := MoveRuns(b.runs, frames, p))
  }

  /** The ledger once a marked subtree is gone. */
  ghost function Destroyed(b: Books): Books
    requires Sound(b) && b.doom.Doom?
  {
    CarveCovered(b);
    var frames := DoomFrames(b.doom);
    Gone(b, frames, b.store[b.doom.top].parent.value, b.doom.top,
         RunPagesIn(b.runs, frames), |CountedWithin(b.counted, frames)|)
  }

  lemma {:induction false} GoneCharges(
      b: Books, frames: set<Frame>, p: Frame, top: Frame, pages: nat, pids: nat, r: Resource, x: Frame)
    requires p in b.store && top in b.store && p !in frames && x !in frames
    requires b.store[p].pages.used >= 1 + b.store[top].pages.limit
    requires b.store[p].processes.used >= b.store[top].processes.limit
    requires pids == |CountedWithin(b.counted, frames)|
    ensures At(Charges(Gone(b, frames, p, top, pages, pids), r), x)
         == At(Charges(b, r), x) + if x != p || r == Weight then 0 else if r == Pages then pages else pids
  {
    if r == Processes { MovedCounts(b.counted, frames, p, x); }
  }

  lemma {:induction false} GonePaid(b: Books, p: Frame, pages: nat, pids: nat, r: Resource)
    requires Treed(b) && DoomLinked(b) && Paid(b, r) && b.doom.Doom? && b.store[b.doom.top].parent == Some(p)
    requires p in b.store
    requires b.store[p].pages.used >= 1 + b.store[b.doom.top].pages.limit
    requires b.store[p].processes.used >= b.store[b.doom.top].processes.limit
    requires pids == |CountedWithin(b.counted, DoomFrames(b.doom))|
    requires pages <= b.store[b.doom.top].pages.limit && pids <= b.store[b.doom.top].processes.limit
    ensures Paid(Gone(b, DoomFrames(b.doom), p, b.doom.top, pages, pids), r)
  {
    var frames, top := DoomFrames(b.doom), b.doom.top;
    var b' := Gone(b, frames, p, top, pages, pids);
    forall x | x in Frames(b.tree)
      ensures x in b'.store && (x != p ==> b'.store[x] == b.store[x] && At(Charges(b', r), x) == At(Charges(b, r), x))
    {
      GoneCharges(b, frames, p, top, pages, pids, r, x);
    }
    GoneCharges(b, frames, p, top, pages, pids, r, p);
    BalancedAt(b.store, r, Owing(b, r), b.tree, p);
    DestroyedBalanced(b, b', p, r);
  }

  lemma {:induction false} GoneRest(b: Books, p: Frame, top: Frame, pages: nat, pids: nat)
    requires Treed(b) && Rooted(b) && Counted(b) && Living(b) && RunsPaid(b) && p in Frames(b.tree) && p in b.store
    requires top in b.store
    requires b.store[p].pages.used >= 1 + b.store[top].pages.limit
    requires b.store[p].processes.used >= b.store[top].processes.limit
    requires pages == RunPagesIn(b.runs, DoomFrames(b.doom))
    requires forall pid :: pid in b.lives ==> b.lives[pid] !in DoomFrames(b.doom)
    ensures var b' := Gone(b, DoomFrames(b.doom), p, top, pages, pids);
            Rooted(b') && Counted(b') && Living(b') && RunsPaid(b')
  {
    hide RunPagesIn, CountedWithin, Linked, Distinct;
    var frames := DoomFrames(b.doom);
    var b' := Gone(b, frames, p, top, pages, pids);
    forall f | f in b'.store ensures RunPages(b'.runs, f) <= At(b'.pages, f) {
      MovedRunPages(b.runs, frames, p, f);
    }
  }

  lemma {:induction false} GoneTree(b: Books, p: Frame, pages: nat, pids: nat)
    requires Treed(b) && b.doom.Doom? && p in Frames(b.tree) && p in b.store && b.doom.top in b.store
    requires b.store[p].pages.used >= 1 + b.store[b.doom.top].pages.limit
    requires b.store[p].processes.used >= b.store[b.doom.top].processes.limit
    ensures Treed(Gone(b, DoomFrames(b.doom), p, b.doom.top, pages, pids))
    ensures DoomLinked(Gone(b, DoomFrames(b.doom), p, b.doom.top, pages, pids))
  {
    LinkedSame(b.store, Gone(b, DoomFrames(b.doom), p, b.doom.top, pages, pids).store, None, 0, b.tree);
  }

  /** A destruction's end keeps the whole ledger: the parent has exactly the carve back, less the pages
      and PIDs that outlive the subtree, and every other budget is as it was.
    */
  lemma {:induction false} DestroyKeeps(b: Books)
    requires Sound(b) && b.doom.Doom?
    requires forall pid :: pid in b.lives ==> b.lives[pid] !in DoomFrames(b.doom)
    ensures Sound(Destroyed(b))
  {
    hide Treed, Rooted, Paid, Counted, Living, RunsPaid, Linked, Distinct, Gone;
    var p := b.store[b.doom.top].parent.value;
    var pages, pids := RunPagesIn(b.runs, DoomFrames(b.doom)), |CountedWithin(b.counted, DoomFrames(b.doom))|;
    CarveCovered(b);
    MovesFit(b);
    GoneTree(b, p, pages, pids);
    GonePaid(b, p, pages, pids, Pages);
    GonePaid(b, p, pages, pids, Processes);
    GonePaid(b, p, pages, pids, Weight);
    GoneRest(b, p, b.doom.top, pages, pids);
  }

  lemma {:induction false} DestroyedBalanced(b: Books, b': Books, p: Frame, r: Resource)
    requires Treed(b) && DoomLinked(b) && Paid(b, r) && b.doom.Doom? && b'.doom.NoDoom? && b'.tree == b.tree
    requires b.store[b.doom.top].parent == Some(p) && p in b.store && p in b'.store
    requires forall x :: x in Frames(b.tree) && x != p ==>
               x in b'.store && b'.store[x] == b.store[x] && At(Charges(b', r), x) == At(Charges(b, r), x)
    requires Of(b'.store[p], r).limit == Of(b.store[p], r).limit >= Of(b'.store[p], r).used
    requires Of(b'.store[p], r).used - At(Charges(b', r), p)
          == Of(b.store[p], r).used - At(Charges(b, r), p)
             - if r == Weight then 0 else Own(r) + Of(b.store[b.doom.top], r).limit
    ensures Paid(b', r)
  {
    forall x | x in Frames(b.tree) && x != p
      ensures Same(b.store, b'.store, r, Owing(b, r), Owing(b', r), x)
    {
    }
    BalancedCharge(b.store, b'.store, r, Owing(b, r), Owing(b', r), b.tree, p);
  }

  // --- What a marking's steps come to ------------------------------------------------------------------------------

  /** A budget with a parent is listed there, and its weight is in its parent's use. */
  lemma {:induction false} TopInTree(b: Books, top: Frame)
    requires Sound(b) && b.doom.NoDoom? && top in b.store && b.store[top].parent.Some?
    ensures var p := b.store[top].parent.value;
            var k := KidsOf(b.tree, p);
            && p in b.store && p in Frames(b.tree) && Distinct(b.tree) && p != top && p !in Frames(k)
            && TopLevel(k, top) && Distinct(k) && Linked(b.store, Some(p), b.store[p].depth + 1, k)
            && b.store[p].firstChild == Head(k) && KidsOf(k, top) == KidsOf(b.tree, top)
            && b.store[top].weight.limit <= b.store[p].weight.used
  {
    ListedUnderParent(b.store, None, 0, b.tree, top);
    var p := b.store[top].parent.value;
    KidsWithin(b.store, None, 0, b.tree, p);
    TopLevelWithin(KidsOf(b.tree, p), top);
    KidsOfKids(b.tree, p, top);
    BalancedAt(b.store, Weight, map[], b.tree, p);
    BalancedRemove(b.store, Weight, map[], KidsOf(b.tree, p), top);
  }

  lemma {:induction false} ListedUnderParent(store: Store, parent: Option<Frame>, depth: nat, g: Forest, f: Frame)
    requires Linked(store, parent, depth, g) && Distinct(g) && f in Frames(g)
    requires parent.Some? ==> parent.value !in Frames(g)
    ensures f in store && (store[f].parent == parent ==> TopLevel(g, f))
    ensures store[f].parent != parent ==>
              store[f].parent.Some? && store[f].parent.value in Frames(g)
              && TopLevel(KidsOf(g, store[f].parent.value), f)
    decreases g
  {
    if f == g.frame {
    } else if f in Frames(g.kids) {
      ListedUnderParent(store, Some(g.frame), depth + 1, g.kids, f);
    } else {
      ListedUnderParent(store, parent, depth, g.siblings, f);
    }
  }

  lemma {:induction false} KidsOfKids(g: Forest, p: Frame, c: Frame)
    requires Distinct(g) && p in Frames(g) && c in Frames(KidsOf(g, p))
    ensures KidsOf(g, c) == KidsOf(KidsOf(g, p), c) && c in Frames(g)
  {
    if g.frame == p {
    } else if p in Frames(g.kids) {
      KidsOfKids(g.kids, p, c);
    } else {
      KidsOfKids(g.siblings, p, c);
    }
  }

  function Lighter(store: Store, p: Frame, weight: nat): Store
    requires p in store && weight <= store[p].weight.used
  {
    store[p := store[p].(weight := store[p].weight.(used := store[p].weight.used - weight))]
  }

  /** The store once `top` is unlinked, its weight back, before anything is marked. */
  function Loosened(store: Store, p: Frame, k: Forest, top: Frame): Store
    requires p in store && top in store && TopLevel(k, top) && store[top].weight.limit <= store[p].weight.used
  {
    Unlinked(Lighter(store, p, store[top].weight.limit), p, k, top)
  }

  lemma {:induction false} LoosenedLinks(store: Store, p: Frame, k: Forest, top: Frame)
    requires p in store && top in store && TopLevel(k, top) && store[top].weight.limit <= store[p].weight.used
    requires Distinct(k) && p !in Frames(k) && Linked(store, Some(p), store[p].depth + 1, k)
    requires store[p].firstChild == Head(k)
    ensures var store' := Loosened(store, p, k, top);
            && store'.Keys == store.Keys && WeightBack(store, store', top, p)
            && Linked(store', Some(p), store[p].depth + 1, RemoveTop(k, top))
            && SameLinks(store'[p], store[p].(firstChild := Head(RemoveTop(k, top))))
            && (forall f :: f in store && f != p && (f !in Frames(k) || f == top || f in Frames(KidsOf(k, top))) ==>
                  SameLinks(store'[f], store[f]))
            && (forall f :: f in store ==> store'[f].dying == store[f].dying)
  {
    var lighter := Lighter(store, p, store[top].weight.limit);
    LinkedSame(store, lighter, Some(p), store[p].depth + 1, k);
    UnlinkedLinks(lighter, p, k, top);
    TopLevelWithin(k, top);
  }

  lemma {:induction false} LoosenedWalkable(store: Store, p: Frame, k: Forest, top: Frame)
    requires p in store && top in store && TopLevel(k, top) && store[top].weight.limit <= store[p].weight.used
    requires Distinct(k) && p !in Frames(k) && Linked(store, Some(p), store[p].depth + 1, k)
    requires store[p].firstChild == Head(k)
    ensures Walkable(Loosened(store, p, k, top), top, KidsOf(k, top))
  {
    LoosenedLinks(store, p, k, top);
    TopLevelWithin(k, top);
    RemoveTopFrames(k, top);
    KidsWithin(store, Some(p), store[p].depth + 1, k, top);
    assert forall f :: f in Frames(KidsOf(k, top)) ==> f != p;
    LinkedSame(store, Loosened(store, p, k, top), Some(top), store[top].depth + 1, KidsOf(k, top));
  }

  lemma {:induction false} LoosenedDetached(store: Store, tree: Forest, p: Frame, top: Frame, frames: set<Frame>)
    requires p in store && top in store && p in Frames(tree) && Distinct(tree)
    requires var k := KidsOf(tree, p);
             && TopLevel(k, top) && store[top].weight.limit <= store[p].weight.used
             && Distinct(k) && p !in Frames(k) && Linked(store, Some(p), store[p].depth + 1, k)
             && store[p].firstChild == Head(k)
    ensures var store' := WithDying(Loosened(store, p, KidsOf(tree, p), top), frames);
            && store'.Keys == store.Keys
            && Detached(store, store', tree, top, p) && WeightBack(store, store', top, p)
  {
    var k := KidsOf(tree, p);
    var loose := Loosened(store, p, k, top);
    LoosenedLinks(store, p, k, top);
    TopLevelWithin(k, top);
    RemoveTopFrames(k, top);
    LinkedSame(loose, WithDying(loose, frames), Some(p), store[p].depth + 1, RemoveTop(k, top));
    LinkedFrames(loose, Some(p), store[p].depth + 1, RemoveTop(k, top));
  }

  /** What `mark_dying` makes of the store. */
  function MarkStore(store: Store, p: Frame, k: Forest, top: Frame): Store
    requires p in store && top in store && TopLevel(k, top) && store[top].weight.limit <= store[p].weight.used
  {
    WithDying(Loosened(store, p, k, top), {top} + Frames(KidsOf(k, top)))
  }

  /** `b'` is `b` with the subtree `top` heads marked dying. */
  ghost predicate MarkedAt(b: Books, b': Books, top: Frame) {
    && top in b.store && b.store[top].parent.Some? && b.store[top].parent.value in b.store
    && var p := b.store[top].parent.value;
       && SameRise(b.store, b'.store) && WeightBack(b.store, b'.store, top, p) && SameLinks(b.store[top], b'.store[top])
       && b' == Mark(b, b'.store, top, p) && b'.doom == Doom(top, KidsOf(b.tree, top))
  }

  lemma {:induction false} MarkRises(store: Store, p: Frame, k: Forest, top: Frame)
    requires p in store && top in store && TopLevel(k, top) && store[top].weight.limit <= store[p].weight.used
    ensures SameRise(store, MarkStore(store, p, k, top))
  {
    hide Frames, KidsOf, TopLevel;
  }

  lemma {:induction false} MarkStep(b: Books, top: Frame)
    requires Sound(b) && b.doom.NoDoom? && top in b.store && b.store[top].parent.Some?
    requires var p := b.store[top].parent.value;
             p in b.store && TopLevel(KidsOf(b.tree, p), top) && b.store[top].weight.limit <= b.store[p].weight.used
    ensures var p := b.store[top].parent.value;
            var b' := Mark(b, MarkStore(b.store, p, KidsOf(b.tree, p), top), top, p);
            Sound(b') && MarkedAt(b, b', top)
  {
    hide Sound;
    var p := b.store[top].parent.value;
    TopInTree(b, top);
    LoosenedDetached(b.store, b.tree, p, top, {top} + Frames(KidsOf(KidsOf(b.tree, p), top)));
    MarkRises(b.store, p, KidsOf(b.tree, p), top);
    MarkKeeps(b, MarkStore(b.store, p, KidsOf(b.tree, p), top), top, p);
  }

  /** Exactly the budgets of `frames` are dying. */
  ghost predicate DyingIs(store: Store, frames: set<Frame>) {
    forall f :: f in store ==> (store[f].dying <==> f in frames)
  }

  lemma {:induction false} MarkStoreDying(store: Store, p: Frame, k: Forest, top: Frame)
    requires p in store && top in store && TopLevel(k, top) && store[top].weight.limit <= store[p].weight.used
    requires DyingIs(store, {})
    ensures MarkStore(store, p, k, top).Keys == store.Keys
    ensures DyingIs(MarkStore(store, p, k, top), {top} + Frames(KidsOf(k, top)))
  {
    UnlinkedDying(Lighter(store, p, store[top].weight.limit), p, k, top);
  }

  /** The PIDs `moved` counted in `p`. */
  function Moving(counted: map<Pid, Frame>, moved: set<Pid>, p: Frame): map<Pid, Frame> {
    map pid | pid in counted :: if pid in moved then p else counted[pid]
  }

  lemma {:induction false} MoveOne(
      store: Store, counted: map<Pid, Frame>, moved: set<Pid>, pid: Pid, f: Frame, p: Frame, used: nat)
    requires f != p && moved <= CountedIn(counted, f) && p in store
    requires pid in Moving(counted, moved, p) && Moving(counted, moved, p)[pid] == f
    ensures pid !in moved && moved + {pid} <= CountedIn(counted, f) && |moved + {pid}| <= |CountedIn(counted, f)|
    ensures Moving(counted, moved, p)[pid := p] == Moving(counted, moved + {pid}, p)
    ensures WithProcesses(WithProcesses(store, p, used + |moved|), p, used + |moved| + 1)
         == WithProcesses(store, p, used + |moved + {pid}|)
  {
    SubsetSize(moved + {pid}, CountedIn(counted, f));
  }

  lemma {:induction false} MovedNone(store: Store, counted: map<Pid, Frame>, f: Frame, p: Frame)
    requires p in store
    ensures {} <= CountedIn(counted, f) && Moving(counted, {}, p) == counted
    ensures WithProcesses(store, p, store[p].processes.used) == store
    ensures forall used :: p in WithProcesses(store, p, used) && WithProcesses(store, p, used)[p].processes.used == used
  {
  }

  lemma {:induction false} MovedEvery(counted: map<Pid, Frame>, moved: set<Pid>, f: Frame, p: Frame)
    requires f != p && moved <= CountedIn(counted, f)
    requires forall pid :: pid in Moving(counted, moved, p) ==> Moving(counted, moved, p)[pid] != f
    ensures moved == CountedIn(counted, f) && Moving(counted, moved, p) == MovePids(counted, {f}, p)
  {
    forall pid | pid in CountedIn(counted, f) ensures pid in moved { assert pid in Moving(counted, moved, p); }
  }

  // --- The steps of its end ------------------------------------------------------------------------------------------

  function WithPages(store: Store, f: Frame, used: nat): Store
    requires f in store
  {
    store[f := store[f].(pages := store[f].pages.(used := used))]
  }

  lemma {:induction false} RunPagesPrefix(runs: seq<Run>, i: nat, frames: set<Frame>)
    requires i <= |runs|
    ensures RunPagesIn(runs[..i], frames) <= RunPagesIn(runs, frames)
    decreases |runs|
  {
    if i < |runs| {
      RunPagesPrefix(runs[..|runs| - 1], i, frames);
      assert runs[..|runs| - 1][..i] == runs[..i];
    } else {
      assert runs[..i] == runs;
    }
  }

  lemma {:induction false} MoveMore(counted: map<Pid, Frame>, frames: set<Frame>, f: Frame, p: Frame)
    requires f !in frames && p != f && p !in frames
    ensures MovePids(MovePids(counted, frames, p), {f}, p) == MovePids(counted, frames + {f}, p)
    ensures CountedIn(MovePids(counted, frames, p), f) == CountedIn(counted, f)
    ensures |CountedWithin(counted, frames + {f})| == |CountedWithin(counted, frames)| + |CountedIn(counted, f)|
  {
    assert CountedWithin(counted, frames + {f}) == CountedWithin(counted, frames) + CountedIn(counted, f);
    assert CountedWithin(counted, frames) !! CountedIn(counted, f);
  }

  lemma {:induction false} WalkPrefix(walk: seq<Frame>, i: nat)
    requires Unique(walk) && i < |walk|
    ensures Elements(walk[..i + 1]) == Elements(walk[..i]) + {walk[i]} && walk[i] !in Elements(walk[..i])
    ensures Elements(walk[..i + 1]) <= Elements(walk)
  {
    ElementsNext(walk, i);
    forall f | f in Elements(walk[..i + 1]) ensures f in Elements(walk) {
      var k :| 0 <= k < i + 1 && walk[..i + 1][k] == f;
      assert walk[k] == f;
    }
  }

  /** The runs once the first `i` of them are moved. */
  ghost function MovedTo(runs: seq<Run>, i: nat, frames: set<Frame>, p: Frame): seq<Run>
    requires i <= |runs|
  {
    MoveRuns(runs[..i], frames, p) + runs[i..]
  }

  lemma {:induction false} MoveStep(runs: seq<Run>, i: nat, frames: set<Frame>, p: Frame)
    requires i < |runs|
    ensures |MovedTo(runs, i, frames, p)| == |runs| && MovedTo(runs, i, frames, p)[i] == runs[i]
    ensures MovedTo(runs, i, frames, p)[i := MoveRun(runs[i], frames, p)] == MovedTo(runs, i + 1, frames, p)
    ensures MoveRun(runs[i], frames, p) == runs[i] ==> MovedTo(runs, i, frames, p) == MovedTo(runs, i + 1, frames, p)
    ensures RunPagesIn(runs[..i + 1], frames) == RunPagesIn(runs[..i], frames)
         + if runs[i].charged.Some? && runs[i].charged.value in frames then runs[i].npages else 0
    ensures RunPagesIn(runs[..i + 1], frames) <= RunPagesIn(runs, frames)
  {
    RunPagesPrefix(runs, i + 1, frames);
    assert runs[..i + 1][..i] == runs[..i];
    assert MovedTo(runs, i, frames, p)[i := MoveRun(runs[i], frames, p)] == MovedTo(runs, i + 1, frames, p);
    assert MovedTo(runs, i, frames, p)[i] == runs[i];
  }

  /** The store once the PIDs counted within `frames` count in `p`. */
  ghost function HeldBy(store: Store, p: Frame, counted: map<Pid, Frame>, frames: set<Frame>): Store
    requires p in store
  {
    WithProcesses(store, p, store[p].processes.used + |CountedWithin(counted, frames)|)
  }

  /** The PIDs of the first `i` budgets of the walk count in `p`. */
  ghost predicate Migrated(
      was: Store, store: Store, before: map<Pid, Frame>, counted: map<Pid, Frame>, p: Frame, walk: seq<Frame>, i: nat) {
    && p in was && i <= |walk|
    && counted == MovePids(before, Elements(walk[..i]), p)
    && store == HeldBy(was, p, before, Elements(walk[..i]))
  }

  lemma {:induction false} HeldStart(store: Store, p: Frame, counted: map<Pid, Frame>, walk: seq<Frame>)
    requires p in store
    ensures MovePids(counted, Elements(walk[..0]), p) == counted
    ensures HeldBy(store, p, counted, Elements(walk[..0])) == store
  {
    assert CountedWithin(counted, Elements(walk[..0])) == {};
  }

  lemma {:induction false} HeldStep(store: Store, p: Frame, counted: map<Pid, Frame>, walk: seq<Frame>, i: nat)
    requires p in store && Unique(walk) && i < |walk| && p !in Elements(walk)
    requires store[p].processes.used + |CountedWithin(counted, Elements(walk))| <= store[p].processes.limit
    ensures var done, next := Elements(walk[..i]), Elements(walk[..i + 1]);
            var now := HeldBy(store, p, counted, done);
            && walk[i] != p && p in now && now[p].processes.limit == store[p].processes.limit
            && CountedIn(MovePids(counted, done, p), walk[i]) == CountedIn(counted, walk[i])
            && now[p].processes.used + |CountedIn(counted, walk[i])| <= store[p].processes.limit
            && MovePids(MovePids(counted, done, p), {walk[i]}, p) == MovePids(counted, next, p)
            && WithProcesses(now, p, now[p].processes.used + |CountedIn(counted, walk[i])|)
              == HeldBy(store, p, counted, next)
  {
    WalkPrefix(walk, i);
    assert walk[i] in Elements(walk);
    MoveMore(counted, Elements(walk[..i]), walk[i], p);
    SubsetSize(CountedWithin(counted, Elements(walk[..i + 1])), CountedWithin(counted, Elements(walk)));
  }

  lemma {:induction false} HeldWalkable(
      store: Store, p: Frame, counted: map<Pid, Frame>, frames: set<Frame>, top: Frame, kids: Forest)
    requires p in store && Walkable(store, top, kids)
    ensures Walkable(HeldBy(store, p, counted, frames), top, kids)
  {
    LinkedSame(store, HeldBy(store, p, counted, frames), Some(top), store[top].depth + 1, kids);
  }

  lemma {:induction false} MigratedNone(was: Store, before: map<Pid, Frame>, p: Frame, top: Frame, kids: Forest)
    requires p in was
    ensures Migrated(was, was, before, before, p, Walk(top, kids), 0) && WalkAt(top, kids, 0) == Some(top)
  {
    HeldStart(was, p, before, Walk(top, kids));
  }

  lemma {:induction false} MigratedAll(
      was: Store, store: Store, before: map<Pid, Frame>, counted: map<Pid, Frame>, p: Frame, top: Frame, kids: Forest,
      i: nat)
    requires Walkable(was, top, kids) && i <= |Walk(top, kids)| && WalkAt(top, kids, i).None?
    requires Migrated(was, store, before, counted, p, Walk(top, kids), i)
    ensures counted == MovePids(before, {top} + Frames(kids), p)
    ensures store == HeldBy(was, p, before, {top} + Frames(kids))
  {
    WalkVisitsOnce(top, kids);
    assert Walk(top, kids)[..i] == Walk(top, kids);
  }

  lemma {:induction false} MigratedStep(
      was: Store, store: Store, before: map<Pid, Frame>, counted: map<Pid, Frame>, p: Frame, top: Frame, kids: Forest,
      i: nat, cur: Frame)
    requires Walkable(was, top, kids) && p in was && p != top && p !in Frames(kids)
    requires was[p].processes.used + |CountedWithin(before, {top} + Frames(kids))| <= was[p].processes.limit
    requires Migrated(was, store, before, counted, p, Walk(top, kids), i) && Some(cur) == WalkAt(top, kids, i)
    ensures i + 1 <= |Walk(top, kids)| && p in store && cur != p
    ensures store[p].processes.used + |CountedIn(counted, cur)| <= store[p].processes.limit
    ensures Migrated(was, WithProcesses(store, p, store[p].processes.used + |CountedIn(counted, cur)|), before,
                     MovePids(counted, {cur}, p), p, Walk(top, kids), i + 1)
  {
    hide MovePids, WithProcesses, HeldBy, CountedWithin, CountedIn, Walk, Distinct, Linked, Frames, Unique, Elements;
    WalkVisitsOnce(top, kids);
    assert p !in Elements(Walk(top, kids));
    HeldStep(was, p, before, Walk(top, kids), i);
  }

  lemma {:induction false} MigratedWalkable(
      was: Store, store: Store, before: map<Pid, Frame>, counted: map<Pid, Frame>, p: Frame, top: Frame, kids: Forest,
      i: nat, cur: Frame)
    requires Walkable(was, top, kids) && p in was && Some(cur) == WalkAt(top, kids, i)
    requires Migrated(was, store, before, counted, p, Walk(top, kids), i + 1)
    ensures Walkable(store, top, kids) && (cur == top || cur in Frames(kids))
    ensures cur in store && SubtreeNext(store, top, cur) == WalkAt(top, kids, i + 1)
  {
    HeldWalkable(was, p, before, Elements(Walk(top, kids)[..i + 1]), top, kids);
    WalkVisitsOnce(top, kids);
    assert cur in Elements(Walk(top, kids));
    NextInWalk(store, top, kids, i);
  }
}
