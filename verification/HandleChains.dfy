/** Revocation without a sweep: the chains hold exactly the handles held outside the budgets they depend
    on, so closing a dying subtree's chains closes every handle that depends on it
    (kernel/src/handle.rs, kernel/src/budget.rs).
  */
module HandleChains {
  import opened Basics
  import opened Chains
  import F = BudgetForest
  import T = HandleTable

  datatype Object =
    | BudgetObject(frame: Frame)
    | EndpointObject(frame: Frame)
    | DeviceObject(frame: Frame)
    | ProcessObject(frame: Frame)

  datatype Handle = Handle(names: Object, badge: nat, stamp: Frame)

  /** What a slot in use holds: a handle, or the mark of one a sweep closed (I17). */
  datatype Holding = Dead | Live(handle: Handle)

  /** The two chains a slot can be entered in. */
  datatype Kind = Objects | Stamps

  datatype Pair<T> = Pair(objects: T, stamps: T) {
    function Of(k: Kind): T { if k == Objects then objects else stamps }

    function With(k: Kind, x: T): Pair<T> { if k == Objects then Pair(x, stamps) else Pair(objects, x) }
  }

  /** `holders`: the budget each process lives in. `owners`: the budget each endpoint and device is
      charged to. `chained`: the chain entries on each table page.
    */
  datatype Tables = Tables(
    slots: map<Place, Holding>, links: Pair<Links>, chained: map<(Pid, nat), nat>,
    holders: map<Pid, Frame>, owners: map<Frame, Frame>)

  // --- The budget a handle depends on -------------------------------------------------------------------

  /** Every budget's parent is there, and nearer the root. */
  ghost predicate Rising(store: F.Store) {
    forall f :: f in store && store[f].parent.Some? ==> Above(store, f, store[f].parent.value)
  }

  predicate Above(store: F.Store, f: Frame, p: Frame)
    requires f in store
  {
    p in store && store[p].depth < store[f].depth
  }

  /** Whether `at` is `b` or below it. */
  predicate Within(store: F.Store, at: Frame, b: Frame)
    decreases if at in store then store[at].depth else 0
  {
    at == b ||
    (at in store && store[at].parent.Some? && Above(store, at, store[at].parent.value)
     && Within(store, store[at].parent.value, b))
  }

  function Outside(store: F.Store, holder: Frame, b: Frame): Option<Frame> {
    if Within(store, holder, b) then None else Some(b)
  }

  /** The budget an object other than a process is charged to. */
  function Owner(owners: map<Frame, Frame>, o: Object): Frame
    requires !o.ProcessObject?
  {
    if o.BudgetObject? then o.frame else if o.frame in owners then owners[o.frame] else 0
  }

  /** `chain_heads`: the frame whose chain a handle held in `holder` is entered in. */
  function HeadFrame(owners: map<Frame, Frame>, store: F.Store, kind: Kind, holder: Frame, h: Handle): Option<Frame> {
    if kind == Stamps then Outside(store, holder, h.stamp)
    else if h.names.ProcessObject? then Some(h.names.frame)
    else Outside(store, holder, Owner(owners, h.names))
  }

  /** The frame whose chain slot `p` belongs in. */
  function HeadFor(t: Tables, store: F.Store, kind: Kind, p: Place): Option<Frame> {
    if p in t.slots && t.slots[p].Live? && p.pid in t.holders
    then HeadFrame(t.owners, store, kind, t.holders[p.pid], t.slots[p].handle)
    else None
  }

  // --- What the tables always keep ------------------------------------------------------------------------

  function PageOf(p: Place): nat { if p.index == 0 then 0 else (p.index - 1) / T.HANDLES_PER_PAGE }

  /** The slots with a link: those entered in a chain. */
  ghost function Joined(l: Links): set<Place> {
    set p | p in l.prev && !l.prev[p].NoLink?
  }

  /** Those of one table page. */
  ghost function On(l: Links, pid: Pid, page: nat): set<Place> {
    OfPage(Joined(l), pid, page)
  }

  ghost function OfPage(places: set<Place>, pid: Pid, page: nat): set<Place> {
    set p | p in places && p.pid == pid && PageOf(p) == page
  }

  lemma {:induction false} OfPageMore(places: set<Place>, p: Place, pid: Pid, page: nat)
    requires p !in places
    ensures |OfPage(places + {p}, pid, page)| == |OfPage(places, pid, page)|
            + if pid == p.pid && page == PageOf(p) then 1 else 0
  {
    hide PageOf;
    if pid == p.pid && page == PageOf(p) {
      assert OfPage(places + {p}, pid, page) == OfPage(places, pid, page) + {p};
    } else {
      assert OfPage(places + {p}, pid, page) == OfPage(places, pid, page);
    }
  }

  function ChainedOn(chained: map<(Pid, nat), nat>, pid: Pid, page: nat): nat {
    if (pid, page) in chained then chained[(pid, page)] else 0
  }

  /** Each table page counts its chain entries right. */
  ghost predicate Tallied(t: Tables) {
    forall pid, page ::
      ChainedOn(t.chained, pid, page) == |On(t.links.objects, pid, page)| + |On(t.links.stamps, pid, page)|
  }

  ghost predicate Wired(t: Tables, lists: Pair<Lists>) {
    Formed(t.links.objects, lists.objects) && Formed(t.links.stamps, lists.stamps) && Tallied(t)
  }

  /** Slot `p` is in exactly the chain it belongs in. */
  ghost predicate InPlace(t: Tables, store: F.Store, lists: Pair<Lists>, p: Place) {
    forall k: Kind, f: Frame :: p in ListOf(lists.Of(k), f) <==> HeadFor(t, store, k, p) == Some(f)
  }

  ghost predicate Placed(t: Tables, store: F.Store, lists: Pair<Lists>) {
    forall p :: InPlace(t, store, lists, p)
  }

  /** A live handle names a live object and a live stamp (I1); a process object is no budget. */
  ghost predicate Names(t: Tables, store: F.Store, h: Handle) {
    && h.stamp in store
    && match h.names
       case BudgetObject(f) => f in store
       case EndpointObject(f) => f in t.owners && t.owners[f] in store
       case DeviceObject(f) => f in t.owners && t.owners[f] in store
       case ProcessObject(f) => f !in store
  }

  ghost predicate Named(t: Tables, store: F.Store) {
    forall p :: p in t.slots ==>
      && T.IsIndex(p.index) && p.pid in t.holders && t.holders[p.pid] in store
      && (t.slots[p].Live? ==> Names(t, store, t.slots[p].handle))
  }

  ghost predicate Sound(t: Tables, store: F.Store, lists: Pair<Lists>) {
    Rising(store) && Wired(t, lists) && Placed(t, store, lists) && Named(t, store)
  }

  // --- One entry more or less ------------------------------------------------------------------------------

  function EnterIn(t: Tables, kind: Kind, f: Frame, p: Place): Tables {
    t.(links := t.links.With(kind, Enter(t.links.Of(kind), f, p)),
       chained := t.chained[(p.pid, PageOf(p)) := ChainedOn(t.chained, p.pid, PageOf(p)) + 1])
  }

  lemma {:induction false} OnEnter(l: Links, lists: Lists, f: Frame, p: Place, pid: Pid, page: nat)
    requires Formed(l, lists) && !Entered(lists, p)
    ensures |On(Enter(l, f, p), pid, page)| == |On(l, pid, page)| + if pid == p.pid && page == PageOf(p) then 1 else 0
  {
    JoinedEnter(l, lists, f, p);
    OfPageMore(Joined(l), p, pid, page);
  }

  lemma {:induction false} JoinedEnter(l: Links, lists: Lists, f: Frame, p: Place)
    requires Formed(l, lists) && !Entered(lists, p)
    ensures p !in Joined(l) && Joined(Enter(l, f, p)) == Joined(l) + {p}
  {
    var s := ListOf(lists, f);
    assert Chain(l, f, s);
    assert PrevOf(l, p).NoLink?;
    if |s| > 0 { assert Entry(l, f, s, 0); }
  }

  lemma {:induction false} EnterWired(
      t: Tables, lists: Pair<Lists>, kind: Kind, f: Frame, p: Place) returns (lists': Pair<Lists>)
    requires Wired(t, lists) && !Entered(lists.Of(kind), p)
    ensures Wired(EnterIn(t, kind, f, p), lists')
    ensures forall k: Kind, g, q :: q in ListOf(lists'.Of(k), g) <==>
              q in ListOf(lists.Of(k), g) || (k == kind && g == f && q == p)
  {
    lists' := lists.With(kind, Entering(lists.Of(kind), f, p));
    EnterForms(t.links.Of(kind), lists.Of(kind), f, p);
    EnterTallied(t, lists, kind, f, p);
  }

  lemma {:induction false} EnterTallied(t: Tables, lists: Pair<Lists>, kind: Kind, f: Frame, p: Place)
    requires Wired(t, lists) && !Entered(lists.Of(kind), p)
    ensures Tallied(EnterIn(t, kind, f, p))
  {
    var t' := EnterIn(t, kind, f, p);
    forall pid, page
      ensures ChainedOn(t'.chained, pid, page) == |On(t'.links.objects, pid, page)| + |On(t'.links.stamps, pid, page)|
    {
      OnEnter(t.links.Of(kind), lists.Of(kind), f, p, pid, page);
    }
  }

  /** A slot not entered leaves nothing. */
  function LeaveIn(t: Tables, kind: Kind, p: Place): Tables
    requires !PrevOf(t.links.Of(kind), p).NoLink? ==> ChainedOn(t.chained, p.pid, PageOf(p)) > 0
  {
    if PrevOf(t.links.Of(kind), p).NoLink? then t else
      t.(links := t.links.With(kind, Leave(t.links.Of(kind), p)),
         chained := t.chained[(p.pid, PageOf(p)) := ChainedOn(t.chained, p.pid, PageOf(p)) - 1])
  }

  lemma {:induction false} OnLeave(l: Links, lists: Lists, p: Place, pid: Pid, page: nat)
    requires Formed(l, lists) && !PrevOf(l, p).NoLink?
    ensures |On(l, pid, page)| == |On(Leave(l, p), pid, page)| + if pid == p.pid && page == PageOf(p) then 1 else 0
  {
    JoinedLeave(l, lists, p);
    OfPageMore(Joined(Leave(l, p)), p, pid, page);
  }

  lemma {:induction false} JoinedLeave(l: Links, lists: Lists, p: Place)
    requires Formed(l, lists) && !PrevOf(l, p).NoLink?
    ensures p !in Joined(Leave(l, p)) && Joined(l) == Joined(Leave(l, p)) + {p}
  {
    var f, i := LinkTells(l, lists, p);
    var s := ListOf(lists, f);
    assert Chain(l, f, s);
    assert Entry(l, f, s, i);
    if i + 1 < |s| { assert Entry(l, f, s, i + 1); }
  }

  lemma {:induction false} LeaveWired(t: Tables, lists: Pair<Lists>, kind: Kind, p: Place) returns (lists': Pair<Lists>)
    requires Wired(t, lists)
    ensures !PrevOf(t.links.Of(kind), p).NoLink? ==> ChainedOn(t.chained, p.pid, PageOf(p)) > 0
    ensures Wired(LeaveIn(t, kind, p), lists')
    ensures forall k: Kind, g, q :: q in ListOf(lists'.Of(k), g) <==>
              q in ListOf(lists.Of(k), g) && !(k == kind && q == p)
  {
    var l := t.links.Of(kind);
    if PrevOf(l, p).NoLink? {
      lists' := lists;
      forall g ensures p !in ListOf(lists.Of(kind), g) {
        if p in ListOf(lists.Of(kind), g) { EnteredTells(l, lists.Of(kind), p, g); }
      }
    } else {
      var f, i := LinkTells(l, lists.Of(kind), p);
      lists' := lists.With(kind, Leaving(lists.Of(kind), f, i));
      LeaveForms(l, lists.Of(kind), p, f, i);
      LeaveTallied(t, lists, kind, p);
    }
  }

  lemma {:induction false} LeaveTallied(t: Tables, lists: Pair<Lists>, kind: Kind, p: Place)
    requires Wired(t, lists) && !PrevOf(t.links.Of(kind), p).NoLink?
    ensures ChainedOn(t.chained, p.pid, PageOf(p)) > 0 && Tallied(LeaveIn(t, kind, p))
  {
    OnLeave(t.links.Of(kind), lists.Of(kind), p, p.pid, PageOf(p));
    var t' := LeaveIn(t, kind, p);
    forall pid, page
      ensures ChainedOn(t'.chained, pid, page) == |On(t'.links.objects, pid, page)| + |On(t'.links.stamps, pid, page)|
    {
      OnLeave(t.links.Of(kind), lists.Of(kind), p, pid, page);
    }
  }

  // --- A handle installed, killed or removed -----------------------------------------------------------------

  function EnterFor(t: Tables, kind: Kind, head: Option<Frame>, p: Place): Tables {
    if head.Some? then EnterIn(t, kind, head.value, p) else t
  }

  /** `install_handle`, at the free index of `p`: entered in the chains its holder's place calls for. */
  function Installed(t: Tables, store: F.Store, p: Place, h: Handle): Tables
    requires p.pid in t.holders
  {
    var holder := t.holders[p.pid];
    var entered := EnterFor(t.(slots := t.slots[p := Live(h)]), Objects,
                            HeadFrame(t.owners, store, Objects, holder, h), p);
    EnterFor(entered, Stamps, HeadFrame(t.owners, store, Stamps, holder, h), p)
  }

  lemma {:induction false} EnterForWired(t: Tables, lists: Pair<Lists>, kind: Kind, head: Option<Frame>, p: Place)
    returns (lists': Pair<Lists>)
    requires Wired(t, lists) && !Entered(lists.Of(kind), p)
    ensures Wired(EnterFor(t, kind, head, p), lists')
    ensures forall k: Kind, g: Frame, q ::
              q in ListOf(lists'.Of(k), g) <==> q in ListOf(lists.Of(k), g) || (k == kind && head == Some(g) && q == p)
  {
    lists' := lists;
    if head.Some? { lists' := EnterWired(t, lists, kind, head.value, p); }
  }

  lemma {:induction false} InstallOk(
      t: Tables, store: F.Store, lists: Pair<Lists>, p: Place, h: Handle) returns (lists': Pair<Lists>)
    requires Sound(t, store, lists) && p !in t.slots && T.IsIndex(p.index)
    requires p.pid in t.holders && t.holders[p.pid] in store && Names(t, store, h)
    ensures Sound(Installed(t, store, p, h), store, lists')
  {
    hide Wired, HeadFrame;
    var holder := t.holders[p.pid];
    var t0 := t.(slots := t.slots[p := Live(h)]);
    WiredSame(t, t0, lists);
    assert InPlace(t, store, lists, p);
    NotEnteredThere(t, store, lists, Objects, p);
    NotEnteredThere(t, store, lists, Stamps, p);
    var o, s := HeadFrame(t.owners, store, Objects, holder, h), HeadFrame(t.owners, store, Stamps, holder, h);
    var mid := EnterForWired(t0, lists, Objects, o, p);
    forall f ensures p !in ListOf(mid.Of(Stamps), f) {}
    lists' := EnterForWired(EnterFor(t0, Objects, o, p), mid, Stamps, s, p);
    InstalledSame(t, store, p, h);
    InstallPlaced(t, Installed(t, store, p, h), store, lists, p, h, lists');
  }

  lemma {:induction false} NotEnteredThere(t: Tables, store: F.Store, lists: Pair<Lists>, k: Kind, p: Place)
    requires InPlace(t, store, lists, p) && HeadFor(t, store, k, p) == None
    ensures !Entered(lists.Of(k), p)
  {
    forall f: Frame ensures p !in ListOf(lists.Of(k), f) {
      assert p in ListOf(lists.Of(k), f) ==> HeadFor(t, store, k, p) == Some(f);
    }
  }

  lemma {:induction false} WiredSame(t: Tables, t': Tables, lists: Pair<Lists>)
    requires Wired(t, lists) && t'.links == t.links && t'.chained == t.chained
    ensures Wired(t', lists)
  {
  }

  lemma {:induction false} InstalledSame(t: Tables, store: F.Store, p: Place, h: Handle)
    requires p.pid in t.holders
    ensures var t' := Installed(t, store, p, h);
            t'.slots == t.slots[p := Live(h)] && t'.holders == t.holders && t'.owners == t.owners
  {
  }

  lemma {:induction false} InstallPlaced(
      t: Tables, t': Tables, store: F.Store, lists: Pair<Lists>, p: Place, h: Handle, lists': Pair<Lists>)
    requires Placed(t, store, lists) && Named(t, store) && p !in t.slots && T.IsIndex(p.index)
    requires p.pid in t.holders && t.holders[p.pid] in store && Names(t, store, h)
    requires t'.slots == t.slots[p := Live(h)] && t'.holders == t.holders && t'.owners == t.owners
    requires forall k: Kind, g: Frame, q ::
               q in ListOf(lists'.Of(k), g)
               <==> q in ListOf(lists.Of(k), g)
                    || (HeadFrame(t.owners, store, k, t.holders[p.pid], h) == Some(g) && q == p)
    ensures Placed(t', store, lists') && Named(t', store)
  {
    hide HeadFrame;
    forall q ensures InPlace(t', store, lists', q) {
      assert InPlace(t, store, lists, q);
      forall k: Kind, f: Frame ensures q in ListOf(lists'.Of(k), f) <==> HeadFor(t', store, k, q) == Some(f) {
        assert q in ListOf(lists.Of(k), f) <==> HeadFor(t, store, k, q) == Some(f);
      }
    }
  }

  /** Slot `p` out of both chains, left dead (a sweep's close) or empty (its holder's). */
  ghost predicate Closed(t: Tables, t': Tables, p: Place) {
    && t'.holders == t.holders && t'.owners == t.owners && p in t.slots
    && (t'.slots == t.slots[p := Dead] || t'.slots == t.slots - {p})
  }

  lemma {:induction false} CloseOk(
      t: Tables, store: F.Store, lists: Pair<Lists>, t': Tables, lists': Pair<Lists>, p: Place)
    requires Sound(t, store, lists) && Wired(t', lists') && Closed(t, t', p)
    requires forall k: Kind, g, q :: q in ListOf(lists'.Of(k), g) <==> q in ListOf(lists.Of(k), g) && q != p
    ensures Sound(t', store, lists')
  {
    hide Wired, HeadFrame;
    forall q ensures InPlace(t', store, lists', q) {
      assert InPlace(t, store, lists, q);
    }
  }

  function CanLeave(t: Tables, kind: Kind, p: Place): bool {
    !PrevOf(t.links.Of(kind), p).NoLink? ==> ChainedOn(t.chained, p.pid, PageOf(p)) > 0
  }

  function LeaveBoth(t: Tables, p: Place): Tables
    requires CanLeave(t, Objects, p) && CanLeave(LeaveIn(t, Objects, p), Stamps, p)
  {
    LeaveIn(LeaveIn(t, Objects, p), Stamps, p)
  }

  lemma {:induction false} LeaveBothWired(t: Tables, lists: Pair<Lists>, p: Place) returns (lists': Pair<Lists>)
    requires Wired(t, lists)
    ensures CanLeave(t, Objects, p) && CanLeave(LeaveIn(t, Objects, p), Stamps, p)
    ensures Wired(LeaveBoth(t, p), lists')
    ensures forall k: Kind, g, q :: q in ListOf(lists'.Of(k), g) <==> q in ListOf(lists.Of(k), g) && q != p
  {
    hide Wired, LeaveIn;
    var mid := LeaveWired(t, lists, Objects, p);
    lists' := LeaveWired(LeaveIn(t, Objects, p), mid, Stamps, p);
  }

  /** A close loosens the slot and then marks or clears it. */
  lemma {:induction false} ShutOk(t: Tables, store: F.Store, lists: Pair<Lists>, p: Place, slots: map<Place, Holding>)
    returns (lists': Pair<Lists>)
    requires Sound(t, store, lists) && p in t.slots && (slots == t.slots[p := Dead] || slots == t.slots - {p})
    ensures CanLeave(t, Objects, p) && CanLeave(LeaveIn(t, Objects, p), Stamps, p)
    ensures Sound(LeaveBoth(t, p).(slots := slots), store, lists')
  {
    hide Wired, Placed, Named, LeaveIn;
    lists' := LeaveBothWired(t, lists, p);
    LeaveSame(t, p);
    WiredSame(LeaveBoth(t, p), LeaveBoth(t, p).(slots := slots), lists');
    CloseOk(t, store, lists, LeaveBoth(t, p).(slots := slots), lists', p);
  }

  lemma {:induction false} LeaveSame(t: Tables, p: Place)
    requires CanLeave(t, Objects, p) && CanLeave(LeaveIn(t, Objects, p), Stamps, p)
    ensures LeaveBoth(t, p) == t.(links := LeaveBoth(t, p).links, chained := LeaveBoth(t, p).chained)
  {
  }

  // --- What closing chains closes ------------------------------------------------------------------------------

  /** The handles of `places` closed, each left a dead entry (I17). */
  function Deadened(slots: map<Place, Holding>, places: set<Place>): map<Place, Holding> {
    map p | p in slots :: if p in places then Dead else slots[p]
  }

  /** The slots frame `f`'s chain is to hold. */
  ghost function Dependents(t: Tables, store: F.Store, kind: Kind, f: Frame): set<Place> {
    set p | p in t.slots && HeadFor(t, store, kind, p) == Some(f)
  }

  /** The tables once `killed` of `was`'s handles are closed. */
  ghost predicate Less(was: Tables, t: Tables, killed: set<Place>) {
    t.slots == Deadened(was.slots, killed) && t.holders == was.holders && t.owners == was.owners
  }

  lemma {:induction false} LessHeads(was: Tables, t: Tables, killed: set<Place>, store: F.Store, k: Kind, p: Place)
    requires Less(was, t, killed)
    ensures HeadFor(t, store, k, p) == if p in killed then None else HeadFor(was, store, k, p)
  {
  }

  lemma {:induction false} LessMore(was: Tables, t: Tables, killed: set<Place>, t': Tables, more: set<Place>)
    requires Less(was, t, killed) && Less(t, t', more)
    ensures Less(was, t', killed + more)
  {
  }

  lemma {:induction false} ChainTells(t: Tables, store: F.Store, lists: Pair<Lists>, kind: Kind, f: Frame)
    requires Sound(t, store, lists)
    ensures match HeadOf(t.links.Of(kind), f)
            case NoLink => Dependents(t, store, kind, f) == {}
            case Head(_) => false
            case Slot(p) => p in t.slots && t.slots[p].Live? && HeadFor(t, store, kind, p) == Some(f)
  {
    hide HeadFrame, Tallied, Named;
    var s := ListOf(lists.Of(kind), f);
    assert Chain(t.links.Of(kind), f, s);
    if |s| == 0 {
      forall p ensures p !in Dependents(t, store, kind, f) {
        assert InPlace(t, store, lists, p);
        assert p in s <==> HeadFor(t, store, kind, p) == Some(f);
      }
    } else {
      assert s[0] in s && InPlace(t, store, lists, s[0]);
      assert HeadFor(t, store, kind, s[0]) == Some(f);
    }
  }

  /** One more of the chain's handles closed. */
  lemma {:induction false} ClosingStep(
      was: Tables, t: Tables, store: F.Store, kind: Kind, f: Frame, killed: set<Place>, p: Place)
    requires Less(was, t, killed) && killed <= Dependents(was, store, kind, f)
    requires p in t.slots && HeadFor(t, store, kind, p) == Some(f)
    ensures p !in killed && killed + {p} <= Dependents(was, store, kind, f)
    ensures Deadened(was.slots, killed + {p}) == t.slots[p := Dead]
  {
    LessHeads(was, t, killed, store, kind, p);
  }

  lemma {:induction false} ClosingEnds(was: Tables, t: Tables, store: F.Store, kind: Kind, f: Frame, killed: set<Place>)
    requires Less(was, t, killed) && killed <= Dependents(was, store, kind, f) && Dependents(t, store, kind, f) == {}
    ensures killed == Dependents(was, store, kind, f)
  {
    forall p | p in Dependents(was, store, kind, f) ensures p in killed {
      LessHeads(was, t, killed, store, kind, p);
      assert p !in Dependents(t, store, kind, f);
    }
  }

  /** The slots some chain of `frames` is to hold. */
  ghost function Depending(t: Tables, store: F.Store, frames: set<Frame>): set<Place> {
    set p | p in t.slots && (InOf(HeadFor(t, store, Objects, p), frames) || InOf(HeadFor(t, store, Stamps, p), frames))
  }

  predicate InOf(f: Option<Frame>, frames: set<Frame>) { f.Some? && f.value in frames }

  /** Both chains of one more frame closed. */
  lemma {:induction false} DependingMore(
      was: Tables, t: Tables, mid: Tables, t': Tables, store: F.Store, done: set<Frame>, f: Frame)
    requires Less(was, t, Depending(was, store, done))
    requires Less(t, mid, Dependents(t, store, Objects, f)) && Less(mid, t', Dependents(mid, store, Stamps, f))
    ensures Less(was, t', Depending(was, store, done + {f}))
  {
    hide HeadFor;
    var a, b, c := Depending(was, store, done), Dependents(t, store, Objects, f), Dependents(mid, store, Stamps, f);
    LessMore(was, t, a, mid, b);
    LessMore(was, mid, a + b, t', c);
    forall p ensures p in was.slots ==> (p in a + b + c <==> p in Depending(was, store, done + {f})) {
      LessHeads(was, t, a, store, Objects, p);
      LessHeads(was, mid, a + b, store, Stamps, p);
    }
    DeadenedSame(was.slots, a + b + c, Depending(was, store, done + {f}));
  }

  lemma {:induction false} DeadenedSame(slots: map<Place, Holding>, a: set<Place>, b: set<Place>)
    requires forall p :: p in slots ==> (p in a <==> p in b)
    ensures Deadened(slots, a) == Deadened(slots, b)
  {
  }

  // --- Completeness -----------------------------------------------------------------------------------------------

  /** A handle names or is stamped with a budget of `frames`, or names an object one of them pays for. */
  ghost predicate Doomed(owners: map<Frame, Frame>, h: Handle, frames: set<Frame>) {
    h.stamp in frames || (!h.names.ProcessObject? && Owner(owners, h.names) in frames)
  }

  /** What a sweep of every table closes. */
  ghost function Swept(t: Tables, frames: set<Frame>): map<Place, Holding> {
    map p | p in t.slots :: if t.slots[p].Live? && Doomed(t.owners, t.slots[p].handle, frames) then Dead else t.slots[p]
  }

  /** No budget outside `frames` is below one inside. */
  ghost predicate UpClosed(store: F.Store, frames: set<Frame>) {
    forall f :: f in store && f !in frames && store[f].parent.Some? ==> store[f].parent.value !in frames
  }

  lemma {:induction false} NotWithin(store: F.Store, at: Frame, frames: set<Frame>, b: Frame)
    requires UpClosed(store, frames) && at !in frames && b in frames
    ensures !Within(store, at, b)
    decreases if at in store then store[at].depth else 0
  {
    if at in store && store[at].parent.Some? && Above(store, at, store[at].parent.value) {
      NotWithin(store, store[at].parent.value, frames, b);
    }
  }

  /** With no holder left in the subtree, the chains of its budgets hold exactly the handles that depend
      on it: closing them does what a sweep of every table would.
    */
  lemma {:induction false} ChainsAreComplete(t: Tables, store: F.Store, frames: set<Frame>)
    requires Named(t, store) && UpClosed(store, frames) && frames <= store.Keys
    requires forall pid :: pid in t.holders ==> t.holders[pid] !in frames
    ensures Deadened(t.slots, Depending(t, store, frames)) == Swept(t, frames)
  {
    hide Within;
    forall p | p in t.slots && t.slots[p].Live?
      ensures p in Depending(t, store, frames) <==> Doomed(t.owners, t.slots[p].handle, frames)
    {
      DependsTells(t, store, frames, p);
    }
  }

  lemma {:induction false} DependsTells(t: Tables, store: F.Store, frames: set<Frame>, p: Place)
    requires Named(t, store) && UpClosed(store, frames) && frames <= store.Keys
    requires p in t.slots && t.slots[p].Live? && p.pid in t.holders && t.holders[p.pid] !in frames
    ensures p in Depending(t, store, frames) <==> Doomed(t.owners, t.slots[p].handle, frames)
  {
    var h, holder := t.slots[p].handle, t.holders[p.pid];
    if h.stamp in frames { NotWithin(store, holder, frames, h.stamp); }
    if !h.names.ProcessObject? && Owner(t.owners, h.names) in frames {
      NotWithin(store, holder, frames, Owner(t.owners, h.names));
    }
  }

  /** After a sweep nothing live depends on the subtree. */
  lemma {:induction false} NothingDepends(t: Tables, t': Tables, frames: set<Frame>)
    requires t'.slots == Swept(t, frames)
    ensures forall p :: p in t'.slots && t'.slots[p].Live? ==> !Doomed(t.owners, t'.slots[p].handle, frames)
  {
  }

  // --- The end of a process ---------------------------------------------------------------------------------------

  /** The chains while process `pid`'s table goes: right for every other holder, and entering of its own
      slots only such as are in use.
    */
  ghost predicate Ending(t: Tables, store: F.Store, lists: Pair<Lists>, pid: Pid) {
    && Wired(t, lists)
    && (forall p: Place :: p.pid != pid ==> InPlace(t, store, lists, p))
    && (forall k: Kind, p :: p in Joined(t.links.Of(k)) && p.pid == pid ==> p in t.slots)
  }

  /** None of the first `n` slots of `pid`'s table is entered. */
  ghost predicate LooseTo(t: Tables, pid: Pid, n: nat) {
    forall k: Kind, p :: p in Joined(t.links.Of(k)) && p.pid == pid ==> p.index == 0 || n < p.index
  }

  lemma {:induction false} EndingStarts(t: Tables, store: F.Store, lists: Pair<Lists>, pid: Pid)
    requires Sound(t, store, lists)
    ensures Ending(t, store, lists, pid) && LooseTo(t, pid, 0)
  {
    forall k: Kind, p | p in Joined(t.links.Of(k)) && p.pid == pid ensures p in t.slots {
      JoinedHeld(t, store, lists, k, p);
    }
  }

  lemma {:induction false} JoinedHeld(t: Tables, store: F.Store, lists: Pair<Lists>, k: Kind, p: Place)
    requires Wired(t, lists) && Placed(t, store, lists) && p in Joined(t.links.Of(k))
    ensures p in t.slots
  {
    hide HeadFrame, Tallied;
    var f, i := LinkTells(t.links.Of(k), lists.Of(k), p);
    assert InPlace(t, store, lists, p);
    assert p in ListOf(lists.Of(k), f) <==> HeadFor(t, store, k, p) == Some(f);
  }

  lemma {:induction false} LooseOut(l: Links, lists: Lists, p: Place)
    requires Formed(l, lists) && p !in Joined(l)
    ensures forall f :: p !in ListOf(lists, f)
  {
    forall f ensures p !in ListOf(lists, f) {
      if p in ListOf(lists, f) { EnteredTells(l, lists, p, f); }
    }
  }

  lemma {:induction false} EndingLeave(t: Tables, store: F.Store, lists: Pair<Lists>, pid: Pid, kind: Kind, p: Place)
    returns (lists': Pair<Lists>)
    requires Ending(t, store, lists, pid) && p.pid == pid
    ensures CanLeave(t, kind, p) && Ending(LeaveIn(t, kind, p), store, lists', pid)
    ensures Joined(LeaveIn(t, kind, p).links.Of(kind)) == Joined(t.links.Of(kind)) - {p}
    ensures forall k: Kind :: k != kind ==> LeaveIn(t, kind, p).links.Of(k) == t.links.Of(k)
  {
    hide InPlace, Tallied, Formed;
    lists' := LeaveWired(t, lists, kind, p);
    if !PrevOf(t.links.Of(kind), p).NoLink? { JoinedLeave(t.links.Of(kind), lists.Of(kind), p); }
    OthersInPlace(t, store, lists, LeaveIn(t, kind, p), lists', pid);
    forall k: Kind, q | q in Joined(LeaveIn(t, kind, p).links.Of(k)) && q.pid == pid ensures q in t.slots {
      assert q in Joined(t.links.Of(k));
    }
  }

  lemma {:induction false} OthersInPlace(
      t: Tables, store: F.Store, lists: Pair<Lists>, t': Tables, lists': Pair<Lists>, pid: Pid)
    requires forall p: Place :: p.pid != pid ==> InPlace(t, store, lists, p)
    requires t'.slots == t.slots && t'.holders == t.holders && t'.owners == t.owners
    requires forall k: Kind, g, q: Place :: q.pid != pid ==>
               (q in ListOf(lists'.Of(k), g) <==> q in ListOf(lists.Of(k), g))
    ensures forall p: Place :: p.pid != pid ==> InPlace(t', store, lists', p)
  {
    hide HeadFrame;
    forall q: Place | q.pid != pid ensures InPlace(t', store, lists', q) {
      assert InPlace(t, store, lists, q);
      forall k: Kind, f: Frame ensures q in ListOf(lists'.Of(k), f) <==> HeadFor(t', store, k, q) == Some(f) {
        assert q in ListOf(lists.Of(k), f) <==> HeadFor(t, store, k, q) == Some(f);
      }
    }
  }

  /** A page that counts no entry has none. */
  lemma {:induction false} NoneChained(t: Tables, pid: Pid, page: nat, n: nat)
    requires Tallied(t) && ChainedOn(t.chained, pid, page) == 0 && LooseTo(t, pid, n)
    requires page * T.HANDLES_PER_PAGE <= n <= page * T.HANDLES_PER_PAGE + T.HANDLES_PER_PAGE
    ensures LooseTo(t, pid, page * T.HANDLES_PER_PAGE + T.HANDLES_PER_PAGE)
  {
    assert |On(t.links.objects, pid, page)| == 0 && |On(t.links.stamps, pid, page)| == 0;
    forall k: Kind, p | p in Joined(t.links.Of(k)) && p.pid == pid
      ensures p.index == 0 || page * T.HANDLES_PER_PAGE + T.HANDLES_PER_PAGE < p.index
    {
      assert p !in On(t.links.Of(k), pid, page);
      PageIs(p, page);
    }
  }

  lemma {:induction false} PageIs(p: Place, page: nat)
    ensures p.index > 0 ==>
              (PageOf(p) == page <==>
                 page * T.HANDLES_PER_PAGE < p.index <= page * T.HANDLES_PER_PAGE + T.HANDLES_PER_PAGE)
  {
  }

  lemma {:induction false} LooseMore(t: Tables, mid: Tables, t': Tables, p: Place)
    requires p.index > 0 && LooseTo(t, p.pid, p.index - 1)
    requires Joined(mid.links.Of(Objects)) == Joined(t.links.Of(Objects)) - {p}
    requires mid.links.Of(Stamps) == t.links.Of(Stamps)
    requires Joined(t'.links.Of(Stamps)) == Joined(mid.links.Of(Stamps)) - {p}
    requires t'.links.Of(Objects) == mid.links.Of(Objects)
    ensures LooseTo(t', p.pid, p.index)
  {
    hide Joined;
    forall k: Kind, q | q in Joined(t'.links.Of(k)) && q.pid == p.pid ensures q.index == 0 || p.index < q.index {
      assert q in Joined(t.links.Of(k)) && q != p;
    }
  }

  lemma {:induction false} SoundNames(t: Tables, t': Tables, store: F.Store, lists: Pair<Lists>)
    requires Sound(t, store, lists) && t'.slots == t.slots && t'.holders == t.holders && t'.owners == t.owners
    ensures Rising(store) && Named(t', store)
  {
  }

  function WithoutPid(slots: map<Place, Holding>, pid: Pid): map<Place, Holding> {
    map p | p in slots && p.pid != pid :: slots[p]
  }

  lemma {:induction false} NoneJoined(t: Tables, store: F.Store, lists: Pair<Lists>, pid: Pid, k: Kind, p: Place)
    requires Named(t, store) && Ending(t, store, lists, pid) && p.pid == pid
    requires LooseTo(t, pid, T.MAX_HANDLE_PAGES * T.HANDLES_PER_PAGE)
    ensures p !in Joined(t.links.Of(k))
  {
    hide InPlace, Wired;
    if p in Joined(t.links.Of(k)) {
      assert false;
    }
  }

  lemma {:induction false} EndingEnds(t: Tables, store: F.Store, lists: Pair<Lists>, pid: Pid)
    requires Rising(store) && Named(t, store) && Ending(t, store, lists, pid)
    requires LooseTo(t, pid, T.MAX_HANDLE_PAGES * T.HANDLES_PER_PAGE)
    ensures Sound(t.(slots := WithoutPid(t.slots, pid), holders := t.holders - {pid}), store, lists)
  {
    hide HeadFrame, Tallied, Formed;
    var t' := t.(slots := WithoutPid(t.slots, pid), holders := t.holders - {pid});
    WiredSame(t, t', lists);
    forall p ensures InPlace(t', store, lists, p) {
      if p.pid == pid {
        NoneJoined(t, store, lists, pid, Objects, p);
        NoneJoined(t, store, lists, pid, Stamps, p);
        LooseOut(t.links.objects, lists.objects, p);
        LooseOut(t.links.stamps, lists.stamps, p);
      } else {
        assert InPlace(t, store, lists, p);
        forall k: Kind, f: Frame ensures p in ListOf(lists.Of(k), f) <==> HeadFor(t', store, k, p) == Some(f) {
          assert p in ListOf(lists.Of(k), f) <==> HeadFor(t, store, k, p) == Some(f);
        }
      }
    }
  }

  // --- The budgets come and go ------------------------------------------------------------------------------------

  lemma {:induction false} WithinKept(store: F.Store, store': F.Store, at: Frame, b: Frame, gone: set<Frame>)
    requires Rising(store) && UpClosed(store, gone) && at !in gone && at in store
    requires forall f :: f in store && f !in gone ==>
               f in store' && store'[f].parent == store[f].parent && store'[f].depth == store[f].depth
    ensures Within(store', at, b) <==> Within(store, at, b)
    decreases store[at].depth
  {
    if at != b && store[at].parent.Some? {
      assert Above(store, at, store[at].parent.value);
      WithinKept(store, store', store[at].parent.value, b, gone);
    }
  }

  /** Budgets created, or a subtree freed that no holder runs in and no live handle depends on, move no
      handle: no budget ever moves.
    */
  lemma {:induction false} BudgetsChange(
      t: Tables, store: F.Store, store': F.Store, lists: Pair<Lists>, gone: set<Frame>)
    requires Sound(t, store, lists) && Rising(store') && UpClosed(store, gone) && gone <= store.Keys
    requires forall f :: f in store && f !in gone ==>
               f in store' && store'[f].parent == store[f].parent && store'[f].depth == store[f].depth
    requires forall pid :: pid in t.holders ==> t.holders[pid] !in gone
    requires forall p :: p in t.slots && t.slots[p].Live? ==> !Doomed(t.owners, t.slots[p].handle, gone)
    requires forall p :: p in t.slots && t.slots[p].Live? && t.slots[p].handle.names.ProcessObject? ==>
               t.slots[p].handle.names.frame !in store'
    ensures Sound(t, store', lists)
  {
    hide Wired, Within, UpClosed, Rising;
    forall p ensures InPlace(t, store', lists, p) {
      assert InPlace(t, store, lists, p);
      if p in t.slots && t.slots[p].Live? && p.pid in t.holders {
        var h, holder := t.slots[p].handle, t.holders[p.pid];
        WithinKept(store, store', holder, h.stamp, gone);
        if !h.names.ProcessObject? { WithinKept(store, store', holder, Owner(t.owners, h.names), gone); }
      }
      forall k: Kind, f: Frame ensures p in ListOf(lists.Of(k), f) <==> HeadFor(t, store', k, p) == Some(f) {
        assert p in ListOf(lists.Of(k), f) <==> HeadFor(t, store, k, p) == Some(f);
      }
    }
  }

  lemma {:induction false} ClosingStarts(t: Tables, store: F.Store, kind: Kind, f: Frame)
    ensures Less(t, t, {}) && {} <= Dependents(t, store, kind, f)
  {
  }

  lemma {:induction false} ObjectDependents(t: Tables, store: F.Store, f: Frame)
    requires Named(t, store) && f !in store
    ensures Dependents(t, store, Objects, f)
         == set p | p in t.slots && t.slots[p].Live? && t.slots[p].handle.names == ProcessObject(f)
  {
  }

  ghost function WalkedTo(top: Frame, kids: F.Forest, i: nat): set<Frame>
    requires i <= |F.Walk(top, kids)|
  {
    F.Elements(F.Walk(top, kids)[..i])
  }

  lemma {:induction false} DependingStarts(t: Tables, store: F.Store, top: Frame, kids: F.Forest)
    ensures F.WalkAt(top, kids, 0) == Some(top) && Less(t, t, Depending(t, store, WalkedTo(top, kids, 0)))
  {
    assert WalkedTo(top, kids, 0) == {};
  }

  lemma {:induction false} WalkGoesOn(store: F.Store, top: Frame, kids: F.Forest, i: nat)
    requires F.Walkable(store, top, kids) && i <= |F.Walk(top, kids)| && F.WalkAt(top, kids, i).Some?
    ensures i < |F.Walk(top, kids)| && F.WalkAt(top, kids, i).value in store
    ensures F.SubtreeNext(store, top, F.WalkAt(top, kids, i).value) == F.WalkAt(top, kids, i + 1)
    ensures WalkedTo(top, kids, i + 1) == WalkedTo(top, kids, i) + {F.WalkAt(top, kids, i).value}
  {
    F.NextInWalk(store, top, kids, i);
    F.ElementsNext(F.Walk(top, kids), i);
  }

  lemma {:induction false} WalkIsAll(store: F.Store, top: Frame, kids: F.Forest, i: nat)
    requires F.Walkable(store, top, kids) && i <= |F.Walk(top, kids)| && F.WalkAt(top, kids, i).None?
    ensures WalkedTo(top, kids, i) == {top} + F.Frames(kids)
  {
    F.WalkVisitsOnce(top, kids);
    assert F.Walk(top, kids)[..i] == F.Walk(top, kids);
  }

  lemma {:induction false} SweepIsDone(
      was: Tables, t: Tables, store: F.Store, top: Frame, kids: F.Forest, lists: Pair<Lists>)
    requires F.Walkable(store, top, kids) && UpClosed(store, {top} + F.Frames(kids)) && Sound(was, store, lists)
    requires forall pid :: pid in was.holders ==> was.holders[pid] !in {top} + F.Frames(kids)
    requires Less(was, t, Depending(was, store, {top} + F.Frames(kids)))
    ensures t.slots == Swept(was, {top} + F.Frames(kids))
    ensures forall p :: p in t.slots && t.slots[p].Live? ==>
              !Doomed(t.owners, t.slots[p].handle, {top} + F.Frames(kids))
  {
    F.LinkedFrames(store, Some(top), store[top].depth + 1, kids);
    ChainsAreComplete(was, store, {top} + F.Frames(kids));
    NothingDepends(was, t, {top} + F.Frames(kids));
  }

  // --- Processes and objects come and go ----------------------------------------------------------------------------

  ghost predicate NamesOne(o: Object, gone: set<Frame>) { (o.EndpointObject? || o.DeviceObject?) && o.frame in gone }

  lemma {:induction false} EmptySound(store: F.Store)
    requires Rising(store)
    ensures Sound(Tables(map[], Pair(Links(map[], map[], map[]), Links(map[], map[], map[])), map[], map[], map[]),
                  store, Pair(map[], map[]))
  {
    var none := Links(map[], map[], map[]);
    assert Joined(none) == {};
    forall pid, page ensures On(none, pid, page) == {} {}
  }

  /** The chains stay right while no slot's head changes. */
  lemma {:induction false} SameHeads(t: Tables, t': Tables, store: F.Store, lists: Pair<Lists>)
    requires Sound(t, store, lists) && t'.links == t.links && t'.chained == t.chained && Named(t', store)
    requires forall k: Kind, p :: HeadFor(t', store, k, p) == HeadFor(t, store, k, p)
    ensures Sound(t', store, lists)
  {
    hide HeadFor, Named, Rising, Formed;
    WiredSame(t, t', lists);
    forall p ensures InPlace(t', store, lists, p) { assert InPlace(t, store, lists, p); }
  }

  lemma {:induction false} HolderMore(t: Tables, store: F.Store, lists: Pair<Lists>, pid: Pid, f: Frame)
    requires Sound(t, store, lists) && pid !in t.holders && f in store
    ensures Sound(t.(holders := t.holders[pid := f]), store, lists)
  {
    hide Wired, Placed, HeadFrame;
    SameHeads(t, t.(holders := t.holders[pid := f]), store, lists);
  }

  lemma {:induction false} OwnerMore(t: Tables, store: F.Store, lists: Pair<Lists>, f: Frame, owner: Frame)
    requires Sound(t, store, lists) && f !in t.owners && owner in store
    ensures Sound(t.(owners := t.owners[f := owner]), store, lists)
  {
    hide Wired, Placed, Within;
    SameHeads(t, t.(owners := t.owners[f := owner]), store, lists);
  }

  lemma {:induction false} OwnersLess(t: Tables, store: F.Store, lists: Pair<Lists>, gone: set<Frame>)
    requires Sound(t, store, lists)
    requires forall p :: p in t.slots && t.slots[p].Live? ==> !NamesOne(t.slots[p].handle.names, gone)
    ensures Sound(t.(owners := t.owners - gone), store, lists)
  {
    hide Wired, Placed, Within;
    SameHeads(t, t.(owners := t.owners - gone), store, lists);
  }

  // --- The tables as the kernel changes them ------------------------------------------------------------------------

  class Handles {
    var slots: map<Place, Holding>
    var links: Pair<Links>
    var chained: map<(Pid, nat), nat>
    var holders: map<Pid, Frame>
    var owners: map<Frame, Frame>
    ghost var lists: Pair<Lists>

    ghost function View(): Tables
      reads this
    {
      Tables(slots, links, chained, holders, owners)
    }

    ghost predicate Valid(store: F.Store)
      reads this
    {
      Sound(View(), store, lists)
    }

    /** No process yet, and no handle. */
    constructor (store: F.Store)
      requires Rising(store)
      ensures Valid(store) && slots == map[] && holders == map[] && owners == map[]
    {
      slots, holders, owners, chained := map[], map[], map[], map[];
      links := Pair(Links(map[], map[], map[]), Links(map[], map[], map[]));
      lists := Pair(map[], map[]);
      new;
      EmptySound(store);
    }

    /** A process begins in budget `f`, its table empty. */
    method ProcessCreated(store: F.Store, pid: Pid, f: Frame)
      requires Valid(store) && pid !in holders && f in store
      modifies this`holders
      ensures Valid(store) && holders == old(holders)[pid := f]
    {
      hide Sound;
      HolderMore(View(), store, lists, pid, f);
      holders := holders[pid := f];
    }

    /** An endpoint or device, charged to `owner`. */
    method ObjectCreated(store: F.Store, f: Frame, owner: Frame)
      requires Valid(store) && f !in owners && owner in store
      modifies this`owners
      ensures Valid(store) && owners == old(owners)[f := owner]
    {
      hide Sound;
      OwnerMore(View(), store, lists, f, owner);
      owners := owners[f := owner];
    }

    /** Endpoints and devices freed, once no live handle names one of them. */
    method ObjectsFreed(store: F.Store, gone: set<Frame>)
      requires Valid(store) && forall p :: p in slots && slots[p].Live? ==> !NamesOne(slots[p].handle.names, gone)
      modifies this`owners
      ensures Valid(store) && owners == old(owners) - gone
    {
      hide Sound;
      OwnersLess(View(), store, lists, gone);
      owners := owners - gone;
    }

    /** `within`: up the tree from `holder`. */
    method WithinBudget(store: F.Store, holder: Frame, b: Frame) returns (within: bool)
      requires Rising(store) && holder in store
      ensures within == Within(store, holder, b)
    {
      var at := Some(holder);
      while at.Some?
        invariant at.Some? ==> at.value in store && Within(store, holder, b) == Within(store, at.value, b)
        invariant at.None? ==> !Within(store, holder, b)
        decreases if at.Some? then 1 + store[at.value].depth else 0
      {
        if at.value == b { return true; }
        assert store[at.value].parent.Some? ==> Above(store, at.value, store[at.value].parent.value);
        at := store[at.value].parent;
      }
      return false;
    }

    /** `enter`: `p` first in `f`'s chain, word by word. */
    method EnterChain(kind: Kind, f: Frame, p: Place)
      modifies this`links, this`chained
      ensures View() == EnterIn(old(View()), kind, f, p)
    {
      var l := links.Of(kind);
      var first := HeadOf(l, f);
      l := l.(prev := l.prev[p := Head(f)]);
      l := l.(next := l.next[p := first]);
      if first.Slot? { l := l.(prev := l.prev[first.place := Slot(p)]); }
      l := l.(head := l.head[f := Slot(p)]);
      links := links.With(kind, l);
      chained := chained[(p.pid, PageOf(p)) := ChainedOn(chained, p.pid, PageOf(p)) + 1];
    }

    /** `leave`: `p` out of its chain, word by word, if it is in one. */
    method LeaveChain(kind: Kind, p: Place)
      requires CanLeave(View(), kind, p)
      modifies this`links, this`chained
      ensures View() == LeaveIn(old(View()), kind, p)
    {
      var l := links.Of(kind);
      var prev, next := PrevOf(l, p), NextOf(l, p);
      match prev {
        case NoLink => return;
        case Head(f) => l := l.(head := l.head[f := next]);
        case Slot(q) => l := l.(next := l.next[q := next]);
      }
      if next.Slot? { l := l.(prev := l.prev[next.place := prev]); }
      l := l.(prev := l.prev[p := NoLink]);
      l := l.(next := l.next[p := NoLink]);
      links := links.With(kind, l);
      chained := chained[(p.pid, PageOf(p)) := ChainedOn(chained, p.pid, PageOf(p)) - 1];
    }

    /** `install_handle`, once the free index `p` is found. */
    method Install(store: F.Store, p: Place, h: Handle)
      requires Valid(store) && p !in slots && T.IsIndex(p.index)
      requires p.pid in holders && holders[p.pid] in store && Names(View(), store, h)
      modifies this
      ensures Valid(store) && View() == Installed(old(View()), store, p, h)
    {
      hide Sound, EnterIn, Names;
      ghost var after := InstallOk(View(), store, lists, p, h);
      var o, s := ChainHeads(store, holders[p.pid], h);
      slots := slots[p := Live(h)];
      if o.Some? { EnterChain(Objects, o.value, p); }
      if s.Some? { EnterChain(Stamps, s.value, p); }
      lists := after;
    }

    /** `chain_heads`: each only if `holder` is outside that budget's subtree; a process object's always. */
    method ChainHeads(store: F.Store, holder: Frame, h: Handle) returns (o: Option<Frame>, s: Option<Frame>)
      requires Valid(store) && holder in store && Names(View(), store, h)
      ensures o == HeadFrame(owners, store, Objects, holder, h) && s == HeadFrame(owners, store, Stamps, holder, h)
    {
      match h.names {
        case ProcessObject(f) => o := Some(f);
        case BudgetObject(f) =>
          var inside := WithinBudget(store, holder, f);
          o := if inside then None else Some(f);
        case EndpointObject(f) =>
          var inside := WithinBudget(store, holder, owners[f]);
          o := if inside then None else Some(owners[f]);
        case DeviceObject(f) =>
          var inside := WithinBudget(store, holder, owners[f]);
          o := if inside then None else Some(owners[f]);
      }
      var stamped := WithinBudget(store, holder, h.stamp);
      s := if stamped then None else Some(h.stamp);
    }

    /** Out of both chains. */
    method Loosen(p: Place)
      requires CanLeave(View(), Objects, p) && CanLeave(LeaveIn(View(), Objects, p), Stamps, p)
      modifies this`links, this`chained
      ensures View() == LeaveBoth(old(View()), p)
    {
      hide LeaveIn;
      LeaveChain(Objects, p);
      LeaveChain(Stamps, p);
    }

    /** `kill_handle`: a live handle out of its chains and left a dead entry; anything else as it was. */
    method Kill(store: F.Store, p: Place)
      requires Valid(store)
      modifies this`slots, this`links, this`chained, this`lists
      ensures Valid(store)
      ensures slots == if p in old(slots) && old(slots)[p].Live? then old(slots)[p := Dead] else old(slots)
    {
      if p !in slots || !slots[p].Live? { return; }
      hide Sound, CanLeave, LeaveBoth;
      ghost var was := View();
      ghost var after := ShutOk(was, store, lists, p, slots[p := Dead]);
      LeaveSame(was, p);
      Loosen(p);
      slots := slots[p := Dead];
      lists := after;
      assert View() == LeaveBoth(was, p).(slots := was.slots[p := Dead]);
    }

    /** `handle_close`, of a handle live or dead: its index is free again. */
    method Close(store: F.Store, p: Place)
      requires Valid(store)
      modifies this`slots, this`links, this`chained, this`lists
      ensures Valid(store) && slots == old(slots) - {p}
    {
      if p !in slots { return; }
      hide Sound, CanLeave, LeaveBoth;
      ghost var was := View();
      ghost var after := ShutOk(was, store, lists, p, slots - {p});
      LeaveSame(was, p);
      Loosen(p);
      slots := slots - {p};
      lists := after;
      assert View() == LeaveBoth(was, p).(slots := was.slots - {p});
    }

    /** `close_chain`: every handle the chain is to hold, and no other, is left dead. */
    method CloseChain(store: F.Store, kind: Kind, f: Frame)
      requires Valid(store)
      modifies this`slots, this`links, this`chained, this`lists
      ensures Valid(store) && Less(old(View()), View(), Dependents(old(View()), store, kind, f))
    {
      hide Sound, Dependents, HeadFor, Deadened;
      ghost var was, killed := View(), {};
      ClosingStarts(was, store, kind, f);
      while HeadOf(links.Of(kind), f).Slot?
        invariant Valid(store) && Less(was, View(), killed) && killed <= Dependents(was, store, kind, f)
        decreases Dependents(was, store, kind, f) - killed
      {
        var p := HeadOf(links.Of(kind), f).place;
        ChainTells(View(), store, lists, kind, f);
        ClosingStep(was, View(), store, kind, f, killed, p);
        Kill(store, p);
        killed := killed + {p};
      }
      ChainTells(View(), store, lists, kind, f);
      ClosingEnds(was, View(), store, kind, f, killed);
    }

    /** `close_handles_to`: no live handle names the process object `f` any more. */
    method CloseHandlesTo(store: F.Store, f: Frame)
      requires Valid(store) && f !in store
      modifies this`slots, this`links, this`chained, this`lists
      ensures Valid(store)
      ensures slots == Deadened(old(slots), set p | p in old(slots) && old(slots)[p].Live?
                                                    && old(slots)[p].handle.names == ProcessObject(f))
    {
      ObjectDependents(View(), store, f);
      CloseChain(store, Objects, f);
    }

    /** `destroy_marked`'s walk: with the subtree's processes gone, closing its budgets' chains one by one
        does what a sweep of every table would, so nothing live names or is stamped with any of them.
      */
    method CloseSubtree(store: F.Store, top: Frame, ghost kids: F.Forest)
      requires Valid(store) && F.Walkable(store, top, kids) && UpClosed(store, {top} + F.Frames(kids))
      requires forall pid :: pid in holders ==> holders[pid] !in {top} + F.Frames(kids)
      modifies this`slots, this`links, this`chained, this`lists
      ensures Valid(store) && slots == Swept(old(View()), {top} + F.Frames(kids))
      ensures forall p :: p in slots && slots[p].Live? ==> !Doomed(owners, slots[p].handle, {top} + F.Frames(kids))
    {
      hide Sound, Depending, Dependents, Deadened, Swept, Doomed, F.Walkable, F.Walk;
      ghost var was, wired, i := View(), lists, 0;
      DependingStarts(was, store, top, kids);
      var cur := Some(top);
      while cur.Some?
        invariant 0 <= i <= |F.Walk(top, kids)| && cur == F.WalkAt(top, kids, i)
        invariant Valid(store) && Less(was, View(), Depending(was, store, WalkedTo(top, kids, i)))
        decreases |F.Walk(top, kids)| - i
      {
        WalkGoesOn(store, top, kids, i);
        ghost var before := View();
        CloseChain(store, Objects, cur.value);
        ghost var mid := View();
        CloseChain(store, Stamps, cur.value);
        DependingMore(was, before, mid, View(), store, WalkedTo(top, kids, i), cur.value);
        cur := F.SubtreeNext(store, top, cur.value);
        i := i + 1;
      }
      WalkIsAll(store, top, kids, i);
      SweepIsDone(was, View(), store, top, kids, wired);
    }

    /** The slots of one of `pid`'s table pages out of their chains, no further than the page's count of
        entries says there are any.
      */
    method LoosenPage(store: F.Store, pid: Pid, page: nat)
      requires Ending(View(), store, lists, pid) && LooseTo(View(), pid, page * T.HANDLES_PER_PAGE)
      modifies this`links, this`chained, this`lists
      ensures Ending(View(), store, lists, pid) && LooseTo(View(), pid, page * T.HANDLES_PER_PAGE + T.HANDLES_PER_PAGE)
    {
      hide LooseTo, InPlace, Formed;
      var slot := 0;
      while slot < T.HANDLES_PER_PAGE
        invariant 0 <= slot <= T.HANDLES_PER_PAGE && Ending(View(), store, lists, pid)
        invariant LooseTo(View(), pid, page * T.HANDLES_PER_PAGE + slot)
      {
        if ChainedOn(chained, pid, page) == 0 {
          NoneChained(View(), pid, page, page * T.HANDLES_PER_PAGE + slot);
          return;
        }
        LoosenSlot(store, Place(pid, page * T.HANDLES_PER_PAGE + slot + 1));
        slot := slot + 1;
      }
    }

    method LoosenSlot(store: F.Store, p: Place)
      requires Ending(View(), store, lists, p.pid) && p.index > 0 && LooseTo(View(), p.pid, p.index - 1)
      modifies this`links, this`chained, this`lists
      ensures Ending(View(), store, lists, p.pid) && LooseTo(View(), p.pid, p.index)
    {
      hide Ending, LeaveIn, CanLeave;
      ghost var was := View();
      ghost var mid := EndingLeave(View(), store, lists, p.pid, Objects, p);
      LeaveChain(Objects, p);
      lists := mid;
      ghost var next := View();
      mid := EndingLeave(View(), store, lists, p.pid, Stamps, p);
      LeaveChain(Stamps, p);
      lists := mid;
      LooseMore(was, next, View(), p);
    }

    /** `close_all_handles`, as a process ends: its table goes whole, and no chain still names a slot of it. */
    method ProcessEnded(store: F.Store, pid: Pid)
      requires Valid(store)
      modifies this
      ensures Valid(store) && slots == WithoutPid(old(slots), pid) && holders == old(holders) - {pid}
      ensures owners == old(owners)
    {
      hide Sound, Ending, LooseTo;
      EndingStarts(View(), store, lists, pid);
      for page := 0 to T.MAX_HANDLE_PAGES
        invariant Ending(View(), store, lists, pid) && LooseTo(View(), pid, page * T.HANDLES_PER_PAGE)
        invariant slots == old(slots) && holders == old(holders) && owners == old(owners)
      {
        LoosenPage(store, pid, page);
      }
      SoundNames(old(View()), View(), store, old(lists));
      EndingEnds(View(), store, lists, pid);
      slots := WithoutPid(slots, pid);
      holders := holders - {pid};
    }
  }
}
