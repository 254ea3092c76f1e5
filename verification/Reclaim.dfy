/** Frames in flight (kernel/src/reclaim.rs, kernel/src/mem.rs, R81). A freed frame is staged until no hart
    can store to it, pended, zeroed by an idle hart outside the kernel lock or by an allocation inside it,
    and given back to the free frames only when it is zero.
  */
module Reclaim {
  import opened Basics

  type Frame = nat
  type Pid = nat

  /** The words of a frame, and the one that links a frame in flight. */
  const WORDS: nat := 512
  const LINK: nat := 100
  const STAGE_MAX: nat := 64

  datatype Owner = Free | InFlight | Owned(pid: Pid)

  /** Where a hart is in `zero_taken`, outside the lock: zeroing word by word; about to write the link to
      the done list's head it read; about to swap the head; about to forget the frame.
    */
  datatype Pc =
    | Running
    | Zeroing(frame: Frame, next: nat)
    | Linking(frame: Frame, head: nat)
    | Swapping(frame: Frame, head: nat)
    | Clearing(frame: Frame)

  /** One hart's lists. A frame is named by its number plus one, 0 for none. `pend` and `finished` are what
      `pending` and `done` spell through the frames' links, the last first.
    */
  datatype Hart = Hart(
    staged: seq<Frame>, stagedPid: Pid, pending: nat, zeroing: nat, done: nat, pc: Pc,
    pend: seq<Frame>, finished: seq<Frame>)

  /** The places a frame in flight can be. */
  datatype Spot =
    | Staged(hart: nat, i: nat)
    | Chained(i: nat)
    | Pending(hart: nat, i: nat)
    | Held(hart: nat)
    | Done(hart: nat, i: nat)
    | Commit(i: nat)

  /** `mapped`: the processes whose page tables name a frame. `reach`: those through whose translations, current or
      left behind on some hart, it may still be stored to. `dirty`: the frames free since boot, never zeroed.
      `section`: the lock's holder. `chain` and `commit` are what `chainFirst` and `committing` spell, and `at` where
      each frame in flight is.
    */
  datatype State = State(
    owner: seq<Owner>, words: seq<seq<nat>>, mapped: map<Frame, set<Pid>>, reach: map<Frame, set<Pid>>,
    dirty: set<Frame>,
    section: Option<nat>, chainFirst: nat, committing: nat, harts: seq<Hart>,
    chain: seq<Frame>, commit: seq<Frame>, at: map<Frame, Spot>)

  function Of(m: map<Frame, set<Pid>>, f: Frame): set<Pid> { if f in m then m[f] else {} }

  /** The processes through whose translations frame `f` may still be stored to. */
  function Reaches(s: State, f: Frame): set<Pid> { Of(s.reach, f) }

  // --- Lists spelled through the frames ----------------------------------------------------------------------

  /** A list's head, and the link of each of its frames to the one below it. */
  function Top(s: seq<Frame>): nat { if s == [] then 0 else s[|s| - 1] + 1 }

  function Below(s: seq<Frame>, i: nat): nat
    requires i < |s|
  {
    if i == 0 then 0 else s[i - 1] + 1
  }

  function WithWord(page: seq<nat>, w: nat, v: nat): seq<nat>
    requires w < |page|
  {
    page[w := v]
  }

  function Zeros(): seq<nat> { seq(WORDS, _ => 0) }

  ghost predicate RestZero(page: seq<nat>) {
    |page| == WORDS && forall w :: 0 <= w < WORDS && w != LINK ==> page[w] == 0
  }

  ghost predicate ZeroTo(page: seq<nat>, n: nat) {
    |page| == WORDS && forall w :: 0 <= w < n && w < WORDS ==> page[w] == 0
  }

  ghost predicate IsZero(page: seq<nat>) { ZeroTo(page, WORDS) }

  // --- Where a frame is ---------------------------------------------------------------------------------------

  function FrameOf(pc: Pc): Option<Frame> {
    match pc
    case Zeroing(f, _) => Some(f)
    case Linking(f, _) => Some(f)
    case Swapping(f, _) => Some(f)
    case _ => None
  }

  function Nth(s: seq<Frame>, i: nat): Option<Frame> { if i < |s| then Some(s[i]) else None }

  /** What sits in a place. */
  function Content(s: State, spot: Spot): Option<Frame> {
    match spot
    case Staged(h, i) => if h < |s.harts| then Nth(s.harts[h].staged, i) else None
    case Chained(i) => Nth(s.chain, i)
    case Pending(h, i) => if h < |s.harts| then Nth(s.harts[h].pend, i) else None
    case Held(h) => if h < |s.harts| then FrameOf(s.harts[h].pc) else None
    case Done(h, i) => if h < |s.harts| then Nth(s.harts[h].finished, i) else None
    case Commit(i) => Nth(s.commit, i)
  }

  /** Every frame in flight but those in `hand` is in exactly one place, and each place's frame is there. */
  ghost predicate Seated(s: State, hand: set<Frame>) {
    && (forall f :: f in s.at ==> Content(s, s.at[f]) == Some(f))
    && (forall spot :: Content(s, spot).Some? ==>
        Content(s, spot).value in s.at && s.at[Content(s, spot).value] == spot)
    && (forall f: Frame :: f in s.at || f in hand <==> f < |s.owner| && s.owner[f].InFlight?)
    && (forall f :: f in s.at ==> f !in hand)
  }

  ghost predicate Sized(s: State) {
    && |s.words| == |s.owner| && (forall f :: 0 <= f < |s.words| ==> |s.words[f]| == WORDS)
    && (s.section.Some? ==> s.section.value < |s.harts|)
  }

  /** What a frame in its place holds, and that nobody else can store to it once it leaves the stage. */
  ghost predicate Fits(s: State, f: Frame, spot: Spot)
    requires Content(s, spot) == Some(f) && f < |s.words|
  {
    match spot
    case Staged(h, i) => true
    case Chained(i) => Reaches(s, f) == {} && Linked(s.words[f], s.chain, i)
    case Pending(h, i) => Reaches(s, f) == {} && Linked(s.words[f], s.harts[h].pend, i)
    case Held(h) => Reaches(s, f) == {} && HeldOk(s.words[f], s.harts[h].pc)
    case Done(h, i) => Reaches(s, f) == {} && RestZero(s.words[f]) && Linked(s.words[f], s.harts[h].finished, i)
    case Commit(i) => Reaches(s, f) == {} && RestZero(s.words[f]) && Linked(s.words[f], s.commit, i)
  }

  ghost predicate Linked(page: seq<nat>, list: seq<Frame>, i: nat) {
    |page| == WORDS && i < |list| && page[LINK] == Below(list, i)
  }

  /** How far the zeroing has come. */
  ghost predicate HeldOk(page: seq<nat>, pc: Pc) {
    match pc
    case Zeroing(_, k) => k <= WORDS && ZeroTo(page, k)
    case Linking(_, _) => RestZero(page)
    case Swapping(_, head) => RestZero(page) && page[LINK] == head
    case _ => true
  }

  ghost predicate Fitted(s: State) {
    forall f :: f in s.at ==> f < |s.words| && Content(s, s.at[f]) == Some(f) && Fits(s, f, s.at[f])
  }

  ghost predicate Headed(s: State) {
    && s.chainFirst == Top(s.chain) && s.committing == Top(s.commit)
    && (forall h :: 0 <= h < |s.harts| ==> HartOk(s.harts[h]))
  }

  ghost predicate HartOk(x: Hart) {
    && x.pending == Top(x.pend) && x.done == Top(x.finished) && |x.staged| <= STAGE_MAX
    && (FrameOf(x.pc).Some? ==> x.zeroing == FrameOf(x.pc).value + 1)
    && (x.pc.Clearing? ==> x.zeroing == x.pc.frame + 1)
    && (x.pc.Running? ==> x.zeroing == 0)
  }

  /** Only the lock's holder has frames staged or chained. */
  ghost predicate Sectioned(s: State) {
    && (s.chain != [] ==> s.section.Some?)
    && (forall h :: 0 <= h < |s.harts| && s.harts[h].staged != [] ==> s.section == Some(h))
  }

  /** A hart may still store only to frames in use, or to staged ones, those of the process it shoots down. */
  ghost predicate Stales(s: State, hand: set<Frame>) {
    && (forall f: Frame, p: Pid :: p in Of(s.reach, f) ==>
          && f < |s.owner|
          && (s.owner[f].Owned? || f in hand || (f in s.at && StagedFor(s, s.at[f], p))))
    && (forall f: Frame, p: Pid :: p in Of(s.mapped, f) ==>
          p in Of(s.reach, f) && f < |s.owner| && s.owner[f].Owned?)
  }

  ghost predicate StagedFor(s: State, spot: Spot, pid: Pid) {
    spot.Staged? && spot.hart < |s.harts| && s.harts[spot.hart].stagedPid == pid
  }

  /** A free frame is zero, or was free at boot, and no hart can store to it. */
  ghost predicate Clean(s: State) {
    && (forall f :: 0 <= f < |s.owner| && s.owner[f].Free? ==> Reaches(s, f) == {})
    && (forall f :: 0 <= f < |s.owner| && f < |s.words| && s.owner[f].Free? && f !in s.dirty ==> IsZero(s.words[f]))
  }

  ghost predicate InvBut(s: State, hand: set<Frame>) {
    Sized(s) && Seated(s, hand) && Fitted(s) && Headed(s) && Sectioned(s) && Stales(s, hand) && Clean(s)
  }

  ghost predicate Inv(s: State) { InvBut(s, {}) }

  // --- One frame moved -----------------------------------------------------------------------------------------

  /** Only place `spot` changed. */
  ghost predicate OnlySpot(s: State, s': State, spot: Spot) {
    forall sp :: sp != spot ==> Content(s', sp) == Content(s, sp)
  }

  lemma {:induction false} SeatedPut(s: State, s': State, hand: set<Frame>, f: Frame, spot: Spot)
    requires Seated(s, hand) && f in hand && Content(s, spot).None? && Content(s', spot) == Some(f)
    requires OnlySpot(s, s', spot) && s'.at == s.at[f := spot] && s'.owner == s.owner
    ensures Seated(s', hand - {f})
  {
  }

  lemma {:induction false} SeatedTake(s: State, s': State, hand: set<Frame>, f: Frame)
    requires Seated(s, hand) && f in s.at && Content(s', s.at[f]).None?
    requires OnlySpot(s, s', s.at[f]) && s'.at == s.at - {f} && s'.owner == s.owner
    ensures Seated(s', hand + {f})
  {
  }

  lemma {:induction false} SeatedTells(s: State, hand: set<Frame>)
    requires Seated(s, hand)
    ensures forall g :: g in s.at ==> Content(s, s.at[g]) == Some(g)
  {
  }

  /** Frame `g` stays where it is, and as it is. */
  ghost predicate Still(s: State, s': State, g: Frame)
    requires g in s.at
  {
    && g in s'.at && s'.at[g] == s.at[g] && g < |s.words| && g < |s'.words| && s'.words[g] == s.words[g]
    && Of(s'.reach, g) <= Of(s.reach, g) && SameBelow(s, s', s.at[g])
  }

  /** Place `spot` holds the same frame, over the same one. */
  ghost predicate SameBelow(s: State, s': State, spot: Spot) {
    && Content(s', spot) == Content(s, spot)
    && match spot
       case Chained(i) => i > 0 ==> Content(s', Chained(i - 1)) == Content(s, Chained(i - 1))
       case Pending(h, i) => i > 0 ==> Content(s', Pending(h, i - 1)) == Content(s, Pending(h, i - 1))
       case Done(h, i) => i > 0 ==> Content(s', Done(h, i - 1)) == Content(s, Done(h, i - 1))
       case Commit(i) => i > 0 ==> Content(s', Commit(i - 1)) == Content(s, Commit(i - 1))
       case Held(h) => h < |s.harts| && h < |s'.harts| && s'.harts[h].pc == s.harts[h].pc
       case Staged(_, _) => true
  }

  lemma {:induction false} StillFits(s: State, s': State, g: Frame)
    requires g in s.at && Content(s, s.at[g]) == Some(g) && g < |s.words| && Fits(s, g, s.at[g]) && Still(s, s', g)
    ensures Content(s', s'.at[g]) == Some(g) && Fits(s', g, s'.at[g])
  {
    hide RestZero, HeldOk;
  }

  /** The place over `spot` in its list. */
  function Over(spot: Spot): Spot {
    match spot
    case Staged(h, i) => Staged(h, i + 1)
    case Chained(i) => Chained(i + 1)
    case Pending(h, i) => Pending(h, i + 1)
    case Held(h) => Held(h)
    case Done(h, i) => Done(h, i + 1)
    case Commit(i) => Commit(i + 1)
  }

  /** One place changed, the last of its list; every frame elsewhere is as it was. */
  ghost predicate LastChanged(s: State, s': State, spot: Spot) {
    && OnlySpot(s, s', spot) && |s'.harts| == |s.harts| && |s'.words| == |s.words|
    && (!spot.Held? ==> Content(s, Over(spot)).None?)
    && (forall h :: 0 <= h < |s.harts| && spot != Held(h) ==> s'.harts[h].pc == s.harts[h].pc)
    && (forall g :: g in s'.at && s'.at[g] != spot ==> Kept(s, s', g))
  }

  ghost predicate Kept(s: State, s': State, g: Frame)
    requires g in s'.at
  {
    g in s.at && s.at[g] == s'.at[g] && g < |s.words| && g < |s'.words| && s'.words[g] == s.words[g]
    && Of(s'.reach, g) <= Of(s.reach, g)
  }

  lemma {:induction false} FittedLast(s: State, s': State, spot: Spot)
    requires Fitted(s) && LastChanged(s, s', spot)
    requires forall g :: g in s'.at && s'.at[g] == spot ==>
               g < |s'.words| && Content(s', spot) == Some(g) && Fits(s', g, spot)
    ensures Fitted(s')
  {
    hide Fits;
    forall g | g in s'.at ensures g < |s'.words| && Content(s', s'.at[g]) == Some(g) && Fits(s', g, s'.at[g]) {
      if s'.at[g] != spot {
        assert Kept(s, s', g);
        StillOver(s, s', spot, g);
        StillFits(s, s', g);
      }
    }
  }

  lemma {:induction false} StillOver(s: State, s': State, spot: Spot, g: Frame)
    requires LastChanged(s, s', spot) && g in s.at && g in s'.at && s'.at[g] != spot && Kept(s, s', g)
    requires Content(s, s.at[g]) == Some(g)
    ensures Still(s, s', g)
  {
    assert s.at[g] != Over(spot) || spot.Held?;
  }

  /** Onto hart `h`'s pending list, its link written over whatever the frame held there. */
  function PushPending(s: State, h: nat, f: Frame): State
    requires h < |s.harts| && f < |s.words| && |s.words[f]| == WORDS
  {
    var x := s.harts[h];
    s.(words := s.words[f := WithWord(s.words[f], LINK, x.pending)],
       harts := s.harts[h := x.(pending := f + 1, pend := x.pend + [f])],
       at := s.at[f := Pending(h, |x.pend|)])
  }

  lemma {:induction false} PushPendingKeeps(s: State, h: nat, f: Frame, hand: set<Frame>)
    requires InvBut(s, hand) && h < |s.harts| && f in hand && Reaches(s, f) == {}
    ensures f < |s.words| && |s.words[f]| == WORDS && InvBut(PushPending(s, h, f), hand - {f})
  {
    hide Fitted, Fits, LastChanged, OnlySpot, Content, Stales, Clean, Sectioned;
    var s', x := PushPending(s, h, f), s.harts[h];
    assert HartOk(x);
    PushPendingLast(s, h, f);
    SeatedPut(s, s', hand, f, Pending(h, |x.pend|));
    PushPendingFits(s, h, f);
    FittedLast(s, s', Pending(h, |x.pend|));
    PushPendingRest(s, h, f, hand);
  }

  lemma {:induction false} PushPendingRest(s: State, h: nat, f: Frame, hand: set<Frame>)
    requires h < |s.harts| && f < |s.words| && |s.words[f]| == WORDS && Reaches(s, f) == {} && f !in s.at
    requires Sectioned(s) && Stales(s, hand) && Clean(s) && f < |s.owner| && s.owner[f].InFlight?
    ensures var s' := PushPending(s, h, f); Sectioned(s') && Stales(s', hand - {f}) && Clean(s')
  {
  }

  lemma {:induction false} PushPendingLast(s: State, h: nat, f: Frame)
    requires h < |s.harts| && f < |s.words| && |s.words[f]| == WORDS && f !in s.at && Fitted(s)
    ensures var s', spot := PushPending(s, h, f), Pending(h, |s.harts[h].pend|);
            && LastChanged(s, s', spot) && OnlySpot(s, s', spot)
            && Content(s, spot).None? && Content(s', spot) == Some(f)
            && (forall g :: g in s'.at && s'.at[g] == spot ==> g == f)
  {
    hide Fits;
  }

  lemma {:induction false} PushPendingFits(s: State, h: nat, f: Frame)
    requires h < |s.harts| && f < |s.words| && |s.words[f]| == WORDS && Reaches(s, f) == {} && HartOk(s.harts[h])
    ensures var s' := PushPending(s, h, f);
            Content(s', s'.at[f]) == Some(f) && Fits(s', f, s'.at[f])
  {
  }

  /** Kept on the hart until process `pid` is shot down. */
  function PushStaged(s: State, h: nat, f: Frame, pid: Pid): State
    requires h < |s.harts|
  {
    var x := s.harts[h];
    s.(harts := s.harts[h := x.(staged := x.staged + [f], stagedPid := pid)], at := s.at[f := Staged(h, |x.staged|)])
  }

  lemma {:induction false} PushStagedKeeps(s: State, h: nat, f: Frame, pid: Pid, hand: set<Frame>)
    requires InvBut(s, hand) && h < |s.harts| && f in hand && Reaches(s, f) <= {pid}
    requires s.section == Some(h) && |s.harts[h].staged| < STAGE_MAX
    requires s.harts[h].staged != [] ==> s.harts[h].stagedPid == pid
    ensures InvBut(PushStaged(s, h, f, pid), hand - {f})
  {
    hide Fitted, Fits, LastChanged, OnlySpot, Content, Stales, Clean;
    var s', x := PushStaged(s, h, f, pid), s.harts[h];
    assert HartOk(x);
    PushStagedLast(s, h, f, pid);
    SeatedPut(s, s', hand, f, Staged(h, |x.staged|));
    PushStagedFits(s, h, f, pid);
    FittedLast(s, s', Staged(h, |x.staged|));
    PushStagedRest(s, h, f, pid, hand);
  }

  lemma {:induction false} PushStagedLast(s: State, h: nat, f: Frame, pid: Pid)
    requires h < |s.harts| && f !in s.at && Fitted(s)
    ensures var s', spot := PushStaged(s, h, f, pid), Staged(h, |s.harts[h].staged|);
            && LastChanged(s, s', spot) && OnlySpot(s, s', spot)
            && Content(s, spot).None? && Content(s', spot) == Some(f)
            && (forall g :: g in s'.at && s'.at[g] == spot ==> g == f)
  {
    hide Fits;
  }

  lemma {:induction false} PushStagedFits(s: State, h: nat, f: Frame, pid: Pid)
    requires h < |s.harts| && f < |s.words|
    ensures var s' := PushStaged(s, h, f, pid);
            Content(s', s'.at[f]) == Some(f) && Fits(s', f, s'.at[f])
  {
  }

  lemma {:induction false} PushStagedRest(s: State, h: nat, f: Frame, pid: Pid, hand: set<Frame>)
    requires h < |s.harts| && Reaches(s, f) <= {pid} && Seated(s, hand) && f in hand
    requires s.harts[h].staged != [] ==> s.harts[h].stagedPid == pid
    requires Stales(s, hand) && Clean(s)
    ensures var s' := PushStaged(s, h, f, pid); Stales(s', hand - {f}) && Clean(s')
  {
    var s' := PushStaged(s, h, f, pid);
    forall g: Frame, p: Pid | p in Of(s.reach, g)
      ensures g < |s.owner|
      ensures s.owner[g].Owned? || g in hand - {f} || (g in s'.at && StagedFor(s', s'.at[g], p))
    {
      if g in s.at && s.at[g].Staged? && s.at[g].hart == h { assert Content(s, s.at[g]) == Some(g); }
    }
  }

  /** Onto the front of the chain of object frames a destruction frees. */
  function PushChain(s: State, f: Frame): State
    requires f < |s.words| && |s.words[f]| == WORDS
  {
    s.(words := s.words[f := WithWord(s.words[f], LINK, s.chainFirst)], chainFirst := f + 1, chain := s.chain + [f],
       at := s.at[f := Chained(|s.chain|)])
  }

  lemma {:induction false} PushChainKeeps(s: State, f: Frame, hand: set<Frame>)
    requires InvBut(s, hand) && f in hand && Reaches(s, f) == {} && s.section.Some?
    ensures f < |s.words| && |s.words[f]| == WORDS && InvBut(PushChain(s, f), hand - {f})
  {
    hide Fitted, Fits, LastChanged, OnlySpot, Content, Stales, Clean;
    var s' := PushChain(s, f);
    PushChainLast(s, f);
    SeatedPut(s, s', hand, f, Chained(|s.chain|));
    PushChainFits(s, f);
    FittedLast(s, s', Chained(|s.chain|));
    PushChainRest(s, f, hand);
  }

  lemma {:induction false} PushChainLast(s: State, f: Frame)
    requires f < |s.words| && |s.words[f]| == WORDS && f !in s.at && Fitted(s)
    ensures var s', spot := PushChain(s, f), Chained(|s.chain|);
            && LastChanged(s, s', spot) && OnlySpot(s, s', spot)
            && Content(s, spot).None? && Content(s', spot) == Some(f)
            && (forall g :: g in s'.at && s'.at[g] == spot ==> g == f)
  {
    hide Fits;
  }

  lemma {:induction false} PushChainFits(s: State, f: Frame)
    requires f < |s.words| && |s.words[f]| == WORDS && Reaches(s, f) == {} && s.chainFirst == Top(s.chain)
    ensures var s' := PushChain(s, f);
            Content(s', s'.at[f]) == Some(f) && Fits(s', f, s'.at[f])
  {
  }

  lemma {:induction false} PushChainRest(s: State, f: Frame, hand: set<Frame>)
    requires f < |s.words| && |s.words[f]| == WORDS && Reaches(s, f) == {} && f !in s.at
    requires Stales(s, hand) && Clean(s) && f < |s.owner| && s.owner[f].InFlight?
    ensures var s' := PushChain(s, f); Stales(s', hand - {f}) && Clean(s')
  {
  }

  /** Off hart `h`'s pending list: the head becomes what the frame links to. */
  function PopPending(s: State, h: nat): State
    requires h < |s.harts| && s.harts[h].pend != []
    requires var f := s.harts[h].pend[|s.harts[h].pend| - 1]; f < |s.words| && |s.words[f]| == WORDS
  {
    var x := s.harts[h];
    var f := x.pend[|x.pend| - 1];
    s.(harts := s.harts[h := x.(pending := s.words[f][LINK], pend := x.pend[..|x.pend| - 1])], at := s.at - {f})
  }

  ghost predicate HasPending(s: State, h: nat, f: Frame) {
    h < |s.harts| && s.harts[h].pend != [] && f == s.harts[h].pend[|s.harts[h].pend| - 1]
  }

  lemma {:induction false} PendingTells(s: State, h: nat, f: Frame, hand: set<Frame>)
    requires InvBut(s, hand) && HasPending(s, h, f)
    ensures s.harts[h].pending == f + 1
    ensures f in s.at && s.at[f] == Pending(h, |s.harts[h].pend| - 1) && f < |s.words| && |s.words[f]| == WORDS
    ensures Reaches(s, f) == {} && s.words[f][LINK] == Top(s.harts[h].pend[..|s.harts[h].pend| - 1])
    ensures f < |s.owner| && s.owner[f].InFlight? && f !in hand
  {
    hide RestZero, HeldOk;
    assert HartOk(s.harts[h]);
    assert Content(s, Pending(h, |s.harts[h].pend| - 1)) == Some(f);
    assert Fits(s, f, s.at[f]);
  }

  lemma {:induction false} PopPendingKeeps(s: State, h: nat, f: Frame, hand: set<Frame>)
    requires InvBut(s, hand) && HasPending(s, h, f)
    ensures f < |s.words| && |s.words[f]| == WORDS && InvBut(PopPending(s, h), hand + {f})
  {
    hide Fitted, Fits, LastChanged, OnlySpot, Content, Stales, Clean, Seated, Sectioned;
    PendingTells(s, h, f, hand);
    SeatedTells(s, hand);
    var s', spot := PopPending(s, h), s.at[f];
    assert HartOk(s.harts[h]);
    PopPendingLast(s, h, f);
    SeatedTake(s, s', hand, f);
    FittedLast(s, s', spot);
    PopPendingRest(s, h, f, hand);
  }

  lemma {:induction false} PopPendingLast(s: State, h: nat, f: Frame)
    requires HasPending(s, h, f) && f in s.at && s.at[f] == Pending(h, |s.harts[h].pend| - 1) && Fitted(s)
    requires f < |s.words| && |s.words[f]| == WORDS
    requires forall g :: g in s.at ==> Content(s, s.at[g]) == Some(g)
    ensures var s', spot := PopPending(s, h), s.at[f];
            && LastChanged(s, s', spot) && OnlySpot(s, s', spot) && Content(s', spot).None?
            && (forall g :: g in s'.at ==> s'.at[g] != spot)
  {
    hide Fits;
  }

  lemma {:induction false} PopPendingRest(s: State, h: nat, f: Frame, hand: set<Frame>)
    requires HasPending(s, h, f) && Reaches(s, f) == {} && f < |s.words| && |s.words[f]| == WORDS
    requires Stales(s, hand) && Clean(s) && Sectioned(s)
    ensures var s' := PopPending(s, h); Stales(s', hand + {f}) && Clean(s') && Sectioned(s')
  {
  }

  /** `unlink`: off the list being committed, its link cleared. */
  function PopCommit(s: State): State
    requires s.commit != []
    requires var f := s.commit[|s.commit| - 1]; f < |s.words| && |s.words[f]| == WORDS
  {
    var f := s.commit[|s.commit| - 1];
    s.(words := s.words[f := WithWord(s.words[f], LINK, 0)],
       committing := s.words[f][LINK], commit := s.commit[..|s.commit| - 1], at := s.at - {f})
  }

  lemma {:induction false} CommitTells(s: State, f: Frame, hand: set<Frame>)
    requires InvBut(s, hand) && s.commit != [] && f == s.commit[|s.commit| - 1]
    ensures f in s.at && s.at[f] == Commit(|s.commit| - 1) && f < |s.words| && |s.words[f]| == WORDS
    ensures Reaches(s, f) == {} && s.words[f][LINK] == Top(s.commit[..|s.commit| - 1]) && RestZero(s.words[f])
    ensures f < |s.owner| && s.owner[f].InFlight? && f !in hand && s.committing == f + 1
  {
    hide HeldOk;
    assert Content(s, Commit(|s.commit| - 1)) == Some(f);
    assert Fits(s, f, s.at[f]);
  }

  lemma {:induction false} PopCommitKeeps(s: State, f: Frame, hand: set<Frame>)
    requires InvBut(s, hand) && s.commit != [] && f == s.commit[|s.commit| - 1]
    ensures f < |s.words| && |s.words[f]| == WORDS && InvBut(PopCommit(s), hand + {f}) && IsZero(PopCommit(s).words[f])
  {
    hide Fitted, Fits, LastChanged, OnlySpot, Content, Stales, Clean, Seated;
    CommitTells(s, f, hand);
    SeatedTells(s, hand);
    var s', spot := PopCommit(s), s.at[f];
    PopCommitLast(s, f);
    SeatedTake(s, s', hand, f);
    FittedLast(s, s', spot);
    PopCommitRest(s, f, hand);
  }

  lemma {:induction false} PopCommitLast(s: State, f: Frame)
    requires s.commit != [] && f == s.commit[|s.commit| - 1] && f in s.at && s.at[f] == Commit(|s.commit| - 1)
    requires Fitted(s)
    requires f < |s.words| && |s.words[f]| == WORDS
    requires forall g :: g in s.at ==> Content(s, s.at[g]) == Some(g)
    ensures var s', spot := PopCommit(s), s.at[f];
            && LastChanged(s, s', spot) && OnlySpot(s, s', spot) && Content(s', spot).None?
            && (forall g :: g in s'.at ==> s'.at[g] != spot)
  {
    hide Fits;
  }

  lemma {:induction false} PopCommitRest(s: State, f: Frame, hand: set<Frame>)
    requires s.commit != [] && f == s.commit[|s.commit| - 1] && Reaches(s, f) == {}
    requires f < |s.words| && |s.words[f]| == WORDS
    requires f < |s.owner| && s.owner[f].InFlight?
    requires Stales(s, hand) && Clean(s)
    ensures var s' := PopCommit(s); Stales(s', hand + {f}) && Clean(s')
  {
  }

  /** Frame `f` is now the one hart `h` alone holds, to zero outside the lock. */
  function Hold(s: State, h: nat, f: Frame): State
    requires h < |s.harts|
  {
    s.(harts := s.harts[h := s.harts[h].(pc := Zeroing(f, 0), zeroing := f + 1)], at := s.at[f := Held(h)])
  }

  lemma {:induction false} HoldKeeps(s: State, h: nat, f: Frame, hand: set<Frame>)
    requires InvBut(s, hand) && h < |s.harts| && s.harts[h].pc.Running? && f in hand && Reaches(s, f) == {}
    ensures InvBut(Hold(s, h, f), hand - {f})
  {
    hide Fitted, Fits, LastChanged, OnlySpot, Content, Stales, Clean;
    var s' := Hold(s, h, f);
    assert HartOk(s.harts[h]);
    HoldLast(s, h, f);
    SeatedPut(s, s', hand, f, Held(h));
    FittedLast(s, s', Held(h));
    HoldRest(s, h, f, hand);
  }

  lemma {:induction false} HoldLast(s: State, h: nat, f: Frame)
    requires h < |s.harts| && s.harts[h].pc.Running? && f !in s.at && Fitted(s) && f < |s.words|
    requires |s.words[f]| == WORDS && Reaches(s, f) == {}
    ensures var s', spot := Hold(s, h, f), Held(h);
            && LastChanged(s, s', spot) && OnlySpot(s, s', spot)
            && Content(s, spot).None? && Content(s', spot) == Some(f) && Fits(s', f, spot)
            && (forall g :: g in s'.at && s'.at[g] == spot ==> g == f)
  {
  }

  lemma {:induction false} HoldRest(s: State, h: nat, f: Frame, hand: set<Frame>)
    requires h < |s.harts| && Reaches(s, f) == {} && f !in s.at && Stales(s, hand) && Clean(s)
    ensures var s' := Hold(s, h, f); Stales(s', hand - {f}) && Clean(s')
  {
  }

  /** A step of `zero_taken`: hart `h`'s frame holds `page`, and it goes on at `pc`. */
  function Work(s: State, h: nat, page: seq<nat>, pc: Pc): State
    requires h < |s.harts| && FrameOf(s.harts[h].pc).Some?
  {
    var f := FrameOf(s.harts[h].pc).value;
    s.(words := if f < |s.words| then s.words[f := page] else s.words, harts := s.harts[h := s.harts[h].(pc := pc)])
  }

  lemma {:induction false} HeldTells(s: State, h: nat, f: Frame, hand: set<Frame>)
    requires InvBut(s, hand) && h < |s.harts| && FrameOf(s.harts[h].pc) == Some(f)
    ensures f in s.at && s.at[f] == Held(h) && f < |s.words| && |s.words[f]| == WORDS
    ensures Reaches(s, f) == {} && HeldOk(s.words[f], s.harts[h].pc)
    ensures f < |s.owner| && s.owner[f].InFlight? && f !in hand
  {
    hide HeldOk, RestZero;
    assert Content(s, Held(h)) == Some(f);
    assert Fits(s, f, s.at[f]);
  }

  lemma {:induction false} WorkKeeps(s: State, h: nat, f: Frame, page: seq<nat>, pc: Pc, hand: set<Frame>)
    requires InvBut(s, hand) && h < |s.harts| && FrameOf(s.harts[h].pc) == Some(f) && FrameOf(pc) == Some(f)
    requires |page| == WORDS && HeldOk(page, pc)
    ensures InvBut(Work(s, h, page, pc), hand)
  {
    hide Fitted, Fits, LastChanged, OnlySpot, Content, Stales, Clean, HeldOk, Seated;
    HeldTells(s, h, f, hand);
    var s' := Work(s, h, page, pc);
    assert HartOk(s.harts[h]);
    WorkLast(s, h, f, page, pc);
    SeatedSame(s, s', hand);
    FittedLast(s, s', Held(h));
    WorkRest(s, h, f, page, pc, hand);
  }

  lemma {:induction false} SeatedSame(s: State, s': State, hand: set<Frame>)
    requires Seated(s, hand) && s'.at == s.at && s'.owner == s.owner && forall sp :: Content(s', sp) == Content(s, sp)
    ensures Seated(s', hand)
  {
  }

  lemma {:induction false} WorkLast(s: State, h: nat, f: Frame, page: seq<nat>, pc: Pc)
    requires h < |s.harts| && FrameOf(s.harts[h].pc) == Some(f) && FrameOf(pc) == Some(f) && Fitted(s)
    requires f in s.at && s.at[f] == Held(h) && f < |s.words| && Reaches(s, f) == {} && HeldOk(page, pc)
    ensures var s', spot := Work(s, h, page, pc), Held(h);
            && LastChanged(s, s', spot) && OnlySpot(s, s', spot) && (forall sp :: Content(s', sp) == Content(s, sp))
            && Content(s', spot) == Some(f) && Fits(s', f, spot)
            && (forall g :: g in s'.at && s'.at[g] == spot ==> g == f)
  {
    hide HeldOk;
  }

  lemma {:induction false} WorkRest(s: State, h: nat, f: Frame, page: seq<nat>, pc: Pc, hand: set<Frame>)
    requires h < |s.harts| && FrameOf(s.harts[h].pc) == Some(f) && f < |s.words| && f < |s.owner|
    requires s.owner[f].InFlight?
    requires Stales(s, hand) && Clean(s)
    ensures var s' := Work(s, h, page, pc); Stales(s', hand) && Clean(s')
  {
  }

  /** The swap that puts hart `h`'s zeroed frame on its done list. */
  function Finish(s: State, h: nat): State
    requires h < |s.harts| && FrameOf(s.harts[h].pc).Some?
  {
    var x := s.harts[h];
    var f := FrameOf(x.pc).value;
    s.(harts := s.harts[h := x.(done := f + 1, finished := x.finished + [f], pc := Clearing(f))],
       at := s.at[f := Done(h, |x.finished|)])
  }

  lemma {:induction false} FinishKeeps(s: State, h: nat, f: Frame, hand: set<Frame>)
    requires InvBut(s, hand) && h < |s.harts| && s.harts[h].pc == Swapping(f, s.harts[h].done)
    ensures InvBut(Finish(s, h), hand)
  {
    hide Fitted, Fits, OnlySpot, Content, Stales, Clean, RestZero, LastChanged, Seated, HeldOk;
    HeldTells(s, h, f, hand);
    SeatedTells(s, hand);
    assert HartOk(s.harts[h]);
    FinishSeated(s, h, f, hand);
    FinishFitted(s, h, f);
    FinishRest(s, h, f, hand);
  }

  lemma {:induction false} FinishSeated(s: State, h: nat, f: Frame, hand: set<Frame>)
    requires Seated(s, hand) && h < |s.harts| && s.harts[h].pc == Swapping(f, s.harts[h].done) && f in s.at
    requires s.at[f] == Held(h)
    ensures Seated(Finish(s, h), hand)
  {
    var s', spot := Finish(s, h), Done(h, |s.harts[h].finished|);
    forall sp | sp != spot && sp != Held(h) ensures Content(s', sp) == Content(s, sp) {}
    assert Content(s', spot) == Some(f) && Content(s, spot).None? && Content(s', Held(h)).None?;
    hide Content;
    forall sp | Content(s', sp).Some? ensures Content(s', sp).value in s'.at && s'.at[Content(s', sp).value] == sp {}
  }

  lemma {:induction false} FinishFitted(s: State, h: nat, f: Frame)
    requires Fitted(s) && h < |s.harts| && s.harts[h].pc == Swapping(f, s.harts[h].done) && HartOk(s.harts[h])
    requires f in s.at && s.at[f] == Held(h)
    requires f < |s.words| && Reaches(s, f) == {} && HeldOk(s.words[f], s.harts[h].pc)
    requires forall g :: g in s.at ==> Content(s, s.at[g]) == Some(g)
    ensures Fitted(Finish(s, h))
  {
    var s' := Finish(s, h);
    hide RestZero;
    forall g | g in s'.at ensures g < |s'.words| && Content(s', s'.at[g]) == Some(g) && Fits(s', g, s'.at[g]) {
      if g != f { StillFits(s, s', g); }
    }
  }

  lemma {:induction false} FinishRest(s: State, h: nat, f: Frame, hand: set<Frame>)
    requires h < |s.harts| && FrameOf(s.harts[h].pc) == Some(f) && Reaches(s, f) == {} && Stales(s, hand) && Clean(s)
    ensures var s' := Finish(s, h); Stales(s', hand) && Clean(s')
  {
  }

  /** The zeroing slot named the frame until now, pushed done though it is. */
  function Forget(s: State, h: nat): State
    requires h < |s.harts|
  {
    s.(harts := s.harts[h := s.harts[h].(pc := Running, zeroing := 0)])
  }

  lemma {:induction false} ForgetKeeps(s: State, h: nat, hand: set<Frame>)
    requires InvBut(s, hand) && h < |s.harts| && s.harts[h].pc.Clearing?
    ensures InvBut(Forget(s, h), hand)
  {
    hide Fits, Fitted, Content, Seated, Clean;
    var s' := Forget(s, h);
    assert HartOk(s.harts[h]);
    ForgetContent(s, h);
    SeatedSame(s, s', hand);
    FittedSame(s, s');
  }

  lemma {:induction false} ForgetContent(s: State, h: nat)
    requires h < |s.harts| && s.harts[h].pc.Clearing?
    ensures forall sp :: Content(Forget(s, h), sp) == Content(s, sp)
    ensures Clean(s) ==> Clean(Forget(s, h))
  {
  }

  /** Nothing in flight changed. */
  lemma {:induction false} FittedSame(s: State, s': State)
    requires Fitted(s) && s'.at == s.at && |s'.words| == |s.words| && (forall sp :: Content(s', sp) == Content(s, sp))
    requires |s'.harts| == |s.harts|
    requires forall h :: 0 <= h < |s.harts| && FrameOf(s.harts[h].pc).Some? ==> s'.harts[h].pc == s.harts[h].pc
    requires forall g :: g in s.at && !s.at[g].Staged? && g < |s.words| ==>
               s'.words[g] == s.words[g] && Of(s'.reach, g) <= Of(s.reach, g)
    ensures Fitted(s')
  {
    hide RestZero, HeldOk, ZeroTo;
    forall g | g in s'.at ensures g < |s'.words| && Content(s', s'.at[g]) == Some(g) && Fits(s', g, s'.at[g]) {
      if !s.at[g].Staged? { StillFits(s, s', g); }
    }
  }

  // --- Owners --------------------------------------------------------------------------------------------------

  /** `retire`: the frame's owner gives it up. */
  function Disown(s: State, f: Frame): State
    requires f < |s.owner|
  {
    s.(owner := s.owner[f := InFlight])
  }

  lemma {:induction false} DisownKeeps(s: State, f: Frame, hand: set<Frame>)
    requires InvBut(s, hand) && f < |s.owner| && s.owner[f].Owned? && Of(s.mapped, f) == {}
    ensures f !in hand && InvBut(Disown(s, f), hand + {f})
  {
    hide RestZero, HeldOk, ZeroTo, HartOk, Fits, Content;
    var s' := Disown(s, f);
    SameContent(s, s');
    FittedSame(s, s');
  }

  lemma {:induction false} SameContent(s: State, s': State)
    requires s'.harts == s.harts && s'.chain == s.chain && s'.commit == s.commit
    ensures forall sp :: Content(s', sp) == Content(s, sp)
  {
  }

  /** `give_back`: a frame in hand, zero, is free. */
  function GiveBack(s: State, f: Frame): State
    requires f < |s.owner|
  {
    s.(owner := s.owner[f := Free], dirty := s.dirty - {f})
  }

  lemma {:induction false} GiveBackKeeps(s: State, f: Frame, hand: set<Frame>)
    requires InvBut(s, hand) && f in hand && Reaches(s, f) == {} && f < |s.words| && IsZero(s.words[f])
    ensures f < |s.owner| && InvBut(GiveBack(s, f), hand - {f})
  {
    hide RestZero, HeldOk, ZeroTo, HartOk, Fits, Content;
    var s' := GiveBack(s, f);
    SameContent(s, s');
    FittedSame(s, s');
  }

  /** A frame in hand is written over whole. */
  function WriteHand(s: State, f: Frame, page: seq<nat>): State
    requires f < |s.words|
  {
    s.(words := s.words[f := page])
  }

  lemma {:induction false} WriteHandKeeps(s: State, f: Frame, page: seq<nat>, hand: set<Frame>)
    requires InvBut(s, hand) && f in hand && |page| == WORDS
    ensures f < |s.words| && InvBut(WriteHand(s, f, page), hand)
  {
    hide RestZero, HeldOk, ZeroTo, HartOk, Fits, Content;
    var s' := WriteHand(s, f, page);
    SameContent(s, s');
    FittedSame(s, s');
  }

  /** `take`: a free frame goes to a process, zeroed first if it was free since boot. */
  function Allocate(s: State, f: Frame, pid: Pid): State
    requires f < |s.owner| && f < |s.words|
  {
    s.(owner := s.owner[f := Owned(pid)], words := if f in s.dirty then s.words[f := Zeros()] else s.words,
       dirty := s.dirty - {f})
  }

  lemma {:induction false} AllocateKeeps(s: State, f: Frame, pid: Pid, hand: set<Frame>)
    requires InvBut(s, hand) && f < |s.owner| && s.owner[f].Free?
    ensures f < |s.words| && InvBut(Allocate(s, f, pid), hand)
    ensures IsZero(Allocate(s, f, pid).words[f]) && Reaches(Allocate(s, f, pid), f) == {}
  {
    hide RestZero, HeldOk, HartOk, Fits, Content;
    var s' := Allocate(s, f, pid);
    SameContent(s, s');
    FittedSame(s, s');
  }

  /** A store, by the kernel or through a translation, to a frame in use or in some process's reach. */
  function Stored(s: State, f: Frame, w: nat, v: nat): State
    requires f < |s.words| && w < |s.words[f]|
  {
    s.(words := s.words[f := WithWord(s.words[f], w, v)])
  }

  ghost predicate Reachable(s: State, f: Frame) {
    f < |s.owner| && (s.owner[f].Owned? || Reaches(s, f) != {})
  }

  lemma {:induction false} StoredKeeps(s: State, f: Frame, w: nat, v: nat)
    requires Inv(s) && Reachable(s, f) && w < WORDS
    ensures f < |s.words| && w < |s.words[f]| && Inv(Stored(s, f, w, v))
  {
    hide RestZero, HeldOk, ZeroTo, HartOk, Fits, Content;
    var s' := Stored(s, f, w, v);
    SameContent(s, s');
    forall g | g in s.at && !s.at[g].Staged? ensures g != f {
      assert s.owner[g].InFlight?;
      assert forall p :: p in Reaches(s, g) ==> StagedFor(s, s.at[g], p);
    }
    FittedSame(s, s');
  }

  // --- Whole lists -------------------------------------------------------------------------------------------------

  /** Every hart has acknowledged: what `pid`'s tables no longer name is out of its reach. */
  function Flushed(s: State, pid: Pid): State {
    s.(reach := map f | f in s.reach :: if pid in Of(s.mapped, f) then s.reach[f] else s.reach[f] - {pid})
  }

  lemma {:induction false} FlushedTells(s: State, pid: Pid)
    ensures forall f: Frame, p: Pid ::
              p in Of(Flushed(s, pid).reach, f) <==> p in Of(s.reach, f) && (p != pid || p in Of(s.mapped, f))
  {
  }

  lemma {:induction false} FlushedKeeps(s: State, pid: Pid, hand: set<Frame>)
    requires InvBut(s, hand)
    ensures InvBut(Flushed(s, pid), hand)
  {
    hide RestZero, HeldOk, ZeroTo, HartOk, Fits, Content, Of;
    var s' := Flushed(s, pid);
    FlushedTells(s, pid);
    SameContent(s, s');
    FittedSame(s, s');
  }

  /** An entry of `pid`'s tables made, which any hart that runs it may load. */
  function Mapping(s: State, f: Frame, pid: Pid): State {
    s.(mapped := s.mapped[f := Of(s.mapped, f) + {pid}], reach := s.reach[f := Of(s.reach, f) + {pid}])
  }

  /** An entry cleared: the harts that loaded it still have it. */
  function Unmapped(s: State, f: Frame, pid: Pid): State { s.(mapped := s.mapped[f := Of(s.mapped, f) - {pid}]) }

  /** `evict`: every hart has left the space, and none runs it again. */
  function Evicted(s: State, pid: Pid): State {
    s.(mapped := map f | f in s.mapped :: s.mapped[f] - {pid}, reach := map f | f in s.reach :: s.reach[f] - {pid})
  }

  lemma {:induction false} SpacesTell(s: State, f: Frame, pid: Pid)
    ensures forall g: Frame, p: Pid ::
              && (p in Of(Mapping(s, f, pid).mapped, g) <==> p in Of(s.mapped, g) || (g == f && p == pid))
              && (p in Of(Mapping(s, f, pid).reach, g) <==> p in Of(s.reach, g) || (g == f && p == pid))
              && (p in Of(Unmapped(s, f, pid).mapped, g) <==> p in Of(s.mapped, g) && !(g == f && p == pid))
              && (p in Of(Evicted(s, pid).mapped, g) <==> p in Of(s.mapped, g) && p != pid)
              && (p in Of(Evicted(s, pid).reach, g) <==> p in Of(s.reach, g) && p != pid)
    ensures Unmapped(s, f, pid).reach == s.reach
  {
  }

  /** The world's steps: nothing in flight, and no list, changes. */
  lemma {:induction false} MappingKeeps(s: State, f: Frame, pid: Pid)
    requires Inv(s) && f < |s.owner| && s.owner[f].Owned?
    ensures Inv(Mapping(s, f, pid)) && Inv(s.(owner := s.owner[f := Owned(pid)]))
  {
    hide Sized, Seated, Fitted, Headed, Sectioned, Clean, Of;
    SpacesTell(s, f, pid);
    SpacesKeep(s, Mapping(s, f, pid));
    SpacesKeep(s, s.(owner := s.owner[f := Owned(pid)]));
  }

  lemma {:induction false} UnmappedKeeps(s: State, f: Frame, pid: Pid)
    requires Inv(s)
    ensures Inv(Unmapped(s, f, pid)) && Inv(Evicted(s, pid))
  {
    hide Sized, Seated, Fitted, Headed, Sectioned, Clean, Of;
    SpacesTell(s, f, pid);
    SpacesKeep(s, Unmapped(s, f, pid));
    SpacesKeep(s, Evicted(s, pid));
  }

  lemma {:induction false} SpacesKeep(s: State, s': State)
    requires Inv(s) && s' == s.(owner := s'.owner, mapped := s'.mapped, reach := s'.reach) && Stales(s', {})
    requires |s'.owner| == |s.owner|
    requires forall f :: 0 <= f < |s.owner| ==>
               s'.owner[f] == s.owner[f] || (s.owner[f].Owned? && s'.owner[f].Owned?)
    requires forall f :: 0 <= f < |s.owner| && !s.owner[f].Owned? ==> Of(s'.reach, f) <= Of(s.reach, f)
    ensures Inv(s')
  {
    hide RestZero, HeldOk, ZeroTo, HartOk, Fits, Content;
    SameContent(s, s');
    FittedSame(s, s');
  }

  ghost function Elements(fs: seq<Frame>): set<Frame> { set i | 0 <= i < |fs| :: fs[i] }

  /** Hart `h`'s stage is emptied into the hand. */
  function Unstage(s: State, h: nat): State
    requires h < |s.harts|
  {
    s.(harts := s.harts[h := s.harts[h].(staged := [])], at := map f | f in s.at && !StagedOn(s.at[f], h) :: s.at[f])
  }

  predicate StagedOn(spot: Spot, h: nat) { spot.Staged? && spot.hart == h }

  lemma {:induction false} UnstageKeeps(s: State, h: nat, hand: set<Frame>)
    requires InvBut(s, hand) && h < |s.harts|
    ensures InvBut(Unstage(s, h), hand + Elements(s.harts[h].staged))
    ensures var staged := s.harts[h].staged;
            forall i, j :: 0 <= i < |staged| && 0 <= j < |staged| && staged[i] == staged[j] ==> i == j
  {
    hide Fitted, IsZero;
    var s', fs := Unstage(s, h), s.harts[h].staged;
    assert HartOk(s.harts[h]);
    UnstageSeated(s, h, hand);
    forall i, j | 0 <= i < |fs| && 0 <= j < |fs| && fs[i] == fs[j] ensures i == j {
      assert Content(s, Staged(h, i)) == Some(fs[i]) && Content(s, Staged(h, j)) == Some(fs[j]);
    }
    UnstageFitted(s, h);
  }

  lemma {:induction false} UnstageFitted(s: State, h: nat)
    requires Fitted(s) && h < |s.harts|
    ensures Fitted(Unstage(s, h))
  {
    hide RestZero, HeldOk, ZeroTo, Fits;
    var s' := Unstage(s, h);
    forall g | g in s'.at ensures g < |s'.words| && Content(s', s'.at[g]) == Some(g) && Fits(s', g, s'.at[g]) {
      StillFits(s, s', g);
    }
  }

  lemma {:induction false} UnstageSeated(s: State, h: nat, hand: set<Frame>)
    requires Seated(s, hand) && h < |s.harts|
    ensures Seated(Unstage(s, h), hand + Elements(s.harts[h].staged))
  {
    var s', fs := Unstage(s, h), s.harts[h].staged;
    forall sp ensures Content(s', sp) == if StagedOn(sp, h) then None else Content(s, sp) {}
    forall f: Frame ensures f in Elements(fs) <==> f in s.at && StagedOn(s.at[f], h) {
      if f in Elements(fs) {
        var i :| 0 <= i < |fs| && fs[i] == f;
        assert Content(s, Staged(h, i)) == Some(f);
      }
    }
  }

  /** `pend_chain`: the chain of object frames goes onto hart `h`'s pending list whole, one write for it. */
  function PendChain(s: State, h: nat): State
    requires h < |s.harts| && s.chain != [] && s.chain[0] < |s.words| && |s.words[s.chain[0]]| == WORDS
  {
    var x, last := s.harts[h], s.chain[0];
    s.(words := s.words[last := WithWord(s.words[last], LINK, x.pending)],
       harts := s.harts[h := x.(pending := s.chainFirst, pend := x.pend + s.chain)],
       chainFirst := 0, chain := [],
       at := map f | f in s.at :: if s.at[f].Chained? then Pending(h, |x.pend| + s.at[f].i) else s.at[f])
  }

  lemma {:induction false} ChainTells(s: State, hand: set<Frame>)
    requires InvBut(s, hand) && s.chain != []
    ensures s.chain[0] in s.at && s.at[s.chain[0]] == Chained(0) && s.chain[0] < |s.words|
    ensures |s.words[s.chain[0]]| == WORDS
    ensures s.chain[0] < |s.owner| && s.owner[s.chain[0]].InFlight?
  {
    assert Content(s, Chained(0)) == Some(s.chain[0]);
  }

  lemma {:induction false} PendChainKeeps(s: State, h: nat, hand: set<Frame>)
    requires InvBut(s, hand) && h < |s.harts| && s.chain != []
    ensures s.chain[0] < |s.words| && |s.words[s.chain[0]]| == WORDS && InvBut(PendChain(s, h), hand)
  {
    hide Fitted, Seated, Fits, Content, Clean, Stales;
    ChainTells(s, hand);
    assert HartOk(s.harts[h]);
    PendChainSeated(s, h, hand);
    PendChainFitted(s, h);
    PendChainRest(s, h, hand);
  }

  lemma {:induction false} PendChainSeated(s: State, h: nat, hand: set<Frame>)
    requires Seated(s, hand) && h < |s.harts| && s.chain != [] && s.chain[0] < |s.words|
    requires |s.words[s.chain[0]]| == WORDS
    ensures Seated(PendChain(s, h), hand)
  {
    var s' := PendChain(s, h);
    PendChainContent(s, h);
    hide Content;
    forall f | f in s'.at ensures Content(s', s'.at[f]) == Some(f) {
      assert Content(s, s.at[f]) == Some(f);
      ChainedAt(s, h, f);
    }
    forall sp | Content(s', sp).Some? ensures Content(s', sp).value in s'.at && s'.at[Content(s', sp).value] == sp {
      var from := Source(s, h, sp);
      assert Content(s, from) == Content(s', sp);
    }
  }

  /** The place whose frame `sp` holds once the chain is pended. */
  function Source(s: State, h: nat, sp: Spot): Spot
    requires h < |s.harts|
  {
    if sp.Pending? && sp.hart == h && |s.harts[h].pend| <= sp.i then Chained(sp.i - |s.harts[h].pend|) else sp
  }

  lemma {:induction false} PendChainContent(s: State, h: nat)
    requires h < |s.harts| && s.chain != [] && s.chain[0] < |s.words| && |s.words[s.chain[0]]| == WORDS
    ensures forall sp :: Content(PendChain(s, h), sp) == if sp.Chained? then None else Content(s, Source(s, h, sp))
  {
  }

  lemma {:induction false} ChainedAt(s: State, h: nat, f: Frame)
    requires f in s.at && Content(s, s.at[f]) == Some(f) && h < |s.harts|
    ensures s.at[f].Pending? && s.at[f].hart == h ==> s.at[f].i < |s.harts[h].pend|
  {
  }

  lemma {:induction false} PendChainFitted(s: State, h: nat)
    requires Fitted(s) && h < |s.harts| && s.chain != [] && HartOk(s.harts[h]) && s.chainFirst == Top(s.chain)
    requires s.chain[0] < |s.words| && |s.words[s.chain[0]]| == WORDS && s.chain[0] in s.at
    requires s.at[s.chain[0]] == Chained(0)
    ensures Fitted(PendChain(s, h))
  {
    hide RestZero, HeldOk, ZeroTo;
    var s' := PendChain(s, h);
    forall g | g in s'.at ensures g < |s'.words| && Content(s', s'.at[g]) == Some(g) && Fits(s', g, s'.at[g]) {
      if s.at[g].Chained? {
        PendChainFits(s, h, g);
      } else {
        StillFits(s, s', g);
      }
    }
  }

  lemma {:induction false} PendChainFits(s: State, h: nat, g: Frame)
    requires h < |s.harts| && s.chain != [] && HartOk(s.harts[h])
    requires s.chain[0] < |s.words| && |s.words[s.chain[0]]| == WORDS
    requires g in s.at && s.at[g].Chained? && g < |s.words| && Content(s, s.at[g]) == Some(g) && Fits(s, g, s.at[g])
    requires s.chain[0] in s.at && s.at[s.chain[0]] == Chained(0)
    ensures var s' := PendChain(s, h); Content(s', s'.at[g]) == Some(g) && Fits(s', g, s'.at[g])
  {
  }

  lemma {:induction false} PendChainRest(s: State, h: nat, hand: set<Frame>)
    requires h < |s.harts| && s.chain != [] && s.chain[0] < |s.words| && |s.words[s.chain[0]]| == WORDS
    requires s.chain[0] < |s.owner| && s.owner[s.chain[0]].InFlight? && Stales(s, hand) && Clean(s)
    ensures Stales(PendChain(s, h), hand) && Clean(PendChain(s, h))
  {
  }

  /** `take_done`: hart `from`'s done list, whole, is the one being committed. */
  function TakeDone(s: State, from: nat): State
    requires from < |s.harts|
  {
    var x := s.harts[from];
    s.(harts := s.harts[from := x.(done := 0, finished := [])], committing := x.done, commit := x.finished,
       at := map f | f in s.at :: if s.at[f].Done? && s.at[f].hart == from then Commit(s.at[f].i) else s.at[f])
  }

  lemma {:induction false} TakeDoneKeeps(s: State, from: nat, hand: set<Frame>)
    requires InvBut(s, hand) && from < |s.harts| && s.commit == []
    ensures InvBut(TakeDone(s, from), hand)
  {
    hide Fitted, Seated, Fits, Content, Clean;
    assert HartOk(s.harts[from]);
    TakeDoneSeated(s, from, hand);
    TakeDoneFitted(s, from);
    TakeDoneClean(s, from);
  }

  lemma {:induction false} TakeDoneClean(s: State, from: nat)
    requires Clean(s) && from < |s.harts|
    ensures Clean(TakeDone(s, from))
  {
  }

  lemma {:induction false} TakeDoneSeated(s: State, from: nat, hand: set<Frame>)
    requires Seated(s, hand) && from < |s.harts| && s.commit == []
    ensures Seated(TakeDone(s, from), hand)
  {
    var s' := TakeDone(s, from);
    forall sp ensures Content(s', sp) ==
                      if sp.Done? && sp.hart == from then None
                      else if sp.Commit? then Content(s, Done(from, sp.i)) else Content(s, sp) {}
    assert forall i :: Content(s, Commit(i)).None?;
    hide Content;
    forall f | f in s'.at ensures Content(s', s'.at[f]) == Some(f) { assert Content(s, s.at[f]) == Some(f); }
    forall sp | Content(s', sp).Some? ensures Content(s', sp).value in s'.at && s'.at[Content(s', sp).value] == sp {}
  }

  lemma {:induction false} TakeDoneFitted(s: State, from: nat)
    requires Fitted(s) && from < |s.harts| && s.commit == []
    ensures Fitted(TakeDone(s, from))
  {
    hide RestZero, HeldOk, ZeroTo;
    var s' := TakeDone(s, from);
    forall g | g in s'.at ensures g < |s'.words| && Content(s', s'.at[g]) == Some(g) && Fits(s', g, s'.at[g]) {
      if !(s.at[g].Done? && s.at[g].hart == from) { StillFits(s, s', g); }
    }
  }

  /** The loop of `shot`: each of `fs` onto hart `h`'s pending list, in order. */
  function PendAll(s: State, h: nat, fs: seq<Frame>): (s': State)
    requires h < |s.harts| && forall i :: 0 <= i < |fs| ==> fs[i] < |s.words| && |s.words[fs[i]]| == WORDS
    ensures |s'.harts| == |s.harts| && |s'.words| == |s.words|
    ensures forall f :: 0 <= f < |s.words| ==> |s'.words[f]| == |s.words[f]|
    ensures s'.reach == s.reach && s'.mapped == s.mapped && s'.section == s.section
    ensures s'.owner == s.owner && s'.chain == s.chain
    ensures forall g :: 0 <= g < |s.harts| ==>
              s'.harts[g].staged == s.harts[g].staged && s'.harts[g].stagedPid == s.harts[g].stagedPid
  {
    if fs == [] then s else PushPending(PendAll(s, h, fs[..|fs| - 1]), h, fs[|fs| - 1])
  }

  ghost predicate Distinct(fs: seq<Frame>) {
    forall i, j :: 0 <= i < |fs| && 0 <= j < |fs| && fs[i] == fs[j] ==> i == j
  }

  lemma {:induction false} PendAllKeeps(s: State, h: nat, fs: seq<Frame>, hand: set<Frame>)
    requires InvBut(s, hand) && h < |s.harts| && Distinct(fs) && Elements(fs) <= hand
    requires forall i :: 0 <= i < |fs| ==> Reaches(s, fs[i]) == {} && fs[i] < |s.words| && |s.words[fs[i]]| == WORDS
    ensures InvBut(PendAll(s, h, fs), hand - Elements(fs))
  {
    hide InvBut;
    if fs == [] {
      assert hand - Elements(fs) == hand;
    } else {
      var n := |fs| - 1;
      var init := fs[..n];
      InitElements(fs);
      PendAllKeeps(s, h, init, hand);
      PushPendingKeeps(PendAll(s, h, init), h, fs[n], hand - Elements(init));
      assert hand - Elements(init) - {fs[n]} == hand - Elements(fs);
    }
  }

  lemma {:induction false} InitElements(fs: seq<Frame>)
    requires fs != [] && Distinct(fs)
    ensures Elements(fs) == Elements(fs[..|fs| - 1]) + {fs[|fs| - 1]} && fs[|fs| - 1] !in Elements(fs[..|fs| - 1])
    ensures Distinct(fs[..|fs| - 1])
  {
    forall f | f in Elements(fs) ensures f in Elements(fs[..|fs| - 1]) + {fs[|fs| - 1]} {
      var i :| 0 <= i < |fs| && fs[i] == f;
      if i < |fs| - 1 { assert fs[..|fs| - 1][i] == f; }
    }
    forall f | f in Elements(fs[..|fs| - 1]) ensures f in Elements(fs) {
      var i :| 0 <= i < |fs| - 1 && fs[..|fs| - 1][i] == f;
      assert fs[i] == f;
    }
  }

  // --- The kernel's steps ------------------------------------------------------------------------------------------

  /** `shoot`: process `pid` shot down on every hart, and hart `h`'s frames staged for it pended. */
  function Shoot(s: State, h: nat, pid: Pid): State
    requires h < |s.harts|
  {
    var flushed := Flushed(s, pid);
    var fs := s.harts[h].staged;
    if s.harts[h].stagedPid == pid && Mapped(s, fs) then PendAll(Unstage(flushed, h), h, fs) else flushed
  }

  predicate Mapped(s: State, fs: seq<Frame>) {
    forall i :: 0 <= i < |fs| ==> fs[i] < |s.words| && |s.words[fs[i]]| == WORDS
  }

  lemma {:induction false} StagedTells(s: State, h: nat, hand: set<Frame>)
    requires InvBut(s, hand) && h < |s.harts|
    ensures Mapped(s, s.harts[h].staged) && Elements(s.harts[h].staged) !! hand
    ensures forall i :: 0 <= i < |s.harts[h].staged| ==>
              && Reaches(s, s.harts[h].staged[i]) <= {s.harts[h].stagedPid} && Of(s.mapped, s.harts[h].staged[i]) == {}
  {
    var fs: seq<Frame> := s.harts[h].staged;
    forall i | 0 <= i < |fs|
      ensures fs[i] < |s.words| && |s.words[fs[i]]| == WORDS && fs[i] !in hand
      ensures Reaches(s, fs[i]) <= {s.harts[h].stagedPid} && Of(s.mapped, fs[i]) == {}
    {
      assert Content(s, Staged(h, i)) == Some(fs[i]);
    }
  }

  lemma {:induction false} ShootKeeps(s: State, h: nat, pid: Pid, hand: set<Frame>)
    requires InvBut(s, hand) && h < |s.harts|
    ensures InvBut(Shoot(s, h, pid), hand) && Shoot(s, h, pid).section == s.section
    ensures |Shoot(s, h, pid).harts| == |s.harts|
    ensures Shoot(s, h, pid).owner == s.owner && Shoot(s, h, pid).reach == Flushed(s, pid).reach
    ensures Shoot(s, h, pid).mapped == s.mapped
    ensures Shoot(s, h, pid).chain == s.chain
    ensures s.harts[h].stagedPid == pid ==> Shoot(s, h, pid).harts[h].staged == []
  {
    hide InvBut;
    var flushed, fs := Flushed(s, pid), s.harts[h].staged;
    FlushedKeeps(s, pid, hand);
    if s.harts[h].stagedPid == pid {
      StagedTells(s, h, hand);
      UnstageKeeps(flushed, h, hand);
      PendAllKeeps(Unstage(flushed, h), h, fs, hand + Elements(fs));
      assert hand + Elements(fs) - Elements(fs) == hand;
    }
  }

  datatype Step =
    | Enter(hart: nat)
    | Leave(hart: nat)
    | Map(hart: nat, frame: Frame, pid: Pid)
    | Unmap(hart: nat, frame: Frame, pid: Pid)
    | Evict(hart: nat, pid: Pid)
    | Give(hart: nat, frame: Frame, pid: Pid)
    | Retire(hart: nat, frame: Frame, shot: Option<Pid>)
    | RetireObject(hart: nat, frame: Frame)
    | PendObjects(hart: nat)
    | ShootDown(hart: nat, pid: Pid)
    | TakeOne(hart: nat)
    | Zero(hart: nat)
    | TakeList(hart: nat, from: nat)
    | CommitOne(hart: nat)
    | PopZero(hart: nat, from: nat)
    | Alloc(hart: nat, frame: Frame, pid: Pid)
    | Store(frame: Frame, word: nat, value: nat)

  lemma {:induction false} HartIsOk(s: State, h: nat)
    requires Inv(s) && h < |s.harts|
    ensures HartOk(s.harts[h])
  {
  }

  /** `retire` and `stage`: a full stage, or one for another process, shoots early. */
  function RetireStaged(s: State, h: nat, f: Frame, pid: Pid): State
    requires h < |s.harts| && f < |s.owner|
  {
    var given := Disown(s, f);
    var x := s.harts[h];
    var ready := if |x.staged| == STAGE_MAX || (x.staged != [] && x.stagedPid != pid) then Shoot(given, h, x.stagedPid)
      else given;
    if h < |ready.harts| then PushStaged(ready, h, f, pid) else ready
  }

  lemma {:induction false} RetireStagedKeeps(s: State, h: nat, f: Frame, pid: Pid)
    requires Inv(s) && s.section == Some(h) && h < |s.harts| && f < |s.owner| && s.owner[f].Owned?
    requires Of(s.mapped, f) == {} && Reaches(s, f) <= {pid}
    ensures Inv(RetireStaged(s, h, f, pid))
  {
    hide InvBut, Flushed, PushStaged;
    var given, x := Disown(s, f), s.harts[h];
    HartIsOk(s, h);
    FlushedTells(given, x.stagedPid);
    assert {} + {f} == {f} && {f} - {f} == {};
    DisownKeeps(s, f, {});
    if |x.staged| == STAGE_MAX || (x.staged != [] && x.stagedPid != pid) {
      ShootKeeps(given, h, x.stagedPid, {f});
      PushStagedKeeps(Shoot(given, h, x.stagedPid), h, f, pid, {f});
    } else {
      PushStagedKeeps(given, h, f, pid, {f});
    }
  }

  /** Whether a step can be taken: everything but the zeroing and stores is done by the lock's holder. */
  ghost predicate Can(s: State, step: Step) {
    match step
    case Enter(h) => s.section.None? && h < |s.harts| && s.harts[h].pc.Running?
    case Leave(h) => s.section == Some(h) && s.chain == []
    case Map(h, f, pid) => s.section == Some(h) && f < |s.owner| && s.owner[f].Owned?
    case Unmap(h, f, pid) => s.section == Some(h)
    case Evict(h, pid) => s.section == Some(h)
    case Give(h, f, pid) => s.section == Some(h) && f < |s.owner| && s.owner[f].Owned?
    case Retire(h, f, shot) =>
      && s.section == Some(h) && f < |s.owner| && s.owner[f].Owned? && Of(s.mapped, f) == {}
      && Reaches(s, f) <= (if shot.Some? then {shot.value} else {})
    case RetireObject(h, f) => s.section == Some(h) && f < |s.owner| && s.owner[f].Owned? && Reaches(s, f) == {}
    case PendObjects(h) => s.section == Some(h) && s.chain != []
    case ShootDown(h, pid) => s.section == Some(h)
    case TakeOne(h) => s.section == Some(h) && h < |s.harts| && s.harts[h].pc.Running? && s.harts[h].pending != 0
    case Zero(h) => s.section != Some(h) && h < |s.harts| && !s.harts[h].pc.Running?
    case TakeList(h, from) => s.section == Some(h) && from < |s.harts| && s.committing == 0
    case CommitOne(h) => s.section == Some(h) && s.committing != 0
    case PopZero(h, from) => s.section == Some(h) && from < |s.harts| && s.harts[from].pending != 0
    case Alloc(h, f, pid) => s.section == Some(h) && f < |s.owner| && s.owner[f].Free?
    case Store(f, w, v) => Reachable(s, f) && w < WORDS
  }

  lemma {:induction false} HeadsTell(s: State, h: nat)
    requires Inv(s) && h < |s.harts|
    ensures s.harts[h].pending != 0 <==> s.harts[h].pend != []
    ensures s.committing != 0 <==> s.commit != []
    ensures |s.words| == |s.owner| && forall f :: 0 <= f < |s.words| ==> |s.words[f]| == WORDS
  {
    assert HartOk(s.harts[h]);
  }

  lemma {:induction false} SectionTells(s: State)
    requires Inv(s)
    ensures s.section.Some? ==> s.section.value < |s.harts|
    ensures |s.words| == |s.owner| && forall f :: 0 <= f < |s.words| ==> |s.words[f]| == WORDS
  {
  }

  predicate HasPage(s: State, f: Frame) { f < |s.words| && |s.words[f]| == WORDS }

  // What each step makes of the state. A step nothing enables changes nothing.

  function DoLeave(s: State, h: nat): State {
    if h >= |s.harts| then s
    else (if s.harts[h].staged == [] then s else Shoot(s, h, s.harts[h].stagedPid)).(section := None)
  }

  function DoRetire(s: State, h: nat, f: Frame, shot: Option<Pid>): State {
    if h >= |s.harts| || f >= |s.owner| || !HasPage(s, f) then s
    else match shot
      case Some(pid) => RetireStaged(s, h, f, pid)
      case None => PushPending(Disown(s, f), h, f)
  }

  function DoRetireObject(s: State, f: Frame): State {
    if f >= |s.owner| || !HasPage(s, f) then s else PushChain(Disown(s, f), f)
  }

  function DoPendObjects(s: State, h: nat): State {
    if h >= |s.harts| || s.chain == [] || !Mapped(s, s.chain) then s else PendChain(s, h)
  }

  function DoTakeOne(s: State, h: nat): State {
    if h >= |s.harts| || s.harts[h].pend == [] || !Mapped(s, s.harts[h].pend) then s
    else Hold(PopPending(s, h), h, s.harts[h].pend[|s.harts[h].pend| - 1])
  }

  /** One step of `zero_taken`. */
  function DoWork(s: State, h: nat): State {
    if h >= |s.harts| then s else
      var x := s.harts[h];
      if FrameOf(x.pc).Some? && !HasPage(s, FrameOf(x.pc).value) then s else
        match x.pc
        case Zeroing(f, k) =>
          if k < WORDS then Work(s, h, WithWord(s.words[f], k, 0), Zeroing(f, k + 1))
          else Work(s, h, s.words[f], Linking(f, x.done))
        case Linking(f, head) => Work(s, h, WithWord(s.words[f], LINK, head), Swapping(f, head))
        case Swapping(f, head) =>
          if head == x.done then Finish(s, h) else Work(s, h, s.words[f], Linking(f, x.done))
        case Clearing(_) => Forget(s, h)
        case Running => s
  }

  function DoCommit(s: State): State {
    if s.commit == [] || !Mapped(s, s.commit) || s.commit[|s.commit| - 1] >= |s.owner| then s
    else GiveBack(PopCommit(s), s.commit[|s.commit| - 1])
  }

  function DoPopZero(s: State, from: nat): State {
    if from >= |s.harts| || s.harts[from].pend == [] || !Mapped(s, s.harts[from].pend) then s else
      var f := s.harts[from].pend[|s.harts[from].pend| - 1];
      if f >= |s.owner| then s else GiveBack(WriteHand(PopPending(s, from), f, Zeros()), f)
  }

  function Next(s: State, step: Step): State {
    match step
    case Enter(h) => s.(section := Some(h))
    case Leave(h) => DoLeave(s, h)
    case Map(h, f, pid) => Mapping(s, f, pid)
    case Unmap(h, f, pid) => Unmapped(s, f, pid)
    case Evict(h, pid) => Evicted(s, pid)
    case Give(h, f, pid) => if f < |s.owner| then s.(owner := s.owner[f := Owned(pid)]) else s
    case Retire(h, f, shot) => DoRetire(s, h, f, shot)
    case RetireObject(h, f) => DoRetireObject(s, f)
    case PendObjects(h) => DoPendObjects(s, h)
    case ShootDown(h, pid) => if h < |s.harts| then Shoot(s, h, pid) else s
    case TakeOne(h) => DoTakeOne(s, h)
    case Zero(h) => DoWork(s, h)
    case TakeList(h, from) => if from < |s.harts| then TakeDone(s, from) else s
    case CommitOne(h) => DoCommit(s)
    case PopZero(h, from) => DoPopZero(s, from)
    case Alloc(h, f, pid) => if f < |s.owner| && f < |s.words| then Allocate(s, f, pid) else s
    case Store(f, w, v) => if HasPage(s, f) && w < WORDS then Stored(s, f, w, v) else s
  }

  lemma {:induction false} LeaveKeeps(s: State, h: nat)
    requires Inv(s) && s.section == Some(h) && s.chain == []
    ensures Inv(DoLeave(s, h))
  {
    SectionTells(s);
    ShootKeeps(s, h, s.harts[h].stagedPid, {});
    var done := if s.harts[h].staged == [] then s else Shoot(s, h, s.harts[h].stagedPid);
    LeftKeeps(done, h);
  }

  lemma {:induction false} LeftKeeps(s: State, h: nat)
    requires Inv(s) && h < |s.harts| && s.section == Some(h) && s.chain == [] && s.harts[h].staged == []
    ensures Inv(s.(section := None))
  {
    hide Fits, Content, HartOk;
    var s' := s.(section := None);
    SameContent(s, s');
    FittedSame(s, s');
  }

  lemma {:induction false} EnterKeeps(s: State, h: nat)
    requires Inv(s) && s.section.None? && h < |s.harts|
    ensures Inv(s.(section := Some(h)))
  {
    hide Fits, Content, HartOk;
    var s' := s.(section := Some(h));
    SameContent(s, s');
    FittedSame(s, s');
  }

  lemma {:induction false} RetireKeeps(s: State, h: nat, f: Frame, shot: Option<Pid>)
    requires Inv(s) && s.section == Some(h) && f < |s.owner| && s.owner[f].Owned? && Of(s.mapped, f) == {}
    requires Reaches(s, f) <= if shot.Some? then {shot.value} else {}
    ensures Inv(DoRetire(s, h, f, shot)) && (Reaches(s, f) == {} ==> Inv(DoRetireObject(s, f)))
  {
    hide InvBut, PushPending, PushChain;
    SectionTells(s);
    assert {} + {f} == {f} && {f} - {f} == {};
    DisownKeeps(s, f, {});
    if Reaches(s, f) == {} {
      PushPendingKeeps(Disown(s, f), h, f, {f});
      PushChainKeeps(Disown(s, f), f, {f});
    }
    if shot.Some? { RetireStagedKeeps(s, h, f, shot.value); }
  }

  lemma {:induction false} TakeOneKeeps(s: State, h: nat)
    requires Inv(s) && h < |s.harts| && s.harts[h].pc.Running? && s.harts[h].pending != 0
    ensures Inv(DoTakeOne(s, h))
  {
    hide InvBut;
    HeadsTell(s, h);
    var f := s.harts[h].pend[|s.harts[h].pend| - 1];
    assert {} + {f} == {f} && {f} - {f} == {};
    PendingTells(s, h, f, {});
    PopPendingKeeps(s, h, f, {});
    HoldKeeps(PopPending(s, h), h, f, {f});
  }

  lemma {:induction false} WorkStepKeeps(s: State, h: nat)
    requires Inv(s) && h < |s.harts| && !s.harts[h].pc.Running?
    ensures Inv(DoWork(s, h))
  {
    hide InvBut, Work, Finish, Forget;
    var x := s.harts[h];
    if x.pc.Clearing? {
      ForgetKeeps(s, h, {});
    } else {
      var f := FrameOf(x.pc).value;
      HeldTells(s, h, f, {});
      match x.pc {
        case Zeroing(_, k) =>
          if k < WORDS { WorkKeeps(s, h, f, WithWord(s.words[f], k, 0), Zeroing(f, k + 1), {}); }
          else { WorkKeeps(s, h, f, s.words[f], Linking(f, x.done), {}); }
        case Linking(_, head) => WorkKeeps(s, h, f, WithWord(s.words[f], LINK, head), Swapping(f, head), {});
        case Swapping(_, head) =>
          if head == x.done { FinishKeeps(s, h, f, {}); }
          else { WorkKeeps(s, h, f, s.words[f], Linking(f, x.done), {}); }
      }
    }
  }

  lemma {:induction false} CommitKeeps(s: State, h: nat)
    requires Inv(s) && h < |s.harts| && s.committing != 0
    ensures Inv(DoCommit(s))
  {
    hide InvBut;
    HeadsTell(s, h);
    var f := s.commit[|s.commit| - 1];
    assert {} + {f} == {f} && {f} - {f} == {};
    CommitTells(s, f, {});
    PopCommitKeeps(s, f, {});
    GiveBackKeeps(PopCommit(s), f, {f});
  }

  lemma {:induction false} PopZeroKeeps(s: State, from: nat)
    requires Inv(s) && from < |s.harts| && s.harts[from].pending != 0
    ensures Inv(DoPopZero(s, from))
  {
    hide InvBut;
    HeadsTell(s, from);
    var f := s.harts[from].pend[|s.harts[from].pend| - 1];
    assert {} + {f} == {f} && {f} - {f} == {};
    PendingTells(s, from, f, {});
    PopPendingKeeps(s, from, f, {});
    WriteHandKeeps(PopPending(s, from), f, Zeros(), {f});
    GiveBackKeeps(WriteHand(PopPending(s, from), f, Zeros()), f, {f});
  }

  lemma {:induction false} Unreached(s: State, f: Frame)
    requires Inv(s) && Reaches(s, f) == {}
    ensures Of(s.mapped, f) == {}
  {
  }

  lemma {:induction false} NextKeeps(s: State, step: Step)
    requires Inv(s) && Can(s, step)
    ensures Inv(Next(s, step))
  {
    hide InvBut, DoLeave, DoRetire, DoRetireObject, DoTakeOne, DoWork, DoCommit, DoPopZero;
    SectionTells(s);
    match step {
      case Enter(h) => EnterKeeps(s, h);
      case Leave(h) => LeaveKeeps(s, h);
      case Map(h, f, pid) => MappingKeeps(s, f, pid);
      case Unmap(h, f, pid) => UnmappedKeeps(s, f, pid);
      case Evict(h, pid) => UnmappedKeeps(s, 0, pid);
      case Give(h, f, pid) => MappingKeeps(s, f, pid);
      case Retire(h, f, shot) => RetireKeeps(s, h, f, shot);
      case RetireObject(h, f) => Unreached(s, f); RetireKeeps(s, h, f, None);
      case PendObjects(h) => PendChainKeeps(s, h, {});
      case ShootDown(h, pid) => ShootKeeps(s, h, pid, {});
      case TakeOne(h) => TakeOneKeeps(s, h);
      case Zero(h) => WorkStepKeeps(s, h);
      case TakeList(h, from) => HeadsTell(s, from); TakeDoneKeeps(s, from, {});
      case CommitOne(h) => CommitKeeps(s, h);
      case PopZero(h, from) => PopZeroKeeps(s, from);
      case Alloc(h, f, pid) => AllocateKeeps(s, f, pid, {});
      case Store(f, w, v) => StoredKeeps(s, f, w, v);
    }
  }

  // --- Where each step takes a frame ---------------------------------------------------------------------------------

  /** Whose a frame is, and where it is while it is nobody's. */
  datatype Whereabouts = Whereabouts(owner: Owner, spot: Option<Spot>)

  function WhereIs(s: State, f: Frame): Whereabouts
    requires f < |s.owner|
  {
    Whereabouts(s.owner[f], if f in s.at then Some(s.at[f]) else None)
  }

  function LastOf(fs: seq<Frame>): Option<Frame> { if fs == [] then None else Some(fs[|fs| - 1]) }

  /** A frame staged on hart `h` goes on its pending list, in order. */
  function Pended(s: State, h: nat, f: Frame): Whereabouts
    requires f < |s.owner| && h < |s.harts|
  {
    if f in s.at && StagedOn(s.at[f], h) then Whereabouts(InFlight, Some(Pending(h, |s.harts[h].pend| + s.at[f].i)))
    else WhereIs(s, f)
  }

  /** Where frame `f` is after the step: from its owner to a stage, or straight to a list that is pending; from a stage
      to the pending list; to a hart's hands; to its done list; to the list being committed; free; to its new owner.
    */
  function Went(s: State, step: Step, f: Frame): Whereabouts
    requires f < |s.owner|
  {
    match step
    case Leave(h) => if h < |s.harts| then Pended(s, h, f) else WhereIs(s, f)
    case Give(_, g, pid) => if f == g then Whereabouts(Owned(pid), None) else WhereIs(s, f)
    case Retire(h, g, shot) =>
      if h >= |s.harts| then WhereIs(s, f)
      else if shot.None? then
        if f == g then Whereabouts(InFlight, Some(Pending(h, |s.harts[h].pend|))) else WhereIs(s, f)
      else if ShootsEarly(s.harts[h], shot.value) then
        if f == g then Whereabouts(InFlight, Some(Staged(h, 0))) else Pended(s, h, f)
      else if f == g then Whereabouts(InFlight, Some(Staged(h, |s.harts[h].staged|))) else WhereIs(s, f)
    case RetireObject(_, g) => if f == g then Whereabouts(InFlight, Some(Chained(|s.chain|))) else WhereIs(s, f)
    case PendObjects(h) =>
      if h < |s.harts| && f in s.at && s.at[f].Chained?
      then Whereabouts(InFlight, Some(Pending(h, |s.harts[h].pend| + s.at[f].i))) else WhereIs(s, f)
    case ShootDown(h, pid) =>
      if h < |s.harts| && s.harts[h].stagedPid == pid then Pended(s, h, f) else WhereIs(s, f)
    case TakeOne(h) =>
      if h < |s.harts| && LastOf(s.harts[h].pend) == Some(f) then Whereabouts(InFlight, Some(Held(h)))
      else WhereIs(s, f)
    case Zero(h) =>
      if h < |s.harts| && s.harts[h].pc == Swapping(f, s.harts[h].done)
      then Whereabouts(InFlight, Some(Done(h, |s.harts[h].finished|))) else WhereIs(s, f)
    case TakeList(_, from) =>
      if f in s.at && s.at[f].Done? && s.at[f].hart == from then Whereabouts(InFlight, Some(Commit(s.at[f].i)))
      else WhereIs(s, f)
    case CommitOne(_) => if LastOf(s.commit) == Some(f) then Whereabouts(Free, None) else WhereIs(s, f)
    case PopZero(_, from) =>
      if from < |s.harts| && LastOf(s.harts[from].pend) == Some(f) then Whereabouts(Free, None) else WhereIs(s, f)
    case Alloc(_, g, pid) => if f == g then Whereabouts(Owned(pid), None) else WhereIs(s, f)
    case _ => WhereIs(s, f)
  }

  lemma {:induction false} PendAllPlaces(s: State, h: nat, fs: seq<Frame>)
    requires h < |s.harts| && Distinct(fs) && Mapped(s, fs)
    ensures |PendAll(s, h, fs).harts[h].pend| == |s.harts[h].pend| + |fs|
    ensures forall i :: 0 <= i < |fs| ==>
              fs[i] in PendAll(s, h, fs).at && PendAll(s, h, fs).at[fs[i]] == Pending(h, |s.harts[h].pend| + i)
    ensures forall f :: f !in fs ==>
              && (f in PendAll(s, h, fs).at <==> f in s.at) && (f in s.at ==> PendAll(s, h, fs).at[f] == s.at[f])
  {
    if fs != [] {
      var n := |fs| - 1;
      InitElements(fs);
      PendAllPlaces(s, h, fs[..n]);
      assert fs == fs[..n] + [fs[n]];
    }
  }

  lemma {:induction false} StagedPlaces(s: State, h: nat, hand: set<Frame>, f: Frame)
    requires InvBut(s, hand) && h < |s.harts|
    ensures f in s.at && StagedOn(s.at[f], h) ==>
              s.at[f].i < |s.harts[h].staged| && s.harts[h].staged[s.at[f].i] == f
    ensures f in s.harts[h].staged ==> f in s.at && StagedOn(s.at[f], h)
    ensures f in s.at ==> f < |s.owner| && s.owner[f].InFlight?
  {
    hide Fits, HartOk;
    if f in s.harts[h].staged {
      var i :| 0 <= i < |s.harts[h].staged| && s.harts[h].staged[i] == f;
      assert Content(s, Staged(h, i)) == Some(f);
    }
  }

  lemma {:induction false} ShootMoves(s: State, h: nat, pid: Pid, hand: set<Frame>, f: Frame)
    requires InvBut(s, hand) && h < |s.harts| && f < |s.owner|
    ensures Shoot(s, h, pid).owner == s.owner
    ensures WhereIs(Shoot(s, h, pid), f) == if s.harts[h].stagedPid == pid then Pended(s, h, f) else WhereIs(s, f)
    ensures s.harts[h].stagedPid == pid ==> Shoot(s, h, pid).harts[h].staged == []
  {
    hide InvBut, Flushed, PendAll, Unstage;
    FlushedOnly(s, pid);
    FlushedKeeps(s, pid, hand);
    if s.harts[h].stagedPid == pid {
      StagedTells(s, h, hand);
      UnstageMoves(Flushed(s, pid), h, hand, f);
    }
  }

  lemma {:induction false} UnstageMoves(s: State, h: nat, hand: set<Frame>, f: Frame)
    requires InvBut(s, hand) && h < |s.harts| && f < |s.owner| && Mapped(s, s.harts[h].staged)
    ensures var s' := PendAll(Unstage(s, h), h, s.harts[h].staged);
            s'.owner == s.owner && WhereIs(s', f) == Pended(s, h, f) && s'.harts[h].staged == []
  {
    hide InvBut, PendAll;
    UnstageKeeps(s, h, hand);
    StagedPlaces(s, h, hand, f);
    PendAllPlaces(Unstage(s, h), h, s.harts[h].staged);
  }

  lemma {:induction false} RetireMoves(s: State, h: nat, g: Frame, shot: Option<Pid>, f: Frame)
    requires Inv(s) && Can(s, Retire(h, g, shot)) && f < |s.owner|
    ensures f < |DoRetire(s, h, g, shot).owner|
    ensures WhereIs(DoRetire(s, h, g, shot), f) == Went(s, Retire(h, g, shot), f)
  {
    hide InvBut, Shoot, Of;
    SectionTells(s);
    DisownKeeps(s, g, {});
    assert {} + {g} == {g};
    if shot.Some? {
      ShootMoves(Disown(s, g), h, s.harts[h].stagedPid, {g}, f);
      HandTells(Disown(s, g), {g}, g);
      ShootKeepsOwner(Disown(s, g), h, s.harts[h].stagedPid);
    }
  }

  lemma {:induction false} HandTells(s: State, hand: set<Frame>, f: Frame)
    requires InvBut(s, hand) && f in hand
    ensures f !in s.at
  {
  }

  lemma {:induction false} PlacesTell(s: State, f: Frame)
    requires Inv(s)
    ensures f in s.at ==> f < |s.owner| && s.owner[f].InFlight?
    ensures f < |s.owner| && !s.owner[f].InFlight? ==> f !in s.at
  {
  }

  lemma {:induction false} ListMapped(s: State, fs: seq<Frame>)
    requires Inv(s) && forall i :: 0 <= i < |fs| ==> fs[i] in s.at
    ensures Mapped(s, fs) && forall i :: 0 <= i < |fs| ==> fs[i] < |s.owner|
  {
    hide Fits, HartOk, Content;
  }

  lemma {:induction false} ChainMapped(s: State)
    requires Inv(s)
    ensures Mapped(s, s.chain)
  {
    forall i | 0 <= i < |s.chain| ensures s.chain[i] in s.at { assert Content(s, Chained(i)) == Some(s.chain[i]); }
    ListMapped(s, s.chain);
  }

  lemma {:induction false} CommitMapped(s: State)
    requires Inv(s)
    ensures Mapped(s, s.commit)
  {
    forall i | 0 <= i < |s.commit| ensures s.commit[i] in s.at { assert Content(s, Commit(i)) == Some(s.commit[i]); }
    ListMapped(s, s.commit);
  }

  lemma {:induction false} PendMapped(s: State, h: nat)
    requires Inv(s) && h < |s.harts|
    ensures Mapped(s, s.harts[h].pend) && (s.harts[h].pending != 0 <==> s.harts[h].pend != [])
    ensures forall i :: 0 <= i < |s.harts[h].pend| ==> s.harts[h].pend[i] < |s.owner|
  {
    var fs: seq<Frame> := s.harts[h].pend;
    HeadsTell(s, h);
    forall i | 0 <= i < |fs| ensures fs[i] in s.at { assert Content(s, Pending(h, i)) == Some(fs[i]); }
    ListMapped(s, fs);
  }

  lemma {:induction false} WorkMoves(s: State, h: nat, f: Frame)
    requires Inv(s) && Can(s, Zero(h)) && f < |s.owner|
    ensures f < |DoWork(s, h).owner| && WhereIs(DoWork(s, h), f) == Went(s, Zero(h), f)
  {
    hide InvBut;
    var x := s.harts[h];
    if FrameOf(x.pc).Some? { HeldTells(s, h, FrameOf(x.pc).value, {}); }
  }

  lemma {:induction false} TakeMoves(s: State, h: nat, f: Frame)
    requires Inv(s) && Can(s, TakeOne(h)) && f < |s.owner|
    ensures f < |DoTakeOne(s, h).owner| && WhereIs(DoTakeOne(s, h), f) == Went(s, TakeOne(h), f)
  {
    hide InvBut;
    PendMapped(s, h);
    PendingTells(s, h, s.harts[h].pend[|s.harts[h].pend| - 1], {});
  }

  lemma {:induction false} FreeMoves(s: State, step: Step, f: Frame)
    requires Inv(s) && Can(s, step) && (step.CommitOne? || step.PopZero?) && f < |s.owner|
    ensures f < |Next(s, step).owner| && WhereIs(Next(s, step), f) == Went(s, step, f)
  {
    hide InvBut, Zeros;
    SectionTells(s);
    match step {
      case CommitOne(h) => HeadsTell(s, h); CommitTells(s, s.commit[|s.commit| - 1], {}); CommitMapped(s);
      case PopZero(_, from) => PendMapped(s, from);
    }
  }

  lemma {:induction false} ChainMoves(s: State, h: nat, f: Frame)
    requires Inv(s) && Can(s, PendObjects(h)) && f < |s.owner|
    ensures f < |DoPendObjects(s, h).owner| && WhereIs(DoPendObjects(s, h), f) == Went(s, PendObjects(h), f)
  {
    hide InvBut;
    SectionTells(s);
    PlacesTell(s, f);
    ChainMapped(s);
  }

  /** Each step moves exactly the frames it is for, each to its next place. */
  lemma {:induction false} NextMoves(s: State, step: Step, f: Frame)
    requires Inv(s) && Can(s, step) && f < |s.owner|
    ensures f < |Next(s, step).owner| && WhereIs(Next(s, step), f) == Went(s, step, f)
  {
    hide InvBut, Shoot, DoRetire, DoTakeOne, DoCommit, DoPopZero, DoWork, DoPendObjects, Of;
    SectionTells(s);
    PlacesTell(s, f);
    match step {
      case Leave(h) => ShootMoves(s, h, s.harts[h].stagedPid, {}, f); StagedPlaces(s, h, {}, f);
      case Retire(h, g, shot) => RetireMoves(s, h, g, shot, f);
      case PendObjects(h) => ChainMoves(s, h, f);
      case ShootDown(h, pid) => ShootMoves(s, h, pid, {}, f);
      case TakeOne(h) => TakeMoves(s, h, f);
      case Zero(h) => WorkMoves(s, h, f);
      case CommitOne(h) => FreeMoves(s, step, f);
      case PopZero(_, from) => FreeMoves(s, step, f);
      case _ =>
    }
  }

  /** The lock is taken and given up by its two steps alone. */
  lemma {:induction false} NextSection(s: State, step: Step)
    requires Inv(s) && Can(s, step)
    ensures Next(s, step).section == match step case Enter(h) => Some(h) case Leave(_) => None case _ => s.section
  {
    hide InvBut, Shoot, DoRetire, Of, Zeros;
    SectionTells(s);
    match step {
      case Retire(h, f, shot) => RetireSection(s, h, f, shot);
      case ShootDown(h, pid) => ShootSection(s, h, pid);
      case _ =>
    }
  }

  lemma {:induction false} ShootSection(s: State, h: nat, pid: Pid)
    requires h < |s.harts|
    ensures Shoot(s, h, pid).section == s.section && |Shoot(s, h, pid).harts| == |s.harts|
  {
    hide Flushed;
    FlushedOnly(s, pid);
  }

  lemma {:induction false} RetireSection(s: State, h: nat, f: Frame, shot: Option<Pid>)
    ensures DoRetire(s, h, f, shot).section == s.section
  {
    hide Shoot;
    if h < |s.harts| && f < |s.owner| { ShootSection(Disown(s, f), h, s.harts[h].stagedPid); }
  }

  // --- The world: whose translations reach a frame -----------------------------------------------------------------

  /** A stage that takes no more, or not for `pid`: `stage` shoots its process first. */
  predicate ShootsEarly(x: Hart, pid: Pid) { |x.staged| == STAGE_MAX || (x.staged != [] && x.stagedPid != pid) }

  /** The step shoots process `pid` down. */
  predicate Shoots(s: State, step: Step, pid: Pid) {
    match step
    case ShootDown(_, p) => p == pid
    case Evict(_, p) => p == pid
    case Leave(h) => h < |s.harts| && s.harts[h].staged != [] && s.harts[h].stagedPid == pid
    case Retire(h, _, shot) =>
      h < |s.harts| && shot.Some? && ShootsEarly(s.harts[h], shot.value) && s.harts[h].stagedPid == pid
    case _ => false
  }

  /** Whether `pid`'s tables name frame `f` after the step. */
  predicate NowMapped(s: State, step: Step, f: Frame, pid: Pid) {
    match step
    case Map(_, g, p) => pid in Of(s.mapped, f) || (f == g && pid == p)
    case Unmap(_, g, p) => pid in Of(s.mapped, f) && !(f == g && pid == p)
    case Evict(_, p) => pid in Of(s.mapped, f) && pid != p
    case _ => pid in Of(s.mapped, f)
  }

  /** Whether `pid` reaches it: an entry made is in reach at once; an entry cleared, only once `pid` is shot down, is
      not.
    */
  predicate NowReached(s: State, step: Step, f: Frame, pid: Pid) {
    || NowMapped(s, step, f, pid)
    || (pid in Reaches(s, f) && !Shoots(s, step, pid))
  }

  lemma {:induction false} ShootWorld(s: State, h: nat, pid: Pid)
    requires h < |s.harts|
    ensures Shoot(s, h, pid).mapped == s.mapped && Shoot(s, h, pid).reach == Flushed(s, pid).reach
    ensures |Shoot(s, h, pid).harts| == |s.harts|
  {
    hide Flushed;
    FlushedOnly(s, pid);
  }

  lemma {:induction false} FlushedOnly(s: State, pid: Pid)
    ensures Flushed(s, pid) == s.(reach := Flushed(s, pid).reach)
  {
  }

  lemma {:induction false} RetireWorld(s: State, h: nat, f: Frame, shot: Option<Pid>)
    requires h < |s.harts| && f < |s.owner| && HasPage(s, f)
    ensures var s' := DoRetire(s, h, f, shot);
            && s'.mapped == s.mapped
            && s'.reach == if shot.Some? && ShootsEarly(s.harts[h], shot.value)
                           then Flushed(s, s.harts[h].stagedPid).reach else s.reach
  {
    hide Shoot, Flushed;
    var given, x := Disown(s, f), s.harts[h];
    ShootWorld(given, h, x.stagedPid);
    FlushedOwner(s, given, x.stagedPid);
  }

  lemma {:induction false} FlushedOwner(s: State, s': State, pid: Pid)
    requires s'.reach == s.reach && s'.mapped == s.mapped
    ensures Flushed(s', pid).reach == Flushed(s, pid).reach
  {
  }

  lemma {:induction false} WorkWorld(s: State, h: nat)
    ensures DoWork(s, h).mapped == s.mapped && DoWork(s, h).reach == s.reach
  {
  }

  /** The world after each step, whatever the kernel makes of the frame: no step takes a frame out of a process's reach
      but one that shot it down.
    */
  lemma {:induction false} NextWorld(s: State, step: Step, f: Frame, pid: Pid)
    requires Inv(s) && Can(s, step)
    ensures pid in Of(Next(s, step).mapped, f) <==> NowMapped(s, step, f, pid)
    ensures pid in Reaches(Next(s, step), f) <==> NowReached(s, step, f, pid)
  {
    hide InvBut, Shoot, DoRetire, DoWork, DoTakeOne, DoCommit, DoPopZero, DoPendObjects, DoRetireObject, TakeDone,
         Flushed, Mapping, Unmapped, Evicted, Of;
    SectionTells(s);
    MappedReaches(s, f, pid);
    match step {
      case Map(_, g, p) => SpacesTell(s, g, p);
      case Unmap(_, g, p) => SpacesTell(s, g, p);
      case Evict(_, p) => SpacesTell(s, f, p);
      case ShootDown(h, p) => ShootWorld(s, h, p); FlushedTells(s, p);
      case Leave(h) => ShootWorld(s, h, s.harts[h].stagedPid); FlushedTells(s, s.harts[h].stagedPid);
      case Retire(h, g, shot) => RetireWorld(s, h, g, shot); FlushedTells(s, s.harts[h].stagedPid);
      case Zero(h) => WorkWorld(s, h);
      case _ => ListWorld(s, step);
    }
  }

  lemma {:induction false} ListWorld(s: State, step: Step)
    requires !step.Leave? && !step.Retire? && !step.ShootDown? && !step.Zero?
    requires !step.Map? && !step.Unmap? && !step.Evict?
    ensures Next(s, step).mapped == s.mapped && Next(s, step).reach == s.reach
  {
    hide Of, Zeros;
  }

  lemma {:induction false} MappedReaches(s: State, f: Frame, pid: Pid)
    requires Inv(s)
    ensures pid in Of(s.mapped, f) ==> pid in Reaches(s, f)
  {
  }

  // --- Every run -----------------------------------------------------------------------------------------------------

  /** At boot nothing is in flight and no list holds anything. */
  ghost predicate Boot(s: State) {
    && |s.words| == |s.owner| && (forall f :: 0 <= f < |s.words| ==> |s.words[f]| == WORDS)
    && (forall f :: 0 <= f < |s.owner| ==> !s.owner[f].InFlight? && (s.owner[f].Free? ==> f in s.dirty))
    && (forall f: Frame, p: Pid :: p in Of(s.reach, f) ==> f < |s.owner| && s.owner[f].Owned?)
    && (forall f: Frame, p: Pid :: p in Of(s.mapped, f) ==> p in Of(s.reach, f))
    && s.section.None? && s.chainFirst == s.committing == 0 && s.chain == s.commit == []
    && s.at == map[]
    && (forall h :: 0 <= h < |s.harts| ==> s.harts[h] == Hart([], 0, 0, 0, 0, Running, [], []))
  }

  ghost predicate IsRun(run: seq<State>, steps: seq<Step>) {
    && |run| == |steps| + 1 && Boot(run[0])
    && (forall i :: 0 <= i < |steps| ==> Can(run[i], steps[i]) && run[i + 1] == Next(run[i], steps[i]))
  }

  lemma {:induction false} BootIs(s: State)
    requires Boot(s)
    ensures Inv(s)
  {
  }

  lemma {:induction false} RunKeeps(run: seq<State>, steps: seq<Step>, i: nat)
    requires IsRun(run, steps) && i <= |steps|
    ensures Inv(run[i])
  {
    hide Inv, Can, Next;
    if i == 0 {
      BootIs(run[0]);
    } else {
      RunKeeps(run, steps, i - 1);
      assert Can(run[i - 1], steps[i - 1]) && run[i - 1 + 1] == Next(run[i - 1], steps[i - 1]);
      NextKeeps(run[i - 1], steps[i - 1]);
    }
  }

  /** Over every interleaving, a frame in flight is in exactly one place. */
  lemma {:induction false} OnePlace(run: seq<State>, steps: seq<Step>, i: nat, f: Frame)
    requires IsRun(run, steps) && i <= |steps| && f < |run[i].owner| && run[i].owner[f].InFlight?
    ensures f in run[i].at && forall spot :: Content(run[i], spot) == Some(f) <==> spot == run[i].at[f]
  {
    RunKeeps(run, steps, i);
    var s := run[i];
    assert Seated(s, {});
  }

  /** R81: every frame an allocation hands out is zero, every word of it, and nobody but its new owner can
      store to it.
    */
  lemma {:induction false} AllocationsAreZero(run: seq<State>, steps: seq<Step>, i: nat)
    requires IsRun(run, steps) && i < |steps| && steps[i].Alloc?
    ensures var f := steps[i].frame;
            && f < |run[i + 1].words| && IsZero(run[i + 1].words[f]) && Reaches(run[i + 1], f) == {}
            && f < |run[i + 1].owner| && run[i + 1].owner[f] == Owned(steps[i].pid)
  {
    RunKeeps(run, steps, i);
    hide Inv;
    assert Can(run[i], steps[i]) && run[i + 1] == Next(run[i], steps[i]);
    AllocateKeeps(run[i], steps[i].frame, steps[i].pid, {});
  }

  /** A frame free, pended, being zeroed, done or being committed is out of every hart's reach, so a store
      never undoes its zeroing.
    */
  lemma {:induction false} OutOfReach(run: seq<State>, steps: seq<Step>, i: nat, f: Frame)
    requires IsRun(run, steps) && i <= |steps| && f < |run[i].owner|
    requires run[i].owner[f].Free? || (run[i].owner[f].InFlight? && f in run[i].at && !run[i].at[f].Staged?)
    ensures !Reachable(run[i], f)
  {
    RunKeeps(run, steps, i);
  }

  /** A frame leaves a process's reach only by a step that shot that process down. */
  lemma {:induction false} ReachLasts(run: seq<State>, steps: seq<Step>, i: nat, j: nat, f: Frame, pid: Pid)
    requires IsRun(run, steps) && i <= j <= |steps| && pid in Reaches(run[i], f)
    ensures pid in Reaches(run[j], f) || exists k :: i <= k < j && Shoots(run[k], steps[k], pid)
    decreases j
  {
    hide Inv, Can, Next, Reaches, Shoots, NowMapped;
    if i < j {
      ReachLasts(run, steps, i, j - 1, f, pid);
      if pid in Reaches(run[j - 1], f) {
        RunKeeps(run, steps, j - 1);
        assert Can(run[j - 1], steps[j - 1]) && run[j - 1 + 1] == Next(run[j - 1], steps[j - 1]);
        NextWorld(run[j - 1], steps[j - 1], f, pid);
      }
    }
  }

  /** Whoever could store to a frame was shot down before anybody is given it again. */
  lemma {:induction false} ReusedOnlyShot(run: seq<State>, steps: seq<Step>, i: nat, j: nat, f: Frame, pid: Pid)
    requires IsRun(run, steps) && i <= j < |steps| && steps[j].Alloc? && steps[j].frame == f
    requires pid in Of(run[i].mapped, f)
    ensures exists k :: i <= k < j && Shoots(run[k], steps[k], pid)
  {
    RunKeeps(run, steps, i);
    MappedReaches(run[i], f, pid);
    ReachLasts(run, steps, i, j, f, pid);
    assert Can(run[j], steps[j]);
    OutOfReach(run, steps, j, f);
  }

  /** A frame retired with a process named is staged for it, and stays in its reach unless the stage was shot down to
      make room.
    */
  lemma {:induction false} RetiredIsStaged(run: seq<State>, steps: seq<Step>, i: nat)
    requires IsRun(run, steps) && i < |steps| && steps[i].Retire? && steps[i].shot.Some?
    ensures var f, pid, s, s' := steps[i].frame, steps[i].shot.value, run[i], run[i + 1];
            && f < |s'.owner| && s'.owner[f].InFlight? && f in s'.at && StagedFor(s', s'.at[f], pid)
            && (pid in Reaches(s', f) <==> pid in Reaches(s, f) && !Shoots(s, steps[i], pid))
  {
    hide Inv, Can, Next, Reaches, Of;
    RunKeeps(run, steps, i);
    var s, h, f, pid := run[i], steps[i].hart, steps[i].frame, steps[i].shot.value;
    assert Can(s, steps[i]) && run[i + 1] == Next(s, steps[i]);
    NextWorld(s, steps[i], f, pid);
    RetireCan(s, h, f, pid);
    NextMoves(s, steps[i], f);
  }

  lemma {:induction false} RetireCan(s: State, h: nat, f: Frame, pid: Pid)
    requires Inv(s) && Can(s, Retire(h, f, Some(pid)))
    ensures h < |s.harts| && f < |s.owner| && pid !in Of(s.mapped, f)
    ensures var s' := Next(s, Retire(h, f, Some(pid)));
            |s'.owner| == |s.owner| && h < |s'.harts| && s'.harts[h].stagedPid == pid
  {
    hide InvBut, Shoot;
    SectionTells(s);
    ShootKeepsOwner(Disown(s, f), h, s.harts[h].stagedPid);
  }

  lemma {:induction false} ShootKeepsOwner(s: State, h: nat, pid: Pid)
    requires h < |s.harts|
    ensures Shoot(s, h, pid).owner == s.owner && |Shoot(s, h, pid).harts| == |s.harts|
  {
  }

  /** A frame in use holds what was stored to it: nothing the kernel does to frames in flight touches it. */
  lemma {:induction false} InUseKept(run: seq<State>, steps: seq<Step>, i: nat, f: Frame)
    requires IsRun(run, steps) && i < |steps| && f < |run[i].owner| && run[i].owner[f].Owned?
    requires steps[i].Retire? || steps[i].RetireObject? ==> steps[i].frame != f
    ensures f < |run[i].words| && f < |run[i + 1].words|
    ensures match steps[i]
            case Store(g, w, v) =>
              if f == g then w < |run[i].words[f]| && run[i + 1].words[f] == run[i].words[f][w := v]
              else run[i + 1].words[f] == run[i].words[f]
            case _ => run[i + 1].words[f] == run[i].words[f]
  {
    RunKeeps(run, steps, i);
    assert Can(run[i], steps[i]) && run[i + 1] == Next(run[i], steps[i]);
    NextInUse(run[i], steps[i], f);
  }

  lemma {:induction false} NextInUse(s: State, step: Step, f: Frame)
    requires Inv(s) && Can(s, step) && f < |s.owner| && s.owner[f].Owned?
    requires step.Retire? || step.RetireObject? ==> step.frame != f
    ensures f < |s.words| && f < |Next(s, step).words|
    ensures match step
            case Store(g, w, v) =>
              if f == g then w < |s.words[f]| && Next(s, step).words[f] == s.words[f][w := v]
              else Next(s, step).words[f] == s.words[f]
            case _ => Next(s, step).words[f] == s.words[f]
  {
    hide InvBut, Shoot, DoRetire, DoWork, DoTakeOne, DoCommit, DoPopZero, DoPendObjects, Of;
    SectionTells(s);
    PlacesTell(s, f);
    match step {
      case Leave(h) => ShootWords(s, h, s.harts[h].stagedPid, {}, f);
      case Retire(h, g, shot) => RetireWords(s, h, g, shot, f);
      case PendObjects(h) => ListWords(s, step, f);
      case ShootDown(h, pid) => ShootWords(s, h, pid, {}, f);
      case TakeOne(h) => ListWords(s, step, f);
      case Zero(h) => WorkWords(s, h, f);
      case CommitOne(h) => ListWords(s, step, f);
      case PopZero(_, from) => ListWords(s, step, f);
      case _ =>
    }
  }

  lemma {:induction false} ListWords(s: State, step: Step, f: Frame)
    requires Inv(s) && Can(s, step) && f < |s.owner| && s.owner[f].Owned?
    requires step.PendObjects? || step.TakeOne? || step.CommitOne? || step.PopZero?
    ensures f < |s.words| && f < |Next(s, step).words| && Next(s, step).words[f] == s.words[f]
  {
    hide InvBut, Zeros, Of;
    SectionTells(s);
    match step {
      case PendObjects(h) => ChainMapped(s); ChainTells(s, {});
      case TakeOne(h) => PendMapped(s, h);
      case CommitOne(h) => HeadsTell(s, h); CommitTells(s, s.commit[|s.commit| - 1], {}); CommitMapped(s);
      case PopZero(_, from) =>
        PendMapped(s, from);
        PendingTells(s, from, s.harts[from].pend[|s.harts[from].pend| - 1], {});
    }
  }

  lemma {:induction false} PendAllWords(s: State, h: nat, fs: seq<Frame>, f: Frame)
    requires h < |s.harts| && Mapped(s, fs) && f < |s.words| && f !in fs
    ensures PendAll(s, h, fs).words[f] == s.words[f]
  {
    if fs != [] {
      PendAllWords(s, h, fs[..|fs| - 1], f);
      assert fs[|fs| - 1] in fs;
    }
  }

  lemma {:induction false} ShootWords(s: State, h: nat, pid: Pid, hand: set<Frame>, f: Frame)
    requires InvBut(s, hand) && h < |s.harts| && f < |s.words| && f !in s.at
    ensures |Shoot(s, h, pid).words| == |s.words| && Shoot(s, h, pid).words[f] == s.words[f]
  {
    hide InvBut, Flushed, PendAll;
    FlushedOnly(s, pid);
    StagedPlaces(s, h, hand, f);
    if s.harts[h].stagedPid == pid {
      StagedTells(s, h, hand);
      PendAllWords(Unstage(Flushed(s, pid), h), h, s.harts[h].staged, f);
    }
  }

  lemma {:induction false} RetireWords(s: State, h: nat, g: Frame, shot: Option<Pid>, f: Frame)
    requires Inv(s) && Can(s, Retire(h, g, shot)) && f < |s.owner| && s.owner[f].Owned? && f != g
    ensures f < |s.words| && |DoRetire(s, h, g, shot).words| == |s.words|
    ensures DoRetire(s, h, g, shot).words[f] == s.words[f]
  {
    hide InvBut, Shoot, Of;
    SectionTells(s);
    PlacesTell(s, f);
    DisownKeeps(s, g, {});
    assert {} + {g} == {g};
    ShootWords(Disown(s, g), h, s.harts[h].stagedPid, {g}, f);
    ShootKeepsOwner(Disown(s, g), h, s.harts[h].stagedPid);
  }

  lemma {:induction false} WorkWords(s: State, h: nat, f: Frame)
    requires Inv(s) && Can(s, Zero(h)) && f < |s.owner| && s.owner[f].Owned?
    ensures f < |s.words| && f < |DoWork(s, h).words| && DoWork(s, h).words[f] == s.words[f]
  {
    hide InvBut;
    SectionTells(s);
    var x := s.harts[h];
    if FrameOf(x.pc).Some? { HeldTells(s, h, FrameOf(x.pc).value, {}); }
  }

  /** What is left of a hart's work on the frame in its hands, if nobody takes its done list meanwhile. */
  function WorkLeft(x: Hart): nat {
    match x.pc
    case Running => 0
    case Clearing(_) => 1
    case Swapping(_, head) => if head == x.done then 2 else 4
    case Linking(_, head) => if head == x.done then 3 else 5
    case Zeroing(_, k) => if k <= WORDS then WORDS - k + 6 else 6
  }

  /** Every step of a hart's own is one step nearer the end of its work, and only the taking of its done list makes a
      swap be tried again.
    */
  lemma {:induction false} WorkEnds(run: seq<State>, steps: seq<Step>, i: nat, h: nat)
    requires IsRun(run, steps) && i < |steps| && h < |run[i].harts|
    ensures h < |run[i + 1].harts|
    ensures steps[i] == Zero(h) ==> WorkLeft(run[i + 1].harts[h]) < WorkLeft(run[i].harts[h])
    ensures steps[i] != Zero(h) && !steps[i].TakeList? && !steps[i].TakeOne? ==>
              WorkLeft(run[i + 1].harts[h]) == WorkLeft(run[i].harts[h])
  {
    RunKeeps(run, steps, i);
    assert Can(run[i], steps[i]) && run[i + 1] == Next(run[i], steps[i]);
    NextWorks(run[i], steps[i], h);
  }

  lemma {:induction false} NextWorks(s: State, step: Step, h: nat)
    requires Inv(s) && Can(s, step) && h < |s.harts|
    ensures h < |Next(s, step).harts|
    ensures step == Zero(h) ==> WorkLeft(Next(s, step).harts[h]) < WorkLeft(s.harts[h])
    ensures step != Zero(h) && !step.TakeList? && !step.TakeOne? ==>
              WorkLeft(Next(s, step).harts[h]) == WorkLeft(s.harts[h])
  {
    hide InvBut, Shoot, DoRetire, DoWork, Of, Zeros, WorkLeft;
    SectionTells(s);
    match step {
      case Leave(g) => ShootPcs(s, g, s.harts[g].stagedPid, h); SameWork(s, Next(s, step), h);
      case Retire(g, f, shot) => RetirePcs(s, g, f, shot, h); SameWork(s, Next(s, step), h);
      case ShootDown(g, pid) => ShootPcs(s, g, pid, h); SameWork(s, Next(s, step), h);
      case Zero(g) => WorkNearer(s, g, h);
      case TakeOne(_) => HartsStay(s, step);
      case TakeList(_, _) => HartsStay(s, step);
      case _ => HartsStay(s, step); SameWork(s, Next(s, step), h);
    }
  }

  lemma {:induction false} SameWork(s: State, s': State, h: nat)
    requires h < |s.harts| && h < |s'.harts|
    requires s'.harts[h].pc == s.harts[h].pc && s'.harts[h].done == s.harts[h].done
    ensures WorkLeft(s'.harts[h]) == WorkLeft(s.harts[h])
  {
  }

  lemma {:induction false} WorkNearer(s: State, g: nat, h: nat)
    requires Inv(s) && Can(s, Zero(g)) && h < |s.harts|
    ensures |DoWork(s, g).harts| == |s.harts|
    ensures g == h ==> WorkLeft(DoWork(s, g).harts[h]) < WorkLeft(s.harts[h])
    ensures g != h ==> WorkLeft(DoWork(s, g).harts[h]) == WorkLeft(s.harts[h])
  {
    hide InvBut;
    if FrameOf(s.harts[g].pc).Some? { HeldTells(s, g, FrameOf(s.harts[g].pc).value, {}); }
  }

  lemma {:induction false} HartsStay(s: State, step: Step)
    requires !step.Leave? && !step.Retire? && !step.ShootDown? && !step.Zero?
    ensures |Next(s, step).harts| == |s.harts|
    ensures !step.TakeOne? && !step.TakeList? ==>
              forall h :: 0 <= h < |s.harts| ==>
                Next(s, step).harts[h].pc == s.harts[h].pc && Next(s, step).harts[h].done == s.harts[h].done
  {
    hide Of, Zeros;
  }

  lemma {:induction false} PendAllPcs(s: State, h: nat, fs: seq<Frame>, g: nat)
    requires h < |s.harts| && Mapped(s, fs) && g < |s.harts|
    ensures var x := PendAll(s, h, fs).harts[g]; x.pc == s.harts[g].pc && x.done == s.harts[g].done
  {
    if fs != [] { PendAllPcs(s, h, fs[..|fs| - 1], g); }
  }

  lemma {:induction false} ShootPcs(s: State, h: nat, pid: Pid, g: nat)
    requires h < |s.harts| && g < |s.harts|
    ensures |Shoot(s, h, pid).harts| == |s.harts|
    ensures var x := Shoot(s, h, pid).harts[g]; x.pc == s.harts[g].pc && x.done == s.harts[g].done
  {
    hide Flushed, PendAll;
    FlushedOnly(s, pid);
    var fs := s.harts[h].staged;
    if s.harts[h].stagedPid == pid && Mapped(s, fs) { PendAllPcs(Unstage(Flushed(s, pid), h), h, fs, g); }
  }

  lemma {:induction false} RetirePcs(s: State, h: nat, f: Frame, shot: Option<Pid>, g: nat)
    requires Inv(s) && Can(s, Retire(h, f, shot)) && g < |s.harts|
    ensures |DoRetire(s, h, f, shot).harts| == |s.harts|
    ensures var x := DoRetire(s, h, f, shot).harts[g]; x.pc == s.harts[g].pc && x.done == s.harts[g].done
  {
    hide InvBut, Shoot, Of;
    SectionTells(s);
    ShootPcs(Disown(s, f), h, s.harts[h].stagedPid, g);
  }

  /** When nothing is free, staged, chained, pending, done or being committed, every frame in flight is one a
      hart is zeroing outside the lock: the wait in `reclaim_wait` is for such a hart alone.
    */
  lemma {:induction false} WaitIsForZeroing(run: seq<State>, steps: seq<Step>, i: nat, f: Frame)
    requires IsRun(run, steps) && i <= |steps| && f < |run[i].owner| && run[i].owner[f].InFlight?
    requires run[i].chainFirst == 0 && run[i].committing == 0
    requires forall h :: 0 <= h < |run[i].harts| ==>
               run[i].harts[h].staged == [] && run[i].harts[h].pending == 0 && run[i].harts[h].done == 0
    ensures exists h :: 0 <= h < |run[i].harts| && FrameOf(run[i].harts[h].pc) == Some(f)
  {
    RunKeeps(run, steps, i);
    var s := run[i];
    assert Seated(s, {}) && Headed(s);
    forall h | 0 <= h < |s.harts| ensures s.harts[h].pend == [] && s.harts[h].finished == [] {
      assert HartOk(s.harts[h]);
    }
    assert s.chain == [] && s.commit == [];
    assert Content(s, s.at[f]) == Some(f);
    assert s.at[f].Held?;
  }
}
