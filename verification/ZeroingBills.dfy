/** Who pays for zeroing the frames a hart retired: at most four payers a hart, the overflow on the last, billed
    as the frames are zeroed (R81; kernel/src/sched.rs, kernel/src/reclaim.rs).
  */
module ZeroingBills {
  import opened Basics

  type Budget = nat

  const ZEROING_PAYERS: nat := 4

  datatype Entry = Entry(payer: Option<Budget>, frames: nat)

  function Total(es: seq<Entry>): nat {
    if |es| == 0 then 0 else Total(es[..|es| - 1]) + es[|es| - 1].frames
  }

  function Copies(payer: Option<Budget>, n: nat): seq<Option<Budget>> { seq(n, _ => payer) }

  /** The payer of each frame, in retiring order: what the entries stand for. */
  ghost function Flat(es: seq<Entry>): seq<Option<Budget>> {
    if |es| == 0 then [] else Flat(es[..|es| - 1]) + Copies(es[|es| - 1].payer, es[|es| - 1].frames)
  }

  /** The entries in use come first, and one not in use names nobody. */
  ghost predicate Tidy(es: seq<Entry>) {
    && (forall i, j :: 0 <= i < j < |es| && es[j].frames > 0 ==> es[i].frames > 0)
    && (forall i :: 0 <= i < |es| && es[i].frames == 0 ==> es[i].payer == None)
  }

  // --- Sums -------------------------------------------------------------------------------------------------

  lemma {:induction false} FlatSize(es: seq<Entry>)
    ensures |Flat(es)| == Total(es)
    decreases |es|
  {
    if |es| > 0 { FlatSize(es[..|es| - 1]); }
  }

  /** Entries not in use count for nothing. */
  lemma {:induction false} FlatUpTo(es: seq<Entry>, k: nat)
    requires k <= |es| && forall i :: k <= i < |es| ==> es[i].frames == 0
    ensures Flat(es) == Flat(es[..k]) && Total(es) == Total(es[..k])
    decreases |es|
  {
    if k < |es| {
      FlatUpTo(es[..|es| - 1], k);
      assert es[..|es| - 1][..k] == es[..k];
    } else {
      assert es[..k] == es;
    }
  }

  lemma {:induction false} CopiesAdd(payer: Option<Budget>, a: nat, b: nat)
    ensures Copies(payer, a + b) == Copies(payer, a) + Copies(payer, b)
  {
  }

  lemma {:induction false} FlatMembers(es: seq<Entry>, payer: Option<Budget>)
    ensures payer in Flat(es) <==> exists i :: 0 <= i < |es| && es[i].frames > 0 && es[i].payer == payer
    decreases |es|
  {
    if |es| > 0 {
      var n := |es| - 1;
      FlatMembers(es[..n], payer);
      forall i | 0 <= i < n ensures es[..n][i] == es[i] {}
      if es[n].frames > 0 { assert Copies(es[n].payer, es[n].frames)[0] == es[n].payer; }
      if payer in Flat(es[..n]) {
        var i :| 0 <= i < n && es[..n][i].frames > 0 && es[..n][i].payer == payer;
        assert es[i].frames > 0 && es[i].payer == payer;
      }
      if i :| 0 <= i < |es| && es[i].frames > 0 && es[i].payer == payer {
        if i < n { assert es[..n][i].frames > 0 && es[..n][i].payer == payer; }
      }
    }
  }

  // --- Retiring ------------------------------------------------------------------------------------------------

  /** The first entry not in use. */
  function Used(es: seq<Entry>): (k: nat)
    ensures k <= |es| && (k < |es| ==> es[k].frames == 0) && forall i :: 0 <= i < k ==> es[i].frames > 0
  {
    if |es| == 0 then 0
    else var k := Used(es[..|es| - 1]); if k < |es| - 1 || es[|es| - 1].frames == 0 then k else |es|
  }

  function Retired(es: seq<Entry>, payer: Option<Budget>, frames: nat): seq<Entry>
    requires |es| > 0
  {
    var last := Used(es);
    if frames == 0 then es
    else if last > 0 && (es[last - 1].payer == payer || last == |es|) then
      es[last - 1 := Entry(es[last - 1].payer, es[last - 1].frames + frames)]
    else es[last := Entry(payer, frames)]
  }

  /** Who pays for frames `payer` retired: the newest payer there is, once every entry is in use. */
  function Charged(es: seq<Entry>, payer: Option<Budget>): Option<Budget>
    requires |es| > 0
  {
    if Used(es) == |es| then es[|es| - 1].payer else payer
  }

  /** Retiring adds its frames after all the others, on one payer, whether they merge with the last entry or
      not: the entries stay tidy, and nothing else about them changes.
    */
  lemma {:induction false} RetiredKeeps(es: seq<Entry>, payer: Option<Budget>, frames: nat)
    requires |es| > 0 && Tidy(es)
    ensures var es' := Retired(es, payer, frames);
            && |es'| == |es| && Tidy(es') && Flat(es') == Flat(es) + Copies(Charged(es, payer), frames)
            && Total(es') == Total(es) + frames
  {
    RetiredTidy(es, payer, frames);
    hide Flat, Total, Copies, Tidy;
    var last := Used(es);
    if frames == 0 {
      NoCopies(Charged(es, payer));
    } else {
      FirstEmpty(es);
      if last > 0 && (es[last - 1].payer == payer || last == |es|) {
        MergedFlat(es, last, frames);
      } else {
        AddedFlat(es, last, payer, frames);
      }
    }
  }

  lemma {:induction false} MergedFlat(es: seq<Entry>, last: nat, frames: nat)
    requires 0 < last <= |es| && forall i :: last <= i < |es| ==> es[i].frames == 0
    ensures var es' := es[last - 1 := Entry(es[last - 1].payer, es[last - 1].frames + frames)];
            && Flat(es') == Flat(es) + Copies(es[last - 1].payer, frames) && Total(es') == Total(es) + frames
  {
    hide Flat, Total, Copies;
    var es' := es[last - 1 := Entry(es[last - 1].payer, es[last - 1].frames + frames)];
    FlatUpTo(es, last);
    FlatUpTo(es', last);
    assert es'[..last][..last - 1] == es[..last][..last - 1];
    FlatLast(es[..last]);
    FlatLast(es'[..last]);
    CopiesAdd(es[last - 1].payer, es[last - 1].frames, frames);
  }

  lemma {:induction false} AddedFlat(es: seq<Entry>, last: nat, payer: Option<Budget>, frames: nat)
    requires last < |es| && forall i :: last <= i < |es| ==> es[i].frames == 0
    ensures var es' := es[last := Entry(payer, frames)];
            Flat(es') == Flat(es) + Copies(payer, frames) && Total(es') == Total(es) + frames
  {
    hide Flat, Total, Copies;
    var es' := es[last := Entry(payer, frames)];
    FlatUpTo(es, last);
    FlatUpTo(es', last + 1);
    assert es'[..last + 1][..last] == es[..last];
    FlatLast(es'[..last + 1]);
  }

  lemma {:induction false} FirstEmpty(es: seq<Entry>)
    requires Tidy(es)
    ensures forall i :: Used(es) <= i < |es| ==> es[i].frames == 0
  {
    var k := Used(es);
    forall i | k < i < |es| ensures es[i].frames == 0 {
      assert es[k].frames == 0;
    }
  }

  lemma {:induction false} UsedIs(es: seq<Entry>, k: nat)
    requires k <= |es| && (k < |es| ==> es[k].frames == 0) && forall i :: 0 <= i < k ==> es[i].frames > 0
    ensures k == Used(es)
  {
  }

  lemma {:induction false} RetiredTidy(es: seq<Entry>, payer: Option<Budget>, frames: nat)
    requires |es| > 0 && Tidy(es)
    ensures Tidy(Retired(es, payer, frames))
  {
    FirstEmpty(es);
  }

  lemma {:induction false} NoCopies(payer: Option<Budget>)
    ensures Copies(payer, 0) == []
  {
  }

  lemma {:induction false} FlatLast(es: seq<Entry>)
    requires |es| > 0
    ensures Flat(es) == Flat(es[..|es| - 1]) + Copies(es[|es| - 1].payer, es[|es| - 1].frames)
    ensures Total(es) == Total(es[..|es| - 1]) + es[|es| - 1].frames
  {
  }

  // --- Taking frames off -----------------------------------------------------------------------------------------

  /** `frames` taken off the newest: each entry split between what is taken and what stays, and nothing taken
      while a newer frame stays.
    */
  ghost predicate NewestOff(es: seq<Entry>, frames: nat, shares: seq<Entry>, rest: seq<Entry>) {
    && |shares| == |rest| == |es|
    && (forall i :: 0 <= i < |es| ==>
          && shares[i].payer == es[i].payer
          && shares[i].frames + rest[i].frames == es[i].frames
          && rest[i].payer == if rest[i].frames == 0 then None else es[i].payer)
    && (forall i, j :: 0 <= i < j < |es| && shares[i].frames > 0 ==> rest[j].frames == 0)
    && Total(shares) == frames
  }

  lemma {:induction false} NothingFlat(es: seq<Entry>)
    requires forall i :: 0 <= i < |es| ==> es[i].frames == 0
    ensures Flat(es) == [] && Total(es) == 0
  {
    FlatUpTo(es, 0);
  }

  lemma {:induction false} OffSplits(es: seq<Entry>, frames: nat, shares: seq<Entry>, rest: seq<Entry>)
    requires NewestOff(es, frames, shares, rest)
    ensures Flat(es) == Flat(rest) + Flat(shares) && Total(es) == Total(rest) + frames
    decreases |es|
  {
    hide Flat, Total, Copies;
    if |es| > 0 {
      var n := |es| - 1;
      FlatLast(es);
      FlatLast(shares);
      FlatLast(rest);
      OffBefore(es, frames, shares, rest);
      OffSplits(es[..n], Total(shares[..n]), shares[..n], rest[..n]);
      if rest[n].frames > 0 { NothingFlat(shares[..n]); }
      Rejoin(Flat(rest[..n]), Flat(shares[..n]), es[n].payer, rest[n].payer, rest[n].frames, shares[n].frames);
    } else {
      NothingFlat(es);
      NothingFlat(shares);
      NothingFlat(rest);
    }
  }

  lemma {:induction false} OffBefore(es: seq<Entry>, frames: nat, shares: seq<Entry>, rest: seq<Entry>)
    requires NewestOff(es, frames, shares, rest) && |es| > 0
    ensures var n := |es| - 1; NewestOff(es[..n], Total(shares[..n]), shares[..n], rest[..n])
    ensures var n := |es| - 1; rest[n].frames > 0 ==> forall i :: 0 <= i < n ==> shares[..n][i].frames == 0
  {
    hide Total;
  }

  lemma {:induction false} Rejoin(
      rest: seq<Option<Budget>>, shares: seq<Option<Budget>>, payer: Option<Budget>, left: Option<Budget>, r: nat,
      s: nat)
    requires r > 0 ==> shares == [] && left == payer
    ensures rest + shares + Copies(payer, r + s) == (rest + Copies(left, r)) + (shares + Copies(payer, s))
  {
    CopiesAdd(payer, r, s);
    if r == 0 {
      NoCopies(left);
      hide Copies;
      assert rest + shares + Copies(payer, s) == rest + (shares + Copies(payer, s));
    } else {
      hide Copies;
      assert rest + (Copies(payer, r) + Copies(payer, s)) == (rest + Copies(payer, r)) + Copies(payer, s);
    }
  }

  /** Taking off the newest is taking off the end: what is taken and what stays are the two parts of what was
      there, and what stays is tidy.
    */
  lemma {:induction false} OffKeeps(es: seq<Entry>, frames: nat, shares: seq<Entry>, rest: seq<Entry>)
    requires Tidy(es) && NewestOff(es, frames, shares, rest)
    ensures Tidy(rest) && frames <= |Flat(es)|
    ensures Flat(rest) == Flat(es)[..|Flat(es)| - frames] && Flat(shares) == Flat(es)[|Flat(es)| - frames..]
  {
    OffSplits(es, frames, shares, rest);
    FlatSize(es);
    FlatSize(rest);
    FlatSize(shares);
    assert Flat(es)[..|Flat(es)| - frames] == Flat(rest);
    assert Flat(es)[|Flat(es)| - frames..] == Flat(shares);
    forall i, j | 0 <= i < j < |rest| && rest[j].frames > 0 ensures rest[i].frames > 0 {
      assert es[j].frames > 0 && es[i].frames > 0;
      assert shares[i].frames == 0;
    }
  }

  // --- Bills -------------------------------------------------------------------------------------------------------

  datatype Bill = Bill(budget: Budget, ticks: nat)

  function Share(ticks: nat, n: nat, frames: nat): nat
    requires frames > 0
  {
    ticks * n / frames
  }

  /** The bills of one idle pass: each payer's part of the ticks, by frames; nobody's for `kmain`'s own work. */
  function Bills(shares: seq<Entry>, ticks: nat, frames: nat): seq<Bill>
    requires frames > 0
  {
    if |shares| == 0 then []
    else
      var e := shares[|shares| - 1];
      var before := Bills(shares[..|shares| - 1], ticks, frames);
      if e.payer.Some? && e.frames > 0 then before + [Bill(e.payer.value, Share(ticks, e.frames, frames))] else before
  }

  function Sum(bills: seq<Bill>): nat {
    if |bills| == 0 then 0 else Sum(bills[..|bills| - 1]) + bills[|bills| - 1].ticks
  }

  lemma {:induction false} SumAdds(a: seq<Bill>, b: seq<Bill>)
    ensures Sum(a + b) == Sum(a) + Sum(b)
    decreases |b|
  {
    if |b| == 0 {
      assert a + b == a;
    } else {
      SumAdds(a, b[..|b| - 1]);
      assert (a + b)[..|a + b| - 1] == a + b[..|b| - 1];
    }
  }

  lemma {:induction false} ShareBounds(ticks: nat, n: nat, frames: nat)
    requires frames > 0
    ensures frames * Share(ticks, n, frames) <= ticks * n < frames * Share(ticks, n, frames) + frames
  {
    var x := ticks * n;
    assert x == frames * (x / frames) + x % frames;
  }

  /** The frames of the shares somebody pays for. */
  function Paid(shares: seq<Entry>): nat {
    if |shares| == 0 then 0
    else
      var e := shares[|shares| - 1];
      Paid(shares[..|shares| - 1]) + if e.payer.Some? then e.frames else 0
  }

  lemma {:induction false} BillsBound(shares: seq<Entry>, ticks: nat, frames: nat)
    requires frames > 0
    ensures frames * Sum(Bills(shares, ticks, frames)) <= ticks * Paid(shares)
    ensures ticks * Paid(shares) <= frames * Sum(Bills(shares, ticks, frames)) + frames * |shares|
    ensures Paid(shares) <= Total(shares)
    decreases |shares|
  {
    hide Bills, Sum, Paid, Total;
    BillsLast(shares, ticks, frames);
    if |shares| > 0 {
      var n := |shares| - 1;
      var e, before := shares[n], Sum(Bills(shares[..n], ticks, frames));
      BillsBound(shares[..n], ticks, frames);
      if e.payer.Some? {
        var part := Share(ticks, e.frames, frames);
        ShareBounds(ticks, e.frames, frames);
        hide Share;
        Distributes(ticks, Paid(shares[..n]), e.frames);
        Distributes(frames, before, part);
      }
      Distributes(frames, n, 1);
    }
  }

  lemma {:induction false} BillsLast(shares: seq<Entry>, ticks: nat, frames: nat)
    requires frames > 0
    ensures |shares| == 0 ==> Paid(shares) == Total(shares) == Sum(Bills(shares, ticks, frames)) == 0
    ensures |shares| > 0 ==>
              var n := |shares| - 1;
              var e := shares[n];
              && Paid(shares) == Paid(shares[..n]) + (if e.payer.Some? then e.frames else 0)
              && Total(shares) == Total(shares[..n]) + e.frames
              && Sum(Bills(shares, ticks, frames))
                   == Sum(Bills(shares[..n], ticks, frames))
                     + if e.payer.Some? then Share(ticks, e.frames, frames) else 0
  {
    if |shares| > 0 {
      var e, before := shares[|shares| - 1], Bills(shares[..|shares| - 1], ticks, frames);
      if e.payer.Some? {
        if e.frames == 0 {
          assert ticks * 0 == 0;
        } else {
          var last := [Bill(e.payer.value, Share(ticks, e.frames, frames))];
          SumAdds(before, last);
          assert last[..0] == [];
        }
      }
    }
  }

  lemma {:induction false} Distributes(a: nat, b: nat, c: nat)
    ensures a * (b + c) == a * b + a * c
  {
  }

  /** One pass bills its ticks at most once over, and when every frame has a payer, all but what rounding
      loses: at most a tick a share.
    */
  lemma {:induction false} BilledAtMostMeasured(shares: seq<Entry>, ticks: nat, frames: nat)
    requires frames > 0 && Total(shares) == frames
    ensures Sum(Bills(shares, ticks, frames)) <= ticks
    ensures Paid(shares) == frames ==> ticks <= Sum(Bills(shares, ticks, frames)) + |shares|
  {
    var sum := Sum(Bills(shares, ticks, frames));
    BillsBound(shares, ticks, frames);
    if sum > ticks { TimesMore(frames, sum, ticks); TimesAtMost(ticks, Paid(shares), frames); }
    if Paid(shares) == frames && ticks > sum + |shares| {
      TimesMore(frames, ticks, sum + |shares|);
      Distributes(frames, sum, |shares|);
    }
  }

  lemma {:induction false} TimesMore(a: nat, b: nat, c: nat)
    requires a > 0 && b > c
    ensures a * b > a * c
  {
  }

  lemma {:induction false} TimesAtMost(a: nat, b: nat, c: nat)
    requires b <= c
    ensures a * b <= c * a
  {
  }

  // --- Taking off, as it is computed ------------------------------------------------------------------------------

  function Min(a: nat, b: nat): nat { if a < b then a else b }

  /** What `zeroed_off` takes, from the last entry back, and what it leaves. */
  function Off(es: seq<Entry>, frames: nat): (r: (seq<Entry>, seq<Entry>))
    ensures |r.0| == |r.1| == |es|
  {
    if |es| == 0 then ([], [])
    else
      var e := es[|es| - 1];
      var take := Min(e.frames, frames);
      var before := Off(es[..|es| - 1], frames - take);
      (before.0 + [Entry(e.payer, take)],
       before.1 + [Entry(if take == e.frames then None else e.payer, e.frames - take)])
  }

  /** With that many frames there, it accounts for every one of them. */
  lemma {:induction false} OffIsNewest(es: seq<Entry>, frames: nat)
    requires frames <= Total(es)
    ensures NewestOff(es, frames, Off(es, frames).0, Off(es, frames).1)
    decreases |es|
  {
    hide Off, Total;
    if |es| > 0 {
      var n := |es| - 1;
      var take := Min(es[n].frames, frames);
      assert es[..|es|] == es;
      OffStep(es, |es|, frames);
      FlatLast(es);
      var before := Off(es[..n], frames - take);
      OffIsNewest(es[..n], frames - take);
      var shares, rest := Off(es, frames).0, Off(es, frames).1;
      assert shares[..n] == before.0;
      FlatLast(shares);
      forall i | 0 <= i < n ensures shares[i].frames > 0 ==> rest[n].frames == 0 {
        if take == frames { TakesNothing(before.0, i); }
      }
      OffGrows(es, frames, shares, rest);
    } else {
      NothingFlat(es);
      NothingFlat(Off(es, frames).0);
    }
  }

  lemma {:induction false} OffGrows(es: seq<Entry>, frames: nat, shares: seq<Entry>, rest: seq<Entry>)
    requires |shares| == |rest| == |es| > 0 && Total(shares) == frames
    requires var n := |es| - 1; NewestOff(es[..n], Total(shares[..n]), shares[..n], rest[..n])
    requires var n := |es| - 1;
             && shares[n].payer == es[n].payer && shares[n].frames + rest[n].frames == es[n].frames
             && rest[n].payer == if rest[n].frames == 0 then None else es[n].payer
    requires var n := |es| - 1; forall i :: 0 <= i < n && shares[i].frames > 0 ==> rest[n].frames == 0
    ensures NewestOff(es, frames, shares, rest)
  {
    hide Total;
    var n := |es| - 1;
    forall i | 0 <= i < n ensures es[..n][i] == es[i] && shares[..n][i] == shares[i] && rest[..n][i] == rest[i] {}
    forall i | 0 <= i < |es|
      ensures shares[i].payer == es[i].payer && shares[i].frames + rest[i].frames == es[i].frames
              && rest[i].payer == if rest[i].frames == 0 then None else es[i].payer
    {
      if i < n { assert shares[..n][i].payer == es[..n][i].payer; }
    }
    forall i, j | 0 <= i < j < |es| && shares[i].frames > 0 ensures rest[j].frames == 0 {
      if j < n { assert shares[..n][i].frames > 0 ==> rest[..n][j].frames == 0; }
    }
  }

  lemma {:induction false} TakesNothing(shares: seq<Entry>, i: nat)
    requires Total(shares) == 0 && i < |shares|
    ensures shares[i].frames == 0
    decreases |shares|
  {
    if i < |shares| - 1 { TakesNothing(shares[..|shares| - 1], i); }
  }

  lemma {:induction false} OffNothing(es: seq<Entry>, frames: nat)
    requires |es| == 0
    ensures Off(es, frames) == ([], [])
  {
  }

  lemma {:induction false} OffStep(es: seq<Entry>, i: nat, frames: nat)
    requires 0 < i <= |es|
    ensures var take := Min(es[i - 1].frames, frames);
            && Off(es[..i], frames).0 == Off(es[..i - 1], frames - take).0 + [Entry(es[i - 1].payer, take)]
            && Off(es[..i], frames).1 == Off(es[..i - 1], frames - take).1
                 + [Entry(if take == es[i - 1].frames then None else es[i - 1].payer, es[i - 1].frames - take)]
  {
    assert es[..i][..i - 1] == es[..i - 1];
  }

  // --- Every run ----------------------------------------------------------------------------------------------------

  /** One hart: its entries; the frames it retired that are staged or on its pending list, the one it took to
      zero, and those it zeroed and has not billed, with the ticks that took; who its kernel time is billed
      to; the payer of the destruction it is running; and what it billed of what it ever measured.
    */
  datatype Hart = Hart(
    entries: seq<Entry>, staged: nat, pending: nat, taken: bool, zeroed: nat, ticks: nat,
    billing: Option<Budget>, destruction: Option<Budget>, bills: seq<Bill>, measured: nat)

  /** `dying`: the budgets of the subtree being destroyed, empty outside a destruction. */
  datatype State = State(harts: seq<Hart>, live: set<Budget>, dying: set<Budget>)

  /** The frames this hart retired whose zeroing is still to be billed. */
  function Outstanding(h: Hart): nat { h.staged + h.pending + (if h.taken then 1 else 0) + h.zeroed }

  ghost predicate Within(payer: Option<Budget>, budgets: set<Budget>) { payer.Some? ==> payer.value in budgets }

  /** Every frame of the bill to come has a payer that is neither gone nor going. */
  ghost predicate PayersLive(es: seq<Entry>, budgets: set<Budget>) {
    forall i :: 0 <= i < |es| && es[i].frames > 0 ==> Within(es[i].payer, budgets)
  }

  ghost predicate HartSound(h: Hart, live: set<Budget>, dying: set<Budget>) {
    && |h.entries| == ZEROING_PAYERS && Tidy(h.entries) && Total(h.entries) == Outstanding(h)
    && PayersLive(h.entries, live - dying)
    && Within(h.billing, live) && Within(h.destruction, live - dying)
    && Sum(h.bills) + h.ticks <= h.measured
  }

  ghost predicate Sound(s: State) {
    && s.dying <= s.live
    && forall i :: 0 <= i < |s.harts| ==>
      HartSound(s.harts[i], s.live, s.dying) && (s.dying == {} ==> s.harts[i].destruction == None)
  }

  function Payer(h: Hart): Option<Budget> { if h.destruction.Some? then h.destruction else h.billing }

  function Retiring(h: Hart, staged: nat, pended: nat): Hart
    requires |h.entries| > 0
  {
    h.(entries := Retired(h.entries, Payer(h), staged + pended), staged := h.staged + staged,
       pending := h.pending + pended)
  }

  function ZeroedHere(h: Hart): Hart { h.(entries := Off(h.entries, 1).1) }

  function ZeroedIdle(h: Hart): Hart {
    if h.zeroed == 0 then h.(ticks := 0)
    else
      h.(entries := Off(h.entries, h.zeroed).1, zeroed := 0, ticks := 0,
         bills := h.bills + Bills(Off(h.entries, h.zeroed).0, h.ticks, h.zeroed))
  }

  function LiftedEntry(e: Entry, dying: set<Budget>, payer: Option<Budget>): Entry {
    if e.frames > 0 && e.payer.Some? && e.payer.value in dying then Entry(payer, e.frames) else e
  }

  function LiftedEntries(es: seq<Entry>, dying: set<Budget>, payer: Option<Budget>): seq<Entry> {
    seq(|es|, i requires 0 <= i < |es| => LiftedEntry(es[i], dying, payer))
  }

  function Lifted(harts: seq<Hart>, dying: set<Budget>, payer: Option<Budget>): seq<Hart> {
    seq(|harts|, i requires 0 <= i < |harts| => harts[i].(entries := LiftedEntries(harts[i].entries, dying, payer)))
  }

  function Unbilled(h: Hart, dying: set<Budget>): Hart {
    h.(billing := if h.billing.Some? && h.billing.value in dying then None else h.billing, destruction := None)
  }

  datatype Step =
    | Create(budget: Budget)
    | Billing(hart: nat, payer: Option<Budget>)
    | Retire(hart: nat, staged: nat, pended: nat)
    | Shoot(hart: nat)
    | Allocate(hart: nat)
    | Take(hart: nat)
    | Zero(hart: nat, ticks: nat)
    | Idle(hart: nat)
    | BeginDestruction(hart: nat, doomed: set<Budget>, heir: Budget)
    | EndDestruction

  /** A destruction runs in one section of the kernel lock: until it ends, only its own hart retires frames, and
      no hart bills; a frame taken before it may still be zeroed, which needs no lock.
    */
  ghost predicate Can(s: State, t: Step) {
    match t
    case Create(budget) => s.dying == {}
    case Billing(h, payer) => h < |s.harts| && s.dying == {} && Within(payer, s.live)
    case Retire(h, staged, pended) => h < |s.harts| && (s.dying == {} || s.harts[h].destruction.Some?)
    case Shoot(h) => h < |s.harts|
    case Allocate(h) => h < |s.harts| && s.harts[h].pending > 0
    case Take(h) => h < |s.harts| && s.dying == {} && s.harts[h].pending > 0 && !s.harts[h].taken
    case Zero(h, ticks) => h < |s.harts| && s.harts[h].taken
    case Idle(h) => h < |s.harts| && s.dying == {}
    case BeginDestruction(h, doomed, payer) => h < |s.harts| && s.dying == {} && {} < doomed <= s.live
      && payer in s.live - doomed
    case EndDestruction => true
  }

  function HartAfter(h: Hart, t: Step): Hart
    requires |h.entries| > 0
  {
    match t
    case Billing(_, payer) => h.(billing := payer)
    case Retire(_, staged, pended) => Retiring(h, staged, pended)
    case Shoot(_) => h.(staged := 0, pending := h.pending + h.staged)
    case Allocate(_) => ZeroedHere(h.(pending := if h.pending > 0 then h.pending - 1 else 0))
    case Take(_) => h.(pending := if h.pending > 0 then h.pending - 1 else 0, taken := true)
    case Zero(_, ticks) => h.(taken := false, zeroed := h.zeroed + 1, ticks := h.ticks + ticks,
                              measured := h.measured + ticks)
    case Idle(_) => ZeroedIdle(h)
    case _ => h
  }

  ghost function After(s: State, t: Step): State
    requires Can(s, t) && forall i :: 0 <= i < |s.harts| ==> |s.harts[i].entries| > 0
  {
    match t
    case Create(budget) => s.(live := s.live + {budget})
    case BeginDestruction(h, doomed, payer) =>
      var harts := Lifted(s.harts, doomed, Some(payer));
      s.(harts := harts[h := harts[h].(destruction := Some(payer))], dying := doomed)
    case EndDestruction =>
      State(seq(|s.harts|, i requires 0 <= i < |s.harts| => Unbilled(s.harts[i], s.dying)), s.live - s.dying, {})
    case _ => s.(harts := s.harts[t.hart := HartAfter(s.harts[t.hart], t)])
  }

  ghost predicate Run(ss: seq<State>, ts: seq<Step>) {
    && |ss| == |ts| + 1
    && (forall i, j :: 0 <= i < |ss| && 0 <= j < |ss[i].harts| ==> |ss[i].harts[j].entries| > 0)
    && forall i :: 0 <= i < |ts| ==> Can(ss[i], ts[i]) && ss[i + 1] == After(ss[i], ts[i])
  }

  // --- What each step keeps ------------------------------------------------------------------------------------------

  lemma {:induction false} RetiringKeeps(h: Hart, staged: nat, pended: nat, live: set<Budget>, dying: set<Budget>)
    requires HartSound(h, live, dying) && dying <= live && (dying == {} || h.destruction.Some?)
    ensures HartSound(Retiring(h, staged, pended), live, dying)
  {
    hide Total, Tidy, Flat, Retired, Sum, PayersLive, Copies, Charged;
    RetiredKeeps(h.entries, Payer(h), staged + pended);
    RetiredPayers(h.entries, Payer(h), staged + pended, live - dying);
    assert live - {} == live;
  }

  lemma {:induction false} RetiredPayers(es: seq<Entry>, payer: Option<Budget>, frames: nat, budgets: set<Budget>)
    requires |es| > 0 && PayersLive(es, budgets) && Within(payer, budgets)
    ensures PayersLive(Retired(es, payer, frames), budgets)
  {
  }

  lemma {:induction false} OffPayers(es: seq<Entry>, frames: nat, budgets: set<Budget>)
    requires PayersLive(es, budgets) && frames <= Total(es) && Tidy(es)
    ensures var r := Off(es, frames);
            && PayersLive(r.0, budgets) && PayersLive(r.1, budgets) && Tidy(r.1)
            && Total(r.0) == frames && Total(r.1) == Total(es) - frames
  {
    hide Off, Tidy;
    OffIsNewest(es, frames);
    var shares, rest := Off(es, frames).0, Off(es, frames).1;
    OffSplits(es, frames, shares, rest);
    OffKeeps(es, frames, shares, rest);
  }

  lemma {:induction false} ZeroedIdleKeeps(h: Hart, live: set<Budget>, dying: set<Budget>)
    requires HartSound(h, live, dying)
    ensures HartSound(ZeroedIdle(h), live, dying)
  {
    if h.zeroed > 0 {
      OffPayers(h.entries, h.zeroed, live - dying);
      hide Off, Tidy, PayersLive, Total;
      var shares := Off(h.entries, h.zeroed).0;
      BilledAtMostMeasured(shares, h.ticks, h.zeroed);
      SumAdds(h.bills, Bills(shares, h.ticks, h.zeroed));
    }
  }

  lemma {:induction false} HartKeeps(h: Hart, t: Step, live: set<Budget>, dying: set<Budget>)
    requires HartSound(h, live, dying) && dying <= live
    requires match t
             case Billing(_, payer) => Within(payer, live)
             case Retire(_, _, _) => dying == {} || h.destruction.Some?
             case Allocate(_) => h.pending > 0
             case Take(_) => h.pending > 0 && !h.taken
             case Zero(_, _) => h.taken
             case _ => true
    ensures HartSound(HartAfter(h, t), live, dying)
  {
    match t
    case Retire(_, staged, pended) => RetiringKeeps(h, staged, pended, live, dying);
    case Allocate(_) => OffPayers(h.entries, 1, live - dying);
    case Idle(_) => ZeroedIdleKeeps(h, live, dying);
    case _ =>
  }

  lemma {:induction false} LiftedKeeps(es: seq<Entry>, dying: set<Budget>, payer: Option<Budget>)
    ensures var es' := LiftedEntries(es, dying, payer);
            Total(es') == Total(es) && (Tidy(es) ==> Tidy(es'))
    decreases |es|
  {
    if |es| > 0 {
      var n := |es| - 1;
      LiftedKeeps(es[..n], dying, payer);
      assert LiftedEntries(es, dying, payer)[..n] == LiftedEntries(es[..n], dying, payer);
    }
  }

  lemma {:induction false} BeginKeeps(s: State, h: nat, doomed: set<Budget>, payer: Budget)
    requires Sound(s) && Can(s, BeginDestruction(h, doomed, payer))
    ensures Sound(After(s, BeginDestruction(h, doomed, payer)))
  {
    var s' := After(s, BeginDestruction(h, doomed, payer));
    forall i | 0 <= i < |s'.harts| ensures HartSound(s'.harts[i], s'.live, s'.dying) {
      LiftedKeeps(s.harts[i].entries, doomed, Some(payer));
      hide Tidy, Total, Sum;
    }
  }

  lemma {:induction false} EndKeeps(s: State)
    requires Sound(s)
    ensures Sound(After(s, EndDestruction))
  {
    hide Tidy, Total, Sum;
    var s' := After(s, EndDestruction);
    forall i | 0 <= i < |s'.harts| ensures HartSound(s'.harts[i], s'.live, s'.dying) {
      assert HartSound(s.harts[i], s.live, s.dying);
      assert s.live - s.dying - {} == s.live - s.dying;
    }
  }

  lemma {:induction false} CreateKeeps(s: State, budget: Budget)
    requires Sound(s) && Can(s, Create(budget))
    ensures Sound(After(s, Create(budget)))
  {
    hide Tidy, Total, Sum;
    var s' := After(s, Create(budget));
    forall i | 0 <= i < |s'.harts| ensures HartSound(s'.harts[i], s'.live, s'.dying) {
      assert HartSound(s.harts[i], s.live, s.dying);
    }
  }

  lemma {:induction false} StepKeeps(s: State, t: Step)
    requires Sound(s) && Can(s, t)
    ensures Sound(After(s, t))
  {
    match t
    case Create(budget) => CreateKeeps(s, budget);
    case BeginDestruction(h, doomed, payer) => BeginKeeps(s, h, doomed, payer);
    case EndDestruction => EndKeeps(s);
    case _ =>
      HartKeeps(s.harts[t.hart], t, s.live, s.dying);
      hide HartSound;
  }

  function NewHart(): Hart { Hart(seq(ZEROING_PAYERS, _ => Entry(None, 0)), 0, 0, false, 0, 0, None, None, [], 0) }

  /** At boot: nothing retired, nothing billed. */
  function Boot(harts: nat, budgets: set<Budget>): State { State(seq(harts, _ => NewHart()), budgets, {}) }

  lemma {:induction false} BootSound(harts: nat, budgets: set<Budget>)
    ensures Sound(Boot(harts, budgets))
  {
    NothingFlat(NewHart().entries);
  }

  /** On every run, whatever the overflow merges and the destructions lift: the entries in use are a prefix, and
      say exactly how many of the hart's frames are still to be billed, so `zeroed_off` never falls short; no
      frame's payer is a budget gone; and what is billed never exceeds what was measured.
    */
  lemma {:induction false} BillsAddUp(ss: seq<State>, ts: seq<Step>, n: nat, i: nat)
    requires Run(ss, ts) && Sound(ss[0]) && n < |ss| && i < |ss[n].harts|
    ensures Sound(ss[n])
    ensures var h := ss[n].harts[i];
            && Tidy(h.entries) && |Flat(h.entries)| == Outstanding(h)
            && Sum(h.bills) <= h.measured
            && (forall b: Budget :: Some(b) in Flat(h.entries) ==> b in ss[n].live && b !in ss[n].dying)
    decreases n
  {
    SoundRun(ss, ts, n);
    var h := ss[n].harts[i];
    FlatSize(h.entries);
    forall b: Budget | Some(b) in Flat(h.entries) ensures b in ss[n].live && b !in ss[n].dying {
      FlatMembers(h.entries, Some(b));
      var k :| 0 <= k < |h.entries| && h.entries[k].frames > 0 && h.entries[k].payer == Some(b);
      assert Within(h.entries[k].payer, ss[n].live - ss[n].dying);
    }
  }

  lemma {:induction false} SoundRun(ss: seq<State>, ts: seq<Step>, n: nat)
    requires Run(ss, ts) && Sound(ss[0]) && n < |ss|
    ensures Sound(ss[n])
    decreases n
  {
    if n > 0 {
      SoundRun(ss, ts, n - 1);
      StepKeeps(ss[n - 1], ts[n - 1]);
    }
  }

  /** R10: every bill an idle pass sends goes to a budget that is still there. */
  lemma {:induction false} BillsReachTheLiving(s: State, i: nat, k: nat)
    requires Sound(s) && Can(s, Idle(i)) && |s.harts[i].bills| <= k < |After(s, Idle(i)).harts[i].bills|
    ensures After(s, Idle(i)).harts[i].bills[k].budget in s.live
  {
    var h := s.harts[i];
    OffPayers(h.entries, h.zeroed, s.live - s.dying);
    BillsNamePayers(Off(h.entries, h.zeroed).0, h.ticks, h.zeroed, k - |h.bills|, s.live - s.dying);
  }

  lemma {:induction false} BillsNamePayers(shares: seq<Entry>, ticks: nat, frames: nat, k: nat, budgets: set<Budget>)
    requires frames > 0 && PayersLive(shares, budgets) && k < |Bills(shares, ticks, frames)|
    ensures Bills(shares, ticks, frames)[k].budget in budgets
    decreases |shares|
  {
    var n := |shares| - 1;
    assert PayersLive(shares[..n], budgets) by {
      forall i | 0 <= i < n && shares[..n][i].frames > 0 ensures Within(shares[..n][i].payer, budgets) {
        assert shares[i].frames > 0;
      }
    }
    if k < |Bills(shares[..n], ticks, frames)| {
      BillsNamePayers(shares[..n], ticks, frames, k, budgets);
    } else {
      assert Within(shares[n].payer, budgets);
    }
  }

  // --- Who pays, frame by frame ---------------------------------------------------------------------------------

  /** Which budget pays for each of a hart's unbilled frames after a step, from who paid before it. */
  ghost function OwedAfter(s: State, t: Step, i: nat): seq<Option<Budget>>
    requires i < |s.harts| && |s.harts[i].entries| == ZEROING_PAYERS
  {
    var h := s.harts[i];
    var owed := Flat(h.entries);
    match t
    case Retire(hart, staged, pended) =>
      if hart != i then owed
      else if h.entries[ZEROING_PAYERS - 1].frames > 0 then
        owed + Copies(h.entries[ZEROING_PAYERS - 1].payer, staged + pended)
      else owed + Copies(if h.destruction == None then h.billing else h.destruction, staged + pended)
    case Allocate(hart) => if hart == i && |owed| > 0 then owed[..|owed| - 1] else owed
    case Idle(hart) => if hart == i && h.zeroed <= |owed| then owed[..|owed| - h.zeroed] else owed
    case BeginDestruction(_, doomed, heir) =>
      seq(|owed|, k requires 0 <= k < |owed| =>
        if owed[k].Some? && owed[k].value in doomed then Some(heir) else owed[k])
    case _ => owed
  }

  lemma {:induction false} AllUsed(es: seq<Entry>)
    requires Tidy(es) && |es| > 0
    ensures Used(es) == |es| <==> es[|es| - 1].frames > 0
  {
  }

  lemma {:induction false} RetireOwes(s: State, t: Step)
    requires Sound(s) && Can(s, t) && t.Retire?
    ensures Flat(After(s, t).harts[t.hart].entries) == OwedAfter(s, t, t.hart)
  {
    var h := s.harts[t.hart];
    AllUsed(h.entries);
    RetiredKeeps(h.entries, Payer(h), t.staged + t.pended);
    hide Flat, Tidy, Total, Retired, Copies, Used, Sum;
  }

  lemma {:induction false} OffOwes(es: seq<Entry>, frames: nat)
    requires Tidy(es) && frames <= Total(es)
    ensures |Flat(es)| == Total(es) && Flat(Off(es, frames).1) == Flat(es)[..|Flat(es)| - frames]
    ensures Flat(Off(es, frames).0) == Flat(es)[|Flat(es)| - frames..]
  {
    hide Off, Tidy, Flat, Total;
    FlatSize(es);
    OffIsNewest(es, frames);
    OffKeeps(es, frames, Off(es, frames).0, Off(es, frames).1);
  }

  lemma {:induction false} LiftedOwes(es: seq<Entry>, dying: set<Budget>, payer: Option<Budget>)
    ensures var was, now := Flat(es), Flat(LiftedEntries(es, dying, payer));
            && |now| == |was|
            && forall k :: 0 <= k < |was| ==>
                 now[k] == if was[k].Some? && was[k].value in dying then payer else was[k]
    decreases |es|
  {
    if |es| > 0 {
      var n := |es| - 1;
      LiftedOwes(es[..n], dying, payer);
      assert LiftedEntries(es, dying, payer)[..n] == LiftedEntries(es[..n], dying, payer);
      FlatLast(es);
      FlatLast(LiftedEntries(es, dying, payer));
    }
  }

  lemma {:induction false} AllocateOwes(s: State, hart: nat, i: nat)
    requires Sound(s) && Can(s, Allocate(hart)) && i < |s.harts|
    ensures Flat(After(s, Allocate(hart)).harts[i].entries) == OwedAfter(s, Allocate(hart), i)
  {
    hide Flat, Total, Tidy, Off, Sum;
    assert HartSound(s.harts[i], s.live, s.dying);
    if hart == i { OffOwes(s.harts[i].entries, 1); }
  }

  lemma {:induction false} IdleOwes(s: State, hart: nat, i: nat)
    requires Sound(s) && Can(s, Idle(hart)) && i < |s.harts|
    ensures Flat(After(s, Idle(hart)).harts[i].entries) == OwedAfter(s, Idle(hart), i)
  {
    hide Flat, Total, Tidy, Off, Sum;
    assert HartSound(s.harts[i], s.live, s.dying);
    if hart == i { OffOwes(s.harts[i].entries, s.harts[i].zeroed); }
  }

  lemma {:induction false} BeginOwes(s: State, t: Step, i: nat)
    requires Sound(s) && Can(s, t) && t.BeginDestruction? && i < |s.harts|
    ensures Flat(After(s, t).harts[i].entries) == OwedAfter(s, t, i)
  {
    hide Flat, Total, Tidy, Sum, LiftedEntries, PayersLive;
    assert HartSound(s.harts[i], s.live, s.dying);
    LiftedOwes(s.harts[i].entries, t.doomed, Some(t.heir));
  }

  /** Every step settles who pays for each frame. A retired frame is the destruction's payer's while the hart runs
      one, else the budget's its kernel time is billed to, unless all four entries are in use; zeroing takes off
      the newest; and a destruction hands its payer the dying budgets' frames, one for one.
    */
  lemma {:induction false} NextOwed(s: State, t: Step, i: nat)
    requires Sound(s) && Can(s, t) && i < |s.harts|
    ensures |After(s, t).harts| == |s.harts| && Flat(After(s, t).harts[i].entries) == OwedAfter(s, t, i)
  {
    hide Flat, Total, Tidy, Sum, Retired, Copies, PayersLive, Off, LiftedEntries;
    assert HartSound(s.harts[i], s.live, s.dying);
    match t
    case Retire(hart, _, _) => if hart == i { RetireOwes(s, t); }
    case Allocate(hart) => AllocateOwes(s, hart, i);
    case Idle(hart) => IdleOwes(s, hart, i);
    case BeginDestruction(_, _, _) => BeginOwes(s, t, i);
    case _ =>
  }

  /** The ticks a run of bills charges one budget. */
  function BilledTo(bills: seq<Bill>, b: Budget): nat {
    if |bills| == 0 then 0
    else
      var last := bills[|bills| - 1];
      BilledTo(bills[..|bills| - 1], b) + if last.budget == b then last.ticks else 0
  }

  /** How many entries name a budget. */
  function EntriesOf(es: seq<Entry>, b: Budget): nat {
    if |es| == 0 then 0 else EntriesOf(es[..|es| - 1], b) + if es[|es| - 1].payer == Some(b) then 1 else 0
  }

  lemma {:induction false} SameEntries(es: seq<Entry>, es': seq<Entry>, b: Budget)
    requires |es'| == |es| && forall i :: 0 <= i < |es| ==> es'[i].payer == es[i].payer
    ensures EntriesOf(es', b) == EntriesOf(es, b) <= |es|
    decreases |es|
  {
    if |es| > 0 { SameEntries(es[..|es| - 1], es'[..|es| - 1], b); }
  }

  lemma {:induction false} CopiesCount(payer: Option<Budget>, n: nat, b: Budget)
    ensures multiset(Copies(payer, n))[Some(b)] == if payer == Some(b) then n else 0
    decreases n
  {
    if n > 0 {
      CopiesCount(payer, n - 1, b);
      assert Copies(payer, n) == Copies(payer, n - 1) + [payer];
    } else {
      NoCopies(payer);
    }
  }

  lemma {:induction false} BilledLast(shares: seq<Entry>, ticks: nat, frames: nat, b: Budget)
    requires frames > 0 && |shares| > 0
    ensures var n := |shares| - 1;
            var mine := shares[n].payer == Some(b);
            && BilledTo(Bills(shares, ticks, frames), b) == BilledTo(Bills(shares[..n], ticks, frames), b)
                 + (if mine then Share(ticks, shares[n].frames, frames) else 0)
            && multiset(Flat(shares))[Some(b)] == multiset(Flat(shares[..n]))[Some(b)]
                 + (if mine then shares[n].frames else 0)
  {
    var n := |shares| - 1;
    var e, before := shares[n], Bills(shares[..n], ticks, frames);
    CopiesCount(e.payer, e.frames, b);
    if e.payer.Some? && e.frames > 0 {
      assert (before + [Bill(e.payer.value, Share(ticks, e.frames, frames))])[..|before|] == before;
    } else if e.frames == 0 {
      assert ticks * 0 == 0;
    }
  }

  /** A payer is billed the ticks its own frames come to, less what rounding loses: under a tick an entry. */
  lemma {:induction false} OwnFrames(shares: seq<Entry>, ticks: nat, frames: nat, b: Budget)
    requires frames > 0
    ensures var billed, own := BilledTo(Bills(shares, ticks, frames), b), multiset(Flat(shares))[Some(b)];
            frames * billed <= ticks * own <= frames * billed + (frames - 1) * EntriesOf(shares, b)
    decreases |shares|
  {
    hide Bills, BilledTo, Flat;
    if |shares| > 0 {
      var n := |shares| - 1;
      var e, before := shares[n], BilledTo(Bills(shares[..n], ticks, frames), b);
      OwnFrames(shares[..n], ticks, frames, b);
      BilledLast(shares, ticks, frames, b);
      if e.payer == Some(b) {
        var part := Share(ticks, e.frames, frames);
        ShareBounds(ticks, e.frames, frames);
        hide Share;
        Distributes(ticks, multiset(Flat(shares[..n]))[Some(b)], e.frames);
        Distributes(frames, before, part);
        Distributes(frames - 1, EntriesOf(shares[..n], b), 1);
      }
    } else {
      NothingBilled(ticks, frames, b);
    }
  }

  lemma {:induction false} NothingBilled(ticks: nat, frames: nat, b: Budget)
    requires frames > 0
    ensures BilledTo(Bills([], ticks, frames), b) == 0 && Flat([]) == []
  {
  }

  lemma {:induction false} IdleBills(h: Hart, b: Budget)
    requires Tidy(h.entries) && 0 < h.zeroed <= Total(h.entries)
    ensures |Flat(h.entries)| >= h.zeroed && h.bills <= ZeroedIdle(h).bills
    ensures var own := multiset(Flat(h.entries)[|Flat(h.entries)| - h.zeroed..])[Some(b)];
            var billed := BilledTo(ZeroedIdle(h).bills[|h.bills|..], b);
            h.zeroed * billed <= h.ticks * own <= h.zeroed * billed + (h.zeroed - 1) * EntriesOf(h.entries, b)
  {
    hide BilledTo, EntriesOf, Off, Bills, Flat, Total, Tidy;
    var shares := Off(h.entries, h.zeroed).0;
    OffOwes(h.entries, h.zeroed);
    OffIsNewest(h.entries, h.zeroed);
    OwnFrames(shares, h.ticks, h.zeroed, b);
    SameEntries(h.entries, shares, b);
    assert ZeroedIdle(h).bills[|h.bills|..] == Bills(shares, h.ticks, h.zeroed);
  }

  /** Each payer's bill from the frames zeroed: an idle pass charges every budget, out of the ticks the hart
      measured since the last, the part of its own frames among the newest that many, and no other step bills.
    */
  lemma {:induction false} NextBills(s: State, t: Step, i: nat, b: Budget)
    requires Sound(s) && Can(s, t) && i < |s.harts|
    ensures var h, bills := s.harts[i], After(s, t).harts[i].bills;
            if t == Idle(i) && h.zeroed > 0 then
              && |Flat(h.entries)| >= h.zeroed && h.bills <= bills
              && var own := multiset(Flat(h.entries)[|Flat(h.entries)| - h.zeroed..])[Some(b)];
                 var billed := BilledTo(bills[|h.bills|..], b);
                 h.zeroed * billed <= h.ticks * own <= h.zeroed * billed + (h.zeroed - 1) * EntriesOf(h.entries, b)
            else bills == h.bills
  {
    hide BilledTo, EntriesOf, Sum, Flat, Total, Tidy, Bills, Off, Retired, LiftedEntries;
    var h := s.harts[i];
    assert HartSound(h, s.live, s.dying);
    if t == Idle(i) && h.zeroed > 0 { IdleBills(h, b); }
  }

  /** Where the ticks come from and go: zeroing a frame adds the ticks it took, an idle pass settles them all. */
  lemma {:induction false} NextTicks(s: State, t: Step, i: nat)
    requires Sound(s) && Can(s, t) && i < |s.harts|
    ensures var h, h' := s.harts[i], After(s, t).harts[i];
            && h'.ticks == (if t == Idle(i) then 0 else if t.Zero? && t.hart == i then h.ticks + t.ticks else h.ticks)
            && h'.measured == h.measured + (if t.Zero? && t.hart == i then t.ticks else 0)
            && h'.zeroed == (if t == Idle(i) then 0 else if t.Zero? && t.hart == i then h.zeroed + 1 else h.zeroed)
            && Outstanding(h') == Outstanding(h)
                 + (if t.Retire? && t.hart == i then t.staged + t.pended else 0)
                 - (if t == Allocate(i) then 1 else if t == Idle(i) then h.zeroed else 0)
            && h'.billing == (if t.Billing? && t.hart == i then t.payer
                              else if t.EndDestruction? && h.billing.Some? && h.billing.value in s.dying then None
                              else h.billing)
            && h'.destruction == (if t.BeginDestruction? && t.hart == i then Some(t.heir)
                                  else if t.EndDestruction? then None else h.destruction)
  {
    hide Off, Bills, Retired, LiftedEntries, HartSound;
  }

  // --- The scheduler's records as the kernel changes them ------------------------------------------------------------

  class Sched {
    var harts: seq<Hart>

    constructor (n: nat)
      ensures harts == Boot(n, {}).harts
    {
      harts := seq(n, _ => NewHart());
    }

    /** `retiring`: this hart put `staged` frames on its stage and `pended` on its pending list. */
    method Retire(here: nat, staged: nat, pended: nat)
      requires here < |harts| && |harts[here].entries| > 0
      modifies this
      ensures harts == old(harts)[here := Retiring(old(harts)[here], staged, pended)]
    {
      var h := harts[here];
      var frames := staged + pended;
      if frames > 0 {
        var last := FindEmpty(h.entries);
        var payer := if h.destruction.Some? then h.destruction else h.billing;
        if last > 0 && (h.entries[last - 1].payer == payer || last == |h.entries|) {
          var e := h.entries[last - 1];
          h := h.(entries := h.entries[last - 1 := e.(frames := e.frames + frames)]);
        } else {
          h := h.(entries := h.entries[last := Entry(payer, frames)]);
        }
      }
      harts := harts[here := h.(staged := h.staged + staged, pending := h.pending + pended)];
    }

    static method FindEmpty(es: seq<Entry>) returns (k: nat)
      ensures k == Used(es)
    {
      k := 0;
      while k < |es| && es[k].frames != 0
        invariant k <= |es| && forall i :: 0 <= i < k ==> es[i].frames > 0
      {
        k := k + 1;
      }
      UsedIs(es, k);
    }

    /** `zeroed_off`: what each payer's share is of the newest `frames`, which leave its entry. */
    method ZeroedOff(hart: nat, frames: nat) returns (shares: seq<Entry>)
      requires hart < |harts| && frames <= Total(harts[hart].entries)
      modifies this
      ensures shares == Off(old(harts)[hart].entries, frames).0
      ensures harts == old(harts)[hart := old(harts)[hart].(entries := Off(old(harts)[hart].entries, frames).1)]
      ensures Total(shares) == frames
    {
      hide Off, Total;
      ghost var es := harts[hart].entries;
      OffIsNewest(es, frames);
      var rest;
      shares, rest := OffEach(harts[hart].entries, frames);
      harts := harts[hart := harts[hart].(entries := rest)];
    }

    static method OffEach(es: seq<Entry>, frames: nat) returns (shares: seq<Entry>, rest: seq<Entry>)
      ensures (shares, rest) == Off(es, frames)
    {
      hide Off;
      rest := es;
      shares := seq(|es|, _ => Entry(None, 0));
      var left, i := frames, |es|;
      assert es[..i] == es;
      while i > 0
        invariant 0 <= i <= |es| == |rest| == |shares| && rest[..i] == es[..i]
        invariant Off(es, frames).0 == Off(es[..i], left).0 + shares[i..]
        invariant Off(es, frames).1 == Off(es[..i], left).1 + rest[i..]
      {
        i := i - 1;
        OffStep(es, i + 1, left);
        assert rest[..i + 1][i] == rest[i];
        var take := Min(rest[i].frames, left);
        ghost var s0, r0 := shares[i + 1..], rest[i + 1..];
        shares := shares[i := Entry(rest[i].payer, take)];
        rest := rest[i := Entry(if take == rest[i].frames then None else rest[i].payer, rest[i].frames - take)];
        left := left - take;
        assert shares[i..] == [shares[i]] + s0 && rest[i..] == [rest[i]] + r0;
      }
      OffNothing(es[..0], left);
      assert shares[0..] == shares && rest[0..] == rest;
      assert Off(es, frames).0 == shares && Off(es, frames).1 == rest;
    }

    /** `zeroed_idle`: what this hart zeroed since it last came, billed to the payers by frames. */
    method BillIdle(here: nat)
      requires here < |harts| && harts[here].zeroed <= Total(harts[here].entries)
      modifies this
      ensures harts == old(harts)[here := ZeroedIdle(old(harts)[here])]
    {
      hide Off, Total, Bills;
      var ticks, frames := harts[here].ticks, harts[here].zeroed;
      harts := harts[here := harts[here].(ticks := 0, zeroed := 0)];
      if frames > 0 {
        var shares := ZeroedOff(here, frames);
        var bills := BillEach(shares, ticks, frames);
        harts := harts[here := harts[here].(bills := harts[here].bills + bills)];
      }
    }

    static method BillEach(shares: seq<Entry>, ticks: nat, frames: nat) returns (bills: seq<Bill>)
      requires frames > 0
      ensures bills == Bills(shares, ticks, frames)
    {
      bills := [];
      for i := 0 to |shares|
        invariant bills == Bills(shares[..i], ticks, frames)
      {
        assert shares[..i + 1][..i] == shares[..i];
        if shares[i].payer.Some? && shares[i].frames > 0 {
          bills := bills + [Bill(shares[i].payer.value, Share(ticks, shares[i].frames, frames))];
        }
      }
      assert shares[..|shares|] == shares;
    }

    /** `lift_zeroing`: every hart's frames a dying budget would pay for are `payer`'s. */
    method LiftZeroing(dying: set<Budget>, payer: Option<Budget>)
      modifies this
      ensures harts == Lifted(old(harts), dying, payer)
    {
      ghost var before := harts;
      for i := 0 to |harts|
        invariant |harts| == |before|
        invariant forall j :: 0 <= j < |harts| ==>
                    harts[j] == if j < i then before[j].(entries := LiftedEntries(before[j].entries, dying, payer))
                      else before[j]
      {
        var es := LiftEach(harts[i].entries, dying, payer);
        harts := harts[i := harts[i].(entries := es)];
      }
    }

    static method LiftEach(entries: seq<Entry>, dying: set<Budget>, payer: Option<Budget>) returns (es: seq<Entry>)
      ensures es == LiftedEntries(entries, dying, payer)
    {
      es := entries;
      for i := 0 to |es|
        invariant |es| == |entries|
        invariant forall j :: 0 <= j < |es| ==>
                    es[j] == if j < i then LiftedEntry(entries[j], dying, payer) else entries[j]
      {
        if es[i].frames > 0 && es[i].payer.Some? && es[i].payer.value in dying {
          es := es[i := es[i].(payer := payer)];
        }
      }
    }
  }
}
