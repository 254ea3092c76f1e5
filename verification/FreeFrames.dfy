/** The free-frame bitmap (kernel/src/mem.rs, `FreeFrames`): a bit a frame, then a summary bit a word,
    level above level, up to one word.

    A 64-bit word is the set of its set bits.
  */
module FreeFrames {
  import opened Basics

  type Pid = nat

  const WORD: nat := 64

  function DivCeil(n: nat): nat {
    (n + WORD - 1) / WORD
  }

  /** The words of level `level` over `frames` frames. */
  function Words(frames: nat, level: nat): nat {
    if level == 0 then DivCeil(frames) else DivCeil(Words(frames, level - 1))
  }

  /** The entry of level `level` that frame `f` lies under. */
  function Above(f: nat, level: nat): nat {
    if level == 0 then f else Above(f, level - 1) / WORD
  }

  lemma {:induction false} AboveMonotone(f: nat, g: nat, level: nat)
    requires f <= g
    ensures Above(f, level) <= Above(g, level)
  {
    if level > 0 { AboveMonotone(f, g, level - 1); }
  }

  /** A frame's entry is within its level. */
  lemma {:induction false} AboveInLevel(f: nat, frames: nat, level: nat)
    requires f < frames
    ensures Above(f, level) / WORD < Words(frames, level)
  {
    if level > 0 { AboveInLevel(f, frames, level - 1); }
  }

  predicate IsWord(w: set<nat>) {
    forall b :: b in w ==> b < WORD
  }

  /** `trailing_zeros` of a non-zero word, or from the other end 63 less `leading_zeros`. */
  method EndBit(word: set<nat>, highest: bool) returns (bit: nat)
    requires IsWord(word) && word != {}
    ensures bit in word
    ensures forall b :: b in word ==> if highest then b <= bit else bit <= b
  {
    bit := if highest then WORD - 1 else 0;
    while bit !in word
      invariant bit < WORD
      invariant forall b :: b in word ==> if highest then b <= bit else bit <= b
      decreases if highest then bit else WORD - bit
    {
      var b0 :| b0 in word;
      assert b0 != bit && b0 < WORD;
      bit := if highest then bit - 1 else bit + 1;
    }
  }

  /** `FreeFrames::sized`: where each of `levels` levels starts, or none if one word does not top
      them (the boot stops).
    */
  method Sized(frames: nat, levels: nat) returns (start: Option<seq<nat>>)
    requires levels >= 1
    ensures start.Some? <==> Words(frames, levels - 1) == 1
    ensures start.Some? ==> Layout(start.value, frames, levels)
  {
    var levelStart, words := [0], frames;
    for level := 0 to levels
      invariant |levelStart| == level + 1 && levelStart[0] == 0
      invariant words == if level == 0 then frames else Words(frames, level - 1)
      invariant forall l :: 0 <= l < level ==> levelStart[l + 1] == levelStart[l] + Words(frames, l)
    {
      words := DivCeil(words);
      levelStart := levelStart + [levelStart[level] + words];
    }
    start := if words == 1 then Some(levelStart) else None;
  }

  /** The levels lie back to back, each a word for every 64 entries below it. */
  ghost predicate Layout(levelStart: seq<nat>, frames: nat, levels: nat) {
    && |levelStart| == levels + 1 && levelStart[0] == 0
    && (forall l :: 0 <= l < levels ==> levelStart[l + 1] == levelStart[l] + Words(frames, l))
  }

  lemma {:induction false} LaterLevel(levelStart: seq<nat>, frames: nat, levels: nat, l: nat, k: nat)
    requires Layout(levelStart, frames, levels) && l < k <= levels
    ensures levelStart[l] + Words(frames, l) <= levelStart[k]
    decreases k
  {
    if l + 1 < k { LaterLevel(levelStart, frames, levels, l, k - 1); }
  }

  // --- The levels as values ----------------------------------------------------------------------

  type Levels = seq<seq<set<nat>>>

  ghost predicate Shaped(frames: nat, levels: Levels) {
    && |levels| >= 1 && Words(frames, |levels| - 1) == 1
    && (forall l :: 0 <= l < |levels| ==> |levels[l]| == Words(frames, l))
  }

  /** Whether entry `e` below level `l` is free: a free frame, or a non-zero word. */
  predicate Below(free: seq<bool>, levels: Levels, l: nat, e: nat)
    requires l < |levels|
  {
    if l == 0 then e < |free| && free[e] else e < |levels[l - 1]| && levels[l - 1][e] != {}
  }

  function Entry(w: nat, b: nat): nat {
    WORD * w + b
  }

  /** What word `w` of level `l` must hold (`summary`). */
  function Summary(free: seq<bool>, levels: Levels, l: nat, w: nat): set<nat>
    requires l < |levels|
  {
    set b | 0 <= b < WORD && Below(free, levels, l, Entry(w, b))
  }

  ghost predicate ExactWord(free: seq<bool>, levels: Levels, l: nat, w: nat)
    requires l < |levels| && w < |levels[l]|
  {
    levels[l][w] == Summary(free, levels, l, w)
  }

  ghost predicate ExactLevel(free: seq<bool>, levels: Levels, l: nat)
    requires l < |levels|
  {
    forall w :: 0 <= w < |levels[l]| ==> ExactWord(free, levels, l, w)
  }

  /** Every level equals its summary. */
  ghost predicate Exact(free: seq<bool>, levels: Levels) {
    && Shaped(|free|, levels)
    && (forall l :: 0 <= l < |levels| ==> ExactLevel(free, levels, l))
  }

  /** Levels exact but for one bit, entry `e`'s of level `l`, the opposite of what is below it. */
  ghost predicate ExactBut(free: seq<bool>, levels: Levels, l: nat, e: nat) {
    && Shaped(|free|, levels) && l < |levels| && e / WORD < |levels[l]|
    && (forall k :: 0 <= k < |levels| && k != l ==> ExactLevel(free, levels, k))
    && (forall w :: 0 <= w < |levels[l]| && w != e / WORD ==> ExactWord(free, levels, l, w))
    && (e % WORD in levels[l][e / WORD] <==> !Below(free, levels, l, e))
    && Flip(levels[l][e / WORD], e % WORD) == Summary(free, levels, l, e / WORD)
  }

  function Flip(word: set<nat>, bit: nat): set<nat> {
    if bit in word then word - {bit} else word + {bit}
  }

  function SetWordOf(levels: Levels, l: nat, w: nat, word: set<nat>): Levels
    requires l < |levels| && w < |levels[l]|
  {
    levels[l := levels[l][w := word]]
  }

  /** The table changes a frame between free and owned: only its own bit is wrong. */
  lemma {:induction false} OwnerFlips(free: seq<bool>, levels: Levels, index: nat)
    requires Exact(free, levels) && index < |free|
    ensures ExactBut(free[index := !free[index]], levels, 0, index)
  {
    var now := free[index := !free[index]];
    AboveInLevel(index, |free|, 0);
    assert Entry(index / WORD, index % WORD) == index;
    forall k | 0 < k < |levels| ensures ExactLevel(now, levels, k) {
      assert ExactLevel(free, levels, k);
      forall w | 0 <= w < |levels[k]| ensures ExactWord(now, levels, k, w) {
        assert ExactWord(free, levels, k, w);
        assert Summary(now, levels, k, w) == Summary(free, levels, k, w);
      }
    }
    assert ExactLevel(free, levels, 0);
    forall w | 0 <= w < |levels[0]| && w != index / WORD
      ensures ExactWord(now, levels, 0, w)
    {
      assert ExactWord(free, levels, 0, w);
      forall b | 0 <= b < WORD ensures Below(now, levels, 0, Entry(w, b)) == Below(free, levels, 0, Entry(w, b)) {}
    }
    assert ExactWord(free, levels, 0, index / WORD);
    assert Flip(levels[0][index / WORD], index % WORD) == Summary(now, levels, 0, index / WORD);
  }

  /** Righting the wrong bit, either the levels are exact, or the word came to be zero or stopped
      being, and its own bit above is now the one wrong.
    */
  lemma {:induction false} RightBit(free: seq<bool>, levels: Levels, l: nat, e: nat)
    requires ExactBut(free, levels, l, e)
    ensures var word := levels[l][e / WORD];
            var righted := SetWordOf(levels, l, e / WORD, Flip(word, e % WORD));
            if (word == {}) == (Flip(word, e % WORD) == {}) || l + 1 == |levels|
            then Exact(free, righted)
            else ExactBut(free, righted, l + 1, e / WORD)
  {
    var word := levels[l][e / WORD];
    var righted := SetWordOf(levels, l, e / WORD, Flip(word, e % WORD));
    forall k | 0 <= k < |levels| && k != l + 1
      ensures ExactLevel(free, righted, k)
    {
      forall w | 0 <= w < |levels[k]| ensures ExactWord(free, righted, k, w) {
        assert Summary(free, righted, k, w) == Summary(free, levels, k, w);
        if k != l { assert ExactLevel(free, levels, k) && ExactWord(free, levels, k, w); }
        else if w != e / WORD { assert ExactWord(free, levels, l, w); }
      }
    }
    if l + 1 < |levels| {
      RightAbove(free, levels, l, e, l + 1);
    }
  }

  lemma {:induction false} RightAbove(free: seq<bool>, levels: Levels, l: nat, e: nat, k: nat)
    requires ExactBut(free, levels, l, e) && l + 1 == k < |levels|
    ensures var word := levels[l][e / WORD];
            var righted := SetWordOf(levels, l, e / WORD, Flip(word, e % WORD));
            var up := e / WORD;
            && up / WORD < |righted[k]|
            && (forall w :: 0 <= w < |righted[k]| && w != up / WORD ==> ExactWord(free, righted, k, w))
            && (if (word == {}) == (Flip(word, e % WORD) == {})
                then ExactWord(free, righted, k, up / WORD)
                else (up % WORD in righted[k][up / WORD] <==> !Below(free, righted, k, up))
                     && Flip(righted[k][up / WORD], up % WORD) == Summary(free, righted, k, up / WORD))
  {
    var word := levels[l][e / WORD];
    var righted := SetWordOf(levels, l, e / WORD, Flip(word, e % WORD));
    var up := e / WORD;
    assert Entry(up / WORD, up % WORD) == up;
    assert ExactLevel(free, levels, k);
    assert |levels[k]| == DivCeil(|levels[l]|);
    forall w, b | 0 <= w < |levels[k]| && 0 <= b < WORD && Entry(w, b) != up
      ensures Below(free, righted, k, Entry(w, b)) == Below(free, levels, k, Entry(w, b))
    {
    }
    forall w | 0 <= w < |levels[k]| && w != up / WORD
      ensures ExactWord(free, righted, k, w)
    {
      assert ExactWord(free, levels, k, w);
      forall b | 0 <= b < WORD ensures Entry(w, b) != up {}
      assert Summary(free, righted, k, w) == Summary(free, levels, k, w);
    }
    assert ExactWord(free, levels, k, up / WORD);
    forall b | 0 <= b < WORD && b != up % WORD ensures Entry(up / WORD, b) != up {}
  }

  /** Where a mark that has written the levels below `l` stands. */
  ghost predicate Marking(now: seq<bool>, levels: Levels, l: nat, e: nat, free: bool) {
    if l < |levels| then ExactBut(now, levels, l, e) && Below(now, levels, l, e) == free
    else Exact(now, levels)
  }

  lemma {:induction false} MarkStart(was: seq<bool>, levels: Levels, index: nat, free: bool)
    requires Exact(was, levels) && index < |was| && was[index] != free
    ensures Marking(was[index := free], levels, 0, index, free)
  {
    OwnerFlips(was, levels, index);
  }

  lemma {:induction false} MarkOne(now: seq<bool>, levels: Levels, l: nat, e: nat, free: bool)
    requires l < |levels| && Marking(now, levels, l, e, free)
    ensures var word := levels[l][e / WORD];
            var marked := if free then word + {e % WORD} else word - {e % WORD};
            var righted := SetWordOf(levels, l, e / WORD, marked);
            && ((word == {}) == (marked == {}) ==> Exact(now, righted))
            && ((word == {}) != (marked == {}) ==> Marking(now, righted, l + 1, e / WORD, free))
  {
    var word := levels[l][e / WORD];
    assert (if free then word + {e % WORD} else word - {e % WORD}) == Flip(word, e % WORD);
    RightBit(now, levels, l, e);
  }

  /** The boot has filled the levels below `l`, and the first `n` words of level `l`. */
  ghost predicate Filled(free: seq<bool>, levels: Levels, l: nat, n: nat) {
    && l <= |levels| && (l < |levels| ==> n <= |levels[l]|)
    && (forall k :: 0 <= k < l ==> ExactLevel(free, levels, k))
    && (l < |levels| ==> forall w :: 0 <= w < n ==> ExactWord(free, levels, l, w))
  }

  lemma {:induction false} FillWord(free: seq<bool>, levels: Levels, l: nat, w: nat)
    requires l < |levels| && w < |levels[l]| && Filled(free, levels, l, w)
    ensures Filled(free, SetWordOf(levels, l, w, Summary(free, levels, l, w)), l, w + 1)
  {
    var filled := SetWordOf(levels, l, w, Summary(free, levels, l, w));
    forall k, v | 0 <= k <= l && 0 <= v < |levels[k]|
      ensures Summary(free, filled, k, v) == Summary(free, levels, k, v)
    {
      forall b | 0 <= b < WORD ensures Below(free, filled, k, Entry(v, b)) == Below(free, levels, k, Entry(v, b)) {}
    }
    forall k | 0 <= k < l ensures ExactLevel(free, filled, k) {
      assert ExactLevel(free, levels, k);
      forall v | 0 <= v < |levels[k]| ensures ExactWord(free, filled, k, v) {
        assert ExactWord(free, levels, k, v);
      }
    }
    forall v | 0 <= v < w ensures ExactWord(free, filled, l, v) {
      assert ExactWord(free, levels, l, v);
    }
  }

  lemma {:induction false} FillNext(free: seq<bool>, levels: Levels, l: nat)
    requires l < |levels| && Filled(free, levels, l, |levels[l]|)
    ensures Filled(free, levels, l + 1, 0)
  {
    assert ExactLevel(free, levels, l);
  }

  // --- What the bitmap says of the frames ----------------------------------------------------------

  /** A bit is set exactly when some frame under it is free. */
  lemma {:induction false} BitMeansFree(free: seq<bool>, levels: Levels, l: nat, e: nat)
    requires Exact(free, levels) && l < |levels| && e / WORD < |levels[l]|
    ensures e % WORD in levels[l][e / WORD] <==> exists f :: 0 <= f < |free| && free[f] && Above(f, l) == e
    decreases l
  {
    assert ExactLevel(free, levels, l) && ExactWord(free, levels, l, e / WORD);
    assert Entry(e / WORD, e % WORD) == e;
    if l == 0 {
      if Below(free, levels, 0, e) { assert free[e] && Above(e, 0) == e; }
    } else {
      if e < |levels[l - 1]| && levels[l - 1][e] != {} {
        assert ExactLevel(free, levels, l - 1) && ExactWord(free, levels, l - 1, e);
        var b :| b in levels[l - 1][e];
        BitMeansFree(free, levels, l - 1, Entry(e, b));
        var f :| 0 <= f < |free| && free[f] && Above(f, l - 1) == Entry(e, b);
        assert Above(f, l) == e;
      }
      forall f | 0 <= f < |free| && free[f] && Above(f, l) == e
        ensures Below(free, levels, l, e)
      {
        AboveInLevel(f, |free|, l - 1);
        BitMeansFree(free, levels, l - 1, Above(f, l - 1));
      }
    }
  }

  /** No free frame lies beyond entry `e` of level `l`, on the side searched for. */
  ghost predicate Best(free: seq<bool>, l: nat, e: nat, highest: bool) {
    forall f :: 0 <= f < |free| && free[f] ==> if highest then Above(f, l) <= e else e <= Above(f, l)
  }

  lemma {:induction false} BestAtTop(free: seq<bool>, levels: Levels, highest: bool)
    requires Exact(free, levels)
    ensures Best(free, |levels|, 0, highest)
  {
    forall f | 0 <= f < |free| && free[f] ensures Above(f, |levels|) == 0 {
      AboveInLevel(f, |free|, |levels| - 1);
    }
  }

  /** Only the top word can be zero, and then no frame is free. */
  lemma {:induction false} ZeroTop(free: seq<bool>, levels: Levels, f: nat)
    requires Exact(free, levels) && levels[|levels| - 1][0] == {} && f < |free|
    ensures !free[f]
  {
    var top := |levels| - 1;
    AboveInLevel(f, |free|, top);
    BitMeansFree(free, levels, top, Above(f, top));
  }

  /** Where a descent that has read the levels from the top down to `l` stands: at an entry that
      leads to a free frame, none free beyond it; at the top, before the first read.
    */
  ghost predicate Descending(free: seq<bool>, levels: Levels, l: nat, e: nat, highest: bool) {
    && Exact(free, levels) && l <= |levels| && Best(free, l, e, highest)
    && (if l == |levels| then e == 0
        else if l > 0 then e < |levels[l - 1]| && levels[l - 1][e] != {}
        else e < |free| && free[e])
  }

  lemma {:induction false} ReadableNext(free: seq<bool>, levels: Levels, l: nat, e: nat, highest: bool)
    requires Descending(free, levels, l, e, highest) && l > 0
    ensures e < |levels[l - 1]| && IsWord(levels[l - 1][e])
    ensures levels[l - 1][e] == {} ==> forall f :: 0 <= f < |free| ==> !free[f]
  {
    assert ExactLevel(free, levels, l - 1) && ExactWord(free, levels, l - 1, e);
    if levels[l - 1][e] == {} {
      forall f | 0 <= f < |free| ensures !free[f] { ZeroTop(free, levels, f); }
    }
  }

  lemma {:induction false} Landed(free: seq<bool>, levels: Levels, e: nat, highest: bool)
    requires Descending(free, levels, 0, e, highest)
    ensures e < |free| && free[e]
    ensures forall f :: 0 <= f < |free| && free[f] ==> if highest then f <= e else e <= f
  {
    assert forall f: nat :: Above(f, 0) == f;
  }

  /** One level down: the end bit of the word leads on to the end frame. */
  lemma {:induction false} Down(free: seq<bool>, levels: Levels, l: nat, up: nat, bit: nat, highest: bool)
    requires Descending(free, levels, l + 1, up, highest) && up < |levels[l]|
    requires bit in levels[l][up] && forall b :: b in levels[l][up] ==> if highest then b <= bit else bit <= b
    ensures Descending(free, levels, l, WORD * up + bit, highest)
  {
    assert ExactLevel(free, levels, l) && ExactWord(free, levels, l, up);
    assert Entry(up, bit) == WORD * up + bit;
    forall f | 0 <= f < |free| && free[f]
      ensures if highest then Above(f, l) <= WORD * up + bit else WORD * up + bit <= Above(f, l)
    {
      AboveInLevel(f, |free|, l);
      BitMeansFree(free, levels, l, Above(f, l));
      assert Above(f, l + 1) == Above(f, l) / WORD;
    }
  }

  /** Level `l` of the words `bits`. */
  ghost predicate Cut(bits: seq<set<nat>>, levelStart: seq<nat>, l: nat, level: seq<set<nat>>)
    requires l + 1 < |levelStart|
  {
    && levelStart[l] + |level| == levelStart[l + 1] <= |bits|
    && level == bits[levelStart[l]..levelStart[l + 1]]
  }

  function EmptyLevels(frames: nat, levels: nat): Levels {
    seq(levels, l requires 0 <= l => seq(Words(frames, l), _ => {}))
  }

  lemma {:induction false} CutUpdate(bits: seq<set<nat>>, levelStart: seq<nat>, frames: nat, levels: nat, view: Levels,
                  k: nat, l: nat, w: nat, word: set<nat>)
    requires Layout(levelStart, frames, levels) && |view| == levels && k < levels && l < levels
    requires Cut(bits, levelStart, k, view[k]) && Cut(bits, levelStart, l, view[l]) && w < |view[l]|
    ensures Cut(bits[levelStart[l] + w := word], levelStart, k, SetWordOf(view, l, w, word)[k])
  {
    if k < l { LaterLevel(levelStart, frames, levels, k, l); }
    if l < k { LaterLevel(levelStart, frames, levels, l, k); }
  }

  // --- The kernel's bitmap -------------------------------------------------------------------------

  class Bitmap {
    const levels: nat
    const levelStart: seq<nat>
    /** The ownership table: who owns each frame. */
    const allocations: array<Option<Pid>>
    /** Every level's words, back to back. */
    const bits: array<set<nat>>
    /** The levels, as `levelStart` cuts them out of `bits`. */
    ghost var view: Levels

    ghost predicate Laid()
      reads this, bits
    {
      && Layout(levelStart, allocations.Length, levels) && bits.Length == levelStart[levels]
      && allocations as object != bits
      && Shaped(allocations.Length, view) && |view| == levels
      && (forall l :: 0 <= l < levels ==> Cut(bits[..], levelStart, l, view[l]))
    }

    /** The table's free frames. */
    ghost function Free(): (f: seq<bool>)
      reads allocations
      ensures |f| == allocations.Length
      ensures forall i :: 0 <= i < |f| ==> f[i] == allocations[i].None?
    {
      seq(allocations.Length, i requires 0 <= i < allocations.Length reads allocations => allocations[i].None?)
    }

    /** Level 0 is the table's free frames, and every level above is exact. */
    ghost predicate Valid()
      reads this, bits, allocations
    {
      Laid() && Exact(Free(), view)
    }

    /** The boot's bitmap: the levels of `table`, lowest first, each word its summary. */
    constructor (table: array<Option<Pid>>, start: seq<nat>, levels: nat)
      requires levels >= 1 && Words(table.Length, levels - 1) == 1 && Layout(start, table.Length, levels)
      ensures Valid() && fresh(bits) && allocations == table
    {
      this.levels, levelStart, allocations := levels, start, table;
      bits := new set<nat>[start[levels]](_ => {});
      view := EmptyLevels(table.Length, levels);
      new;
      forall l | 0 <= l < levels
        ensures Cut(bits[..], levelStart, l, view[l])
      {
        LaterLevel(levelStart, table.Length, levels, l, levels);
      }
      for level := 0 to levels
        invariant Laid() && fresh(bits) && allocations == table
        invariant Filled(Free(), view, level, 0)
      {
        FillLevel(level);
      }
    }

    /** Every word of level `l` becomes its summary. */
    method FillLevel(l: nat)
      requires Laid() && l < levels && Filled(Free(), view, l, 0)
      modifies this, bits
      ensures Laid() && Filled(Free(), view, l + 1, 0)
    {
      ghost var free := Free();
      for w := 0 to levelStart[l + 1] - levelStart[l]
        invariant Laid() && Filled(free, view, l, w)
      {
        var word := SummaryWord(l, w);
        FillWord(free, view, l, w);
        SetWord(l, w, word);
      }
      FillNext(free, view, l);
    }

    /** `summary`: the word, a bit at a time. */
    method SummaryWord(l: nat, w: nat) returns (value: set<nat>)
      requires Laid() && l < levels
      ensures value == Summary(Free(), view, l, w)
    {
      value := {};
      for bit := 0 to WORD
        invariant value == set b | 0 <= b < bit && Below(Free(), view, l, Entry(w, b))
      {
        var below := WORD * w + bit;
        assert below == Entry(w, bit);
        var free := IsFree(l, below);
        value := if free then value + {bit} else value;
      }
    }

    method IsFree(l: nat, below: nat) returns (free: bool)
      requires Laid() && l < levels
      ensures free == Below(Free(), view, l, below)
    {
      if l == 0 {
        free := below < allocations.Length && allocations[below].None?;
      } else if below < levelStart[l] - levelStart[l - 1] {
        var word := Word(l - 1, below);
        free := word != {};
      } else {
        free := false;
      }
    }

    /** Word `w` of level `l`. */
    method Word(l: nat, w: nat) returns (word: set<nat>)
      requires Laid() && l < levels && w < |view[l]|
      ensures word == view[l][w]
    {
      assert Cut(bits[..], levelStart, l, view[l]);
      word := bits[levelStart[l] + w];
    }

    method SetWord(l: nat, w: nat, word: set<nat>)
      requires Laid() && l < levels && w < |view[l]|
      modifies this, bits
      ensures Laid() && view == SetWordOf(old(view), l, w, word)
    {
      ghost var was := bits[..];
      assert Cut(was, levelStart, l, view[l]);
      bits[levelStart[l] + w] := word;
      assert bits[..] == was[levelStart[l] + w := word];
      view := SetWordOf(view, l, w, word);
      forall k | 0 <= k < levels
        ensures Cut(bits[..], levelStart, k, view[k])
      {
        assert Cut(was, levelStart, k, old(view)[k]);
        CutUpdate(was, levelStart, allocations.Length, levels, old(view), k, l, w, word);
      }
    }

    /** Set (`free`) or clear frame `index`'s bit, then the summary bit above each word that changes
        between zero and non-zero, stopping at the first that does not.
      */
    method MarkFree(index: nat, free: bool)
      requires Valid() && index < allocations.Length && allocations[index].None? != free
      modifies this, bits
      ensures Laid() && Exact(Free()[index := free], view)
    {
      var entry, level := index, 0;
      ghost var now := Free()[index := free];
      MarkStart(Free(), view, index, free);
      while level < levels
        invariant 0 <= level <= levels && 0 <= entry
        invariant Laid() && Marking(now, view, level, entry, free)
      {
        var stop := MarkLevel(level, entry, free, now);
        if stop {
          return;
        }
        entry := entry / WORD;
        level := level + 1;
      }
    }

    /** Entry `entry`'s bit of level `l`; whether its word was zero, or is, just as before. */
    method MarkLevel(l: nat, entry: nat, free: bool, ghost now: seq<bool>) returns (stop: bool)
      requires Laid() && l < levels && |now| == allocations.Length && Marking(now, view, l, entry, free)
      modifies this, bits
      ensures Laid()
      ensures if stop then Exact(now, view) else Marking(now, view, l + 1, entry / WORD, free)
    {
      var word := Word(l, entry / WORD);
      var marked := if free then word + {entry % WORD} else word - {entry % WORD};
      MarkOne(now, view, l, entry, free);
      SetWord(l, entry / WORD, marked);
      stop := (word == {}) == (marked == {});
    }

    /** Write the table's entry for frame `index`, keeping the bitmap exact. */
    method SetOwner(index: nat, owner: Option<Pid>)
      requires Valid() && index < allocations.Length
      modifies this, bits, allocations
      ensures Valid() && allocations[..] == old(allocations[..])[index := owner]
    {
      ghost var free := Free()[index := owner.None?];
      match (allocations[index], owner) {
        case (None, Some(_)) => MarkFree(index, false);
        case (Some(_), None) => MarkFree(index, true);
        case _ => assert free == Free();
      }
      allocations[index] := owner;
      assert Free() == free;
    }

    /** From entry `up` of level `l + 1`, the end entry of level `l` under it. */
    method DescendOne(l: nat, up: nat, highest: bool) returns (next: Option<nat>)
      requires Valid() && l < levels && Descending(Free(), view, l + 1, up, highest)
      ensures next.Some? ==> Descending(Free(), view, l, next.value, highest)
      ensures next.None? ==> forall f :: 0 <= f < allocations.Length ==> allocations[f].Some?
    {
      ghost var free := Free();
      ReadableNext(free, view, l + 1, up, highest);
      var word := Word(l, up);
      if word == {} {
        assert forall f :: 0 <= f < allocations.Length ==> !free[f];
        return None;
      }
      var bit := EndBit(word, highest);
      Down(free, view, l, up, bit, highest);
      return Some(WORD * up + bit);
    }

    /** The lowest free frame, or with `highest` the highest, one word a level from the top. */
    method FindFree(highest: bool) returns (found: Option<nat>)
      requires Valid()
      ensures found.None? <==> forall f :: 0 <= f < allocations.Length ==> allocations[f].Some?
      ensures found.Some? ==>
                && found.value < allocations.Length && allocations[found.value].None?
                && forall f :: 0 <= f < allocations.Length && allocations[f].None? ==>
                     if highest then f <= found.value else found.value <= f
    {
      var entry, level := 0, levels;
      ghost var free := Free();
      BestAtTop(free, view, highest);
      while level > 0
        invariant 0 <= level <= levels && 0 <= entry
        invariant Descending(free, view, level, entry, highest)
      {
        level := level - 1;
        var next := DescendOne(level, entry, highest);
        if next.None? {
          return None;
        }
        entry := next.value;
      }
      Landed(free, view, entry, highest);
      return Some(entry);
    }
  }
}
