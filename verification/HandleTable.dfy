/** One process's handle table: pages bought as they are needed, the lowest free index given out, and a
    handle a sweep closed kept dead until its holder closes it (kernel/src/handle.rs).
  */
module HandleTable {
  import opened Basics

  const HANDLES_PER_PAGE: nat := 64
  const MAX_HANDLE_PAGES: nat := 64

  datatype Error = OutOfMemory | TooLarge | BadHandle | DeadHandle

  datatype Slot<H> = Empty | Dead | Live(handle: H)

  /** A page not in use holds no handle. */
  type Pages<H> = seq<Option<seq<Slot<H>>>>

  // --- Indexes ---------------------------------------------------------------------------------------------

  /** `position`: the page and slot of an index. */
  function Position(index: nat): Option<(nat, nat)> {
    if index == 0 || (index - 1) / HANDLES_PER_PAGE >= MAX_HANDLE_PAGES then None
    else Some(((index - 1) / HANDLES_PER_PAGE, (index - 1) % HANDLES_PER_PAGE))
  }

  function IndexOf(page: nat, slot: nat): nat { page * HANDLES_PER_PAGE + slot + 1 }

  /** Indexes and positions are one to one, in the same order. */
  lemma {:induction false} PositionInverts(page: nat, slot: nat)
    requires page < MAX_HANDLE_PAGES && slot < HANDLES_PER_PAGE
    ensures Position(IndexOf(page, slot)) == Some((page, slot))
  {
  }

  lemma {:induction false} IndexInverts(index: nat)
    requires Position(index).Some?
    ensures IndexOf(Position(index).value.0, Position(index).value.1) == index
  {
  }

  lemma {:induction false} IndexOrder(page: nat, slot: nat, page': nat, slot': nat)
    requires slot < HANDLES_PER_PAGE && slot' < HANDLES_PER_PAGE
    ensures IndexOf(page, slot) < IndexOf(page', slot') <==> page < page' || (page == page' && slot < slot')
  {
  }

  /** What the table holds at an index; nothing past its end. */
  function At<H>(pages: Pages<H>, index: nat): Slot<H> {
    match Position(index)
    case None => Empty
    case Some((page, slot)) =>
      if page < |pages| && pages[page].Some? && slot < |pages[page].value| then pages[page].value[slot] else Empty
  }

  ghost predicate IsIndex(index: nat) { 1 <= index <= MAX_HANDLE_PAGES * HANDLES_PER_PAGE }

  lemma {:induction false} IndexTells(index: nat)
    ensures IsIndex(index) <==> Position(index).Some?
  {
  }

  // --- What a table keeps ----------------------------------------------------------------------------------

  function Used<H>(s: seq<Slot<H>>): nat {
    if s == [] then 0 else Used(s[..|s| - 1]) + if s[|s| - 1].Empty? then 0 else 1
  }

  function InUse<H>(pages: Pages<H>): nat {
    if pages == [] then 0 else InUse(pages[..|pages| - 1]) + if pages[|pages| - 1].Some? then 1 else 0
  }

  /** A page's count is of its slots live or dead; a page is in use exactly while it holds one. */
  ghost predicate PageOk<H>(page: Option<seq<Slot<H>>>, live: nat) {
    match page
    case None => live == 0
    case Some(s) => |s| == HANDLES_PER_PAGE && live == Used(s) && live > 0
  }

  lemma {:induction false} UsedTells<H>(s: seq<Slot<H>>)
    ensures Used(s) <= |s|
    ensures Used(s) == |s| <==> forall i :: 0 <= i < |s| ==> !s[i].Empty?
    ensures Used(s) == 0 <==> forall i :: 0 <= i < |s| ==> s[i].Empty?
  {
    if s != [] {
      var init := s[..|s| - 1];
      UsedTells(init);
      assert forall i :: 0 <= i < |init| ==> init[i] == s[i];
    }
  }

  lemma {:induction false} UsedWrite<H>(s: seq<Slot<H>>, i: nat, x: Slot<H>)
    requires i < |s|
    ensures Used(s[i := x]) + (if s[i].Empty? then 0 else 1) == Used(s) + if x.Empty? then 0 else 1
  {
    var init := s[..|s| - 1];
    if i < |s| - 1 {
      UsedWrite(init, i, x);
      assert s[i := x][..|s| - 1] == init[i := x];
    } else {
      assert s[i := x][..|s| - 1] == init;
    }
  }

  lemma {:induction false} InUseWrite<H>(pages: Pages<H>, i: nat, x: Option<seq<Slot<H>>>)
    requires i < |pages|
    ensures InUse(pages[i := x]) + (if pages[i].Some? then 1 else 0) == InUse(pages) + if x.Some? then 1 else 0
  {
    var init := pages[..|pages| - 1];
    if i < |pages| - 1 {
      InUseWrite(init, i, x);
      assert pages[i := x][..|pages| - 1] == init[i := x];
    } else {
      assert pages[i := x][..|pages| - 1] == init;
    }
  }

  lemma {:induction false} InUseNone<H>(pages: Pages<H>)
    requires forall k :: 0 <= k < |pages| ==> pages[k].None?
    ensures InUse(pages) == 0
  {
    if pages != [] { InUseNone(pages[..|pages| - 1]); }
  }

  // --- One write, seen through the indexes --------------------------------------------------------------------

  function Put<H>(pages: Pages<H>, page: nat, slot: nat, x: Slot<H>): Pages<H>
    requires page < |pages| && pages[page].Some? && slot < |pages[page].value|
  {
    pages[page := Some(pages[page].value[slot := x])]
  }

  function EmptyPage<H>(): (s: seq<Slot<H>>)
    ensures |s| == HANDLES_PER_PAGE && forall i :: 0 <= i < |s| ==> s[i].Empty?
  {
    seq(HANDLES_PER_PAGE, _ => Empty)
  }

  ghost predicate Sized<H>(pages: Pages<H>) {
    && |pages| == MAX_HANDLE_PAGES
    && forall k :: 0 <= k < |pages| && pages[k].Some? ==> |pages[k].value| == HANDLES_PER_PAGE
  }

  /** Exactly one index changed. */
  ghost predicate OnlyAt<H>(pages: Pages<H>, pages': Pages<H>, index: nat, x: Slot<H>) {
    At(pages', index) == x && forall i :: i != index ==> At(pages', i) == At(pages, i)
  }

  lemma {:induction false} PutTells<H>(pages: Pages<H>, page: nat, slot: nat, x: Slot<H>)
    requires Sized(pages) && page < |pages| && pages[page].Some? && slot < HANDLES_PER_PAGE
    ensures OnlyAt(pages, Put(pages, page, slot, x), IndexOf(page, slot), x)
  {
    var pages' := Put(pages, page, slot, x);
    PositionInverts(page, slot);
    forall i | i != IndexOf(page, slot) ensures At(pages', i) == At(pages, i) {
      if Position(i).Some? { IndexInverts(i); }
    }
  }

  /** Buying a page, or giving back an empty one, changes no index. */
  lemma {:induction false} PageTells<H>(pages: Pages<H>, page: nat, x: Option<seq<Slot<H>>>)
    requires Sized(pages) && page < |pages|
    requires pages[page].Some? ==> forall i :: 0 <= i < |pages[page].value| ==> pages[page].value[i].Empty?
    requires x.Some? ==> |x.value| == HANDLES_PER_PAGE && forall i :: 0 <= i < |x.value| ==> x.value[i].Empty?
    ensures Sized(pages[page := x]) && forall i :: At(pages[page := x], i) == At(pages, i)
  {
  }

  /** Every index below (`page`, `slot`) is in use. */
  ghost predicate FullBelow<H>(pages: Pages<H>, index: nat) {
    forall i :: 1 <= i < index ==> !At(pages, i).Empty?
  }

  lemma {:induction false} FullPages<H>(pages: Pages<H>, page: nat, slot: nat)
    requires Sized(pages) && page <= |pages| && slot < HANDLES_PER_PAGE && (page == |pages| ==> slot == 0)
    requires forall k :: 0 <= k < page ==> pages[k].Some? && Used(pages[k].value) == HANDLES_PER_PAGE
    requires slot > 0 ==> pages[page].Some? && forall s :: 0 <= s < slot ==> !pages[page].value[s].Empty?
    ensures FullBelow(pages, IndexOf(page, slot))
  {
    forall i | 1 <= i < IndexOf(page, slot) ensures !At(pages, i).Empty? {
      IndexTells(i);
      IndexInverts(i);
      var (p, s) := Position(i).value;
      IndexOrder(p, s, page, slot);
      if p < page { UsedTells(pages[p].value); }
    }
  }

  // --- What the table grows by ----------------------------------------------------------------------------------

  /** The free slots of each page in use; a page not in use is none. */
  type Rooms = seq<Option<nat>>

  function RoomOf<H>(page: Option<seq<Slot<H>>>): Option<nat> {
    if page.None? then None
    else Some(if Used(page.value) <= HANDLES_PER_PAGE then HANDLES_PER_PAGE - Used(page.value) else 0)
  }

  function RoomsOf<H>(pages: Pages<H>): Rooms {
    seq(|pages|, k requires 0 <= k < |pages| => RoomOf(pages[k]))
  }

  function Free(rooms: Rooms): nat {
    if rooms == [] then 0 else (if rooms[0].Some? then rooms[0].value else 0) + Free(rooms[1..])
  }

  function Absent(rooms: Rooms): nat {
    if rooms == [] then 0 else (if rooms[0].None? then 1 else 0) + Absent(rooms[1..])
  }

  function Capacity(rooms: Rooms): nat { Free(rooms) + HANDLES_PER_PAGE * Absent(rooms) }

  /** The pages `n` slots take. */
  function Ceil(n: int): nat { if n <= 0 then 0 else (n + HANDLES_PER_PAGE - 1) / HANDLES_PER_PAGE }

  /** `table_growth`: the pages to buy for `extra` more handles, by the free slots of all pages in use. */
  function Growth(rooms: Rooms, extra: nat): Option<nat> {
    if Ceil(extra - Free(rooms)) <= Absent(rooms) then Some(Ceil(extra - Free(rooms))) else None
  }

  /** The pages bought by `extra` handles installed one by one, each at the lowest free index. */
  function Bought(rooms: Rooms, extra: nat): nat {
    if rooms == [] || extra == 0 then 0
    else if rooms[0].Some? then Bought(rooms[1..], Less(extra, rooms[0].value))
    else 1 + Bought(rooms[1..], Less(extra, HANDLES_PER_PAGE))
  }

  function Less(n: nat, m: nat): nat { if n <= m then 0 else n - m }

  /** `table_growth` refuses exactly what the table cannot hold. */
  lemma {:induction false} GrowthRefuses(rooms: Rooms, extra: nat)
    ensures Growth(rooms, extra).Some? <==> extra <= Capacity(rooms)
  {
  }

  /** It never says more pages than installing buys. */
  lemma {:induction false} GrowthUnder(rooms: Rooms, extra: nat)
    requires extra <= Capacity(rooms)
    ensures Ceil(extra - Free(rooms)) <= Bought(rooms, extra) <= Absent(rooms)
  {
    if rooms != [] && extra > 0 {
      var less := Less(extra, if rooms[0].Some? then rooms[0].value else HANDLES_PER_PAGE);
      GrowthUnder(rooms[1..], less);
    }
  }

  /** No page in use has a free slot past a page not in use. */
  ghost predicate Tidy(rooms: Rooms) {
    forall i, j :: 0 <= i < j < |rooms| && rooms[i].None? && rooms[j].Some? ==> rooms[j].value == 0
  }

  lemma {:induction false} NoFree(rooms: Rooms)
    requires forall j :: 0 <= j < |rooms| && rooms[j].Some? ==> rooms[j].value == 0
    ensures Free(rooms) == 0
  {
    if rooms != [] { NoFree(rooms[1..]); }
  }

  lemma {:induction false} OnlyAbsent(rooms: Rooms, extra: nat)
    requires Free(rooms) == 0 && extra <= Capacity(rooms)
    ensures Bought(rooms, extra) == Ceil(extra)
  {
    if rooms != [] && extra > 0 {
      OnlyAbsent(rooms[1..], if rooms[0].Some? then extra else Less(extra, HANDLES_PER_PAGE));
    }
  }

  lemma {:induction false} TidyIsExact(rooms: Rooms, extra: nat)
    requires Tidy(rooms) && extra <= Capacity(rooms)
    ensures Growth(rooms, extra) == Some(Bought(rooms, extra))
  {
    if rooms == [] || extra == 0 {
    } else if rooms[0].None? {
      NoFree(rooms[1..]);
      OnlyAbsent(rooms, extra);
    } else {
      forall i, j | 0 <= i < j < |rooms[1..]| && rooms[1..][i].None? && rooms[1..][j].Some?
        ensures rooms[1..][j].value == 0
      {
        assert rooms[i + 1].None? && rooms[j + 1].Some?;
      }
      TidyIsExact(rooms[1..], Less(extra, rooms[0].value));
    }
  }

  /** The free slots before the first page not in use. */
  function Lead(rooms: Rooms): nat {
    if rooms == [] || rooms[0].None? then 0 else rooms[0].value + Lead(rooms[1..])
  }

  /** A handle more than those is bought a page, wherever else there is a free slot. */
  lemma {:induction false} LeadBuys(rooms: Rooms, i: nat)
    requires i < |rooms| && rooms[i].None?
    ensures Bought(rooms, Lead(rooms) + 1) > 0
  {
    if rooms[0].Some? {
      LeadBuys(rooms[1..], i - 1);
    }
  }

  lemma {:induction false} FreePast(rooms: Rooms, i: nat, j: nat)
    requires i < j < |rooms| && rooms[i].None? && rooms[j].Some? && rooms[j].value > 0
    ensures Free(rooms) > Lead(rooms)
  {
    if rooms[0].Some? {
      FreePast(rooms[1..], i - 1, j - 1);
    } else {
      FreeAt(rooms[1..], j - 1);
    }
  }

  lemma {:induction false} FreeAt(rooms: Rooms, j: nat)
    requires j < |rooms| && rooms[j].Some?
    ensures Free(rooms) >= rooms[j].value
  {
    if j > 0 { FreeAt(rooms[1..], j - 1); }
  }

  /** `table_growth` is exact for every number of handles if and only if no page in use has a free slot past
      a page not in use: the lowest free index is then always one it counted.
    */
  lemma {:induction false} GrowthIsExact(rooms: Rooms)
    ensures Tidy(rooms) <==> forall extra: nat :: extra <= Capacity(rooms) ==>
              Growth(rooms, extra) == Some(Bought(rooms, extra))
  {
    if Tidy(rooms) {
      forall extra: nat | extra <= Capacity(rooms) ensures Growth(rooms, extra) == Some(Bought(rooms, extra)) {
        TidyIsExact(rooms, extra);
      }
    } else {
      var i, j :| 0 <= i < j < |rooms| && rooms[i].None? && rooms[j].Some? && rooms[j].value != 0;
      LeadBuys(rooms, i);
      FreePast(rooms, i, j);
      assert Growth(rooms, Lead(rooms) + 1) == Some(0);
    }
  }

  /** A table whose first page emptied, with a free slot on a later page, is said to need nothing for one more
      handle, and buys its first page again.
    */
  lemma {:induction false} GrowthCanBeShort(rooms: Rooms, j: nat)
    requires 0 < j < |rooms| && rooms[0].None? && rooms[j].Some? && rooms[j].value > 0
    ensures Growth(rooms, 1) == Some(0) && Bought(rooms, 1) == 1
  {
    FreeAt(rooms[1..], j - 1);
    BoughtNone(rooms[1..]);
  }

  // --- One handle installed ----------------------------------------------------------------------------------------

  function After(rooms: Rooms): Rooms {
    if rooms == [] then []
    else if rooms[0].None? then [Some(HANDLES_PER_PAGE - 1)] + rooms[1..]
    else if rooms[0].value > 0 then [Some(rooms[0].value - 1)] + rooms[1..]
    else [rooms[0]] + After(rooms[1..])
  }

  function Cost(rooms: Rooms): nat {
    if rooms == [] then 0 else if rooms[0].None? then 1 else if rooms[0].value > 0 then 0 else Cost(rooms[1..])
  }

  /** Buying is by the handle: the first's page, then the rest's. */
  lemma {:induction false} BoughtNext(rooms: Rooms, n: nat)
    requires n < Capacity(rooms)
    ensures Bought(rooms, n + 1) == Cost(rooms) + Bought(After(rooms), n)
    ensures Capacity(After(rooms)) == Capacity(rooms) - 1
  {
    var rest := rooms[1..];
    if rooms[0].Some? && rooms[0].value == 0 {
      BoughtNext(rest, n);
      assert After(rooms)[1..] == After(rest);
    } else {
      assert After(rooms)[1..] == rest;
    }
  }

  lemma {:induction false} BoughtNone(rooms: Rooms)
    ensures Bought(rooms, 0) == 0
  {
  }

  lemma {:induction false} AfterAt(rooms: Rooms, k: nat)
    requires k < |rooms| && rooms[k] != Some(0) && forall i :: 0 <= i < k ==> rooms[i] == Some(0)
    ensures After(rooms) == rooms[k := Some((if rooms[k].None? then HANDLES_PER_PAGE else rooms[k].value) - 1)]
    ensures Cost(rooms) == if rooms[k].None? then 1 else 0
    ensures Capacity(rooms) > 0
  {
    if k > 0 {
      AfterAt(rooms[1..], k - 1);
    }
  }

  lemma {:induction false} NoRoom(rooms: Rooms)
    requires forall i :: 0 <= i < |rooms| ==> rooms[i] == Some(0)
    ensures Capacity(rooms) == 0 && Cost(rooms) == 0
  {
    if rooms != [] { NoRoom(rooms[1..]); }
  }

  // --- What one installation comes to -----------------------------------------------------------------------------

  /** The first page not full is where the next handle goes. */
  lemma {:induction false} FirstRoom<H>(pages: Pages<H>, live: seq<nat>, page: nat)
    requires |pages| == |live| == MAX_HANDLE_PAGES && page < |pages|
    requires forall k :: 0 <= k < |pages| ==> PageOk(pages[k], live[k])
    requires forall k :: 0 <= k < page ==> pages[k].Some? && Used(pages[k].value) == HANDLES_PER_PAGE
    requires pages[page].None? || live[page] != HANDLES_PER_PAGE
    ensures Sized(pages) && (pages[page].Some? ==> Used(pages[page].value) < HANDLES_PER_PAGE)
    ensures Capacity(RoomsOf(pages)) > 0 && Cost(RoomsOf(pages)) == if pages[page].None? then 1 else 0
    ensures After(RoomsOf(pages)) == RoomsOf(pages)[page :=
              Some(Less(HANDLES_PER_PAGE, live[page] + 1))]
  {
    if pages[page].Some? { UsedTells(pages[page].value); }
    AfterAt(RoomsOf(pages), page);
  }

  lemma {:induction false} FullSame<H>(pages: Pages<H>, pages': Pages<H>, index: nat)
    requires FullBelow(pages', index) && forall i :: At(pages', i) == At(pages, i)
    ensures FullBelow(pages, index)
  {
  }

  lemma {:induction false} EmptyThere<H>(was: Pages<H>, pages: Pages<H>, page: nat, slot: nat, x: Slot<H>)
    requires page < |pages| && page < MAX_HANDLE_PAGES && pages[page].Some? && slot < HANDLES_PER_PAGE
    requires slot < |pages[page].value|
    requires pages[page].value[slot].Empty? && forall i :: At(pages, i) == At(was, i)
    requires OnlyAt(pages, Put(pages, page, slot, x), IndexOf(page, slot), x)
    ensures At(was, IndexOf(page, slot)).Empty? && OnlyAt(was, Put(pages, page, slot, x), IndexOf(page, slot), x)
  {
    PositionInverts(page, slot);
  }

  /** The page in use, bought if it was not. */
  function Opened<H>(pages: Pages<H>, page: nat): Pages<H>
    requires page < |pages|
  {
    if pages[page].None? then pages[page := Some(EmptyPage())] else pages
  }

  lemma {:induction false} OpenedTells<H>(pages: Pages<H>, live: seq<nat>, page: nat)
    requires Sized(pages) && |live| == |pages| && page < |pages| && PageOk(pages[page], live[page])
    requires pages[page].None? || live[page] != HANDLES_PER_PAGE
    ensures var ready := Opened(pages, page);
            && Sized(ready) && ready[page].Some? && (forall i :: At(ready, i) == At(pages, i))
            && Used(ready[page].value) == live[page] < HANDLES_PER_PAGE == |ready[page].value|
            && InUse(ready) == InUse(pages) + if pages[page].None? then 1 else 0
  {
    if pages[page].None? {
      UsedTells(EmptyPage<H>());
      PageTells(pages, page, Some(EmptyPage()));
      InUseWrite(pages, page, Some(EmptyPage()));
    } else {
      UsedTells(pages[page].value);
    }
  }

  lemma {:induction false} InstalledTells<H>(was: Pages<H>, live: seq<nat>, page: nat, slot: nat, h: H)
    requires Sized(was) && |live| == |was| && page < |was| && PageOk(was[page], live[page])
    requires was[page].None? || live[page] != HANDLES_PER_PAGE
    requires forall k :: 0 <= k < page ==> was[k].Some? && Used(was[k].value) == HANDLES_PER_PAGE
    requires var ready := Opened(was, page)[page].value;
             slot < |ready| && ready[slot].Empty? && forall i :: 0 <= i < slot ==> !ready[i].Empty?
    requires After(RoomsOf(was)) == RoomsOf(was)[page := Some(Less(HANDLES_PER_PAGE, live[page] + 1))]
    ensures slot < HANDLES_PER_PAGE
    ensures var ready := Opened(was, page);
            var after := ready[page := Some(ready[page].value[slot := Live(h)])];
            var index := IndexOf(page, slot);
            && IsIndex(index) && At(was, index).Empty? && FullBelow(was, index) && OnlyAt(was, after, index, Live(h))
            && RoomsOf(after) == After(RoomsOf(was)) && PageOk(after[page], live[page] + 1)
            && InUse(after) == InUse(was) + if was[page].None? then 1 else 0
  {
    hide OnlyAt, At, FullBelow, InUse, Used, After;
    var ready := Opened(was, page);
    OpenedTells(was, live, page);
    FullPages(ready, page, slot);
    FullSame(was, ready, IndexOf(page, slot));
    PutTells(ready, page, slot, Live(h));
    UsedWrite(ready[page].value, slot, Live(h));
    InUseWrite(ready, page, Put(ready, page, slot, Live(h))[page]);
    IndexTells(IndexOf(page, slot));
    PositionInverts(page, slot);
    EmptyThere(was, ready, page, slot, Live(h));
    RoomsMove(was, Put(ready, page, slot, Live(h)), page);
  }

  lemma {:induction false} RoomsMove<H>(pages: Pages<H>, pages': Pages<H>, page: nat)
    requires |pages'| == |pages| && page < |pages| && pages' == pages[page := pages'[page]]
    ensures RoomsOf(pages') == RoomsOf(pages)[page := RoomOf(pages'[page])]
  {
  }

  lemma {:induction false} SizedOf<H>(pages: Pages<H>, live: seq<nat>)
    requires |pages| == |live| == MAX_HANDLE_PAGES && forall k :: 0 <= k < |pages| ==> PageOk(pages[k], live[k])
    ensures Sized(pages)
  {
    forall k | 0 <= k < |pages| && pages[k].Some? ensures |pages[k].value| == HANDLES_PER_PAGE {
      assert PageOk(pages[k], live[k]);
    }
  }

  /** A slot in use marked dead, or emptied. */
  lemma {:induction false} WriteTells<H>(pages: Pages<H>, live: seq<nat>, page: nat, slot: nat, x: Slot<H>)
    requires Sized(pages) && |live| == |pages| && page < |pages| && pages[page].Some? && PageOk(pages[page], live[page])
    requires slot < HANDLES_PER_PAGE && !pages[page].value[slot].Empty? && (x == Dead || x == Empty)
    ensures var after := pages[page := Some(pages[page].value[slot := x])];
            && Sized(after) && OnlyAt(pages, after, IndexOf(page, slot), x) && InUse(after) == InUse(pages)
            && Used(after[page].value) + (if x.Empty? then 1 else 0) == live[page]
            && (x == Dead ==> RoomsOf(after) == RoomsOf(pages) && PageOk(after[page], live[page]))
  {
    PutTells(pages, page, slot, x);
    UsedWrite(pages[page].value, slot, x);
    InUseWrite(pages, page, Put(pages, page, slot, x)[page]);
    RoomsMove(pages, Put(pages, page, slot, x), page);
  }

  lemma {:induction false} EmptiedTells<H>(was: Pages<H>, pages: Pages<H>, page: nat, index: nat)
    requires Sized(pages) && page < |pages| && pages[page].Some? && Used(pages[page].value) == 0
    requires OnlyAt(was, pages, index, Empty)
    ensures OnlyAt(was, pages[page := None], index, Empty) && InUse(pages[page := None]) + 1 == InUse(pages)
  {
    UsedTells(pages[page].value);
    PageTells(pages, page, None);
    InUseWrite(pages, page, None);
  }

  lemma {:induction false} RoomsSnoc(rooms: Rooms, k: nat)
    requires k < |rooms|
    ensures Free(rooms[..k + 1]) == Free(rooms[..k]) + if rooms[k].Some? then rooms[k].value else 0
    ensures Absent(rooms[..k + 1]) == Absent(rooms[..k]) + if rooms[k].None? then 1 else 0
  {
    if k > 0 {
      RoomsSnoc(rooms[1..], k - 1);
      assert rooms[1..][..k] == rooms[..k + 1][1..] && rooms[1..][..k - 1] == rooms[..k][1..];
    }
  }

  lemma {:induction false} FullIsNone<H>(pages: Pages<H>, live: seq<nat>)
    requires |pages| == |live| == MAX_HANDLE_PAGES && forall k :: 0 <= k < |pages| ==> PageOk(pages[k], live[k])
    requires FullBelow(pages, MAX_HANDLE_PAGES * HANDLES_PER_PAGE + 1)
    ensures Capacity(RoomsOf(pages)) == 0
  {
    forall k | 0 <= k < |pages| ensures RoomsOf(pages)[k] == Some(0) {
      assert PageOk(pages[k], live[k]);
      PageFull(pages, k);
    }
    NoRoom(RoomsOf(pages));
  }

  lemma {:induction false} PageFull<H>(pages: Pages<H>, k: nat)
    requires |pages| == MAX_HANDLE_PAGES && k < |pages| && (pages[k].Some? ==> |pages[k].value| == HANDLES_PER_PAGE)
    requires FullBelow(pages, MAX_HANDLE_PAGES * HANDLES_PER_PAGE + 1)
    ensures pages[k].Some? && Used(pages[k].value) == HANDLES_PER_PAGE
  {
    forall s | 0 <= s < HANDLES_PER_PAGE ensures pages[k].Some? && !pages[k].value[s].Empty? {
      PositionInverts(k, s);
      assert !At(pages, IndexOf(k, s)).Empty?;
    }
    PositionInverts(k, 0);
    assert !At(pages, IndexOf(k, 0)).Empty?;
    UsedTells(pages[k].value);
  }

  // --- Over a whole run (I17) ----------------------------------------------------------------------------------------

  datatype Op = Installing(index: nat) | Killing(index: nat) | Closing(index: nat) | Failing

  /** What each call does to the table, as its method says. */
  ghost predicate Stepped<H>(pages: Pages<H>, pages': Pages<H>, op: Op) {
    match op
    case Installing(i) => At(pages, i).Empty? && At(pages', i).Live? && OnlyAt(pages, pages', i, At(pages', i))
    case Killing(i) => OnlyAt(pages, pages', i, if At(pages, i).Live? then Dead else At(pages, i))
    case Closing(i) => OnlyAt(pages, pages', i, Empty)
    case Failing => forall i :: At(pages', i) == At(pages, i)
  }

  ghost predicate IsRun<H>(run: seq<Pages<H>>, ops: seq<Op>) {
    |run| == |ops| + 1 && forall k :: 0 <= k < |ops| ==> Stepped(run[k], run[k + 1], ops[k])
  }

  /** I17: whatever is installed, swept or closed beside it, an index a sweep closed stays dead, and is
      given to no later handle, until its holder closes it.
    */
  lemma {:induction false} DeadStays<H>(run: seq<Pages<H>>, ops: seq<Op>, index: nat, k: nat)
    requires IsRun(run, ops) && At(run[0], index) == Dead && k <= |ops|
    requires forall j :: 0 <= j < k ==> ops[j] != Closing(index)
    ensures At(run[k], index) == Dead && forall j :: 0 <= j < k ==> ops[j] != Installing(index)
  {
    if k > 0 {
      DeadStays(run, ops, index, k - 1);
      assert Stepped(run[k - 1], run[k - 1 + 1], ops[k - 1]);
    }
  }

  // --- The table as the kernel changes it ----------------------------------------------------------------------------

  class Table<H> {
    var pages: Pages<H>
    var live: seq<nat>
    /** The pages charged to the process's budget. */
    var paid: nat

    ghost predicate Valid()
      reads this
    {
      && |pages| == |live| == MAX_HANDLE_PAGES
      && (forall k :: 0 <= k < MAX_HANDLE_PAGES ==> PageOk(pages[k], live[k]))
      && paid == InUse(pages)
    }

    constructor ()
      ensures Valid() && paid == 0 && forall i :: At(pages, i).Empty?
    {
      pages := seq(MAX_HANDLE_PAGES, _ => None);
      live := seq(MAX_HANDLE_PAGES, _ => 0);
      paid := 0;
      new;
      InUseNone(pages);
    }

    /** `handle`: a closed index is bad, and one a sweep closed is dead. */
    method Lookup(index: nat) returns (r: Result<H, Error>)
      requires Valid()
      ensures r == match At(pages, index)
                   case Empty => Err(BadHandle)
                   case Dead => Err(DeadHandle)
                   case Live(h) => Ok(h)
    {
      var at := Position(index);
      if at.None? { return Err(BadHandle); }
      var (page, slot) := at.value;
      if pages[page].None? { return Err(BadHandle); }
      assert PageOk(pages[page], live[page]);
      match pages[page].value[slot] {
        case Empty => return Err(BadHandle);
        case Dead => return Err(DeadHandle);
        case Live(h) => return Ok(h);
      }
    }

    /** `install_handle`: the lowest index neither live nor dead. It fails only if there is none, or if its
        page is not in use and cannot be bought.
      */
    method Install(h: H, pays: bool, frame: bool) returns (r: Result<nat, Error>)
      requires Valid()
      modifies this
      ensures Valid()
      ensures match r
              case Ok(index) =>
                && IsIndex(index) && At(old(pages), index).Empty? && FullBelow(old(pages), index)
                && OnlyAt(old(pages), pages, index, Live(h))
                && Capacity(RoomsOf(old(pages))) > 0 && RoomsOf(pages) == After(RoomsOf(old(pages)))
                && paid == old(paid) + Cost(RoomsOf(old(pages)))
              case Err(e) =>
                && pages == old(pages) && paid == old(paid)
                && match e
                   case TooLarge => FullBelow(old(pages), MAX_HANDLE_PAGES * HANDLES_PER_PAGE + 1)
                   case OutOfMemory => !(pays && frame) && Cost(RoomsOf(old(pages))) == 1
                   case _ => false
    {
      for page := 0 to MAX_HANDLE_PAGES
        invariant Valid() && pages == old(pages) && live == old(live) && paid == old(paid)
        invariant forall k :: 0 <= k < page ==> pages[k].Some? && Used(pages[k].value) == HANDLES_PER_PAGE
      {
        assert PageOk(pages[page], live[page]);
        if pages[page].None? || live[page] != HANDLES_PER_PAGE {
          r := InstallIn(page, h, pays, frame);
          return;
        }
      }
      FullPages(pages, MAX_HANDLE_PAGES, 0);
      return Err(TooLarge);
    }

    /** The first page not full, bought if need be, and its first empty slot. */
    method InstallIn(page: nat, h: H, pays: bool, frame: bool) returns (r: Result<nat, Error>)
      requires Valid() && page < MAX_HANDLE_PAGES && (pages[page].None? || live[page] != HANDLES_PER_PAGE)
      requires forall k :: 0 <= k < page ==> pages[k].Some? && Used(pages[k].value) == HANDLES_PER_PAGE
      modifies this
      ensures Valid()
      ensures r.Ok? ==>
                && IsIndex(r.value) && At(old(pages), r.value).Empty? && FullBelow(old(pages), r.value)
                && OnlyAt(old(pages), pages, r.value, Live(h))
                && Capacity(RoomsOf(old(pages))) > 0 && RoomsOf(pages) == After(RoomsOf(old(pages)))
                && paid == old(paid) + Cost(RoomsOf(old(pages)))
      ensures r.Err? ==>
                && r.error == OutOfMemory && pages == old(pages) && paid == old(paid)
                && !(pays && frame) && Cost(RoomsOf(old(pages))) == 1
    {
      hide OnlyAt, At, FullBelow, InUse, Used, RoomsOf, Capacity, Cost, After, IndexOf, IsIndex;
      ghost var was := pages;
      assert PageOk(pages[page], live[page]);
      FirstRoom(was, live, page);
      OpenedTells(was, live, page);
      if pages[page].None? {
        if !pays || !frame { return Err(OutOfMemory); }
        pages := pages[page := Some(EmptyPage())];
        paid := paid + 1;
      }
      var slot := FirstEmpty(pages[page].value);
      InstalledTells(was, live, page, slot, h);
      pages := pages[page := Some(pages[page].value[slot := Live(h)])];
      live := live[page := live[page] + 1];
      return Ok(IndexOf(page, slot));
    }

    static method FirstEmpty(s: seq<Slot<H>>) returns (slot: nat)
      requires Used(s) < |s|
      ensures slot < |s| && s[slot].Empty? && forall i :: 0 <= i < slot ==> !s[i].Empty?
    {
      UsedTells(s);
      slot := 0;
      while !s[slot].Empty?
        invariant slot < |s| && forall i :: 0 <= i < slot ==> !s[i].Empty?
        decreases |s| - slot
      {
        assert exists i :: 0 <= i < |s| && s[i].Empty?;
        slot := slot + 1;
      }
    }

    /** `kill_handle`: a sweep's close; the slot stays in use, and its index is not free. */
    method Kill(index: nat)
      requires Valid()
      modifies this
      ensures Valid() && paid == old(paid) && RoomsOf(pages) == RoomsOf(old(pages))
      ensures OnlyAt(old(pages), pages, index, if At(old(pages), index).Live? then Dead else At(old(pages), index))
    {
      var at := Position(index);
      if at.None? { return; }
      var (page, slot) := at.value;
      if pages[page].None? { return; }
      assert PageOk(pages[page], live[page]);
      if !pages[page].value[slot].Live? { return; }
      hide OnlyAt, InUse, Used;
      IndexInverts(index);
      SizedOf(pages, live);
      WriteTells(pages, live, page, slot, Dead);
      pages := pages[page := Some(pages[page].value[slot := Dead])];
    }

    /** `handle_close`, live or dead: the index is free again, and a page left empty is given back. */
    method Close(index: nat) returns (r: Result<(), Error>)
      requires Valid()
      modifies this
      ensures Valid()
      ensures r == if At(old(pages), index).Empty? then Err(BadHandle) else Ok(())
      ensures OnlyAt(old(pages), pages, index, Empty) && (r.Err? ==> pages == old(pages) && paid == old(paid))
    {
      var at := Position(index);
      if at.None? { return Err(BadHandle); }
      var (page, slot) := at.value;
      if pages[page].None? { return Err(BadHandle); }
      assert PageOk(pages[page], live[page]);
      if pages[page].value[slot].Empty? { return Err(BadHandle); }
      hide OnlyAt, InUse, Used;
      ghost var was := pages;
      IndexInverts(index);
      SizedOf(pages, live);
      WriteTells(pages, live, page, slot, Empty);
      pages := pages[page := Some(pages[page].value[slot := Empty])];
      live := live[page := live[page] - 1];
      if live[page] == 0 {
        EmptiedTells(was, pages, page, index);
        pages := pages[page := None];
        paid := paid - 1;
      }
      return Ok(());
    }

    /** `table_growth`. */
    method TableGrowth(extra: nat) returns (r: Option<nat>)
      requires Valid()
      ensures r == Growth(RoomsOf(pages), extra)
    {
      ghost var rooms := RoomsOf(pages);
      var free, absent := 0, 0;
      for page := 0 to MAX_HANDLE_PAGES
        invariant free == Free(rooms[..page]) && absent == Absent(rooms[..page])
      {
        assert PageOk(pages[page], live[page]);
        if pages[page].Some? { UsedTells(pages[page].value); }
        RoomsSnoc(rooms, page);
        if pages[page].Some? { free := free + (HANDLES_PER_PAGE - live[page]); } else { absent := absent + 1; }
      }
      assert rooms[..MAX_HANDLE_PAGES] == rooms;
      var short := if extra <= free then 0 else extra - free;
      var bought := (short + HANDLES_PER_PAGE - 1) / HANDLES_PER_PAGE;
      r := if bought <= absent then Some(bought) else None;
    }

    /** Handles installed one by one, as far as they go: what is paid is what they buy. */
    method InstallAll(handles: seq<H>) returns (all: bool)
      requires Valid()
      modifies this
      ensures Valid() && (all <==> |handles| <= Capacity(RoomsOf(old(pages))))
      ensures all ==> paid == old(paid) + Bought(RoomsOf(old(pages)), |handles|)
    {
      hide Capacity, Bought, RoomsOf, After, Cost, PageOk, InUse, OnlyAt, At, FullBelow;
      ghost var rooms, total := RoomsOf(pages), |handles|;
      var n := 0;
      while n < |handles|
        invariant 0 <= n <= |handles| && Valid() && n <= Capacity(rooms)
        invariant Capacity(RoomsOf(pages)) == Capacity(rooms) - n
        invariant total <= Capacity(rooms) ==>
                    old(paid) + Bought(rooms, total) == paid + Bought(RoomsOf(pages), total - n)
      {
        ghost var before := RoomsOf(pages);
        var one := Install(handles[n], true, true);
        if one.Err? {
          FullIsNone(pages, live);
          return false;
        }
        BoughtNext(before, 0);
        if total <= Capacity(rooms) { BoughtNext(before, total - n - 1); }
        n := n + 1;
      }
      BoughtNone(RoomsOf(pages));
      return true;
    }
  }

  // --- What a delivery trusts ----------------------------------------------------------------------------------------

  /** How many of `n` handles are installed one by one with `pages` left to buy: the first that must buy one more is
      dropped, and those after it.
    */
  function InstalledWithin(rooms: Rooms, n: nat, pages: nat): nat
    decreases n
  {
    if n == 0 || Capacity(rooms) == 0 || Cost(rooms) > pages then 0
    else 1 + InstalledWithin(After(rooms), n - 1, pages - Cost(rooms))
  }

  /** None is dropped if and only if the pages left are those installing buys. */
  lemma {:induction false} NoneDropped(rooms: Rooms, n: nat, pages: nat)
    requires n <= Capacity(rooms)
    ensures InstalledWithin(rooms, n, pages) == n <==> Bought(rooms, n) <= pages
    decreases n
  {
    if n == 0 {
      BoughtNone(rooms);
    } else {
      hide Capacity, Cost, After, Bought;
      BoughtNext(rooms, n - 1);
      if Cost(rooms) <= pages { NoneDropped(After(rooms), n - 1, pages - Cost(rooms)); }
    }
  }

  /** What a delivery asks before it installs. */
  predicate Checked(rooms: Rooms, n: nat, pages: nat) { Growth(rooms, n).Some? && Growth(rooms, n).value <= pages }

  /** A delivery that asks `table_growth` alone installs every handle, whatever the pages left, if and only if no page
      in use has a free slot past one not in use.
    */
  lemma {:induction false} TrustIsKept(rooms: Rooms)
    ensures Tidy(rooms) <==> forall n: nat, pages: nat :: Checked(rooms, n, pages) ==>
              InstalledWithin(rooms, n, pages) == n
  {
    hide Tidy, InstalledWithin, Capacity, Bought, Growth;
    GrowthIsExact(rooms);
    if Tidy(rooms) {
      forall n: nat, pages: nat | Checked(rooms, n, pages) ensures InstalledWithin(rooms, n, pages) == n {
        GrowthRefuses(rooms, n);
        NoneDropped(rooms, n, pages);
      }
    }
    if forall n: nat, pages: nat :: Checked(rooms, n, pages) ==> InstalledWithin(rooms, n, pages) == n {
      forall n: nat | n <= Capacity(rooms) ensures Growth(rooms, n) == Some(Bought(rooms, n)) {
        GrowthBounds(rooms, n);
        assert Checked(rooms, n, Growth(rooms, n).value);
        NoneDropped(rooms, n, Growth(rooms, n).value);
      }
    }
  }

  lemma {:induction false} GrowthBounds(rooms: Rooms, n: nat)
    requires n <= Capacity(rooms)
    ensures Growth(rooms, n).Some? && Growth(rooms, n).value <= Bought(rooms, n)
  {
    GrowthRefuses(rooms, n);
    GrowthUnder(rooms, n);
  }

  /** A full budget, and a table whose first page emptied with a free slot on a later one: one handle passes the check,
      and is dropped.
    */
  lemma {:induction false} HandleDropped(rooms: Rooms, j: nat)
    requires 0 < j < |rooms| && rooms[0].None? && rooms[j].Some? && rooms[j].value > 0
    ensures Checked(rooms, 1, 0) && InstalledWithin(rooms, 1, 0) == 0
  {
    GrowthCanBeShort(rooms, j);
    GrowthRefuses(rooms, 1);
    NoneDropped(rooms, 1, 0);
  }

  // --- Where `table_growth` falls short ------------------------------------------------------------------------------

  /** The indexes in use are those above `lo` and up to `hi`. */
  ghost predicate Spans<H>(pages: Pages<H>, lo: nat, hi: nat) {
    forall i: nat :: !At(pages, i).Empty? <==> lo < i <= hi
  }

  lemma {:induction false} SpansNext<H>(pages: Pages<H>, pages': Pages<H>, n: nat, index: nat, x: Slot<H>)
    requires Spans(pages, 0, n) && index > 0 && At(pages, index).Empty? && FullBelow(pages, index)
    requires OnlyAt(pages, pages', index, x) && !x.Empty?
    ensures index == n + 1 && Spans(pages', 0, n + 1)
  {
    assert At(pages, n + 1).Empty?;
  }

  lemma {:induction false} SpansLess<H>(pages: Pages<H>, pages': Pages<H>, lo: nat, hi: nat)
    requires Spans(pages, lo, hi) && OnlyAt(pages, pages', lo + 1, Empty)
    ensures Spans(pages', lo + 1, hi)
  {
    forall i: nat ensures !At(pages', i).Empty? <==> lo + 1 < i <= hi {
      assert i != lo + 1 ==> At(pages', i) == At(pages, i);
    }
  }

  lemma {:induction false} NotFull<H>(pages: Pages<H>, n: nat)
    requires Spans(pages, 0, n) && n < MAX_HANDLE_PAGES * HANDLES_PER_PAGE
    ensures !FullBelow(pages, MAX_HANDLE_PAGES * HANDLES_PER_PAGE + 1)
  {
    assert At(pages, n + 1).Empty?;
  }

  lemma {:induction false} FirstEmptied<H>(pages: Pages<H>, live: seq<nat>)
    requires |pages| == |live| == MAX_HANDLE_PAGES && (forall k :: 0 <= k < |pages| ==> PageOk(pages[k], live[k]))
    requires Spans(pages, HANDLES_PER_PAGE, HANDLES_PER_PAGE + 1)
    ensures |RoomsOf(pages)| == MAX_HANDLE_PAGES && RoomsOf(pages)[0].None? && RoomsOf(pages)[1].Some?
    ensures RoomsOf(pages)[1].value > 0
  {
    assert PageOk(pages[0], live[0]) && PageOk(pages[1], live[1]);
    PositionInverts(1, 0);
    assert !At(pages, IndexOf(1, 0)).Empty?;
    PositionInverts(1, 1);
    assert At(pages, IndexOf(1, 1)).Empty?;
    UsedTells(pages[1].value);
    if pages[0].Some? {
      forall s | 0 <= s < HANDLES_PER_PAGE ensures pages[0].value[s].Empty? {
        PositionInverts(0, s);
        assert At(pages, IndexOf(0, s)).Empty?;
      }
      UsedTells(pages[0].value);
    }
  }

  /** Such a table is reached: 65 handles installed in a new table, and the first 64 closed. */
  method EmptyFirstPage<H>(h: H) returns (table: Table<H>, said: Option<nat>)
    ensures fresh(table) && table.Valid() && |table.pages| == MAX_HANDLE_PAGES
    ensures said == Growth(RoomsOf(table.pages), 1) == Some(0) && Bought(RoomsOf(table.pages), 1) == 1
  {
    hide At, OnlyAt, RoomsOf, PageOk, InUse;
    table := FillPage(h);
    var k := 0;
    while k < HANDLES_PER_PAGE
      invariant 0 <= k <= HANDLES_PER_PAGE && fresh(table) && table.Valid()
      invariant Spans(table.pages, k, HANDLES_PER_PAGE + 1)
    {
      ghost var pages := table.pages;
      var r := table.Close(k + 1);
      SpansLess(pages, table.pages, k, HANDLES_PER_PAGE + 1);
      k := k + 1;
    }
    FirstEmptied(table.pages, table.live);
    GrowthCanBeShort(RoomsOf(table.pages), 1);
    said := table.TableGrowth(1);
  }

  /** One handle more than a page holds, in a new table. */
  method FillPage<H>(h: H) returns (table: Table<H>)
    ensures fresh(table) && table.Valid() && Spans(table.pages, 0, HANDLES_PER_PAGE + 1)
  {
    hide At, OnlyAt, RoomsOf, PageOk, InUse, FullBelow;
    table := new Table();
    var n := 0;
    while n <= HANDLES_PER_PAGE
      invariant 0 <= n <= HANDLES_PER_PAGE + 1 && fresh(table) && table.Valid() && Spans(table.pages, 0, n)
    {
      ghost var pages := table.pages;
      NotFull(pages, n);
      var r := table.Install(h, true, true);
      SpansNext(pages, table.pages, n, r.value, Live(h));
      n := n + 1;
    }
  }
}
