/** The big kernel lock (kernel/src/cell.rs) with the halt and wake protocol of its waiters
    (libs/ticket/src/lib.rs), one atomic access a step.

    A run is any schedule: a sequence of hart numbers, each naming the hart that takes its next
    step. A hart outside the lock draws; a halted hart's step is an interrupt that ends its halt,
    the lock's wake or any other.
  */
module TicketLock {
  import opened Basics

  /** The 32-bit counters wrap here. */
  const WRAP: nat := 0x1_0000_0000

  /** The shared access a hart makes next, with the ticket it drew. */
  datatype Pc =
    | Outside                          // draw: `next.fetch_add`
    | Count(t: nat)                    // the checked build's count of the sections ahead
    | Turn(t: nat)                     // read `serving`: enter or wait
    | Record(t: nat)                   // `wait`: store the ticket
    | Mark(t: nat)                     // set this hart's mark
    | Reread(t: nat)                   // read `serving` again: halt unless the turn came
    | Halted(t: nat)                   // `wfi`
    | Clear(t: nat)                    // clear the mark
    | Inside(t: nat)                   // holds the lock; `release`: load `serving`
    | Advance(t: nat, to: nat)         // store `serving`
    | Look(to: nat, at: nat)           // read the marks, the lock given up
    | Scan(to: nat, at: nat, marked: set<nat>, i: nat) // read marked hart `i`'s recorded ticket

  /** In line: drawn and not yet released. */
  predicate InLine(pc: Pc) {
    !pc.Outside? && !pc.Look? && !pc.Scan?
  }

  predicate Holds(pc: Pc) {
    pc.Inside? || pc.Advance?
  }

  /** The lock's words, each hart's next step, and the history the proofs read: how many sections
      were served, the harts in line in the order they drew, who drew and who entered so far, and
      for each hart in line the sections served and the harts in line when it drew. `at` in a
      releasing hart's step is the sections served once it stored `serving`.
    */
  datatype State = State(
    next: nat, serving: nat, mostWaited: nat,
    recorded: seq<nat>, marks: set<nat>, interrupts: set<nat>,
    pc: seq<Pc>,
    served: nat, line: seq<nat>, drew: seq<nat>, entered: seq<nat>,
    servedAtDraw: seq<nat>, ahead: seq<nat>)

  function Start(harts: nat): State {
    State(0, 0, 0, seq(harts, _ => 0), {}, {}, seq(harts, _ => Outside),
          0, [], [], [], seq(harts, _ => 0), seq(harts, _ => 0))
  }

  function WrappingSub(a: nat, b: nat): nat
    requires a < WRAP && b < WRAP
  {
    if a >= b then a - b else a + WRAP - b
  }

  /** Hart `h` makes its next shared access. */
  function Step(s: State, h: nat): (s': State)
    requires Shape(s) && h < |s.pc|
    ensures Shape(s') && |s'.pc| == |s.pc|
  {
    match s.pc[h]
    case Outside =>
      s.(next := (s.next + 1) % WRAP, pc := s.pc[h := Count(s.next)],
         line := s.line + [h], drew := s.drew + [h],
         servedAtDraw := s.servedAtDraw[h := s.served], ahead := s.ahead[h := |s.line|])
    case Count(t) =>
      var waited := if t < WRAP then WrappingSub(t, s.serving) else 0;
      s.(pc := s.pc[h := Turn(t)], mostWaited := if waited > s.mostWaited then waited else s.mostWaited)
    case Turn(t) =>
      if s.serving == t then s.(pc := s.pc[h := Inside(t)], entered := s.entered + [h])
      else s.(pc := s.pc[h := Record(t)])
    case Record(t) => s.(pc := s.pc[h := Mark(t)], recorded := s.recorded[h := t])
    case Mark(t) => s.(pc := s.pc[h := Reread(t)], marks := s.marks + {h})
    case Reread(t) =>
      if s.serving != t then s.(pc := s.pc[h := Halted(t)]) else s.(pc := s.pc[h := Clear(t)])
    case Halted(t) => s.(pc := s.pc[h := Clear(t)], interrupts := s.interrupts - {h})
    case Clear(t) => s.(pc := s.pc[h := Turn(t)], marks := s.marks - {h})
    case Inside(t) => s.(pc := s.pc[h := Advance(t, (s.serving + 1) % WRAP)])
    case Advance(t, to) =>
      s.(serving := to % WRAP, pc := s.pc[h := Look(to, s.served + 1)], served := s.served + 1,
         line := if s.line == [] then [] else s.line[1..])
    case Look(to, at) => s.(pc := s.pc[h := Scan(to, at, s.marks, 0)])
    case Scan(to, at, marked, i) =>
      if i >= |s.pc| then s.(pc := s.pc[h := Outside])
      else if i in marked && s.recorded[i] == to then
        s.(pc := s.pc[h := Outside], interrupts := s.interrupts + {i})
      else s.(pc := s.pc[h := Scan(to, at, marked, i + 1)])
  }

  ghost predicate Harts(harts: nat, schedule: seq<nat>) {
    forall i :: 0 <= i < |schedule| ==> schedule[i] < harts
  }

  /** The state after `schedule`, from the boot's lock. */
  function Run(harts: nat, schedule: seq<nat>): (s: State)
    requires 1 <= harts <= WRAP && Harts(harts, schedule)
    ensures Inv(s) && |s.pc| == harts
    decreases |schedule|
  {
    if schedule == [] then StartInv(harts); Start(harts)
    else
      var last := |schedule| - 1;
      var s := Run(harts, schedule[..last]);
      StepInv(s, schedule[last]);
      Step(s, schedule[last])
  }

  // --- The invariant ---------------------------------------------------------------------------

  ghost predicate Shape(s: State) {
    && 1 <= |s.pc| <= WRAP
    && |s.recorded| == |s.pc| && |s.servedAtDraw| == |s.pc| && |s.ahead| == |s.pc|
    && s.serving < WRAP && s.next < WRAP
  }

  ghost predicate Distinct(line: seq<nat>) {
    forall i, j :: 0 <= i < j < |line| ==> line[i] != line[j]
  }

  /** The line holds exactly the harts between their draw and their release, each once. */
  ghost predicate Line(s: State) {
    && Distinct(s.line)
    && (forall i :: 0 <= i < |s.line| ==> s.line[i] < |s.pc| && InLine(s.pc[s.line[i]]))
    && (forall h :: 0 <= h < |s.pc| && InLine(s.pc[h]) ==> h in s.line)
  }

  /** The harts in line hold consecutive tickets from the one being served, as the counters say. */
  ghost predicate Tickets(s: State)
    requires Line(s)
  {
    && s.serving == s.served % WRAP
    && s.next == (s.served + |s.line|) % WRAP
    && forall i :: 0 <= i < |s.line| ==> s.pc[s.line[i]].t == (s.served + i) % WRAP
  }

  /** Only the first in line is in the kernel. */
  ghost predicate First(s: State)
    requires Shape(s)
  {
    forall h :: 0 <= h < |s.pc| && Holds(s.pc[h]) ==>
      s.line != [] && s.line[0] == h && (s.pc[h].Advance? ==> s.pc[h].to == (s.serving + 1) % WRAP)
  }

  ghost predicate Marks(s: State)
    requires Shape(s)
  {
    && (forall h :: 0 <= h < |s.pc| ==>
          (h in s.marks <==> s.pc[h].Reread? || s.pc[h].Halted? || s.pc[h].Clear?))
    && (forall h :: h in s.marks ==> h < |s.pc|)
    && (forall h :: 0 <= h < |s.pc| && (s.pc[h].Mark? || h in s.marks) ==> s.recorded[h] == s.pc[h].t)
  }

  /** A release still looking for whom to wake, if no later release has stored `serving`: the marks
      it read are all of harts still in line, each with its ticket recorded.
    */
  ghost predicate Release(s: State, r: nat)
    requires Shape(s) && r < |s.pc|
  {
    s.pc[r].Look? || s.pc[r].Scan? ==>
      && s.pc[r].at <= s.served
      && (s.pc[r].at == s.served ==> s.pc[r].to == s.serving)
      && (s.pc[r].at == s.served && s.pc[r].Scan? ==> MarkedInLine(s, s.pc[r].marked))
  }

  ghost predicate MarkedInLine(s: State, marked: set<nat>)
    requires Shape(s)
  {
    forall j :: j in marked ==> j < |s.pc| && InLine(s.pc[j]) && s.recorded[j] == s.pc[j].t
  }

  ghost predicate Releases(s: State)
    requires Shape(s)
  {
    forall r :: 0 <= r < |s.pc| ==> Release(s, r)
  }

  /** Hart `r` has served the turn now due and has yet to come to hart `h`'s mark. */
  ghost predicate WillWake(s: State, r: nat, h: nat)
    requires r < |s.pc|
  {
    || (s.pc[r].Look? && s.pc[r].at == s.served)
    || (s.pc[r].Scan? && s.pc[r].at == s.served && h in s.pc[r].marked && s.pc[r].i <= h)
  }

  /** A hart halted past its turn, with no interrupt yet come. */
  predicate Asleep(s: State, h: nat)
    requires h < |s.pc|
  {
    s.pc[h].Halted? && s.pc[h].t == s.serving && h !in s.interrupts
  }

  ghost predicate NoLostWake(s: State) {
    forall h :: 0 <= h < |s.pc| && Asleep(s, h) ==> exists r :: 0 <= r < |s.pc| && WillWake(s, r, h)
  }

  /** Who waits: the line, less a first hart already in the kernel. */
  function Waiting(s: State): seq<nat> {
    if s.line != [] && s.line[0] < |s.pc| && Holds(s.pc[s.line[0]]) then s.line[1..] else s.line
  }

  ghost predicate Logs(s: State)
    requires Shape(s)
  {
    && s.drew == s.entered + Waiting(s)
    && s.mostWaited < |s.pc|
    && Places(s)
  }

  ghost predicate Inv(s: State) {
    Shape(s) && Line(s) && Tickets(s) && First(s) && Marks(s) && Releases(s) && NoLostWake(s) && Logs(s)
  }

  // --- Every step keeps it ---------------------------------------------------------------------

  lemma {:induction false} StartInv(harts: nat)
    requires 1 <= harts <= WRAP
    ensures Inv(Start(harts))
  {
  }

  /** Distinct harts below `n`: at most `n` of them. */
  lemma {:induction false} LineFits(line: seq<nat>, n: nat)
    requires Distinct(line) && forall i :: 0 <= i < |line| ==> line[i] < n
    ensures |line| <= n
  {
    if |line| == 0 { return; }
    assert line[0] < n;
    if n - 1 in line {
      var k :| 0 <= k < |line| && line[k] == n - 1;
      LineFits(line[..k] + line[k + 1..], n - 1);
    } else {
      LineFits(line, n - 1);
    }
  }

  /** Tickets a wrap apart never meet in the line, so a ticket names one place in it. */
  lemma {:induction false} SamePlace(base: nat, i: nat, j: nat)
    requires i < WRAP && j < WRAP && (base + i) % WRAP == (base + j) % WRAP
    ensures i == j
  {
  }

  /** A hart that reads its own ticket being served is the first in line. */
  lemma {:induction false} ServedIsFirst(s: State, h: nat)
    requires Shape(s) && Line(s) && Tickets(s) && h < |s.pc| && InLine(s.pc[h]) && s.pc[h].t == s.serving
    ensures s.line != [] && s.line[0] == h
  {
    LineFits(s.line, |s.pc|);
    var k :| 0 <= k < |s.line| && s.line[k] == h;
    SamePlace(s.served, 0, k);
  }

  /** A step that moves nobody in or out of line. */
  lemma {:induction false} SameLine(s: State, h: nat)
    requires Shape(s) && h < |s.pc| && !s.pc[h].Outside? && !s.pc[h].Advance?
    ensures var s' := Step(s, h);
            && s'.line == s.line && s'.served == s.served && s'.next == s.next && s'.serving == s.serving
            && s'.drew == s.drew && s'.servedAtDraw == s.servedAtDraw && s'.ahead == s.ahead
            && (s.pc[h].Count? || s'.mostWaited == s.mostWaited)
            && (if Holds(s'.pc[h]) && !Holds(s.pc[h])
                then s.pc[h].Turn? && s.serving == s.pc[h].t && s'.entered == s.entered + [h]
                else Holds(s'.pc[h]) == Holds(s.pc[h]) && s'.entered == s.entered)
            && s'.pc == s.pc[h := s'.pc[h]]
            && InLine(s'.pc[h]) == InLine(s.pc[h])
            && (InLine(s.pc[h]) ==> s'.pc[h].t == s.pc[h].t)
  {
  }

  lemma {:induction false} StepLine(s: State, h: nat)
    requires Shape(s) && Line(s) && First(s) && h < |s.pc|
    ensures Line(Step(s, h))
  {
    var s' := Step(s, h);
    if s.pc[h].Outside? {
      assert h !in s.line;
      assert s'.line == s.line + [h];
    } else if s.pc[h].Advance? {
      assert s.line == [h] + s'.line;
      forall i | 0 <= i < |s'.line|
        ensures s'.line[i] < |s'.pc| && InLine(s'.pc[s'.line[i]])
      {
        assert s'.line[i] == s.line[i + 1] && s.line[0] != s.line[i + 1];
      }
    } else {
      SameLine(s, h);
    }
  }

  lemma {:induction false} NextTicket(n: nat)
    ensures (n % WRAP + 1) % WRAP == (n + 1) % WRAP
  {
  }

  lemma {:induction false} StepTickets(s: State, h: nat)
    requires Shape(s) && Line(s) && Tickets(s) && First(s) && h < |s.pc| && Line(Step(s, h))
    ensures Tickets(Step(s, h))
  {
    var s' := Step(s, h);
    if s.pc[h].Outside? {
      DrawTickets(s, h);
    } else if s.pc[h].Advance? {
      LeaveTickets(s, h);
    } else {
      SameLine(s, h);
      SameTickets(s, s', h);
    }
  }

  lemma {:induction false} SameTickets(s: State, s': State, h: nat)
    requires Line(s) && Tickets(s) && Line(s') && h < |s.pc| == |s'.pc|
    requires s'.line == s.line && s'.served == s.served && s'.next == s.next && s'.serving == s.serving
    requires s'.pc == s.pc[h := s'.pc[h]]
    requires InLine(s'.pc[h]) == InLine(s.pc[h]) && (InLine(s.pc[h]) ==> s'.pc[h].t == s.pc[h].t)
    ensures Tickets(s')
  {
  }

  lemma {:induction false} DrawTickets(s: State, h: nat)
    requires Shape(s) && Line(s) && Tickets(s) && h < |s.pc| && s.pc[h].Outside? && Line(Step(s, h))
    ensures Tickets(Step(s, h))
  {
    assert h !in s.line;
    NextTicket(s.served + |s.line|);
    assert Step(s, h).line == s.line + [h];
  }

  lemma {:induction false} LeaveTickets(s: State, h: nat)
    requires Shape(s) && Line(s) && Tickets(s) && First(s) && h < |s.pc| && s.pc[h].Advance? && Line(Step(s, h))
    ensures Tickets(Step(s, h))
  {
    var s' := Step(s, h);
    NextTicket(s.served);
    forall i | 0 <= i < |s'.line|
      ensures s'.pc[s'.line[i]].t == (s'.served + i) % WRAP
    {
      assert s'.line[i] == s.line[i + 1] && s.line[0] != s.line[i + 1];
    }
  }

  lemma {:induction false} StepFirst(s: State, h: nat)
    requires Shape(s) && Line(s) && Tickets(s) && First(s) && h < |s.pc|
    ensures First(Step(s, h))
  {
    if s.pc[h].Turn? && s.serving == s.pc[h].t {
      ServedIsFirst(s, h);
    }
  }

  lemma {:induction false} StepMarks(s: State, h: nat)
    requires Shape(s) && Marks(s) && h < |s.pc|
    ensures Marks(Step(s, h))
  {
  }

  lemma {:induction false} StepReleases(s: State, h: nat)
    requires Shape(s) && First(s) && Marks(s) && Releases(s) && h < |s.pc|
    ensures Releases(Step(s, h))
  {
    forall r | 0 <= r < |s.pc|
      ensures Release(Step(s, h), r)
    {
      StepRelease(s, h, r);
    }
  }

  lemma {:induction false} StepMarkedInLine(s: State, h: nat, marked: set<nat>)
    requires Shape(s) && MarkedInLine(s, marked) && h < |s.pc| && !s.pc[h].Advance?
    ensures MarkedInLine(Step(s, h), marked)
  {
    if !s.pc[h].Outside? { SameLine(s, h); }
    assert Step(s, h).recorded == s.recorded || (s.pc[h].Record? && Step(s, h).recorded == s.recorded[h := s.pc[h].t]);
  }

  lemma {:induction false} StepRelease(s: State, h: nat, r: nat)
    requires Shape(s) && First(s) && Marks(s) && h < |s.pc| && r < |s.pc| && Release(s, r)
    ensures Release(Step(s, h), r)
  {
    if s.pc[h].Advance? {
    } else if s.pc[r].Scan? && s.pc[r].at == s.served {
      StepMarkedInLine(s, h, s.pc[r].marked);
    } else if s.pc[r].Look? {
      assert MarkedInLine(s, s.marks);
      StepMarkedInLine(s, h, s.marks);
    }
  }

  /** The scan stops at no hart before the one whose turn it is. */
  lemma {:induction false} ScanReaches(s: State, r: nat, h: nat)
    requires Shape(s) && Line(s) && Tickets(s) && Releases(s) && r < |s.pc| && h < |s.pc| && Asleep(s, h)
    requires s.pc[r].Scan? && WillWake(s, r, h)
    ensures WillWake(Step(s, r), r, h) || h in Step(s, r).interrupts
  {
    var i := s.pc[r].i;
    assert Release(s, r);
    if i in s.pc[r].marked && s.recorded[i] == s.pc[r].to {
      ServedIsFirst(s, i);
      ServedIsFirst(s, h);
    }
  }

  lemma {:induction false} StepNoLostWake(s: State, h: nat)
    requires Shape(s) && Line(s) && Tickets(s) && Marks(s) && Releases(s) && NoLostWake(s) && h < |s.pc|
    ensures NoLostWake(Step(s, h))
  {
    var s' := Step(s, h);
    forall x | 0 <= x < |s'.pc| && Asleep(s', x)
      ensures exists r :: 0 <= r < |s'.pc| && WillWake(s', r, x)
    {
      if s.pc[h].Advance? {
        assert WillWake(s', h, x);
      } else {
        KeepWaking(s, h, x);
      }
    }
  }

  lemma {:induction false} KeepWaking(s: State, h: nat, x: nat)
    requires Shape(s) && Line(s) && Tickets(s) && Marks(s) && Releases(s) && NoLostWake(s)
    requires h < |s.pc| && !s.pc[h].Advance? && x < |s.pc| && Asleep(Step(s, h), x)
    ensures exists r :: 0 <= r < |s.pc| && WillWake(Step(s, h), r, x)
  {
    assert x != h;
    assert Asleep(s, x);
    var r :| 0 <= r < |s.pc| && WillWake(s, r, x);
    if r == h && s.pc[r].Scan? { ScanReaches(s, r, x); }
    assert WillWake(Step(s, h), r, x);
  }

  /** The part of `Logs` about places in line. */
  ghost predicate Places(s: State)
    requires Shape(s)
  {
    forall i :: 0 <= i < |s.line| && s.line[i] < |s.pc| ==>
      && s.servedAtDraw[s.line[i]] + s.ahead[s.line[i]] == s.served + i
      && s.ahead[s.line[i]] < |s.pc|
  }

  lemma {:induction false} StepPlaces(s: State, h: nat)
    requires Shape(s) && Line(s) && First(s) && Places(s) && h < |s.pc|
    ensures Places(Step(s, h))
  {
    var s' := Step(s, h);
    if s.pc[h].Outside? {
      assert h !in s.line;
      LineFits(s.line + [h], |s.pc|);
      assert s'.line == s.line + [h];
    } else if s.pc[h].Advance? {
      assert forall i :: 0 <= i < |s'.line| ==> s'.line[i] == s.line[i + 1];
    } else {
      SameLine(s, h);
    }
  }

  lemma {:induction false} StepMostWaited(s: State, h: nat)
    requires Shape(s) && Line(s) && Tickets(s) && s.mostWaited < |s.pc| && h < |s.pc|
    ensures Step(s, h).mostWaited < |s.pc|
  {
    if s.pc[h].Count? {
      LineFits(s.line, |s.pc|);
      var k :| 0 <= k < |s.line| && s.line[k] == h;
      CountIsPlace(s.served, k);
    }
  }

  lemma {:induction false} StepDrew(s: State, h: nat)
    requires Shape(s) && Line(s) && Tickets(s) && First(s) && h < |s.pc|
    requires s.drew == s.entered + Waiting(s)
    ensures Step(s, h).drew == Step(s, h).entered + Waiting(Step(s, h))
  {
    if s.pc[h].Outside? {
      DrawDrew(s, h);
    } else if s.pc[h].Advance? {
      LeaveDrew(s, h);
    } else {
      SameLine(s, h);
      if s.pc[h].Turn? && s.serving == s.pc[h].t { ServedIsFirst(s, h); }
      DrewFrom(s, Step(s, h), h);
    }
  }

  lemma {:induction false} DrawDrew(s: State, h: nat)
    requires Shape(s) && Line(s) && h < |s.pc| && s.pc[h].Outside? && s.drew == s.entered + Waiting(s)
    ensures Step(s, h).drew == Step(s, h).entered + Waiting(Step(s, h))
  {
    var s' := Step(s, h);
    assert h !in s.line && s'.line == s.line + [h];
    assert Waiting(s') == Waiting(s) + [h];
    assert s.entered + (Waiting(s) + [h]) == s.entered + Waiting(s) + [h];
  }

  lemma {:induction false} LeaveDrew(s: State, h: nat)
    requires Shape(s) && Line(s) && First(s) && h < |s.pc| && s.pc[h].Advance?
    requires s.drew == s.entered + Waiting(s)
    ensures Step(s, h).drew == Step(s, h).entered + Waiting(Step(s, h))
  {
    var s' := Step(s, h);
    assert s'.line == Waiting(s);
    if s'.line != [] { assert s.line[0] != s.line[1] && s'.line[0] == s.line[1]; }
  }

  lemma {:induction false} DrewFrom(s: State, s': State, h: nat)
    requires h < |s.pc| && s'.line == s.line && s.drew == s.entered + Waiting(s) && s'.drew == s.drew
    requires |s'.pc| == |s.pc| && forall x :: 0 <= x < |s.pc| && x != h ==> s'.pc[x] == s.pc[x]
    requires if Holds(s'.pc[h]) && !Holds(s.pc[h])
             then s.line != [] && s.line[0] == h && s'.entered == s.entered + [h]
             else Holds(s'.pc[h]) == Holds(s.pc[h]) && s'.entered == s.entered
    ensures s'.drew == s'.entered + Waiting(s')
  {
    if Holds(s'.pc[h]) && !Holds(s.pc[h]) {
      assert Waiting(s) == [h] + Waiting(s');
      assert s.entered + [h] + Waiting(s') == s.entered + ([h] + Waiting(s'));
    }
  }

  /** What the wrapping subtraction of the checked build counts is the hart's place in line. */
  lemma {:induction false} CountIsPlace(served: nat, place: nat)
    requires place < WRAP
    ensures WrappingSub((served + place) % WRAP, served % WRAP) == place
  {
  }

  lemma {:induction false} StepInv(s: State, h: nat)
    requires Inv(s) && h < |s.pc|
    ensures Inv(Step(s, h))
  {
    StepLine(s, h);
    StepTickets(s, h);
    StepFirst(s, h);
    StepMarks(s, h);
    StepReleases(s, h);
    StepNoLostWake(s, h);
    StepPlaces(s, h);
    StepMostWaited(s, h);
    StepDrew(s, h);
  }

  // --- What every run promises -----------------------------------------------------------------

  /** At most one hart is in the kernel. */
  lemma {:induction false} MutualExclusion(harts: nat, schedule: seq<nat>, a: nat, b: nat)
    requires 1 <= harts <= WRAP && Harts(harts, schedule) && a < harts && b < harts
    ensures Holds(Run(harts, schedule).pc[a]) && Holds(Run(harts, schedule).pc[b]) ==> a == b
  {
  }

  /** Kernel entry is FIFO: the harts enter in exactly the order they drew. */
  lemma {:induction false} EntryIsFifo(harts: nat, schedule: seq<nat>)
    requires 1 <= harts <= WRAP && Harts(harts, schedule)
    ensures Run(harts, schedule).entered <= Run(harts, schedule).drew
  {
  }

  /** A hart that drew with `k` harts in line enters after exactly `k` more sections were served,
      `k` is below the number of harts, and no acquisition is ever counted as waiting behind more.
    */
  lemma {:induction false} BoundedWait(harts: nat, schedule: seq<nat>, h: nat)
    requires 1 <= harts <= WRAP && Harts(harts, schedule) && h < harts
    ensures var s := Run(harts, schedule);
            && (Holds(s.pc[h]) ==> s.served == s.servedAtDraw[h] + s.ahead[h])
            && (InLine(s.pc[h]) ==> s.ahead[h] <= harts - 1)
            && s.mostWaited <= harts - 1
  {
    var s := Run(harts, schedule);
    if InLine(s.pc[h]) {
      assert h in s.line;
      var k :| 0 <= k < |s.line| && s.line[k] == h;
    }
  }

  /** A step that needs no interrupt from outside: of a hart in line or finishing its release that
      is not halted, or is halted with an interrupt come.
    */
  predicate Moves(s: State, h: nat)
    requires h < |s.pc|
  {
    !s.pc[h].Outside? && (s.pc[h].Halted? ==> h in s.interrupts)
  }

  /** No hart halts past its turn: while a hart is in line, some hart's next step is the lock's own,
      needing no new hart and no stray interrupt.
    */
  lemma {:induction false} NeverWedged(harts: nat, schedule: seq<nat>)
    requires 1 <= harts <= WRAP && Harts(harts, schedule)
    ensures var s := Run(harts, schedule);
            s.line != [] ==> exists h :: 0 <= h < harts && Moves(s, h)
  {
    var s := Run(harts, schedule);
    if s.line != [] {
      var first := s.line[0];
      if Asleep(s, first) {
        var r :| 0 <= r < |s.pc| && WillWake(s, r, first);
        assert Moves(s, r);
      } else {
        assert Moves(s, first);
      }
    }
  }

  /** What the checked build counts an acquisition as waiting behind: the harts before it in line. */
  lemma {:induction false} CountsThoseAhead(s: State, h: nat, k: nat)
    requires Shape(s) && Line(s) && Tickets(s) && h < |s.pc| && s.pc[h].Count? && k < |s.line| && s.line[k] == h
    ensures Step(s, h).mostWaited == if k > s.mostWaited then k else s.mostWaited
  {
    LineFits(s.line, |s.pc|);
    CountIsPlace(s.served, k);
  }

  // --- Everyone gets in --------------------------------------------------------------------------------

  /** The steps a hart has left to its release's end, more while its turn is to come. */
  function Rank(pc: Pc, serving: nat, harts: nat): nat {
    match pc
    case Outside => 0
    case Scan(_, _, _, i) => 7 + if i < harts then harts - i else 0
    case Look(_, _) => harts + 8
    case Advance(_, _) => harts + 9
    case Inside(_) => harts + 10
    case Turn(t) => harts + if t == serving then 11 else 17
    case Clear(t) => harts + if t == serving then 12 else 18
    case Reread(t) => harts + if t == serving then 13 else 14
    case Mark(t) => harts + if t == serving then 14 else 15
    case Record(t) => harts + if t == serving then 15 else 16
    case Halted(_) => harts + 13
    case Count(_) => harts + 18
  }

  /** And what an interrupt that has come can cost: once round its wait. */
  function RankOf(s: State, h: nat): nat
    requires h < |s.pc|
  {
    Rank(s.pc[h], s.serving, |s.pc|) + if h in s.interrupts then 6 else 0
  }

  function Ranks(s: State): (r: seq<nat>)
    ensures |r| == |s.pc| && forall h :: 0 <= h < |r| ==> r[h] == RankOf(s, h)
  {
    seq(|s.pc|, h requires 0 <= h < |s.pc| => RankOf(s, h))
  }

  function Sum(r: seq<nat>): nat {
    if |r| == 0 then 0 else Sum(r[..|r| - 1]) + r[|r| - 1]
  }

  lemma {:induction false} SumAtMost(r: seq<nat>, r': seq<nat>)
    requires |r| == |r'| && forall i :: 0 <= i < |r| ==> r'[i] <= r[i]
    ensures Sum(r') <= Sum(r)
    decreases |r|
  {
    if |r| > 0 { SumAtMost(r[..|r| - 1], r'[..|r| - 1]); }
  }

  lemma {:induction false} SumSet(r: seq<nat>, k: nat, v: nat)
    requires k < |r|
    ensures Sum(r[k := v]) + r[k] == Sum(r) + v
    decreases |r|
  {
    var n := |r| - 1;
    if k == n {
      assert r[k := v][..n] == r[..n];
    } else {
      SumSet(r[..n], k, v);
      assert r[k := v][..n] == r[..n][k := v];
    }
  }

  lemma {:induction false} SumBound(r: seq<nat>, m: nat)
    requires forall i :: 0 <= i < |r| ==> r[i] <= m
    ensures Sum(r) <= |r| * m
    decreases |r|
  {
    if |r| > 0 {
      SumBound(r[..|r| - 1], m);
      assert (|r| - 1) * m + m == |r| * m;
    }
  }

  /** A turn that comes shortens the wait of the hart whose it is and lengthens nobody's. */
  lemma {:induction false} TurnShortens(s: State, h: nat, x: nat)
    requires Shape(s) && Line(s) && Tickets(s) && First(s)
    requires h < |s.pc| && x < |s.pc| && x != h && s.pc[h].Advance?
    ensures RankOf(Step(s, h), x) <= RankOf(s, x)
  {
    if InLine(s.pc[x]) && s.pc[x].t == s.serving { ServedIsFirst(s, x); }
  }

  /** The hart a release wakes, if it has come to it. */
  function Wakes(s: State, h: nat): Option<nat>
    requires Shape(s) && h < |s.pc|
  {
    if s.pc[h].Scan? && s.pc[h].i < |s.pc| && s.pc[h].i in s.pc[h].marked && s.recorded[s.pc[h].i] == s.pc[h].to
    then Some(s.pc[h].i) else None
  }

  lemma {:induction false} OwnRank(s: State, h: nat)
    requires Shape(s) && h < |s.pc| && Moves(s, h)
    ensures RankOf(Step(s, h), h) < RankOf(s, h)
    ensures Wakes(s, h).Some? && Wakes(s, h).value != h ==> RankOf(Step(s, h), h) + 7 <= RankOf(s, h)
  {
  }

  lemma {:induction false} OtherRank(s: State, h: nat, x: nat)
    requires Shape(s) && h < |s.pc| && x < |s.pc| && x != h && !s.pc[h].Advance?
    ensures RankOf(Step(s, h), x) <= RankOf(s, x) + if Wakes(s, h) == Some(x) then 6 else 0
  {
  }

  /** Every step of the lock's own leaves fewer. */
  lemma {:induction false} StepsRunDown(s: State, h: nat)
    requires Shape(s) && Line(s) && Tickets(s) && First(s) && h < |s.pc| && Moves(s, h)
    ensures Sum(Ranks(Step(s, h))) < Sum(Ranks(s))
  {
    var s' := Step(s, h);
    var r, r', woken := Ranks(s), Ranks(s'), Wakes(s, h);
    OwnRank(s, h);
    forall x | 0 <= x < |r| && x != h ensures RankOf(s', x) <= RankOf(s, x) + if woken == Some(x) then 6 else 0 {
      if s.pc[h].Advance? { TurnShortens(s, h, x); } else { OtherRank(s, h, x); }
    }
    hide Step, RankOf, Wakes, Sum, Ranks, Moves, Line, Tickets, First, Shape;
    RanksFall(r, r', h, if woken.Some? then woken.value else h);
  }

  lemma {:induction false} RanksFall(r: seq<nat>, r': seq<nat>, h: nat, woken: nat)
    requires |r'| == |r| && h < |r| && woken < |r| && r'[h] < r[h] && (woken != h ==> r'[h] + 7 <= r[h])
    requires forall x :: 0 <= x < |r| && x != h ==> r'[x] <= r[x] + if x == woken then 6 else 0
    ensures Sum(r') < Sum(r)
  {
    hide Sum;
    var low := r[h := r'[h]];
    SumSet(r, h, r'[h]);
    if woken != h {
      SumSet(low, woken, low[woken] + 6);
      SumAtMost(low[woken := low[woken] + 6], r');
    } else {
      SumAtMost(low, r');
    }
  }

  /** From where `schedule` leads, each step of `more` is the lock's own. */
  ghost predicate Own(harts: nat, schedule: seq<nat>, more: seq<nat>)
    requires 1 <= harts <= WRAP && Harts(harts, schedule)
  {
    && Harts(harts, more)
    && forall i :: 0 <= i < |more| ==> MovesAfter(harts, schedule, more, i)
  }

  ghost predicate MovesAfter(harts: nat, schedule: seq<nat>, more: seq<nat>, i: nat)
    requires 1 <= harts <= WRAP && Harts(harts, schedule) && Harts(harts, more) && i < |more|
  {
    Moves(Run(harts, schedule + more[..i]), more[i])
  }

  lemma {:induction false} OneMore(harts: nat, schedule: seq<nat>, h: nat)
    requires 1 <= harts <= WRAP && Harts(harts, schedule) && h < harts && Moves(Run(harts, schedule), h)
    ensures Sum(Ranks(Run(harts, schedule + [h]))) < Sum(Ranks(Run(harts, schedule)))
    ensures Run(harts, schedule + [h]).drew == Run(harts, schedule).drew
  {
    hide Sum, Ranks, Line, Tickets, First, Marks, Releases, NoLostWake, Logs;
    var s := Run(harts, schedule);
    StepsRunDown(s, h);
    assert (schedule + [h])[..|schedule|] == schedule;
    assert Run(harts, schedule + [h]) == Step(s, h);
  }

  lemma {:induction false} OwnLess(harts: nat, schedule: seq<nat>, more: seq<nat>)
    requires 1 <= harts <= WRAP && Harts(harts, schedule) && Own(harts, schedule, more) && |more| > 0
    ensures var n := |more| - 1;
            && Harts(harts, schedule + more[..n]) && more[n] < harts && Harts(harts, more)
            && Own(harts, schedule, more[..n]) && Moves(Run(harts, schedule + more[..n]), more[n])
  {
    hide Run, Moves, Inv;
    var n := |more| - 1;
    assert MovesAfter(harts, schedule, more, n);
    forall i | 0 <= i < n ensures MovesAfter(harts, schedule, more[..n], i) {
      assert MovesAfter(harts, schedule, more, i) && more[..n][..i] == more[..i];
    }
  }

  lemma {:induction false} OwnRunDown(harts: nat, schedule: seq<nat>, more: seq<nat>)
    requires 1 <= harts <= WRAP && Harts(harts, schedule) && Own(harts, schedule, more)
    ensures |more| + Sum(Ranks(Run(harts, schedule + more))) <= Sum(Ranks(Run(harts, schedule)))
    ensures Run(harts, schedule + more).drew == Run(harts, schedule).drew
    decreases |more|
  {
    hide Run, Sum, Ranks, Moves, Inv, Own;
    if |more| == 0 {
      assert schedule + more == schedule;
    } else {
      var n := |more| - 1;
      OwnLess(harts, schedule, more);
      OwnRunDown(harts, schedule, more[..n]);
      OneMore(harts, schedule + more[..n], more[n]);
      assert schedule + more == schedule + more[..n] + [more[n]];
    }
  }

  lemma {:induction false} FewSteps(s: State)
    ensures Sum(Ranks(s)) <= |s.pc| * (|s.pc| + 24)
  {
    hide Sum;
    SumBound(Ranks(s), |s.pc| + 24);
  }

  lemma {:induction false} NobodyInLine(s: State)
    requires Inv(s)
    ensures s.line == [] ==> s.entered == s.drew
  {
    hide Line, Tickets, First, Marks, Releases, NoLostWake;
  }

  /** Every hart that drew gets in. Left to itself, from any state of any run, the lock makes at most
      `harts * (harts + 24)` steps, whatever order the harts take them in; when none is left to make, all that
      drew have entered, in the order they drew, and left.
    */
  lemma {:induction false} EveryoneEnters(harts: nat, schedule: seq<nat>, more: seq<nat>)
    requires 1 <= harts <= WRAP && Harts(harts, schedule) && Own(harts, schedule, more)
    ensures |more| <= harts * (harts + 24)
    ensures var s := Run(harts, schedule + more);
            (forall h :: 0 <= h < harts ==> !Moves(s, h)) ==>
              s.line == [] && s.entered == s.drew == Run(harts, schedule).drew
  {
    hide Sum, Ranks, Run, Inv, Moves;
    OwnRunDown(harts, schedule, more);
    FewSteps(Run(harts, schedule));
    NeverWedged(harts, schedule + more);
    NobodyInLine(Run(harts, schedule + more));
  }
}
