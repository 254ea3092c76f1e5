/** What every step does to every wait and every open call, and nothing else; and, over whole runs, where an open call
    came from and what its caller and its server are told (kernel/src/message.rs).
  */
module CallFates {
  import opened Basics
  import opened Calls

  // --- The fate of one call -----------------------------------------------------------------------------------------

  /** Its caller waits no more, and a notice of that is owed. */
  function Dropped(c: OpenCall): OpenCall {
    OpenCall(c.caller, c.server, c.endpoint, c.stamp, false, true, true, c.lend, c.payer)
  }

  function DroppedIf(c: OpenCall, failed: bool): OpenCall { if c.waiting && failed then Dropped(c) else c }

  /** No notice is owed any more. */
  function Quieted(c: OpenCall): OpenCall {
    OpenCall(c.caller, c.server, c.endpoint, c.stamp, c.waiting, c.abandoned, false, c.lend, c.payer)
  }

  predicate Keyed(c: OpenCall, kind: Kind, k: nat) { (if kind == ByStamp then c.stamp else c.endpoint) == k }

  /** The wait of a thread whose call, if it waits for one, is failed. */
  function WaitIf(calls: map<Id, OpenCall>, w: Wait, kind: Kind, k: nat): Wait {
    if w.AwaitingReply? && w.id in calls && Keyed(calls[w.id], kind, k) then Idle else w
  }

  lemma {:induction false} WaitingIs(s: State, id: Id, t: Thread)
    requires Sound(s) && id in s.calls
    ensures s.calls[id].waiting && s.calls[id].caller == t ==>
              t in s.threads && s.threads[t].wait == AwaitingReply(id)
    ensures t in s.threads && s.threads[t].wait == AwaitingReply(id) ==>
              s.calls[id].waiting && s.calls[id].caller == t
  {
    hide Sound;
    HeldAt(s, id);
    if t in s.threads { HoldsAt(s, t); }
  }

  // --- The loops, call by call and thread by thread -----------------------------------------------------------------

  lemma {:induction false} UnwoundFate(s: State, t: Thread, id: Id)
    requires Sound(s) && t in s.threads && id in s.calls
    ensures id in Unwound(s, t).calls && Unwound(s, t).calls[id] == DroppedIf(s.calls[id], s.calls[id].caller == t)
  {
    hide Sound, Unwound;
    UnwoundCalls(s, t);
    WaitingIs(s, id, t);
  }

  lemma {:induction false} AllUnwoundFate(s: State, ts: seq<Thread>, id: Id)
    requires Sound(s) && (forall i :: 0 <= i < |ts| ==> ts[i] in s.threads) && id in s.calls
    ensures id in AllUnwound(s, ts).calls
    ensures AllUnwound(s, ts).calls[id] == DroppedIf(s.calls[id], s.calls[id].caller in ts)
    decreases |ts|
  {
    hide Sound, Unwound, AllUnwound;
    AllUnwoundNext(s, ts);
    if ts != [] {
      UnwoundFate(s, ts[0], id);
      AllUnwoundFate(Unwound(s, ts[0]), ts[1..], id);
      assert ts == [ts[0]] + ts[1..];
    }
  }

  lemma {:induction false} CallersFailedFate(s: State, kind: Kind, k: nat, id: Id)
    requires Sound(s) && kind != ByNotice && id in s.calls
    ensures id in CallersFailed(s, kind, k).calls
    ensures CallersFailed(s, kind, k).calls[id] == DroppedIf(s.calls[id], Keyed(s.calls[id], kind, k))
    decreases |Callers(s, kind, k)|
  {
    hide Sound, AbandonOne, Callers, CallersFailed;
    CallersFailedNext(s, kind, k);
    if Callers(s, kind, k) == [] {
      NoneKeyed(s, kind, k, id);
    } else {
      FirstOpen(s, kind, k);
      CallersFailedFate(AbandonOne(s, Callers(s, kind, k)[0]), kind, k, id);
    }
  }

  lemma {:induction false} NoneKeyed(s: State, kind: Kind, k: nat, id: Id)
    requires Sound(s) && kind != ByNotice && id in s.calls && Callers(s, kind, k) == []
    ensures !(s.calls[id].waiting && Keyed(s.calls[id], kind, k))
  {
    hide Held, Flagged, Paged, Balanced, Owning;
    assert Exact(s.calls, s.opens, ByEndpoint) && Exact(s.calls, s.taken, ByStamp);
    assert id in ListOf(s.opens, k) <==> KeyOf(s.calls[id], ByEndpoint) == Some(k);
    assert id in ListOf(s.taken, k) <==> KeyOf(s.calls[id], ByStamp) == Some(k);
  }

  lemma {:induction false} CallersFailedWait(s: State, kind: Kind, k: nat, t: Thread)
    requires Sound(s) && kind != ByNotice && t in s.threads
    ensures t in CallersFailed(s, kind, k).threads
    ensures CallersFailed(s, kind, k).threads[t].wait == WaitIf(s.calls, s.threads[t].wait, kind, k)
    decreases |Callers(s, kind, k)|
  {
    hide Sound, AbandonOne, Callers, CallersFailed;
    CallersFailedNext(s, kind, k);
    var w := s.threads[t].wait;
    if w.AwaitingReply? { WaitedFor(s, t); }
    if Callers(s, kind, k) == [] {
      if w.AwaitingReply? { NoneKeyed(s, kind, k, w.id); }
    } else {
      FirstOpen(s, kind, k);
      var id := Callers(s, kind, k)[0];
      WaitingIs(s, id, s.calls[id].caller);
      CallersFailedWait(AbandonOne(s, id), kind, k, t);
    }
  }

  lemma {:induction false} NoticesDroppedFate(s: State, e: Endpoint, id: Id)
    requires Sound(s) && id in s.calls
    ensures id in NoticesDropped(s, e).calls
    ensures NoticesDropped(s, e).calls[id] == if s.calls[id].endpoint == e then Quieted(s.calls[id]) else s.calls[id]
    decreases |ListOf(s.notices, e)|
  {
    hide Sound, Unnoticed, ListOf, NoticesDropped;
    NoticesDroppedNext(s, e);
    if ListOf(s.notices, e) == [] {
      NoneNoticed(s, e, id);
    } else {
      FirstNotice(s, e);
      NoticesDroppedFate(Unnoticed(s, ListOf(s.notices, e)[0], false), e, id);
    }
  }

  lemma {:induction false} NoneNoticed(s: State, e: Endpoint, id: Id)
    requires Sound(s) && id in s.calls && ListOf(s.notices, e) == []
    ensures s.calls[id].endpoint == e ==> !s.calls[id].notice
  {
    hide Held, Flagged, Paged, Balanced, Owning;
    assert Exact(s.calls, s.notices, ByNotice);
    assert id in ListOf(s.notices, e) <==> KeyOf(s.calls[id], ByNotice) == Some(e);
  }

  lemma {:induction false} CloseWait(s: State, id: Id, t: Thread)
    requires Sound(s) && id in s.calls && t in s.threads
    ensures Sound(CloseOne(s, id)) && t in CloseOne(s, id).threads && CloseOne(s, id).calls == s.calls - {id}
    ensures CloseOne(s, id).threads[t].wait
         == if s.threads[t].wait == AwaitingReply(id) then Idle else s.threads[t].wait
  {
    hide Sound, Relist, Marked;
    ClosedKeeps(s, id);
    HeldAt(s, id);
    WaitingIs(s, id, t);
  }

  /** The wait of a thread all of whose server's calls end. */
  function WaitUnserved(calls: map<Id, OpenCall>, w: Wait, server: Thread): Wait {
    if w.AwaitingReply? && w.id in calls && calls[w.id].server == server then Idle else w
  }

  lemma {:induction false} CloseHeldWait(s: State, server: Thread, t: Thread)
    requires Sound(s) && server in s.threads && t in s.threads
    ensures t in CloseHeld(s, server).threads
    ensures CloseHeld(s, server).threads[t].wait == WaitUnserved(s.calls, s.threads[t].wait, server)
    decreases |s.threads[server].held|
  {
    hide Sound, CloseOne, CloseHeld;
    CloseHeldNext(s, server);
    var w := s.threads[t].wait;
    if w.AwaitingReply? { WaitedFor(s, t); HeldAt(s, w.id); }
    if s.threads[server].held != [] {
      FirstHeld(s, server);
      var id := s.threads[server].held[0];
      CloseWait(s, id, t);
      CloseHeldWait(CloseOne(s, id), server, t);
    }
  }

  // --- Every step ---------------------------------------------------------------------------------------------------

  /** Whether a message taken opens its call: the receiver's budget can pay for its page, its lend and its tables. */
  ghost predicate Fits(s: State, t: Thread, r: Thread, extra: Option<nat>) {
    && CanDeliver(s, t, r) && extra.Some? && r.pid in s.homes && s.homes[r.pid] in s.used && s.homes[r.pid] in s.limit
    && s.used[s.homes[r.pid]] + 1 + |s.threads[t].wait.lend| + extra.value <= s.limit[s.homes[r.pid]]
  }

  /** What thread `t` waits for after the step. */
  ghost function WaitAfter(s: State, step: Step, t: Thread): Wait
    requires t in s.threads
  {
    var w := s.threads[t].wait;
    match step
    case Queue(u, x) => if t == u then x else w
    case Receive(u, e) => if t == u then Receiving(e) else w
    case Take(u, r, extra) =>
      if t == u then if Fits(s, u, r, extra) then AwaitingReply(s.next) else Idle
      else if t == r && Fits(s, u, r, extra) then Idle else w
    case Answer(_, id) => if w == AwaitingReply(id) then Idle else w
    case Fail(u) => if t == u then Idle else w
    case End(u) => WaitUnserved(s.calls, w, u)
    case Destroy(e, ts) => if t in ts then Idle else WaitIf(s.calls, w, ByEndpoint, e)
    case Revoke(b, ts) => if t in ts then Idle else WaitIf(s.calls, w, ByStamp, b)
    case Notify(id) => if id in s.calls && t == s.calls[id].server then Idle else w
    case _ => w
  }

  /** What becomes of open call `id`. */
  ghost function CallAfter(s: State, step: Step, id: Id): Option<OpenCall>
    requires id in s.calls
  {
    var c := s.calls[id];
    match step
    case Answer(_, x) => if id == x then None else Some(c)
    case Fail(u) => Some(DroppedIf(c, c.caller == u))
    case End(u) => if c.server == u then None else Some(DroppedIf(c, c.caller == u))
    case Destroy(e, ts) =>
      var d := DroppedIf(c, c.caller in ts || c.endpoint == e);
      Some(if c.endpoint == e then Quieted(d) else d)
    case Revoke(b, ts) => Some(DroppedIf(c, c.caller in ts || c.stamp == b))
    case Notify(x) => Some(if id == x then Quieted(c) else c)
    case _ => Some(c)
  }

  /** The call a message taken opens: the sender's, at the endpoint it was sent to, under the stamp it was sent through,
      with the pages it lent.
    */
  ghost function CallTaken(s: State, step: Step): Option<OpenCall> {
    match step
    case Take(t, r, extra) =>
      if !Fits(s, t, r, extra) then None else
        var w := s.threads[t].wait;
        Some(OpenCall(t, r, w.endpoint, w.stamp, true, false, false, w.lend, s.homes[r.pid]))
    case _ => None
  }

  lemma {:induction false} TookFate(s: State, t: Thread, r: Thread, extra: Option<nat>)
    requires Sound(s) && CanDeliver(s, t, r)
    ensures var s', step := Took(s, t, r, extra), Take(t, r, extra);
            && s'.threads.Keys == s.threads.Keys
            && (forall u :: u in s.threads ==> s'.threads[u].wait == WaitAfter(s, step, u))
            && s'.calls == (if CallTaken(s, step).Some? then s.calls[s.next := CallTaken(s, step).value] else s.calls)
            && s'.next == if CallTaken(s, step).Some? then s.next + 1 else s.next
  {
    hide Sound, Marked, Relist;
    DeliverTells(s, t, r);
  }

  lemma {:induction false} BeganFate(s: State, step: Step)
    requires Sound(s) && Can(s, step) && Begins(step)
    ensures var s' := Began(s, step);
            && (forall u :: u in s.threads ==> u in s'.threads && s'.threads[u].wait == WaitAfter(s, step, u))
            && s'.calls == (if CallTaken(s, step).Some? then s.calls[s.next := CallTaken(s, step).value] else s.calls)
            && s'.next == if CallTaken(s, step).Some? then s.next + 1 else s.next
  {
    hide Sound, Took, Marked, Fits;
    if step.Take? { TookFate(s, step.sender, step.receiver, step.extra); }
  }

  lemma {:induction false} EndpointFate(s: State, e: Endpoint, ts: seq<Thread>, id: Id)
    requires Sound(s) && (forall i :: 0 <= i < |ts| ==> ts[i] in s.threads) && id in s.calls
    ensures id in EndpointDied(s, e, ts).calls
    ensures Some(EndpointDied(s, e, ts).calls[id]) == CallAfter(s, Destroy(e, ts), id)
  {
    hide Sound, AllUnwound, CallersFailed, NoticesDropped;
    AllUnwoundKeeps(s, ts);
    var unwound := AllUnwound(s, ts);
    CallersFailedKeeps(unwound, ByEndpoint, e);
    AllUnwoundFate(s, ts, id);
    CallersFailedFate(unwound, ByEndpoint, e, id);
    NoticesDroppedFate(CallersFailed(unwound, ByEndpoint, e), e, id);
  }

  lemma {:induction false} EndpointWait(s: State, e: Endpoint, ts: seq<Thread>, t: Thread)
    requires Sound(s) && (forall i :: 0 <= i < |ts| ==> ts[i] in s.threads) && t in s.threads
    ensures t in EndpointDied(s, e, ts).threads
    ensures EndpointDied(s, e, ts).threads[t].wait == WaitAfter(s, Destroy(e, ts), t)
  {
    hide Sound, AllUnwound, CallersFailed, NoticesDropped;
    AllUnwoundKeeps(s, ts);
    var unwound := AllUnwound(s, ts);
    CallersFailedKeeps(unwound, ByEndpoint, e);
    CallersFailedWait(unwound, ByEndpoint, e, t);
    NoticesDroppedKeeps(CallersFailed(unwound, ByEndpoint, e), e);
    var w := s.threads[t].wait;
    if t !in ts && w.AwaitingReply? { WaitedFor(s, t); AllUnwoundFate(s, ts, w.id); }
  }

  lemma {:induction false} StampFate(s: State, b: Budget, ts: seq<Thread>, id: Id)
    requires Sound(s) && (forall i :: 0 <= i < |ts| ==> ts[i] in s.threads) && id in s.calls
    ensures id in StampDied(s, b, ts).calls && Some(StampDied(s, b, ts).calls[id]) == CallAfter(s, Revoke(b, ts), id)
  {
    hide Sound, AllUnwound, CallersFailed;
    AllUnwoundKeeps(s, ts);
    AllUnwoundFate(s, ts, id);
    CallersFailedFate(AllUnwound(s, ts), ByStamp, b, id);
  }

  lemma {:induction false} StampWait(s: State, b: Budget, ts: seq<Thread>, t: Thread)
    requires Sound(s) && (forall i :: 0 <= i < |ts| ==> ts[i] in s.threads) && t in s.threads
    ensures t in StampDied(s, b, ts).threads && StampDied(s, b, ts).threads[t].wait == WaitAfter(s, Revoke(b, ts), t)
  {
    hide Sound, AllUnwound, CallersFailed;
    AllUnwoundKeeps(s, ts);
    CallersFailedWait(AllUnwound(s, ts), ByStamp, b, t);
    var w := s.threads[t].wait;
    if t !in ts && w.AwaitingReply? { WaitedFor(s, t); AllUnwoundFate(s, ts, w.id); }
  }

  lemma {:induction false} EndFate(s: State, u: Thread, id: Id)
    requires Sound(s) && u in s.threads && id in s.calls
    ensures var c := CallAfter(s, End(u), id);
            if c.Some? then id in ThreadEnded(s, u).calls && ThreadEnded(s, u).calls[id] == c.value
            else id !in ThreadEnded(s, u).calls
  {
    hide Sound, Unwound, CloseHeld;
    UnwoundKeeps(s, u);
    UnwoundFate(s, u, id);
    CloseHeldKeeps(Unwound(s, u), u);
  }

  lemma {:induction false} EndWait(s: State, u: Thread, t: Thread)
    requires Sound(s) && u in s.threads && t in s.threads && t != u
    ensures t in ThreadEnded(s, u).threads && ThreadEnded(s, u).threads[t].wait == WaitAfter(s, End(u), t)
  {
    hide Sound, Unwound, CloseHeld;
    UnwoundKeeps(s, u);
    CloseHeldKeeps(Unwound(s, u), u);
    CloseHeldWait(Unwound(s, u), u, t);
    var w := s.threads[t].wait;
    if w.AwaitingReply? { WaitedFor(s, t); UnwoundFate(s, u, w.id); }
  }

  /** Each step ends, begins and fails exactly the waits it should, and leaves every other as it was. */
  lemma {:induction false} NextWait(s: State, step: Step, t: Thread)
    requires Sound(s) && Can(s, step) && t in s.threads && step != End(t)
    ensures t in Next(s, step).threads && Next(s, step).threads[t].wait == WaitAfter(s, step, t)
  {
    hide Sound, Began, CloseOne, Unwound, ThreadEnded, EndpointDied, StampDied, Fits;
    if Begins(step) {
      BeganFate(s, step);
    } else {
      match step {
        case Answer(_, id) => CloseWait(s, id, t);
        case Fail(u) => UnwoundKeeps(s, u);
        case End(u) => EndWait(s, u, t);
        case Destroy(e, ts) => EndpointWait(s, e, ts, t);
        case Revoke(b, ts) => StampWait(s, b, ts, t);
        case Notify(_) =>
      }
    }
  }

  /** Each step opens, drops and ends exactly the calls it should, and leaves every other as it was. */
  lemma {:induction false} NextCall(s: State, step: Step, id: Id)
    requires Sound(s) && Can(s, step)
    ensures id in s.calls && CallAfter(s, step, id).Some? ==>
              id in Next(s, step).calls && Next(s, step).calls[id] == CallAfter(s, step, id).value
    ensures id in s.calls && CallAfter(s, step, id).None? ==> id !in Next(s, step).calls
    ensures id !in s.calls ==>
              (id in Next(s, step).calls <==> CallTaken(s, step).Some? && id == s.next)
    ensures id !in s.calls && id in Next(s, step).calls ==> Next(s, step).calls[id] == CallTaken(s, step).value
    ensures Next(s, step).next == s.next + if CallTaken(s, step).Some? then 1 else 0
  {
    hide Sound, Began, Over, Fits;
    if Begins(step) {
      NextIsUnused(s);
      BeganFate(s, step);
    } else {
      OverCall(s, step, id);
      OverFollows(s, step);
    }
  }

  lemma {:induction false} NextIsUnused(s: State)
    requires Sound(s)
    ensures s.next !in s.calls
  {
    NextIsNew(s);
  }

  lemma {:induction false} OverCall(s: State, step: Step, id: Id)
    requires Sound(s) && Can(s, step) && !Begins(step)
    ensures id in s.calls && CallAfter(s, step, id).Some? ==>
              id in Over(s, step).calls && Over(s, step).calls[id] == CallAfter(s, step, id).value
    ensures id in s.calls && CallAfter(s, step, id).None? ==> id !in Over(s, step).calls
    ensures id !in s.calls ==> id !in Over(s, step).calls
  {
    hide Sound, CloseOne, Unwound, ThreadEnded, EndpointDied, StampDied;
    match step {
      case Answer(_, x) => ClosesOne(s, x);
      case Fail(u) => UnwoundKeeps(s, u); if id in s.calls { UnwoundFate(s, u, id); }
      case End(u) => UnwoundKeeps(s, u); ThreadEndedKeeps(s, u); if id in s.calls { EndFate(s, u, id); }
      case Destroy(e, ts) => EndpointDiedKeeps(s, e, ts); if id in s.calls { EndpointFate(s, e, ts, id); }
      case Revoke(b, ts) => StampDiedKeeps(s, b, ts); if id in s.calls { StampFate(s, b, ts, id); }
      case Notify(_) =>
    }
  }

  // --- Every run ----------------------------------------------------------------------------------------------------

  /** Step `k` takes a message, and its call is `id`. */
  ghost predicate TakenAt(run: seq<State>, steps: seq<Step>, k: nat, id: Id) {
    k < |steps| && k < |run| && CallTaken(run[k], steps[k]).Some? && run[k].next == id
  }

  /** The same call, whatever became of its caller and its notice. */
  predicate SameMessage(c: OpenCall, d: OpenCall) {
    && c.caller == d.caller && c.server == d.server && c.endpoint == d.endpoint && c.stamp == d.stamp
    && c.lend == d.lend && c.payer == d.payer
  }

  lemma {:induction false} StepAt(run: seq<State>, steps: seq<Step>, i: nat)
    requires IsRun(run, steps) && i < |steps|
    ensures Sound(run[i]) && Can(run[i], steps[i]) && run[i + 1] == Next(run[i], steps[i])
  {
    hide Sound, Can, Next;
    RunSound(run, steps, i);
    assert Stepped(run[i], steps[i], run[i + 1]);
  }

  lemma {:induction false} IdsGrow(run: seq<State>, steps: seq<Step>, i: nat, j: nat)
    requires IsRun(run, steps) && i <= j <= |steps|
    ensures run[i].next <= run[j].next
    decreases j
  {
    hide Sound, Can, Next;
    if i < j {
      IdsGrow(run, steps, i, j - 1);
      StepAt(run, steps, j - 1);
      NextCall(run[j - 1], steps[j - 1], 0);
    }
  }

  /** A call, while it is open, is the call of the message that was taken. */
  lemma {:induction false} CallLasts(run: seq<State>, steps: seq<Step>, k: nat, i: nat, id: Id)
    requires IsRun(run, steps) && k < i <= |steps| && TakenAt(run, steps, k, id) && id in run[i].calls
    ensures SameMessage(run[i].calls[id], CallTaken(run[k], steps[k]).value)
    decreases i
  {
    hide Sound, Can, Next, CallTaken;
    StepAt(run, steps, i - 1);
    NextCall(run[i - 1], steps[i - 1], id);
    if k == i - 1 {
      NextIsUnused(run[k]);
    } else {
      StepAt(run, steps, k);
      NextCall(run[k], steps[k], id);
      IdsGrow(run, steps, k + 1, i - 1);
      CallLasts(run, steps, k, i - 1, id);
    }
  }

  /** Every open call was a message in its sender's wait, and is the sender's, at the endpoint it was sent to, under the
      stamp it was sent through, with the pages it lent; and its server was receiving at that endpoint when it took it.
    */
  lemma {:induction false} CallComesFrom(run: seq<State>, steps: seq<Step>, i: nat, id: Id)
    requires IsRun(run, steps) && run[0].calls == map[] && i <= |steps| && id in run[i].calls
    ensures var c := run[i].calls[id];
            exists k: nat, extra :: k < i && steps[k] == Take(c.caller, c.server, extra)
              && c.caller in run[k].threads && run[k].threads[c.caller].wait == Sending(c.endpoint, c.stamp, c.lend)
              && c.server in run[k].threads && run[k].threads[c.server].wait == Receiving(c.endpoint)
  {
    var k := Opening(run, steps, i, id);
    CallLasts(run, steps, k, i, id);
    assert steps[k] == Take(run[i].calls[id].caller, run[i].calls[id].server, steps[k].extra);
  }

  lemma {:induction false} Opening(run: seq<State>, steps: seq<Step>, i: nat, id: Id) returns (k: nat)
    requires IsRun(run, steps) && run[0].calls == map[] && i <= |steps| && id in run[i].calls
    ensures k < i && TakenAt(run, steps, k, id)
    decreases i
  {
    hide Sound, Can, Next, CallTaken;
    StepAt(run, steps, i - 1);
    NextCall(run[i - 1], steps[i - 1], id);
    if id in run[i - 1].calls {
      k := Opening(run, steps, i - 1, id);
    } else {
      k := i - 1;
    }
  }

  /** Once an endpoint is destroyed, nobody whose message was sent to it and taken waits for its reply. */
  lemma {:induction false} NoneWaitsAtDestroyed(run: seq<State>, steps: seq<Step>, i: nat, k: nat, t: Thread)
    requires IsRun(run, steps) && k <= i < |steps| && steps[i].Destroy?
    requires TakenAt(run, steps, k, run[k].next) && steps[k].sender == t
    requires t in run[k].threads && run[k].threads[t].wait.Sending?
    requires run[k].threads[t].wait.endpoint == steps[i].endpoint
    ensures t in run[i + 1].threads ==> run[i + 1].threads[t].wait != AwaitingReply(run[k].next)
  {
    WaitEnds(run, steps, i, k, t);
  }

  /** Nor, once a stamp's budget is, anybody whose message was sent through a handle so stamped. */
  lemma {:induction false} NoneWaitsThroughRevoked(run: seq<State>, steps: seq<Step>, i: nat, k: nat, t: Thread)
    requires IsRun(run, steps) && k <= i < |steps| && steps[i].Revoke?
    requires TakenAt(run, steps, k, run[k].next) && steps[k].sender == t
    requires t in run[k].threads && run[k].threads[t].wait.Sending?
    requires run[k].threads[t].wait.stamp == steps[i].stamp
    ensures t in run[i + 1].threads ==> run[i + 1].threads[t].wait != AwaitingReply(run[k].next)
  {
    WaitEnds(run, steps, i, k, t);
  }

  lemma {:induction false} WaitEnds(run: seq<State>, steps: seq<Step>, i: nat, k: nat, t: Thread)
    requires IsRun(run, steps) && k <= i < |steps| && (steps[i].Destroy? || steps[i].Revoke?)
    requires TakenAt(run, steps, k, run[k].next) && steps[k].sender == t
    requires t in run[k].threads && run[k].threads[t].wait.Sending?
    requires steps[i].Destroy? ==> run[k].threads[t].wait.endpoint == steps[i].endpoint
    requires steps[i].Revoke? ==> run[k].threads[t].wait.stamp == steps[i].stamp
    ensures t in run[i + 1].threads ==> run[i + 1].threads[t].wait != AwaitingReply(run[k].next)
  {
    hide Sound, Can, Next;
    var id := run[k].next;
    if t in run[i + 1].threads && run[i + 1].threads[t].wait == AwaitingReply(id) {
      RunSound(run, steps, i + 1);
      WaitedFor(run[i + 1], t);
      CallLasts(run, steps, k, i + 1, id);
      StepAt(run, steps, i);
      WaitingDropped(run[i], steps[i], id);
    }
  }

  /** The step that destroys a call's endpoint, or its stamp's budget, leaves it not waiting. */
  lemma {:induction false} WaitingDropped(s: State, step: Step, id: Id)
    requires Sound(s) && Can(s, step) && (step.Destroy? || step.Revoke?) && id in Next(s, step).calls
    ensures step.Destroy? && Next(s, step).calls[id].endpoint == step.endpoint ==> !Next(s, step).calls[id].waiting
    ensures step.Revoke? && Next(s, step).calls[id].stamp == step.stamp ==> !Next(s, step).calls[id].waiting
  {
    hide Sound, Can, Next;
    NextCall(s, step, id);
  }

  /** I15: an open call whose caller has stopped waiting owes its server a notice, until the server is told, or until
      the endpoint the notice would come to is destroyed.
    */
  lemma {:induction false} NoticeIsOwed(run: seq<State>, steps: seq<Step>, i: nat, id: Id)
    requires IsRun(run, steps) && run[0].calls == map[] && i <= |steps| && id in run[i].calls
    requires !run[i].calls[id].waiting
    ensures || run[i].calls[id].notice || id in run[i].told
            || exists k: nat :: k < i && steps[k].Destroy? && steps[k].endpoint == run[i].calls[id].endpoint
    decreases i
  {
    hide Sound, Can, Next, CallTaken;
    var s, step := run[i - 1], steps[i - 1];
    StepAt(run, steps, i - 1);
    NextCall(s, step, id);
    NextTold(s, step);
    if id in s.calls {
      if s.calls[id].waiting {
        assert !run[i].calls[id].notice ==> step.Destroy? && step.endpoint == run[i].calls[id].endpoint;
      } else {
        NoticeIsOwed(run, steps, i - 1, id);
      }
    } else {
      NewWaits(s, step);
    }
  }

  /** No step moves a budget's limit, or a process to another budget. */
  lemma {:induction false} NextLimits(s: State, step: Step)
    requires Sound(s) && Can(s, step)
    ensures Next(s, step).limit == s.limit
    ensures Next(s, step).homes == if step.Spawn? then s.homes[step.pid := step.budget] else s.homes
  {
    hide Sound, Over, Took, Marked;
    if Begins(step) {
      if step.Take? { TookLimits(s, step.sender, step.receiver, step.extra); }
    } else {
      OverFollows(s, step);
    }
  }

  lemma {:induction false} TookLimits(s: State, t: Thread, r: Thread, extra: Option<nat>)
    requires Sound(s) && CanDeliver(s, t, r)
    ensures Took(s, t, r, extra).limit == s.limit && Took(s, t, r, extra).homes == s.homes
  {
    hide Sound, Marked, Relist;
    DeliverTells(s, t, r);
  }

  lemma {:induction false} NewWaits(s: State, step: Step)
    ensures CallTaken(s, step).Some? ==> CallTaken(s, step).value.waiting
  {
  }

  lemma {:induction false} NextTold(s: State, step: Step)
    requires Sound(s) && Can(s, step)
    ensures s.told <= Next(s, step).told && (step.Notify? ==> step.id in Next(s, step).told)
  {
    hide Sound, Began, CloseOne, Unwound, ThreadEnded, EndpointDied, StampDied;
    if Begins(step) { BeganTells(s, step); } else { OverFollows(s, step); }
  }
}
