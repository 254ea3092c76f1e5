/** The chains handle slots are entered in: doubly linked lists through the slots' own words, each from a
    head word in the frame it belongs to (kernel/src/handle.rs).
  */
module Chains {
  type Frame = nat
  type Pid = nat

  /** A table slot, named by its holder and its index. */
  datatype Place = Place(pid: Pid, index: nat)

  /** One link word: none, the head of a frame's chain, or a slot. */
  datatype Link = NoLink | Head(frame: Frame) | Slot(place: Place)

  /** One chain's words: the head in each frame, and the two links of each slot. A word never written
      holds no link.
    */
  datatype Links = Links(head: map<Frame, Link>, prev: map<Place, Link>, next: map<Place, Link>)

  function HeadOf(l: Links, f: Frame): Link { if f in l.head then l.head[f] else NoLink }

  function PrevOf(l: Links, p: Place): Link { if p in l.prev then l.prev[p] else NoLink }

  function NextOf(l: Links, p: Place): Link { if p in l.next then l.next[p] else NoLink }

  // --- The lists they mean -----------------------------------------------------------------------------

  type Lists = map<Frame, seq<Place>>

  function ListOf(lists: Lists, f: Frame): seq<Place> { if f in lists then lists[f] else [] }

  function First(s: seq<Place>): Link { if |s| == 0 then NoLink else Slot(s[0]) }

  function Before(f: Frame, s: seq<Place>, i: nat): Link
    requires i < |s|
  {
    if i == 0 then Head(f) else Slot(s[i - 1])
  }

  function After(s: seq<Place>, i: nat): Link
    requires i < |s|
  {
    if i + 1 < |s| then Slot(s[i + 1]) else NoLink
  }

  ghost predicate Entry(l: Links, f: Frame, s: seq<Place>, i: nat)
    requires i < |s|
  {
    PrevOf(l, s[i]) == Before(f, s, i) && NextOf(l, s[i]) == After(s, i)
  }

  ghost predicate Once(s: seq<Place>) {
    forall i, j :: 0 <= i < |s| && 0 <= j < |s| && s[i] == s[j] ==> i == j
  }

  /** Frame `f`'s chain is the list `s`. */
  ghost predicate Chain(l: Links, f: Frame, s: seq<Place>) {
    Once(s) && HeadOf(l, f) == First(s) && forall i :: 0 <= i < |s| ==> Entry(l, f, s, i)
  }

  ghost predicate Entered(lists: Lists, p: Place) {
    exists f :: p in ListOf(lists, f)
  }

  /** Every frame's chain is its list, no slot is in two, and a slot in none has no link. */
  ghost predicate Formed(l: Links, lists: Lists) {
    && (forall f :: Chain(l, f, ListOf(lists, f)))
    && (forall f, g, p :: p in ListOf(lists, f) && p in ListOf(lists, g) ==> f == g)
    && (forall p :: !Entered(lists, p) ==> PrevOf(l, p).NoLink?)
  }

  // --- `enter` --------------------------------------------------------------------------------------------

  /** Slot `p` first in `f`'s chain. */
  function Enter(l: Links, f: Frame, p: Place): Links {
    var first := HeadOf(l, f);
    var prev := l.prev[p := Head(f)];
    Links(l.head[f := Slot(p)],
          if first.Slot? then prev[first.place := Slot(p)] else prev,
          l.next[p := first])
  }

  function Entering(lists: Lists, f: Frame, p: Place): Lists {
    lists[f := [p] + ListOf(lists, f)]
  }

  lemma {:induction false} EnterHere(l: Links, f: Frame, s: seq<Place>, p: Place)
    requires Chain(l, f, s) && p !in s
    ensures Chain(Enter(l, f, p), f, [p] + s)
  {
    var l', s' := Enter(l, f, p), [p] + s;
    forall i | 0 <= i < |s'| ensures Entry(l', f, s', i) {
      if i > 0 {
        assert s'[i] == s[i - 1] && Entry(l, f, s, i - 1);
      }
    }
  }

  lemma {:induction false} EnterThere(l: Links, f: Frame, s: seq<Place>, p: Place, g: Frame, t: seq<Place>)
    requires Chain(l, f, s) && Chain(l, g, t) && p !in t && g != f && forall q :: q in s ==> q !in t
    ensures Chain(Enter(l, f, p), g, t)
  {
    var l' := Enter(l, f, p);
    forall i | 0 <= i < |t| ensures Entry(l', g, t, i) {
      assert Entry(l, g, t, i);
      assert t[i] in t;
      if |s| > 0 { assert s[0] in s; }
    }
  }

  lemma {:induction false} EnterForms(l: Links, lists: Lists, f: Frame, p: Place)
    requires Formed(l, lists) && !Entered(lists, p)
    ensures Formed(Enter(l, f, p), Entering(lists, f, p))
    ensures forall g, q :: q in ListOf(Entering(lists, f, p), g) <==> q in ListOf(lists, g) || (g == f && q == p)
  {
    var l', lists' := Enter(l, f, p), Entering(lists, f, p);
    assert Chain(l, f, ListOf(lists, f));
    assert p !in ListOf(lists, f);
    forall g ensures Chain(l', g, ListOf(lists', g)) {
      if g == f {
        EnterHere(l, f, ListOf(lists, f), p);
      } else {
        assert Chain(l, g, ListOf(lists, g));
        assert p !in ListOf(lists, g);
        EnterThere(l, f, ListOf(lists, f), p, g, ListOf(lists, g));
      }
    }
    EnteringMembers(lists, f, p);
    forall q | !Entered(lists', q) ensures PrevOf(l', q).NoLink? {
      assert p in ListOf(lists', f);
      NotEntered(lists, lists', f, p, q);
      var s := ListOf(lists, f);
      if |s| > 0 { assert s[0] in ListOf(lists', f); }
    }
  }

  lemma {:induction false} EnteringMembers(lists: Lists, f: Frame, p: Place)
    ensures forall g, q :: q in ListOf(Entering(lists, f, p), g) <==> q in ListOf(lists, g) || (g == f && q == p)
  {
  }

  lemma {:induction false} NotEntered(lists: Lists, lists': Lists, f: Frame, p: Place, q: Place)
    requires !Entered(lists', q) && lists' == Entering(lists, f, p)
    ensures !Entered(lists, q)
  {
    forall g ensures q !in ListOf(lists, g) {
      EnteringMembers(lists, f, p);
      assert q !in ListOf(lists', g);
    }
  }

  // --- `leave` --------------------------------------------------------------------------------------------

  /** Slot `p` out of the chain it is in, if it is in one. */
  function Leave(l: Links, p: Place): Links {
    var prev, next := PrevOf(l, p), NextOf(l, p);
    if prev.NoLink? then l else
      Links(if prev.Head? then l.head[prev.frame := next] else l.head,
            (if next.Slot? then l.prev[next.place := prev] else l.prev)[p := NoLink],
            (if prev.Slot? then l.next[prev.place := next] else l.next)[p := NoLink])
  }

  function Without(s: seq<Place>, i: nat): seq<Place>
    requires i < |s|
  {
    s[..i] + s[i + 1..]
  }

  lemma {:induction false} WithoutMembers(s: seq<Place>, i: nat)
    requires i < |s| && Once(s)
    ensures Once(Without(s, i)) && forall q :: q in Without(s, i) <==> q in s && q != s[i]
  {
    var s' := Without(s, i);
    forall q | q in s && q != s[i] ensures q in s' {
      var k :| 0 <= k < |s| && s[k] == q;
      assert s'[if k < i then k else k - 1] == q;
    }
  }

  lemma {:induction false} LeaveHere(l: Links, f: Frame, s: seq<Place>, i: nat)
    requires Chain(l, f, s) && i < |s|
    ensures Chain(Leave(l, s[i]), f, Without(s, i))
  {
    var l', s' := Leave(l, s[i]), Without(s, i);
    WithoutMembers(s, i);
    assert Entry(l, f, s, i);
    forall k | 0 <= k < |s'| ensures Entry(l', f, s', k) {
      LeaveEntry(l, f, s, i, k);
    }
    LeaveHead(l, f, s, i);
  }

  lemma {:induction false} LeaveHead(l: Links, f: Frame, s: seq<Place>, i: nat)
    requires Chain(l, f, s) && i < |s|
    ensures HeadOf(Leave(l, s[i]), f) == First(Without(s, i))
  {
    assert Entry(l, f, s, i);
  }

  lemma {:induction false} LeaveEntry(l: Links, f: Frame, s: seq<Place>, i: nat, k: nat)
    requires Chain(l, f, s) && i < |s| && k < |s| - 1
    ensures Entry(Leave(l, s[i]), f, Without(s, i), k)
  {
    var s' := Without(s, i);
    var o := if k < i then k else k + 1;
    assert s'[k] == s[o];
    assert Entry(l, f, s, i) && Entry(l, f, s, o);
    assert k > 0 ==> s'[k - 1] == s[if k - 1 < i then k - 1 else k];
    assert k + 1 < |s'| ==> s'[k + 1] == s[if k + 1 < i then k + 1 else k + 2];
  }

  lemma {:induction false} LeaveThere(l: Links, f: Frame, s: seq<Place>, i: nat, g: Frame, t: seq<Place>)
    requires Chain(l, f, s) && i < |s| && Chain(l, g, t) && g != f && forall q :: q in s ==> q !in t
    ensures Chain(Leave(l, s[i]), g, t)
  {
    assert Entry(l, f, s, i);
    forall k | 0 <= k < |t| ensures Entry(Leave(l, s[i]), g, t, k) {
      assert Entry(l, g, t, k);
      assert t[k] in t && s[i] in s;
      if i > 0 { assert s[i - 1] in s; }
      if i + 1 < |s| { assert s[i + 1] in s; }
    }
  }

  /** Where an entered slot is. */
  ghost predicate At(lists: Lists, p: Place, f: Frame, i: nat) {
    i < |ListOf(lists, f)| && ListOf(lists, f)[i] == p
  }

  function Leaving(lists: Lists, f: Frame, i: nat): Lists
    requires i < |ListOf(lists, f)|
  {
    lists[f := Without(ListOf(lists, f), i)]
  }

  lemma {:induction false} LeaveForms(l: Links, lists: Lists, p: Place, f: Frame, i: nat)
    requires Formed(l, lists) && At(lists, p, f, i)
    ensures Formed(Leave(l, p), Leaving(lists, f, i))
    ensures forall g, q :: q in ListOf(Leaving(lists, f, i), g) <==> q in ListOf(lists, g) && q != p
  {
    var l', lists', s := Leave(l, p), Leaving(lists, f, i), ListOf(lists, f);
    assert Chain(l, f, s) && p in s;
    WithoutMembers(s, i);
    forall g ensures Chain(l', g, ListOf(lists', g)) {
      if g == f {
        LeaveHere(l, f, s, i);
      } else {
        assert Chain(l, g, ListOf(lists, g));
        LeaveThere(l, f, s, i, g, ListOf(lists, g));
      }
    }
    LeavingMembers(l, lists, p, f, i);
    forall q | !Entered(lists', q) ensures PrevOf(l', q).NoLink? {
      LeaveLoose(l, lists, p, f, i, q);
    }
  }

  lemma {:induction false} LeavingMembers(l: Links, lists: Lists, p: Place, f: Frame, i: nat)
    requires Formed(l, lists) && At(lists, p, f, i)
    ensures forall g, q :: q in ListOf(Leaving(lists, f, i), g) <==> q in ListOf(lists, g) && q != p
  {
    assert Chain(l, f, ListOf(lists, f));
    WithoutMembers(ListOf(lists, f), i);
  }

  lemma {:induction false} LeaveLoose(l: Links, lists: Lists, p: Place, f: Frame, i: nat, q: Place)
    requires Formed(l, lists) && At(lists, p, f, i) && !Entered(Leaving(lists, f, i), q)
    ensures PrevOf(Leave(l, p), q).NoLink?
  {
    var s, lists' := ListOf(lists, f), Leaving(lists, f, i);
    assert Chain(l, f, s);
    assert Entry(l, f, s, i);
    LeavingMembers(l, lists, p, f, i);
    if q != p {
      forall g ensures q !in ListOf(lists, g) { assert q !in ListOf(lists', g); }
      assert !Entered(lists, q);
      if i + 1 < |s| { assert s[i + 1] in ListOf(lists, f); }
    }
  }

  /** A slot's previous link says whether it is entered, and in which list. */
  lemma {:induction false} LinkTells(l: Links, lists: Lists, p: Place) returns (f: Frame, i: nat)
    requires Formed(l, lists) && !PrevOf(l, p).NoLink?
    ensures At(lists, p, f, i)
  {
    assert Entered(lists, p);
    f :| p in ListOf(lists, f);
    i :| 0 <= i < |ListOf(lists, f)| && ListOf(lists, f)[i] == p;
  }

  lemma {:induction false} EnteredTells(l: Links, lists: Lists, p: Place, f: Frame)
    requires Formed(l, lists) && p in ListOf(lists, f)
    ensures !PrevOf(l, p).NoLink?
  {
    var i :| 0 <= i < |ListOf(lists, f)| && ListOf(lists, f)[i] == p;
    assert Chain(l, f, ListOf(lists, f));
    assert Entry(l, f, ListOf(lists, f), i);
  }
}
