/** The in-process fan-out: bounded buffers, one Resync marker for a subscriber that fell behind, and an orderly end. */
module Bus {
  /** A message is named by its place among those published since the subscription. */
  datatype Packet = Item(index: nat) | Resync

  /** The goroutine that delivers the marker: waiting for room, or done with that and about to clear the flag. */
  datatype Sender = Resting | Trying | Marked

  /** How far the end of a subscription got: unregistered, `done` closed, channel closed. */
  datatype End = Open | Removed | Told | Closed

  /** What became of a published message: in the channel, or lost when `at` packets had been enqueued. */
  datatype Fate = Sent(at: nat) | Lost(at: nat, late: bool)

  /** A subscriber; `enqueued` and `fates` are its history, `misused` a send on its closed channel. */
  datatype Sub = Sub(size: nat, box: seq<Packet>, taken: seq<Packet>, dropped: bool, sender: Sender, end: End,
                     enqueued: seq<Packet>, fates: seq<Fate>, misused: bool)

  function Subscribed(size: nat): Sub {
    Sub(if size < 1 then 64 else size, [], [], false, Resting, Open, [], [], false)
  }

  function Enqueue(s: Sub, p: Packet): Sub {
    s.(box := s.box + [p], enqueued := s.enqueued + [p], misused := s.misused || s.end == Closed)
  }

  /** Publish, for one subscriber and one message. */
  function Offer(s: Sub): Sub {
    if s.end != Open then s
    else if s.dropped then s.(fates := s.fates + [Lost(|s.enqueued|, s.sender == Marked)])
    else if |s.box| < s.size then Enqueue(s, Item(|s.fates|)).(fates := s.fates + [Sent(|s.enqueued|)])
    else s.(dropped := true, sender := Trying, fates := s.fates + [Lost(|s.enqueued|, false)])
  }

  function OfferAll(s: Sub, n: nat): (r: Sub)
    ensures r.end == s.end
  {
    if n == 0 then s else Offer(OfferAll(s, n - 1))
  }

  /** The marker goes in as soon as there is room. */
  function Mark(s: Sub): Sub {
    if s.sender == Trying && |s.box| < s.size then Enqueue(s, Resync).(sender := Marked) else s
  }

  function Clear(s: Sub): Sub {
    if s.sender == Marked then s.(dropped := false, sender := Resting) else s
  }

  /** The subscription ended while the marker waited. */
  function GiveUp(s: Sub): Sub {
    if s.sender == Trying && (s.end == Told || s.end == Closed) then s.(sender := Resting) else s
  }

  function Take(s: Sub): Sub {
    if s.box == [] then s else s.(box := s.box[1..], taken := s.taken + [s.box[0]])
  }

  /** The goroutine that ends the subscription; it closes the channel when no marker sender is left. */
  function Leave(s: Sub): Sub {
    match s.end
    case Open => s.(end := Removed)
    case Removed => s.(end := Told)
    case Told => if s.sender == Resting then s.(end := Closed) else s
    case Closed => s
  }

  datatype Act = Publishes | Marks | Clears | GivesUp | Takes | Leaves

  function Step(s: Sub, a: Act): Sub {
    match a
    case Publishes => Offer(s)
    case Marks => Mark(s)
    case Clears => Clear(s)
    case GivesUp => GiveUp(s)
    case Takes => Take(s)
    case Leaves => Leave(s)
  }

  function Run(s: Sub, acts: seq<Act>): Sub {
    if acts == [] then s else Step(Run(s, acts[..|acts| - 1]), acts[|acts| - 1])
  }

  /** A marker is in the channel behind the first `at` packets. */
  ghost predicate MarkedAfter(s: Sub, at: nat) {
    exists p :: at <= p < |s.enqueued| && s.enqueued[p] == Resync
  }

  /** How many packets stand in the channel up to this message, itself included. */
  function Reach(f: Fate): nat {
    if f.Sent? then f.at + 1 else f.at
  }

  /** Later messages stand behind earlier ones, sent or lost. */
  ghost predicate InOrder(s: Sub) {
    && (forall i :: 0 <= i < |s.fates| ==> Reach(s.fates[i]) <= |s.enqueued|)
    && (forall i, j :: 0 <= i < j < |s.fates| ==> Reach(s.fates[i]) <= s.fates[j].at)
  }

  /** The messages in the channel are the sent ones, each in its place. */
  ghost predicate Faithful(s: Sub) {
    && (forall i :: 0 <= i < |s.fates| && s.fates[i].Sent? ==>
          s.fates[i].at < |s.enqueued| && s.enqueued[s.fates[i].at] == Item(i))
    && (forall p :: 0 <= p < |s.enqueued| && s.enqueued[p].Item? ==>
          s.enqueued[p].index < |s.fates| && s.fates[s.enqueued[p].index] == Sent(p))
  }

  ghost predicate Covered(s: Sub) {
    forall i :: 0 <= i < |s.fates| && s.fates[i].Lost? && !s.fates[i].late ==>
      MarkedAfter(s, s.fates[i].at) || s.sender == Trying || s.end == Told || s.end == Closed
  }

  ghost predicate AllMarked(s: Sub) {
    forall i :: 0 <= i < |s.fates| && s.fates[i].Lost? && !s.fates[i].late ==> MarkedAfter(s, s.fates[i].at)
  }

  ghost predicate Inv(s: Sub) {
    && 0 < s.size && |s.box| <= s.size && s.taken + s.box == s.enqueued
    && InOrder(s) && Faithful(s) && Covered(s)
    && (s.dropped ==> s.sender != Resting || s.end == Told || s.end == Closed)
    && (s.sender != Resting ==> s.dropped)
    && (s.end == Closed ==> s.sender == Resting)
    && (s.sender == Marked ==> AllMarked(s))
    && !s.misused
  }

  lemma OfferFaithful(s: Sub)
    requires Faithful(s)
    ensures Faithful(Offer(s))
  {
    var t := Offer(s);
    assert forall i :: 0 <= i < |s.fates| ==> t.fates[i] == s.fates[i];
    assert forall p :: 0 <= p < |s.enqueued| ==> t.enqueued[p] == s.enqueued[p];
  }

  lemma OfferInOrder(s: Sub)
    requires InOrder(s)
    ensures InOrder(Offer(s))
  {
    var t := Offer(s);
    assert forall i :: 0 <= i < |s.fates| ==> t.fates[i] == s.fates[i];
  }

  lemma OfferCovers(s: Sub)
    requires Inv(s)
    ensures Covered(Offer(s)) && (Offer(s).sender == Marked ==> AllMarked(Offer(s)))
  {
    var t := Offer(s);
    forall at | MarkedAfter(s, at) ensures MarkedAfter(t, at) { MarkedStays(s, t, at); }
    assert forall i :: 0 <= i < |s.fates| ==> t.fates[i] == s.fates[i];
  }

  lemma OfferKeeps(s: Sub)
    requires Inv(s)
    ensures Inv(Offer(s))
  {
    OfferInOrder(s);
    OfferFaithful(s);
    OfferCovers(s);
    var t := Offer(s);
    assert t.taken + t.box == s.taken + s.box + t.box[|s.box|..];
  }

  lemma MarkedStays(s: Sub, t: Sub, at: nat)
    requires MarkedAfter(s, at) && s.enqueued <= t.enqueued
    ensures MarkedAfter(t, at)
  {
    var p :| at <= p < |s.enqueued| && s.enqueued[p] == Resync;
    assert t.enqueued[p] == Resync;
  }

  lemma MarkKeeps(s: Sub)
    requires Inv(s)
    ensures Inv(Mark(s))
  {
    var t := Mark(s);
    if s.sender == Trying && |s.box| < s.size {
      assert t.enqueued[|s.enqueued|] == Resync;
      assert forall p :: 0 <= p < |s.enqueued| ==> t.enqueued[p] == s.enqueued[p];
      forall at | 0 <= at <= |s.enqueued| ensures MarkedAfter(t, at) {}
    }
  }

  lemma QuietKeeps(s: Sub, a: Act)
    requires Inv(s) && !a.Publishes? && !a.Marks?
    ensures Inv(Step(s, a))
  {
    var t := Step(s, a);
    assert t.enqueued == s.enqueued && t.fates == s.fates;
    forall at | MarkedAfter(s, at) ensures MarkedAfter(t, at) { MarkedStays(s, t, at); }
  }

  lemma StepKeeps(s: Sub, a: Act)
    requires Inv(s)
    ensures Inv(Step(s, a))
  {
    match a
    case Publishes => OfferKeeps(s);
    case Marks => MarkKeeps(s);
    case _ => QuietKeeps(s, a);
  }

  lemma {:induction false} RunKeeps(s: Sub, acts: seq<Act>)
    requires Inv(s)
    ensures Inv(Run(s, acts))
  {
    if acts != [] {
      RunKeeps(s, acts[..|acts| - 1]);
      StepKeeps(Run(s, acts[..|acts| - 1]), acts[|acts| - 1]);
    }
  }

  lemma IndexOrder(s: Sub, p: nat, q: nat)
    requires InOrder(s) && Faithful(s) && p < q < |s.enqueued| && s.enqueued[p].Item? && s.enqueued[q].Item?
    ensures s.enqueued[p].index < s.enqueued[q].index
  {
    var i, j := s.enqueued[p].index, s.enqueued[q].index;
    assert s.fates[i] == Sent(p) && s.fates[j] == Sent(q);
  }

  // ---- The theorems ----

  /**
   * Whatever interleaves, a subscriber takes what was enqueued, in order; the messages in it are those sent, each
   * once and in publishing order; and nothing is ever sent on a closed channel.
   */
  lemma DeliversInOrder(size: nat, acts: seq<Act>)
    ensures var s := Run(Subscribed(size), acts);
      && s.taken + s.box == s.enqueued && |s.box| <= s.size && !s.misused
      && (forall i :: 0 <= i < |s.fates| && s.fates[i].Sent? ==>
            s.fates[i].at < |s.enqueued| && s.enqueued[s.fates[i].at] == Item(i))
      && (forall p, q :: 0 <= p < q < |s.enqueued| && s.enqueued[p].Item? && s.enqueued[q].Item? ==>
            s.enqueued[p].index < s.enqueued[q].index)
  {
    RunKeeps(Subscribed(size), acts);
    var s := Run(Subscribed(size), acts);
    forall p, q | 0 <= p < q < |s.enqueued| && s.enqueued[p].Item? && s.enqueued[q].Item?
      ensures s.enqueued[p].index < s.enqueued[q].index
    {
      IndexOrder(s, p, q);
    }
  }

  /**
   * A message that was lost, but for the late ones, has a marker behind it, or one is on its way, or the subscription
   * has ended; and the flag is set only while a marker is on its way or just in.
   */
  lemma GapsAreMarked(size: nat, acts: seq<Act>)
    ensures var s := Run(Subscribed(size), acts);
      && (forall i :: 0 <= i < |s.fates| && s.fates[i].Lost? && !s.fates[i].late ==>
            MarkedAfter(s, s.fates[i].at) || s.sender == Trying || s.end == Told || s.end == Closed)
      && (s.dropped ==> s.sender != Resting || s.end == Told || s.end == Closed)
  {
    RunKeeps(Subscribed(size), acts);
  }

  /**
   * What becomes of one published message: with the flag clear and room in the buffer it is sent, and otherwise lost;
   * the ones before it keep their fate.
   */
  lemma OfferedExactly(size: nat, acts: seq<Act>)
    requires acts != [] && acts[|acts| - 1] == Publishes && Run(Subscribed(size), acts[..|acts| - 1]).end == Open
    ensures var s := Run(Subscribed(size), acts[..|acts| - 1]);
            var t := Run(Subscribed(size), acts);
      && |t.fates| == |s.fates| + 1 && t.fates[..|s.fates|] == s.fates
      && (t.fates[|s.fates|].Sent? <==> !s.dropped && |s.box| < s.size)
      && t.box == (if t.fates[|s.fates|].Sent? then s.box + [Item(|s.fates|)] else s.box)
      && (t.fates[|s.fates|].Lost? ==> t.dropped)
  {
  }

  /** A subscriber that makes room in time. */
  ghost predicate KeepsUp(size: nat, acts: seq<Act>) {
    && (forall k :: 0 <= k < |acts| ==> acts[k] != Leaves)
    && (forall k :: 0 <= k < |acts| && acts[k] == Publishes ==>
          var s := Run(Subscribed(size), acts[..k]); |s.box| < s.size)
  }

  function Published(acts: seq<Act>): nat {
    if acts == [] then 0 else Published(acts[..|acts| - 1]) + (if acts[|acts| - 1] == Publishes then 1 else 0)
  }

  /** Misses nothing: everything published was sent to it, and there is no marker. */
  lemma {:induction false} KeepingUpMissesNothing(size: nat, acts: seq<Act>)
    requires KeepsUp(size, acts)
    ensures var s := Run(Subscribed(size), acts);
      && s.end == Open && !s.dropped && s.sender == Resting
      && |s.fates| == Published(acts) && (forall i :: 0 <= i < |s.fates| ==> s.fates[i].Sent?)
      && |s.enqueued| == Published(acts) && (forall p :: 0 <= p < |s.enqueued| ==> s.enqueued[p] == Item(p))
  {
    if acts != [] {
      var n := |acts| - 1;
      forall k | 0 <= k < n && acts[..n][k] == Publishes
        ensures var s := Run(Subscribed(size), acts[..n][..k]); |s.box| < s.size
      {
        assert acts[..n][..k] == acts[..k];
      }
      KeepingUpMissesNothing(size, acts[..n]);
    }
  }

  lemma RunNext(s: Sub, acts: seq<Act>, k: nat)
    requires k < |acts|
    ensures Run(s, acts[..k + 1]) == Step(Run(s, acts[..k]), acts[k])
  {
    assert acts[..k + 1][..k] == acts[..k];
  }

  const ENDING := [Leaves, Leaves, GivesUp, Clears, Leaves]

  lemma {:induction false} RunOn(s: Sub, acts: seq<Act>, more: seq<Act>)
    ensures Run(s, acts + more) == Run(Run(s, acts), more)
  {
    if more == [] {
      assert acts + more == acts;
    } else {
      var n := |more| - 1;
      assert (acts + more)[..|acts + more| - 1] == acts + more[..n];
      RunOn(s, acts, more[..n]);
    }
  }

  lemma Ending(s: Sub)
    ensures Run(s, ENDING) == Leave(Clear(GiveUp(Leave(Leave(s)))))
  {
    assert ENDING[..0] == [] && ENDING[..5] == ENDING;
    RunNext(s, ENDING, 0);
    RunNext(s, ENDING, 1);
    RunNext(s, ENDING, 2);
    RunNext(s, ENDING, 3);
    RunNext(s, ENDING, 4);
  }

  lemma LeftCloses(s: Sub)
    requires s.end == Closed ==> s.sender == Resting
    ensures var t := Leave(Clear(GiveUp(Leave(Leave(s)))));
            t.end == Closed && t.sender == Resting && t.box == s.box && t.enqueued == s.enqueued
  {
  }

  /**
   * However a subscription stands, it can be ended: once it was left and the marker's sender has had its turn the
   * channel is closed, with all that was enqueued still to be taken.
   */
  lemma EndCloses(size: nat, acts: seq<Act>)
    ensures var s, t := Run(Subscribed(size), acts), Run(Subscribed(size), acts + ENDING);
            t.end == Closed && t.sender == Resting && t.box == s.box && t.enqueued == s.enqueued
  {
    RunOn(Subscribed(size), acts, ENDING);
    RunKeeps(Subscribed(size), acts);
    Ending(Run(Subscribed(size), acts));
    LeftCloses(Run(Subscribed(size), acts));
  }

  lemma {:induction false} QuietAfterMark(s: Sub, acts: seq<Act>)
    requires s.sender == Marked && forall k :: 0 <= k < |acts| ==> acts[k] != Publishes
    ensures Run(s, acts).sender != Trying && Run(s, acts).enqueued == s.enqueued && Run(s, acts).fates == s.fates
  {
    if acts != [] { QuietAfterMark(s, acts[..|acts| - 1]); }
  }

  lemma {:induction false} FatesStay(s: Sub, acts: seq<Act>)
    requires forall k :: 0 <= k < |acts| ==> acts[k] != Publishes
    ensures Run(s, acts).fates == s.fates
  {
    if acts != [] { FatesStay(s, acts[..|acts| - 1]); }
  }

  /**
   * The window between the marker and the clearing of the flag: once the subscriber has caught up, and nothing else is
   * published, a message lost now has a marker behind it exactly if it did not fall into that window.
   */
  lemma MarkedUnlessLate(s: Sub, acts: seq<Act>)
    requires Inv(s) && s.end == Open && Offer(s).fates[|s.fates|].Lost?
    requires forall k :: 0 <= k < |acts| ==> acts[k] != Publishes
    requires Run(Offer(s), acts).sender == Resting && Run(Offer(s), acts).end in {Open, Removed}
    ensures MarkedAfter(Run(Offer(s), acts), |s.enqueued|) <==> s.sender != Marked
  {
    var t, r := Offer(s), Run(Offer(s), acts);
    if s.sender == Marked {
      QuietAfterMark(t, acts);
    } else {
      OfferKeeps(s);
      RunKeeps(t, acts);
      FatesStay(t, acts);
      assert r.fates[|s.fates|] == Lost(|s.enqueued|, false);
    }
  }

  const LATE := [Publishes, Publishes, Takes, Marks, Publishes, Clears]

  /** Its first half ends with the marker in and the flag still set. */
  const MARKED := Sub(1, [Resync], [Item(0)], true, Marked, Open, [Item(0), Resync], [Sent(0), Lost(1, false)], false)

  lemma MarkerIn()
    ensures Run(Subscribed(1), LATE[..4]) == MARKED
  {
    var s := Subscribed(1);
    assert LATE[..0] == [];
    RunNext(s, LATE, 0);
    assert Run(s, LATE[..1]) == Sub(1, [Item(0)], [], false, Resting, Open, [Item(0)], [Sent(0)], false);
    RunNext(s, LATE, 1);
    assert Run(s, LATE[..2]) == Sub(1, [Item(0)], [], true, Trying, Open, [Item(0)], [Sent(0), Lost(1, false)], false);
    RunNext(s, LATE, 2);
    assert Run(s, LATE[..3]) == Sub(1, [], [Item(0)], true, Trying, Open, [Item(0)], [Sent(0), Lost(1, false)], false);
    RunNext(s, LATE, 3);
  }

  /**
   * A run with a message that nobody will ever be told is missing: it came just after the marker for an earlier one.
   */
  lemma LateUnmarked()
    ensures var s := Run(Subscribed(1), LATE);
      && |s.fates| == 3 && s.fates[2] == Lost(2, true) && !MarkedAfter(s, 2)
      && !s.dropped && s.sender == Resting && s.end == Open && s.box == [Resync]
  {
    MarkerIn();
    RunNext(Subscribed(1), LATE, 4);
    RunNext(Subscribed(1), LATE, 5);
    assert LATE[..6] == LATE;
    var late := MARKED.(fates := MARKED.fates + [Lost(2, true)]);
    assert Step(MARKED, LATE[4]) == late && Step(late, LATE[5]) == late.(dropped := false, sender := Resting);
  }

  lemma {:induction false} OfferAllKeeps(s: Sub, n: nat)
    requires Inv(s)
    ensures Inv(OfferAll(s, n))
  {
    if n > 0 {
      OfferAllKeeps(s, n - 1);
      OfferKeeps(OfferAll(s, n - 1));
    }
  }

  // ---- In place ----

  /** All subscribers; `registered` are those a publish reaches. */
  class Bus {
    const size: nat
    var subs: map<nat, Sub>
    var registered: set<nat>
    var next: nat

    ghost predicate Valid()
      reads this
    {
      && (forall id :: id in subs ==> id < next)
      && (forall id :: id in registered <==> id in subs && subs[id].end == Open)
    }

    constructor (size: nat)
      ensures Valid() && this.size == size && subs == map[]
    {
      this.size, subs, registered, next := size, map[], {}, 0;
    }

    method Subscribe() returns (id: nat)
      requires Valid()
      modifies this
      ensures Valid() && id !in old(subs) && subs == old(subs)[id := Subscribed(size)]
    {
      id := next;
      next := next + 1;
      subs := subs[id := Subscribed(size)];
      registered := registered + {id};
    }

    /** One message to one subscriber, without blocking. */
    method Deliver(id: nat)
      requires Valid() && id in registered
      modifies this`subs
      ensures Valid() && subs == old(subs)[id := Offer(old(subs)[id])]
    {
      var s := subs[id];
      if s.dropped {
        s := s.(fates := s.fates + [Lost(|s.enqueued|, s.sender == Marked)]);
      } else if |s.box| < s.size {
        s := s.(box := s.box + [Item(|s.fates|)], enqueued := s.enqueued + [Item(|s.fates|)],
                fates := s.fates + [Sent(|s.enqueued|)]);
      } else {
        s := s.(dropped := true, sender := Trying, fates := s.fates + [Lost(|s.enqueued|, false)]);
      }
      subs := subs[id := s];
    }

    method DeliverAll(id: nat, n: nat)
      requires Valid() && id in registered
      modifies this`subs
      ensures Valid() && subs == old(subs)[id := OfferAll(old(subs)[id], n)]
    {
      assert subs == subs[id := subs[id]];
      for k := 0 to n
        invariant Valid() && subs == old(subs)[id := OfferAll(old(subs)[id], k)]
      {
        Deliver(id);
      }
    }

    /** Every message to every subscriber registered, whatever the order, and to no other. */
    method Publish(n: nat)
      requires Valid()
      modifies this`subs
      ensures Valid() && subs.Keys == old(subs).Keys
      ensures forall id :: id in subs ==>
        subs[id] == (if id in registered then OfferAll(old(subs)[id], n) else old(subs)[id])
    {
      var left := registered;
      while left != {}
        invariant Valid() && left <= registered && subs.Keys == old(subs).Keys
        invariant forall id :: id in subs ==>
          subs[id] == (if id in registered && id !in left then OfferAll(old(subs)[id], n) else old(subs)[id])
        decreases left
      {
        var id :| id in left;
        DeliverAll(id, n);
        left := left - {id};
      }
    }
  }
}
