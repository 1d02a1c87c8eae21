/**
 Withholding for a non-cancelling steer: a withheld event is handed out by no flush until it
 is released or its channel expires, and an event consumed by a successful steer never is.
 */
module QueueSteer {
  import opened Events
  import opened QueueModel
  import opened QueueInvariant
  import opened QueueLocality
  import opened QueueLedger

  lemma BooksOnlyGrow(s: Queue, l: Ledger, act: Act, c: Channel, e: Event)
    requires Permitted(s, l, act, c, e)
    ensures l.accepted <= Booked(l, s, act, c, e).accepted
    ensures l.steered <= Booked(l, s, act, c, e).steered
    ensures l.drained <= Booked(l, s, act, c, e).drained
  {
  }

  /** A copy set aside after the act is a copy the act did not hand out. */
  lemma SetAsideIsNotHanded(s: Queue, l: Ledger, act: Act, c: Channel, e: Event)
    requires Permitted(s, l, act, c, e) && Balanced(s, l, c, e)
    requires var k := Booked(l, s, act, c, e);
             k.accepted <= 1 && 1 <= Times(At(After(s, act).withheld, c), e) + k.steered + k.drained
    ensures Handing(s, act, c, e) == 0
  {
    ActBalances(s, l, act, c, e);
  }

  /** Once a steer has consumed an event, no later flush hands it out, whatever else happens. */
  lemma {:induction false} SteeredIsNeverDispatched(s: Queue, l: Ledger, acts: seq<Act>, c: Channel, e: Event)
    requires IsHistory(s, l, acts, c, e) && Balanced(s, l, c, e)
    requires EndLedger(s, l, acts, c, e).accepted <= 1 && 1 <= l.steered
    ensures HandedOut(s, acts, c, e) == 0
    decreases |acts|
  {
    if acts != [] {
      var t, k := After(s, acts[0]), Booked(l, s, acts[0], c, e);
      BooksOnlyGrow(s, l, acts[0], c, e);
      AcceptedOnlyGrows(t, k, acts[1..], c, e);
      SetAsideIsNotHanded(s, l, acts[0], c, e);
      ActBalances(s, l, acts[0], c, e);
      SteeredIsNeverDispatched(t, k, acts[1..], c, e);
    }
  }

  /** What lets a withheld event back into circulation. */
  ghost predicate Frees(s: Queue, act: Act, c: Channel, e: Event) {
    act.Call? && (act.step.op == ReleaseSteer(c, e.id) || Expires(s, act.step.op, act.step.now, c))
  }

  ghost predicate NeverFreed(s: Queue, acts: seq<Act>, c: Channel, e: Event)
    decreases |acts|
  {
    acts == [] || (!Frees(s, acts[0], c, e) && NeverFreed(After(s, acts[0]), acts[1..], c, e))
  }

  ghost function SetAside(s: Queue, l: Ledger, c: Channel, e: Event): nat {
    Times(At(s.withheld, c), e) + l.steered + l.drained
  }

  /** Without a release or an expiry, an event set aside stays set aside. */
  lemma StaysSetAside(s: Queue, l: Ledger, act: Act, c: Channel, e: Event)
    requires Permitted(s, l, act, c, e) && !Frees(s, act, c, e)
    ensures SetAside(s, l, c, e) <= SetAside(After(s, act), Booked(l, s, act, c, e), c, e)
  {
    BooksOnlyGrow(s, l, act, c, e);
    if act.Call? {
      if act.step.op.RemoveEvent? && act.step.op.channel == c {
        WithoutSplits(At(s.withheld, c), act.step.op.id);
      } else if act.step.op.DrainChannel? && act.step.op.channel == c {
      } else {
        WithheldStays(s, act.step.op, act.step.now, c, e);
      }
    }
  }

  lemma WithheldStays(s: Queue, op: Op, now: Time, c: Channel, e: Event)
    requires op != ReleaseSteer(c, e.id) && !Expires(s, op, now, c)
    requires op != DrainChannel(c) && !(op.RemoveEvent? && op.channel == c)
    ensures Times(At(s.withheld, c), e) <= Times(At(Next(s, op, now).withheld, c), e)
  {
    if op.ReleaseSteer? && op.channel == c {
      ReleaseKeepsOthers(s, c, op.id, e);
    } else if op.MarkSteerPending? && op.channel == c {
      WithholdOnlyAdds(s, c, op.id, e);
    } else if op.FlushNext? {
      ExpiryIsLocal(s, now, c);
      FlushKeepsWithheld(Expire(s, now), op.pick, now);
    } else if !About(op, c) && !op.Compact? {
      CallsAreLocal(s, op, now, c);
    } else {
      WithheldTableKept(s, op, now);
    }
  }

  lemma WithholdOnlyAdds(s: Queue, c: Channel, id: string, e: Event)
    ensures Times(At(s.withheld, c), e) <= Times(At(Withhold(s, c, id).withheld, c), e)
  {
  }

  lemma ReleaseKeepsOthers(s: Queue, c: Channel, id: string, e: Event)
    requires id != e.id
    ensures Times(At(Release(s, c, id).withheld, c), e) == Times(At(s.withheld, c), e)
  {
    var w := At(s.withheld, c);
    var i := IndexOf(w, id);
    if i < |w| {
      assert At(Release(s, c, id).withheld, c) == w[..i] + w[i + 1..];
      RemovalKeepsOthers(w, i, e);
    }
  }

  lemma RemovalKeepsOthers(w: seq<Event>, i: nat, e: Event)
    requires i < |w| && w[i] != e
    ensures Times(w[..i] + w[i + 1..], e) == Times(w, e)
  {
    RemoveAtSplits(w, i);
  }

  /**
   A withheld event is in no batch handed out until it is released or its channel expires,
   provided that event was accepted only once.
   */
  lemma {:induction false} WithheldIsNotDispatched(s: Queue, l: Ledger, acts: seq<Act>, c: Channel, e: Event)
    requires IsHistory(s, l, acts, c, e) && Balanced(s, l, c, e) && NeverFreed(s, acts, c, e)
    requires EndLedger(s, l, acts, c, e).accepted <= 1 && 1 <= SetAside(s, l, c, e)
    ensures HandedOut(s, acts, c, e) == 0
    decreases |acts|
  {
    if acts != [] {
      var t, k := After(s, acts[0]), Booked(l, s, acts[0], c, e);
      AcceptedOnlyGrows(t, k, acts[1..], c, e);
      StaysSetAside(s, l, acts[0], c, e);
      SetAsideIsNotHanded(s, l, acts[0], c, e);
      ActBalances(s, l, acts[0], c, e);
      WithheldIsNotDispatched(t, k, acts[1..], c, e);
    }
  }

  /**
   Bulk recovery on expiry: the channel's queue starts with its withheld events, in the order
   they were withheld, followed by what was queued, and only the cap can cut the tail.
   */
  lemma RecoveryKeepsOrder(s: Queue, now: Time, c: Channel)
    requires Inv(s) && c in Expired(s, now)
    ensures var w, q, r := At(s.withheld, c), At(s.queues, c), At(Expire(s, now).queues, c);
            && r <= w + q
            && (|w| + |q| <= MAX_PENDING_PER_CHANNEL ==> r == w + q)
            && (|w| <= MAX_PENDING_PER_CHANNEL ==> w <= r)
    ensures c !in Expire(s, now).withheld && c !in Expire(s, now).inFlight
  {
    var w, q := At(s.withheld, c), At(s.queues, c);
    assert w + q == Cap(w + q) + Overflow(w + q);
    if c !in s.withheld { assert w + q == q; }
  }
}
