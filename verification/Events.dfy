/**
 Values that flow through the turn scheduler: events, batches and the stable
 ordering a batch is given before it is handed to an agent.
 */
module Events {

  /** A channel id (a UUID in the system): only equality matters. */
  type Channel = nat

  /** An instant or a duration, in seconds. */
  type Time = real

  datatype Option<+T> = None | Some(value: T)

  /** A queued event; the channel it belongs to is the key of the table that holds it. */
  datatype Event = Event(id: string, createdAt: nat, receivedAt: Time, tag: string)

  datatype CancelReason = Interrupt | Steer

  datatype DedupMode = Drop | Accumulate

  datatype Batch = Batch(
    channel: Channel,
    events: seq<Event>,
    cancelledEvents: seq<Event>,
    reason: Option<CancelReason>)

  /** What a batch carries: its reason may be stamped on it while it is out. */
  function Load(b: Batch): Batch {
    b.(reason := None)
  }

  function At<T>(m: map<Channel, seq<T>>, c: Channel): seq<T> {
    if c in m then m[c] else []
  }

  function Find<T>(m: map<Channel, T>, c: Channel): Option<T> {
    if c in m then Some(m[c]) else None
  }

  /** Stores `s` under `c`, dropping the entry when there is nothing to store. */
  function Put(m: map<Channel, seq<Event>>, c: Channel, s: seq<Event>): map<Channel, seq<Event>> {
    if s == [] then m - {c} else m[c := s]
  }

  // ---- searching by event id ----

  /** Position of the first event with the given id, or `|s|` when there is none. */
  function IndexOf(s: seq<Event>, id: string): (i: nat)
    ensures i <= |s|
    ensures i < |s| ==> s[i].id == id
    ensures forall j :: 0 <= j < i ==> s[j].id != id
  {
    if s == [] || s[0].id == id then 0 else 1 + IndexOf(s[1..], id)
  }

  function Without(s: seq<Event>, id: string): (r: seq<Event>)
    ensures |r| <= |s|
  {
    if s == [] then []
    else if s[0].id == id then Without(s[1..], id)
    else [s[0]] + Without(s[1..], id)
  }

  /** The events `Without` leaves behind. */
  function Only(s: seq<Event>, id: string): seq<Event> {
    if s == [] then []
    else if s[0].id == id then [s[0]] + Only(s[1..], id)
    else Only(s[1..], id)
  }

  lemma {:induction false} WithoutSplits(s: seq<Event>, id: string)
    ensures multiset(Without(s, id)) + multiset(Only(s, id)) == multiset(s)
  {
    if s != [] {
      WithoutSplits(s[1..], id);
      assert multiset(s) == multiset{s[0]} + multiset(s[1..]) by { assert s == [s[0]] + s[1..]; }
    }
  }

  lemma {:induction false} WithoutMembers(s: seq<Event>, id: string)
    ensures forall e :: e in Without(s, id) <==> e in s && e.id != id
  {
    if s != [] {
      WithoutMembers(s[1..], id);
      assert s == [s[0]] + s[1..];
    }
  }

  lemma RemoveAtSplits(s: seq<Event>, i: nat)
    requires i < |s|
    ensures multiset(s[..i] + s[i + 1..]) + multiset{s[i]} == multiset(s)
  {
    assert s == s[..i] + [s[i]] + s[i + 1..];
  }

  lemma CutSplits(s: seq<Event>, i: nat)
    requires i <= |s|
    ensures multiset(s[..i]) + multiset(s[i..]) == multiset(s)
  {
    assert s == s[..i] + s[i..];
  }

  // ---- the stable sort a batch receives ----

  function Insert(e: Event, s: seq<Event>): (r: seq<Event>)
    ensures multiset(r) == multiset{e} + multiset(s)
    ensures |r| == |s| + 1
  {
    if s == [] || e.createdAt <= s[0].createdAt then [e] + s
    else
      assert s == [s[0]] + s[1..];
      [s[0]] + Insert(e, s[1..])
  }

  /** Stable sort by creation time: equal times keep their delivery order. */
  function SortByCreated(s: seq<Event>): (r: seq<Event>)
    ensures multiset(r) == multiset(s)
    ensures |r| == |s|
  {
    if s == [] then []
    else
      assert s == [s[0]] + s[1..];
      Insert(s[0], SortByCreated(s[1..]))
  }

  predicate Sorted(s: seq<Event>) {
    forall i, j :: 0 <= i < j < |s| ==> s[i].createdAt <= s[j].createdAt
  }

  /** The events created at time `k`, in sequence order. */
  function CreatedAt(s: seq<Event>, k: nat): seq<Event> {
    if s == [] then []
    else if s[0].createdAt == k then [s[0]] + CreatedAt(s[1..], k)
    else CreatedAt(s[1..], k)
  }

  lemma CreatedAtCons(e: Event, s: seq<Event>, k: nat)
    ensures CreatedAt([e] + s, k) == (if e.createdAt == k then [e] else []) + CreatedAt(s, k)
  {
    assert ([e] + s)[1..] == s;
  }

  lemma {:induction false} CreatedAtNone(s: seq<Event>, k: nat)
    requires CreatedAt(s, k) == []
    ensures forall i :: 0 <= i < |s| ==> s[i].createdAt != k
  {
    if s != [] {
      CreatedAtNone(s[1..], k);
      assert s == [s[0]] + s[1..];
    }
  }

  lemma {:induction false} InsertIsSorted(e: Event, s: seq<Event>)
    requires Sorted(s)
    ensures Sorted(Insert(e, s))
  {
    if s != [] && s[0].createdAt < e.createdAt {
      InsertIsSorted(e, s[1..]);
      var t := Insert(e, s[1..]);
      forall j | 0 <= j < |t| ensures s[0].createdAt <= t[j].createdAt {
        assert t[j] in multiset(t);
      }
    }
  }

  lemma {:induction false} InsertIsStable(e: Event, s: seq<Event>, k: nat)
    ensures CreatedAt(Insert(e, s), k) == CreatedAt([e] + s, k)
  {
    if s != [] && s[0].createdAt < e.createdAt {
      InsertIsStable(e, s[1..], k);
      CreatedAtCons(s[0], Insert(e, s[1..]), k);
      CreatedAtCons(e, s[1..], k);
      CreatedAtCons(e, s, k);
    }
  }

  /** The batch order is sorted by creation time and stable within each instant. */
  lemma {:induction false} SortIsSortedAndStable(s: seq<Event>, k: nat)
    ensures Sorted(SortByCreated(s))
    ensures CreatedAt(SortByCreated(s), k) == CreatedAt(s, k)
  {
    if s != [] {
      SortIsSortedAndStable(s[1..], k);
      InsertIsSorted(s[0], SortByCreated(s[1..]));
      InsertIsStable(s[0], SortByCreated(s[1..]), k);
      CreatedAtCons(s[0], SortByCreated(s[1..]), k);
    }
  }

  lemma HeadsAgree(a: seq<Event>, b: seq<Event>)
    requires a != [] && b != [] && Sorted(a) && Sorted(b)
    requires CreatedAt(a, a[0].createdAt) == CreatedAt(b, a[0].createdAt)
    requires CreatedAt(a, b[0].createdAt) == CreatedAt(b, b[0].createdAt)
    ensures a[0] == b[0]
  {
    if a[0].createdAt < b[0].createdAt {
      Later(b, a[0].createdAt);
    } else if b[0].createdAt < a[0].createdAt {
      Later(a, b[0].createdAt);
    } else {
      assert a[0] == CreatedAt(a, a[0].createdAt)[0] && b[0] == CreatedAt(b, a[0].createdAt)[0];
    }
  }

  lemma {:induction false} Later(s: seq<Event>, k: nat)
    requires forall i :: 0 <= i < |s| ==> k < s[i].createdAt
    ensures CreatedAt(s, k) == []
  {
    if s != [] { Later(s[1..], k); }
  }

  /** Sortedness and stability pin the order down completely. */
  lemma {:induction false} StableOrderIsUnique(a: seq<Event>, b: seq<Event>)
    requires Sorted(a) && Sorted(b)
    requires forall k :: CreatedAt(a, k) == CreatedAt(b, k)
    ensures a == b
  {
    if a == [] || b == [] {
      if b != [] { CreatedAtNone(b, b[0].createdAt); }
      if a != [] { CreatedAtNone(a, a[0].createdAt); }
    } else {
      HeadsAgree(a, b);
      forall j ensures CreatedAt(a[1..], j) == CreatedAt(b[1..], j) {
        assert CreatedAt(a, j) == CreatedAt(b, j);
        var first := if a[0].createdAt == j then [a[0]] else [];
        assert CreatedAt(a, j)[|first|..] == CreatedAt(a[1..], j);
        assert CreatedAt(b, j)[|first|..] == CreatedAt(b[1..], j);
      }
      StableOrderIsUnique(a[1..], b[1..]);
      assert a == [a[0]] + a[1..] && b == [b[0]] + b[1..];
    }
  }
}
