/**
 The order a batch applies its edits in: timestamps off the wire, a stable sort whose ties follow the way the
 array was built, and the positions the sorted batch claims.
 */
module EditOrder {
  import opened Wrappers
  import opened EditRegister

  // ---- timestamps ----

  // A protobuf 64-bit field: a number, a Long with either half possibly missing, or nothing.
  datatype Timestamp = Number(n: int) | Long(low: Option<int>, high: Option<int>) | Absent

  const TWO_32: int := 0x1_0000_0000

  // low >>> 0
  function ToUint32(n: int): int {
    n % TWO_32
  }

  function TimestampSeconds(t: Timestamp): int {
    match t
    case Number(n) => n
    case Long(low, high) =>
      (if high.Some? then high.value else 0) * TWO_32 + ToUint32(if low.Some? then low.value else 0)
    case Absent => 0
  }

  // How a decoder splits a 64-bit integer: both halves as signed 32-bit numbers.
  function ToInt32(n: int): int {
    if n % TWO_32 < 0x8000_0000 then n % TWO_32 else n % TWO_32 - TWO_32
  }

  function LongOf(n: int): Timestamp {
    Long(Some(ToInt32(n)), Some(ToInt32(n / TWO_32)))
  }

  /** A Long reads back as the 64-bit integer it came from, high bit of its low half included. */
  lemma LongRoundTrip(n: int)
    requires -0x8000_0000_0000_0000 <= n < 0x8000_0000_0000_0000
    ensures TimestampSeconds(LongOf(n)) == n == TimestampSeconds(Number(n))
  {
  }

  // ---- the sort ----

  datatype Edit = Edit(target: Id, at: Timestamp)
  datatype Indexed = Indexed(entry: Edit, index: nat)

  // What the comparator compares, time first and then the place in the array, reversed for newest-first arrays.
  predicate ComesBefore(a: Indexed, b: Indexed, newestFirst: bool) {
    var byTime := TimestampSeconds(a.entry.at) - TimestampSeconds(b.entry.at);
    if byTime != 0 then byTime < 0 else if newestFirst then b.index < a.index else a.index < b.index
  }

  function Insert(x: Indexed, sorted: seq<Indexed>, newestFirst: bool): (r: seq<Indexed>)
    ensures |r| == |sorted| + 1
    ensures forall y :: y in r <==> y == x || y in sorted
  {
    if sorted == [] then [x]
    else if ComesBefore(x, sorted[0], newestFirst) then [x] + sorted
    else [sorted[0]] + Insert(x, sorted[1..], newestFirst)
  }

  function Sort(xs: seq<Indexed>, newestFirst: bool): (r: seq<Indexed>)
    ensures |r| == |xs|
    ensures forall y :: y in r <==> y in xs
  {
    if xs == [] then [] else Insert(xs[0], Sort(xs[1..], newestFirst), newestFirst)
  }

  function WithIndices(edits: seq<Edit>): seq<Indexed> {
    seq(|edits|, i requires 0 <= i < |edits| => Indexed(edits[i], i))
  }

  function Entries(xs: seq<Indexed>): seq<Edit> {
    seq(|xs|, i requires 0 <= i < |xs| => xs[i].entry)
  }

  function OldestFirst(edits: seq<Edit>, newestFirst: bool): seq<Edit> {
    Entries(Sort(WithIndices(edits), newestFirst))
  }

  ghost predicate Sorted(xs: seq<Indexed>, newestFirst: bool) {
    forall i, j | 0 <= i < j < |xs| :: ComesBefore(xs[i], xs[j], newestFirst)
  }

  ghost predicate DistinctIndices(xs: seq<Indexed>) {
    forall i, j | 0 <= i < j < |xs| :: xs[i].index != xs[j].index
  }

  lemma {:induction false} InsertSorts(x: Indexed, xs: seq<Indexed>, newestFirst: bool)
    requires Sorted(xs, newestFirst) && forall y | y in xs :: y.index != x.index
    ensures Sorted(Insert(x, xs, newestFirst), newestFirst)
  {
    if xs != [] && !ComesBefore(x, xs[0], newestFirst) {
      var rest := Insert(x, xs[1..], newestFirst);
      InsertSorts(x, xs[1..], newestFirst);
      assert xs[0] in xs && ComesBefore(xs[0], x, newestFirst);
      HeadOfSorted(xs, newestFirst);
      PrependSorts(xs[0], rest, newestFirst);
    } else if xs != [] {
      HeadOfSorted(xs, newestFirst);
      PrependSorts(x, xs, newestFirst);
    }
  }

  lemma HeadOfSorted(xs: seq<Indexed>, newestFirst: bool)
    requires Sorted(xs, newestFirst) && xs != []
    ensures forall y | y in xs[1..] :: ComesBefore(xs[0], y, newestFirst)
  {
  }

  lemma PrependSorts(x: Indexed, xs: seq<Indexed>, newestFirst: bool)
    requires Sorted(xs, newestFirst) && forall y | y in xs :: ComesBefore(x, y, newestFirst)
    ensures Sorted([x] + xs, newestFirst)
  {
  }

  lemma {:induction false} SortSorts(xs: seq<Indexed>, newestFirst: bool)
    requires DistinctIndices(xs)
    ensures Sorted(Sort(xs, newestFirst), newestFirst)
  {
    if xs != [] {
      SortSorts(xs[1..], newestFirst);
      assert forall i | 0 <= i < |xs[1..]| :: xs[1..][i] == xs[i + 1];
      InsertSorts(xs[0], Sort(xs[1..], newestFirst), newestFirst);
    }
  }

  // A sorted sequence is the only sorted arrangement of its elements.
  lemma {:induction false} SortedIsUnique(xs: seq<Indexed>, ys: seq<Indexed>, newestFirst: bool)
    requires Sorted(xs, newestFirst) && Sorted(ys, newestFirst) && |xs| == |ys|
    requires forall z :: z in xs <==> z in ys
    ensures xs == ys
    decreases |xs|
  {
    if xs != [] {
      HeadOfSorted(xs, newestFirst);
      HeadOfSorted(ys, newestFirst);
      assert xs == [xs[0]] + xs[1..] && ys == [ys[0]] + ys[1..];
      assert xs[0] in ys && ys[0] in xs;
      assert xs[0] == ys[0] && xs[0] !in xs[1..] && xs[0] !in ys[1..];
      forall z
        ensures z in xs[1..] <==> z in ys[1..]
      {
        assert z in xs <==> z == xs[0] || z in xs[1..];
        assert z in ys <==> z == ys[0] || z in ys[1..];
      }
      SortedIsUnique(xs[1..], ys[1..], newestFirst);
    }
  }

  // The edits of an indexed array, each as often as it occurs.
  function Bag(xs: seq<Indexed>): multiset<Edit> {
    multiset(Entries(xs))
  }

  lemma BagCons(xs: seq<Indexed>)
    requires xs != []
    ensures Bag(xs) == multiset{xs[0].entry} + Bag(xs[1..])
  {
    assert Entries(xs) == [xs[0].entry] + Entries(xs[1..]);
  }

  lemma {:induction false} InsertKeepsEntries(x: Indexed, xs: seq<Indexed>, newestFirst: bool)
    ensures Bag(Insert(x, xs, newestFirst)) == Bag(xs) + multiset{x.entry}
  {
    var r := Insert(x, xs, newestFirst);
    BagCons(r);
    if xs == [] || ComesBefore(x, xs[0], newestFirst) {
      assert r[1..] == xs;
    } else {
      InsertKeepsEntries(x, xs[1..], newestFirst);
      BagCons(xs);
      assert r[1..] == Insert(x, xs[1..], newestFirst);
    }
  }

  lemma {:induction false} SortKeepsEntries(xs: seq<Indexed>, newestFirst: bool)
    ensures Bag(Sort(xs, newestFirst)) == Bag(xs)
  {
    if xs != [] {
      SortKeepsEntries(xs[1..], newestFirst);
      InsertKeepsEntries(xs[0], Sort(xs[1..], newestFirst), newestFirst);
      BagCons(xs);
    }
  }

  /** The edits come out each exactly once, by time, and within one second in the array's own sense of older. */
  lemma OldestFirstIsSorted(edits: seq<Edit>, newestFirst: bool)
    ensures var r := OldestFirst(edits, newestFirst);
            && |r| == |edits| && multiset(r) == multiset(edits)
            && forall i, j | 0 <= i < j < |r| :: TimestampSeconds(r[i].at) <= TimestampSeconds(r[j].at)
  {
    var xs := WithIndices(edits);
    var sorted := Sort(xs, newestFirst);
    SortSorts(xs, newestFirst);
    SortKeepsEntries(xs, newestFirst);
    assert Entries(xs) == edits;
    forall i, j | 0 <= i < j < |sorted|
      ensures TimestampSeconds(Entries(sorted)[i].at) <= TimestampSeconds(Entries(sorted)[j].at)
    {
      assert ComesBefore(sorted[i], sorted[j], newestFirst);
    }
  }

  /** A dump built newest first, times not increasing, comes out exactly reversed. */
  lemma NewestFirstIsReversed(edits: seq<Edit>)
    requires forall i, j | 0 <= i < j < |edits| :: TimestampSeconds(edits[i].at) >= TimestampSeconds(edits[j].at)
    ensures var r := OldestFirst(edits, true);
            |r| == |edits| && forall i | 0 <= i < |edits| :: r[i] == edits[|edits| - 1 - i]
  {
    var xs := WithIndices(edits);
    var ys := seq(|edits|, i requires 0 <= i < |edits| => xs[|edits| - 1 - i]);
    SortSorts(xs, true);
    forall z
      ensures z in xs <==> z in ys
    {
      if z in xs {
        var i :| 0 <= i < |xs| && xs[i] == z;
        assert ys[|xs| - 1 - i] == z;
      }
    }
    SortedIsUnique(Sort(xs, true), ys, true);
  }

  /** An array already in order comes out as it went in. */
  lemma OrderedIsUnchanged(edits: seq<Edit>)
    requires forall i, j | 0 <= i < j < |edits| :: TimestampSeconds(edits[i].at) <= TimestampSeconds(edits[j].at)
    ensures OldestFirst(edits, false) == edits
  {
    var xs := WithIndices(edits);
    SortSorts(xs, false);
    SortedIsUnique(Sort(xs, false), xs, false);
    assert Entries(xs) == edits;
  }

  // ---- the batch's claims ----

  // What repairSecretMessageEdits claims with, edit by edit in sorted order.
  function Positions(ordered: seq<Edit>, eventSeq: nat): seq<Position> {
    seq(|ordered|, rank requires 0 <= rank < |ordered| => Position(TimestampSeconds(ordered[rank].at), eventSeq, rank))
  }

  /**
   Along the sorted batch the positions strictly increase, ties in one second included; and they differ from
   every position of any other event. So no edit of a batch supersedes one applied after it.
   */
  lemma BatchPositionsIncrease(edits: seq<Edit>, newestFirst: bool, eventSeq: nat, other: Position)
    requires other.eventSeq != eventSeq
    ensures var ps := Positions(OldestFirst(edits, newestFirst), eventSeq);
            && (forall i, j | 0 <= i < j < |ps| :: Before(ps[i], ps[j]))
            && (forall i | 0 <= i < |ps| :: ps[i] != other)
  {
    OldestFirstIsSorted(edits, newestFirst);
  }

  function BatchClaims(ordered: seq<Edit>, eventSeq: nat): seq<Event> {
    seq(|ordered|, rank requires 0 <= rank < |ordered| =>
      Claim(ordered[rank].target, Position(TimestampSeconds(ordered[rank].at), eventSeq, rank)))
  }

  // The claims with rank `k` and above.
  lemma {:induction false} BatchFrom(s: State, ordered: seq<Edit>, eventSeq: nat, k: nat, id: Id)
    requires k <= |ordered| && MemoryOk(s.memory)
    requires forall i, j | 0 <= i < j < |ordered| :: TimestampSeconds(ordered[i].at) <= TimestampSeconds(ordered[j].at)
    requires Kept(s, BatchClaims(ordered, eventSeq)[k..], id)
    requires id in s.memory.at ==>
               (s.memory.at[id].eventSeq < eventSeq && k < |ordered| ==>
                  s.memory.at[id].at <= TimestampSeconds(ordered[k].at))
    requires id in s.memory.at ==> s.memory.at[id].eventSeq <= eventSeq
    requires id in s.memory.at && s.memory.at[id].eventSeq == eventSeq ==>
               s.memory.at[id].rank < k &&
                 exists r :: 0 <= r < k && s.memory.at[id] == Position(TimestampSeconds(ordered[r].at), eventSeq, r)
    ensures AcceptedFor(s, BatchClaims(ordered, eventSeq)[k..], id) ==
            ClaimsFor(BatchClaims(ordered, eventSeq)[k..], id)
    decreases |ordered| - k
  {
    var es := BatchClaims(ordered, eventSeq);
    if k < |ordered| {
      var e := es[k];
      assert es[k..][0] == e && es[k..][1..] == es[k + 1..];
      var s1 := Step(s, e);
      ClaimKeepsMemory(s.memory, e.id, e.position, Protected(s));
      if e.id == id {
        assert !Superseded(s.memory, id, e.position);
        assert id in s1.memory.at && s1.memory.at[id] == e.position;
      } else if id in s1.memory.at {
        OtherClaimSpares(s.memory, e.id, e.position, Protected(s), id);
      }
      BatchFrom(s1, ordered, eventSeq, k + 1, id);
    }
  }

  /**
   A batch whose edits are no older than what is already stored, applied in the sorted order, has every one
   of its claims for a message accepted, so the text that stands is the newest edit's.
   */
  lemma BatchIsApplied(s: State, edits: seq<Edit>, newestFirst: bool, eventSeq: nat, id: Id)
    requires MemoryOk(s.memory) && Kept(s, BatchClaims(OldestFirst(edits, newestFirst), eventSeq), id)
    requires id in s.memory.at ==>
               s.memory.at[id].eventSeq < eventSeq &&
                 forall e | e in OldestFirst(edits, newestFirst) :: s.memory.at[id].at <= TimestampSeconds(e.at)
    ensures var es := BatchClaims(OldestFirst(edits, newestFirst), eventSeq);
            AcceptedFor(s, es, id) == ClaimsFor(es, id)
  {
    var ordered := OldestFirst(edits, newestFirst);
    OldestFirstIsSorted(edits, newestFirst);
    assert BatchClaims(ordered, eventSeq)[0..] == BatchClaims(ordered, eventSeq);
    BatchFrom(s, ordered, eventSeq, 0, id);
  }
}
