/**
 The registry of pending cancellation futures: wakers keyed by a 64-bit id that wraps around.
 */
module Wakers {
  import opened Options

  const ID_SPACE: nat := 0x1_0000_0000_0000_0000

  type Id = n: nat | n < ID_SPACE

  /** The waker a future supplied with its `poll`-th poll. */
  datatype Waker = Waker(future: nat, poll: nat)

  function Wrap(n: nat): Id { n % ID_SPACE }

  /** The id the counter reaches after `skips` wrapping increments. */
  function Candidate(next: Id, skips: nat): Id { Wrap(next + skips) }

  /** How many increments lead from one id to another. */
  function Distance(from: Id, to: Id): nat { if from <= to then to - from else to + ID_SPACE - from }

  lemma WrapDistance(from: Id, k: nat)
    requires k < ID_SPACE
    ensures Distance(from, Candidate(from, k)) == k
    ensures Wrap(Candidate(from, k) + 1) == Candidate(from, k + 1)
  {
    if from + k < ID_SPACE {
      assert Wrap(from + k) == from + k;
    } else {
      assert Wrap(from + k) == from + k - ID_SPACE;
    }
  }

  /** `id` is the first free id at or after `next`, `skips` increments away. */
  ghost predicate FirstFree(next: Id, taken: set<Id>, id: Id, skips: nat) {
    && id == Candidate(next, skips) && id !in taken
    && forall j :: 0 <= j < skips ==> Candidate(next, j) in taken
  }

  lemma {:induction false} SubsetSize(a: set<Id>, b: set<Id>)
    requires a <= b
    ensures |a| <= |b|
  {
    if a != {} {
      var x :| x in a;
      SubsetSize(a - {x}, b - {x});
    }
  }

  /** Unless every id is taken there is a first free one, within one round per taken id. */
  lemma FreeIdExists(next: Id, taken: set<Id>) returns (id: Id, skips: nat)
    requires |taken| < ID_SPACE
    ensures FirstFree(next, taken, id, skips) && skips <= |taken|
  {
    skips := 0;
    var skipped: set<Id> := {};
    while Candidate(next, skips) in taken
      invariant skipped <= taken && |skipped| == skips <= |taken|
      invariant forall j :: 0 <= j < skips ==> Candidate(next, j) in taken
      invariant forall x :: x in skipped ==> Distance(next, x) < skips
      decreases |taken| - skips
    {
      WrapDistance(next, skips);
      skipped := skipped + {Candidate(next, skips)};
      SubsetSize(skipped, taken);
      skips := skips + 1;
    }
    id := Candidate(next, skips);
  }

  lemma FirstFreeUnique(next: Id, taken: set<Id>, a: Id, i: nat, b: Id, j: nat)
    requires FirstFree(next, taken, a, i) && FirstFree(next, taken, b, j)
    ensures a == b && i == j
  {
    assert i < j ==> Candidate(next, i) in taken;
    assert j < i ==> Candidate(next, j) in taken;
  }

  class WakerRegistry {
    var nextId: Id
    var wakers: map<Id, Waker>

    constructor ()
      ensures nextId == 0 && wakers == map[]
    {
      nextId := 0;
      wakers := map[];
    }

    /**
     Inserts a waker under the given id, or under the first free id at or after the counter.
     While the id space is not full the allocation ends within one round per entry and one more.
     */
    method Register(registration: Option<Id>, waker: Waker) returns (id: Id, replaced: Option<Waker>, ghost rounds: nat)
      requires registration.None? ==> |wakers| < ID_SPACE
      modifies this
      ensures wakers == old(wakers)[id := waker]
      ensures replaced == if id in old(wakers) then Some(old(wakers)[id]) else None
      ensures registration.Some? ==> id == registration.value && nextId == old(nextId) && rounds == 0
      ensures registration.None? ==>
                && replaced.None? && 1 <= rounds <= |old(wakers)| + 1
                && FirstFree(old(nextId), old(wakers).Keys, id, rounds - 1) && nextId == Wrap(id + 1)
    {
      rounds := 0;
      if registration.Some? {
        id := registration.value;
      } else {
        ghost var skipped: set<Id> := {};
        id := nextId;
        while true
          invariant wakers == old(wakers) && |wakers| < ID_SPACE
          invariant skipped <= wakers.Keys && |skipped| == rounds <= |wakers|
          invariant nextId == Candidate(old(nextId), rounds)
          invariant forall j :: 0 <= j < rounds ==> Candidate(old(nextId), j) in wakers
          invariant forall x :: x in skipped ==> Distance(old(nextId), x) < rounds
          decreases |wakers| - rounds
        {
          WrapDistance(old(nextId), rounds);
          id := nextId;
          nextId := Wrap(nextId + 1);
          rounds := rounds + 1;
          if id !in wakers {
            break;
          }
          skipped := skipped + {id};
          SubsetSize(skipped, wakers.Keys);
        }
      }
      replaced := if id in wakers then Some(wakers[id]) else None;
      wakers := wakers[id := waker];
    }

    method Unregister(id: Id) returns (removed: Option<Waker>)
      modifies this
      ensures wakers == old(wakers) - {id} && nextId == old(nextId)
      ensures removed == if id in old(wakers) then Some(old(wakers)[id]) else None
    {
      removed := if id in wakers then Some(wakers[id]) else None;
      wakers := wakers - {id};
    }

    /** Empties the registry; every entry is handed to the caller. */
    method TakeAll() returns (taken: map<Id, Waker>)
      modifies this
      ensures taken == old(wakers) && wakers == map[] && nextId == old(nextId)
    {
      taken := wakers;
      wakers := map[];
    }
  }
}
