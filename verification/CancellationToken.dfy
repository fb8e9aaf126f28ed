/**
 The cancellation state and its future as objects. A poll consists of three atomic parts; each is
 a method that is proved to be its step of `CancellationProtocol` in whatever state the steps of
 other threads have led to.
 */
module CancellationToken {
  import opened Options
  import opened Wakers
  import opened CancellationProtocol

  /** The ids whose entry is the waker. */
  ghost function Holding(wakers: map<Id, Waker>, w: Waker): set<Id> { set id | id in wakers && wakers[id] == w }

  ghost function Entries(wakers: map<Id, Waker>, w: Waker): nat { |Holding(wakers, w)| }

  lemma EntriesWithout(wakers: map<Id, Waker>, id: Id, w: Waker)
    requires id in wakers
    ensures Entries(wakers, w) == Entries(wakers - {id}, w) + (if wakers[id] == w then 1 else 0)
  {
    assert Holding(wakers - {id}, w) == Holding(wakers, w) - {id};
  }

  lemma EntriesBounded(wakers: map<Id, Waker>, w: Waker)
    ensures Entries(wakers, w) <= |wakers|
  {
    SubsetSize(Holding(wakers, w), wakers.Keys);
    assert |wakers.Keys| == |wakers|;
  }

  class RetryCancellationState {
    var cancelled: bool
    const waiters: WakerRegistry

    constructor ()
      ensures !cancelled && fresh(waiters) && waiters.nextId == 0 && waiters.wakers == map[]
    {
      cancelled := false;
      waiters := new WakerRegistry();
    }

    method IsCancelled() returns (r: bool)
      ensures r == cancelled
    {
      r := cancelled;
    }

    /** Only the first request takes the wakers, and it invokes each entry's waker exactly once. */
    method Cancel() returns (woken: multiset<Waker>)
      modifies this, waiters
      ensures cancelled
      ensures old(cancelled) ==> woken == multiset{} && waiters.wakers == old(waiters.wakers)
      ensures !old(cancelled) ==> waiters.wakers == map[] && forall w :: woken[w] == Entries(old(waiters.wakers), w)
      ensures waiters.nextId == old(waiters.nextId)
    {
      woken := multiset{};
      var before := cancelled;
      cancelled := true;
      if before {
        return;
      }
      var rest := waiters.TakeAll();
      while rest != map[]
        invariant cancelled && waiters.wakers == map[] && waiters.nextId == old(waiters.nextId)
        invariant forall w :: woken[w] + Entries(rest, w) == Entries(old(waiters.wakers), w)
        decreases |rest|
      {
        var id :| id in rest;
        forall w ensures Entries(rest, w) == Entries(rest - {id}, w) + (if rest[id] == w then 1 else 0) {
          EntriesWithout(rest, id, w);
        }
        woken := woken + multiset{rest[id]};
        assert |rest| == |rest - {id}| + 1 by { assert rest == (rest - {id})[id := rest[id]]; }
        rest := rest - {id};
      }
      forall w ensures Entries(rest, w) == 0 {
        EntriesBounded(rest, w);
      }
    }

    /** The first half of a registration: the entry is inserted under the lock, which stays held. */
    method InsertEntry(registration: Option<Id>, waker: Waker)
        returns (id: Id, replaced: Option<Waker>, ghost skips: nat)
      requires registration.None? ==> |waiters.wakers| < ID_SPACE
      modifies waiters
      ensures registration.Some? ==> id == registration.value && waiters.nextId == old(waiters.nextId)
      ensures registration.None? ==>
                && FirstFree(old(waiters.nextId), old(waiters.wakers).Keys, id, skips)
                && id == Candidate(old(waiters.nextId), skips) && waiters.nextId == Wrap(id + 1)
      ensures waiters.wakers == old(waiters.wakers)[id := waker]
      ensures replaced == if id in old(waiters.wakers) then Some(old(waiters.wakers)[id]) else None
    {
      ghost var rounds;
      id, replaced, rounds := waiters.Register(registration, waker);
      skips := if rounds == 0 then 0 else rounds - 1;
    }

    /** The second half: the flag is loaded again, a set one takes the entry back, and the lock is released. */
    method ObserveFlag(id: Id) returns (removed: Option<Waker>, observed: bool)
      modifies waiters
      ensures observed == cancelled && waiters.nextId == old(waiters.nextId)
      ensures waiters.wakers == if observed then old(waiters.wakers) - {id} else old(waiters.wakers)
      ensures removed == if observed && id in old(waiters.wakers) then Some(old(waiters.wakers)[id]) else None
    {
      observed := IsCancelled();
      removed := None;
      if observed {
        removed := waiters.Unregister(id);
      }
    }

    method Unregister(id: Id) returns (removed: Option<Waker>)
      modifies waiters
      ensures waiters.wakers == old(waiters.wakers) - {id} && waiters.nextId == old(waiters.nextId)
      ensures removed == if id in old(waiters.wakers) then Some(old(waiters.wakers)[id]) else None
    {
      removed := waiters.Unregister(id);
    }
  }

  class RetryCancelled {
    const token: RetryCancellationState
    var registrationId: Option<Id>

    constructor (token: RetryCancellationState)
      ensures this.token == token && registrationId == None
    {
      this.token := token;
      registrationId := None;
    }

    /** The objects hold what the protocol state says about them and about future `f`. */
    ghost predicate Agrees(s: System, f: nat)
      reads this, token, token.waiters
    {
      && f in s.futures
      && token.cancelled == s.cancelled && token.waiters.nextId == s.nextId && token.waiters.wakers == s.wakers
      && registrationId == s.futures[f].registration
    }

    /** The first load of a poll: a set flag answers it. */
    method LoadFlag(ghost s: System, ghost f: nat) returns (ready: bool)
      requires Agrees(s, f) && Polling(s, f, AtRest)
      ensures ready == s.cancelled && Agrees(Next(s, PollLoad(f)), f)
      ensures ready ==> Next(s, PollLoad(f)).futures[f].last == Ready
      ensures !ready ==> Polling(Next(s, PollLoad(f)), f, Loaded)
    {
      ready := token.IsCancelled();
    }

    /** The lock is taken and the entry inserted, under the known id or the first free one. */
    method InsertWaker(waker: Waker, ghost s: System, ghost f: nat) returns (id: Id, ghost skips: nat)
      requires Agrees(s, f) && Polling(s, f, Loaded) && s.lock.None? && waker == CurrentWaker(s, f)
      requires registrationId.None? ==> |token.waiters.wakers| < ID_SPACE
      modifies token.waiters
      ensures Enabled(s, PollInsert(f, skips)) && Agrees(Next(s, PollInsert(f, skips)), f)
      ensures Polling(Next(s, PollInsert(f, skips)), f, Inserted(id))
    {
      var replaced;
      id, replaced, skips := token.InsertEntry(registrationId, waker);
    }

    /** The second load under the lock: a set flag answers the poll and leaves nothing behind. */
    method ConfirmEntry(id: Id, ghost s: System, ghost f: nat) returns (ready: bool)
      requires Agrees(s, f) && Polling(s, f, Inserted(id))
      modifies this, token.waiters
      ensures ready == s.cancelled && Agrees(Next(s, PollConfirm(f)), f)
      ensures Next(s, PollConfirm(f)).futures[f].last == if ready then Ready else Pending
    {
      registrationId := Some(id);
      var removed, observed := token.ObserveFlag(id);
      if observed {
        registrationId := None;
      }
      ready := observed;
    }

    /**
     One poll with nothing in between its parts: the answer is ready exactly if the flag was set,
     and then nothing is registered that was not before; otherwise exactly one entry is the
     waker's, under the id that the future now holds.
     */
    method Poll(waker: Waker, ghost s: System, ghost f: nat) returns (ready: bool, ghost after: System)
      requires Agrees(s, f) && Polling(s, f, AtRest) && s.lock.None? && waker == Waker(f, s.futures[f].polls + 1)
      requires registrationId.None? ==> |token.waiters.wakers| < ID_SPACE
      modifies this, token.waiters
      ensures ready == token.cancelled && Agrees(after, f)
      ensures ready ==> after == Next(s, PollLoad(f))
      ensures !ready ==> exists skips: nat ::
                && Enabled(Next(s, PollLoad(f)), PollInsert(f, skips))
                && after == Next(Next(Next(s, PollLoad(f)), PollInsert(f, skips)), PollConfirm(f))
      ensures !ready ==>
                registrationId.Some?
                && token.waiters.wakers == old(token.waiters.wakers)[registrationId.value := waker]
    {
      ready := LoadFlag(s, f);
      after := Next(s, PollLoad(f));
      if ready {
        return;
      }
      var id;
      ghost var loaded, skips := after, 0;
      id, skips := InsertWaker(waker, loaded, f);
      after := Next(loaded, PollInsert(f, skips));
      ghost var inserted := after;
      ready := ConfirmEntry(id, inserted, f);
      after := Next(inserted, PollConfirm(f));
    }

    /** Dropping the future takes at most its own entry along. */
    method Drop(ghost s: System, ghost f: nat)
      requires Agrees(s, f) && Polling(s, f, AtRest) && s.lock.None?
      modifies this, token.waiters
      ensures Agrees(Next(s, DropFuture(f)), f)
    {
      if registrationId.Some? {
        var id := registrationId.value;
        registrationId := None;
        var removed := token.Unregister(id);
      }
    }
  }
}
