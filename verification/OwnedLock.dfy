/** The owned Redis lock: acquire, release and complete as atomic scripts over one key. */
module OwnedLock {
  import opened Wrappers

  const COMPLETED := "completed"

  datatype Slot = Slot(value: string, deadline: int)

  datatype Store = Store(slot: Option<Slot>, now: int)

  datatype Event =
    | Acquire(token: string, ttl: nat)
    | Release(token: string)
    | Complete(token: string, ttl: nat)
    | Wait(seconds: nat)

  /** What GET returns: an expired key is gone. */
  function Current(s: Store): Option<string> {
    if s.slot.Some? && s.now < s.slot.value.deadline then Some(s.slot.value.value) else None
  }

  predicate Holds(s: Store, token: string) {
    Current(s) == Some(token)
  }

  /** The script's reply: 1 is success. */
  predicate Succeeds(s: Store, e: Event) {
    match e
    case Acquire(token, _) => Holds(s, token) || Current(s).None?
    case Release(token) => Holds(s, token)
    case Complete(token, _) => Holds(s, token) || Holds(s, COMPLETED)
    case Wait(_) => true
  }

  /** The store after one script or a pause. Re-acquiring does not extend the deadline. */
  function After(s: Store, e: Event): Store {
    match e
    case Acquire(token, ttl) => if Current(s).None? then s.(slot := Some(Slot(token, s.now + ttl))) else s
    case Release(token) => if Holds(s, token) then s.(slot := None) else s
    case Complete(token, ttl) => if Holds(s, token) then s.(slot := Some(Slot(COMPLETED, s.now + ttl))) else s
    case Wait(seconds) => s.(now := s.now + seconds)
  }

  function Run(s: Store, h: seq<Event>): Store
    decreases |h|
  {
    if h == [] then s else Run(After(s, h[0]), h[1..])
  }

  /** `token` gives the lock up itself: it releases or completes. */
  predicate GivesUp(h: seq<Event>, token: string) {
    exists i :: 0 <= i < |h| && (h[i] == Release(token) || (h[i].Complete? && h[i].token == token))
  }

  lemma {:induction false} TimeMovesOn(s: Store, h: seq<Event>)
    ensures s.now <= Run(s, h).now
    decreases |h|
  {
    if h != [] {
      TimeMovesOn(After(s, h[0]), h[1..]);
    }
  }

  lemma GivesUpLater(h: seq<Event>, token: string)
    requires h != []
    ensures GivesUp(h[1..], token) ==> GivesUp(h, token)
  {
    forall i | 0 <= i < |h| - 1 ensures h[1..][i] == h[i + 1] {}
  }

  /** Until its deadline a holder loses the lock only by giving it up. */
  lemma {:induction false} HolderKeepsLock(s: Store, h: seq<Event>, token: string)
    requires Holds(s, token) && token != COMPLETED && !GivesUp(h, token)
    requires Run(s, h).now < s.slot.value.deadline
    ensures Run(s, h).slot == s.slot && Holds(Run(s, h), token)
    decreases |h|
  {
    if h != [] {
      var t := After(s, h[0]);
      TimeMovesOn(t, h[1..]);
      assert t.slot == s.slot by {
        assert !(h[0] == Release(token) || (h[0].Complete? && h[0].token == token));
      }
      GivesUpLater(h, token);
      HolderKeepsLock(t, h[1..], token);
    }
  }

  /**
   * Two workers never own the lock together: if one token holds it and later another one does,
   * the first gave it up or ran out of its time in between.
   */
  lemma OwnersAreSeparated(s: Store, h: seq<Event>, first: string, second: string)
    requires first != second && first != COMPLETED
    requires Holds(s, first) && Holds(Run(s, h), second)
    ensures GivesUp(h, first) || s.slot.value.deadline <= Run(s, h).now
  {
    if !GivesUp(h, first) && Run(s, h).now < s.slot.value.deadline {
      HolderKeepsLock(s, h, first);
    }
  }

  /** While a completion marker lives, nobody acquires and nobody can remove it. */
  lemma {:induction false} CompletionIsDurable(s: Store, h: seq<Event>)
    requires Holds(s, COMPLETED) && Run(s, h).now < s.slot.value.deadline
    requires forall i :: 0 <= i < |h| && !h[i].Wait? ==> h[i].token != COMPLETED
    ensures Run(s, h).slot == s.slot
    ensures forall token, ttl :: token != COMPLETED ==> !Succeeds(Run(s, h), Acquire(token, ttl))
    decreases |h|
  {
    if h != [] {
      var t := After(s, h[0]);
      TimeMovesOn(t, h[1..]);
      forall i | 0 <= i < |h| - 1 && !h[1..][i].Wait? ensures h[1..][i].token != COMPLETED {
        assert h[1..][i] == h[i + 1];
      }
      CompletionIsDurable(t, h[1..]);
    }
  }

  /** A processed webhook event is not processed again before its marker expires. */
  lemma ProcessedOnce(s: Store, token: string, ttl: nat, h: seq<Event>, other: string, otherTtl: nat)
    requires Holds(s, token) && other != COMPLETED
    requires forall i :: 0 <= i < |h| && !h[i].Wait? ==> h[i].token != COMPLETED
    requires var done := Run(After(s, Complete(token, ttl)), h); done.now < s.now + ttl
    ensures !Succeeds(Run(After(s, Complete(token, ttl)), h), Acquire(other, otherTtl))
  {
    var t := After(s, Complete(token, ttl));
    TimeMovesOn(t, h);
    CompletionIsDurable(t, h);
  }

  /** A positive reply is the truth: the token holds the key, or its owner's script took effect. */
  lemma RepliesAreTrue(s: Store, e: Event)
    requires !e.Wait?
    ensures var live := s.slot.Some? && s.now < s.slot.value.deadline;
      match e
      case Acquire(token, ttl) => Succeeds(s, e) <==> !live || s.slot.value.value == token
      case Release(token) => Succeeds(s, e) <==> live && s.slot.value.value == token
      case Complete(token, ttl) => Succeeds(s, e) <==> live && (s.slot.value.value == token || s.slot.value.value == COMPLETED)
  {
  }

  /** Of two different tokens that were both told they own the key, the first had let go of it. */
  lemma AcquiresAreSeparated(s: Store, first: string, ttl: nat, h: seq<Event>, second: string, ttl2: nat)
    requires first != second && first != COMPLETED && ttl > 0 && Succeeds(s, Acquire(first, ttl))
    requires Succeeds(Run(After(s, Acquire(first, ttl)), h), Acquire(second, ttl2))
    ensures var t := After(s, Acquire(first, ttl));
      Holds(t, first) && (GivesUp(h, first) || t.slot.value.deadline <= Run(t, h).now)
  {
    var t := After(s, Acquire(first, ttl));
    RepliesAreTrue(Run(t, h), Acquire(second, ttl2));
    if !GivesUp(h, first) && Run(t, h).now < t.slot.value.deadline {
      HolderKeepsLock(t, h, first);
    }
  }

  /**
   * A key that is absent, expired or just released by its owner is acquired by whoever asks
   * next, and held for the full lifetime unless given up.
   */
  lemma FreeKeyIsAcquired(s: Store, token: string, ttl: nat, h: seq<Event>)
    requires s.slot.None? || s.slot.value.deadline <= s.now
    requires token != COMPLETED && !GivesUp(h, token)
    requires Run(After(s, Acquire(token, ttl)), h).now < s.now + ttl
    ensures Succeeds(s, Acquire(token, ttl)) && Holds(Run(After(s, Acquire(token, ttl)), h), token)
    ensures Run(After(s, Acquire(token, ttl)), h).slot == Some(Slot(token, s.now + ttl))
  {
    TimeMovesOn(After(s, Acquire(token, ttl)), h);
    HolderKeepsLock(After(s, Acquire(token, ttl)), h, token);
  }

  lemma ReleaseHandsOver(s: Store, owner: string, token: string, ttl: nat, h: seq<Event>)
    requires Holds(s, owner) && token != COMPLETED && !GivesUp(h, token)
    requires Run(After(After(s, Release(owner)), Acquire(token, ttl)), h).now < s.now + ttl
    ensures Holds(Run(After(After(s, Release(owner)), Acquire(token, ttl)), h), token)
  {
    FreeKeyIsAcquired(After(s, Release(owner)), token, ttl, h);
  }

  /** The history without the scripts that were refused. */
  function Effective(s: Store, h: seq<Event>): seq<Event>
    decreases |h|
  {
    if h == [] then []
    else (if Succeeds(s, h[0]) then [h[0]] else []) + Effective(After(s, h[0]), h[1..])
  }

  /** Refused scripts are invisible: erasing them from any history leaves the same key. */
  lemma {:induction false} RefusalsAreInvisible(s: Store, h: seq<Event>)
    ensures Run(s, Effective(s, h)) == Run(s, h)
    decreases |h|
  {
    if h != [] {
      var t := After(s, h[0]);
      RefusalsAreInvisible(t, h[1..]);
      if Succeeds(s, h[0]) {
        var rest := Effective(t, h[1..]);
        assert ([h[0]] + rest)[0] == h[0] && ([h[0]] + rest)[1..] == rest;
      } else {
        assert t == s && Effective(s, h) == Effective(t, h[1..]);
      }
    }
  }

  class RedisKey {
    var store: Store

    constructor (s: Store)
      ensures store == s
    {
      store := s;
    }

    method Get() returns (value: Option<string>)
      ensures value == Current(store)
    {
      if store.slot.None? || store.now >= store.slot.value.deadline {
        return None;
      }
      value := Some(store.slot.value.value);
    }

    method Set(value: string, ttl: nat)
      modifies this
      ensures store == old(store).(slot := Some(Slot(value, old(store).now + ttl)))
    {
      store := store.(slot := Some(Slot(value, store.now + ttl)));
    }

    method AcquireScript(token: string, ttl: nat) returns (ok: bool)
      modifies this
      ensures ok == Succeeds(old(store), Acquire(token, ttl)) && store == After(old(store), Acquire(token, ttl))
    {
      var current := Get();
      if current == Some(token) {
        return true;
      }
      if current.Some? {
        return false;
      }
      Set(token, ttl);
      ok := true;
    }

    method ReleaseScript(token: string) returns (ok: bool)
      modifies this
      ensures ok == Succeeds(old(store), Release(token)) && store == After(old(store), Release(token))
    {
      var current := Get();
      if current == Some(token) {
        store := store.(slot := None);
        return true;
      }
      ok := false;
    }

    method CompleteScript(token: string, ttl: nat) returns (ok: bool)
      modifies this
      ensures ok == Succeeds(old(store), Complete(token, ttl)) && store == After(old(store), Complete(token, ttl))
    {
      var current := Get();
      if current == Some(token) {
        Set(COMPLETED, ttl);
        return true;
      }
      ok := current == Some(COMPLETED);
    }
  }
}
