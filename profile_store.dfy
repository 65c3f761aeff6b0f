/** The local profile store: one record per e-mail address, kept in browser
    storage under the key STORAGE_PREFIX + email, with a change broadcast
    after every save.

    The storage is a map from the full storage key to the record held there.
    The functions Lookup, Saved, Deleted and AfterAddHistoryEvent state what
    each operation does to that map; the lemmas below prove what they promise;
    the class DbService performs the operations in place and ties each one
    to its function. */
module ProfileStore {
  import opened Types
  import opened History

  const STORAGE_PREFIX: string := "sk_user_"

  /** The storage key of `email`; the e-mail can be read back from it, so
      different addresses never share a key. */
  function StorageKey(email: string): (k: string)
    ensures |k| == |STORAGE_PREFIX| + |email|
    ensures k[..|STORAGE_PREFIX|] == STORAGE_PREFIX
    ensures k[|STORAGE_PREFIX|..] == email
  {
    STORAGE_PREFIX + email
  }

  type Storage = map<string, FarmerProfile>

  /** The record stored for `email`, if any. */
  function Lookup(s: Storage, email: string): Option<FarmerProfile>
  {
    if StorageKey(email) in s then Some(s[StorageKey(email)]) else None
  }

  /** Every record is stored under the key of its own e-mail address. */
  ghost predicate WellKeyed(s: Storage)
  {
    forall k :: k in s ==> k == StorageKey(s[k].email)
  }

  /** The storage after saving `p` at time `now`: the whole record is
      replaced and its `lastSync` is `now`. */
  function Saved(s: Storage, p: FarmerProfile, now: string): Storage
  {
    s[StorageKey(p.email) := p.(lastSync := now)]
  }

  /** The storage after deleting the account of `email`. */
  function Deleted(s: Storage, email: string): Storage
  {
    s - {StorageKey(email)}
  }

  /** `p` with `e` recorded in its history. */
  function WithEvent(p: FarmerProfile, e: HistoryEvent): FarmerProfile
  {
    p.(history := Some(PrependEvent(e, HistoryOrEmpty(p.history))))
  }

  /** The storage after recording the event `d` for `email`, the event
      stamped with `id` and `timestamp` and the record saved at time `now`. */
  function AfterAddHistoryEvent(s: Storage, email: string, d: EventDetails,
                                id: string, timestamp: string, now: string): Storage
  {
    match Lookup(s, email)
    case None => s
    case Some(p) => Saved(s, WithEvent(p, NewEvent(d, id, timestamp)), now)
  }

  lemma StorageKeyInjective(a: string, b: string)
    requires StorageKey(a) == StorageKey(b)
    ensures a == b
  {
    assert a == StorageKey(a)[|STORAGE_PREFIX|..];
  }

  /** In well-keyed storage, the record found for `email` belongs to `email`. */
  lemma LookupOwnEmail(s: Storage, email: string)
    requires WellKeyed(s)
    ensures Lookup(s, email).Some? ==> Lookup(s, email).value.email == email
  {
    if StorageKey(email) in s {
      StorageKeyInjective(email, s[StorageKey(email)].email);
    }
  }

  /** A save followed by a read gives back the saved record, except that
      `lastSync` is the time of the save whatever the caller put there. */
  lemma SaveThenLookup(s: Storage, p: FarmerProfile, now: string)
    ensures Lookup(Saved(s, p, now), p.email).Some?
    ensures Lookup(Saved(s, p, now), p.email).value.lastSync == now
    ensures Lookup(Saved(s, p, now), p.email).value.(lastSync := p.lastSync) == p
  {
  }

  /** A save leaves the record of every other e-mail address as it was. */
  lemma SaveLeavesOthers(s: Storage, p: FarmerProfile, now: string, other: string)
    requires other != p.email
    ensures Lookup(Saved(s, p, now), other) == Lookup(s, other)
  {
    if StorageKey(other) == StorageKey(p.email) {
      StorageKeyInjective(other, p.email);
    }
  }

  lemma SaveKeepsWellKeyed(s: Storage, p: FarmerProfile, now: string)
    requires WellKeyed(s)
    ensures WellKeyed(Saved(s, p, now))
  {
  }

  /** After a deletion no record is found for the address, whether or not
      one was stored; a second deletion changes nothing; keying is kept. */
  lemma DeleteRemoves(s: Storage, email: string)
    ensures Lookup(Deleted(s, email), email) == None
    ensures Deleted(Deleted(s, email), email) == Deleted(s, email)
    ensures WellKeyed(s) ==> WellKeyed(Deleted(s, email))
  {
  }

  /** A deletion leaves the record of every other address as it was. */
  lemma DeleteLeavesOthers(s: Storage, email: string, other: string)
    requires other != email
    ensures Lookup(Deleted(s, email), other) == Lookup(s, other)
  {
    if StorageKey(other) == StorageKey(email) {
      StorageKeyInjective(other, email);
    }
  }

  /** Recording an event for an address with no stored record changes nothing. */
  lemma AddToMissingIsNoop(s: Storage, email: string, d: EventDetails,
                           id: string, timestamp: string, now: string)
    requires Lookup(s, email).None?
    ensures AfterAddHistoryEvent(s, email, d, id, timestamp, now) == s
  {
  }

  /** Recording an event for a stored record puts the new event first,
      keeps the old history in order behind it (an absent history counting
      as empty), bounds the history to HISTORY_LIMIT entries, stamps
      `lastSync`, and changes no other field. */
  lemma AddHistoryEventShape(s: Storage, email: string, d: EventDetails,
                             id: string, timestamp: string, now: string)
    requires WellKeyed(s) && Lookup(s, email).Some?
    ensures var p := Lookup(s, email).value;
            var old_h := HistoryOrEmpty(p.history);
            var r := Lookup(AfterAddHistoryEvent(s, email, d, id, timestamp, now), email);
            && r.Some? && r.value.history.Some?
            && var h := r.value.history.value;
            && |h| == Min(|old_h| + 1, HISTORY_LIMIT)
            && h[0] == HistoryEvent(id, timestamp, d.kind, d.title, d.details, d.metadata)
            && h[1..] == old_h[..|h| - 1]
            && r.value.lastSync == now
            && r.value.(history := p.history, lastSync := p.lastSync) == p
  {
    LookupOwnEmail(s, email);
  }

  /** Recording an event for `email` leaves every other address's record
      as it was. */
  lemma AddLeavesOthers(s: Storage, email: string, d: EventDetails,
                        id: string, timestamp: string, now: string, other: string)
    requires WellKeyed(s) && other != email
    ensures Lookup(AfterAddHistoryEvent(s, email, d, id, timestamp, now), other) == Lookup(s, other)
  {
    LookupOwnEmail(s, email);
    if Lookup(s, email).Some? {
      SaveLeavesOthers(s, WithEvent(Lookup(s, email).value, NewEvent(d, id, timestamp)), now, other);
    }
  }

  /** The store of one browser: its storage and the log of change
      notifications (the e-mail address each broadcast carried), in order. */
  class DbService {
    var storage: Storage
    ghost var notifications: seq<string>

    ghost predicate Valid()
      reads this
    {
      WellKeyed(storage)
    }

    /** A store over what earlier sessions left in the browser's storage. */
    constructor (persisted: Storage)
      requires WellKeyed(persisted)
      ensures Valid()
      ensures storage == persisted && notifications == []
    {
      storage := persisted;
      notifications := [];
    }

    /** The record stored for `email`, or None when there is none. */
    method GetUserProfile(email: string) returns (r: Option<FarmerProfile>)
      requires Valid()
      ensures r == Lookup(storage, email)
      ensures r.None? <==> StorageKey(email) !in storage
      ensures r.Some? ==> r.value.email == email
    {
      var key := StorageKey(email);
      if key in storage {
        r := Some(storage[key]);
      } else {
        r := None;
      }
      LookupOwnEmail(storage, email);
    }

    /** Overwrites the record of `profile.email`, stamping `lastSync` with
        `now`, and broadcasts the address. */
    method SaveUserProfile(profile: FarmerProfile, now: string)
      requires Valid()
      modifies this
      ensures Valid()
      ensures storage == Saved(old(storage), profile, now)
      ensures notifications == old(notifications) + [profile.email]
      ensures Lookup(storage, profile.email) == Some(profile.(lastSync := now))
      ensures forall other :: other != profile.email ==>
        Lookup(storage, other) == Lookup(old(storage), other)
    {
      SaveKeepsWellKeyed(storage, profile, now);
      forall other | other != profile.email
        ensures Lookup(Saved(storage, profile, now), other) == Lookup(storage, other)
      {
        SaveLeavesOthers(storage, profile, now, other);
      }
      storage := storage[StorageKey(profile.email) := profile.(lastSync := now)];
      notifications := notifications + [profile.email];
    }

    /** Records the event `event` for `email`, stamped with `id` and
        `timestamp`, saving the record at time `now`; does nothing, and
        broadcasts nothing, when no record is stored for `email`. */
    method AddHistoryEvent(email: string, event: EventDetails,
                           id: string, timestamp: string, now: string)
      requires Valid()
      modifies this
      ensures Valid()
      ensures storage == AfterAddHistoryEvent(old(storage), email, event, id, timestamp, now)
      ensures notifications == old(notifications) +
        (if Lookup(old(storage), email).Some? then [email] else [])
      ensures forall other :: other != email ==>
        Lookup(storage, other) == Lookup(old(storage), other)
    {
      var profile := GetUserProfile(email);
      if profile.None? {
        return;
      }
      var newEvent := NewEvent(event, id, timestamp);
      var updated := profile.value.(history := Some(PrependEvent(newEvent, HistoryOrEmpty(profile.value.history))));
      SaveUserProfile(updated, now);
    }

    /** Whether a record is stored for `email`. */
    method UserExists(email: string) returns (b: bool)
      ensures b <==> Lookup(storage, email).Some?
    {
      b := StorageKey(email) in storage;
    }

    /** Removes the record of `email`, if there is one. No broadcast. */
    method DeleteAccount(email: string)
      requires Valid()
      modifies this
      ensures Valid()
      ensures storage == Deleted(old(storage), email)
      ensures notifications == old(notifications)
      ensures Lookup(storage, email).None?
      ensures forall other :: other != email ==>
        Lookup(storage, other) == Lookup(old(storage), other)
    {
      DeleteRemoves(storage, email);
      forall other | other != email
        ensures Lookup(Deleted(storage, email), other) == Lookup(storage, other)
      {
        DeleteLeavesOthers(storage, email, other);
      }
      storage := storage - {StorageKey(email)};
    }
  }

  /** The application's own use of the store: onboarding saves the first
      record, whose history holds the one initial ONBOARDING event, a
      diagnosis is recorded, the session is reset twice. */
  method AppSessionScenario(first: FarmerProfile, d: EventDetails, t0: string, t1: string)
    requires first.email == "my_farm_user"
    requires first.history == Some([HistoryEvent("initial", t0, OnboardingDone, "System Initialized",
                                                 "Farm profile and soil parameters calibrated.", None)])
  {
    var db := new DbService(map[]);
    var missing := db.GetUserProfile("my_farm_user");
    assert missing == None;

    db.SaveUserProfile(first, t0);
    var got := db.GetUserProfile("my_farm_user");
    assert got.Some? && got.value.history == first.history && got.value.lastSync == t0;

    db.AddHistoryEvent("my_farm_user", d, "k3j9x2", t1, t1);
    got := db.GetUserProfile("my_farm_user");
    assert got.Some? && got.value.history.Some? && |got.value.history.value| == 2;
    assert got.value.history.value[0].id == "k3j9x2" && got.value.history.value[1].id == "initial";
    assert |db.notifications| == 2;

    db.AddHistoryEvent("ghost", d, "q7w1e5", t1, t1);
    var ghostExists := db.UserExists("ghost");
    assert !ghostExists && |db.notifications| == 2;

    db.DeleteAccount("my_farm_user");
    var present := db.UserExists("my_farm_user");
    assert !present;
    db.DeleteAccount("my_farm_user");
    present := db.UserExists("my_farm_user");
    assert !present;
  }
}
