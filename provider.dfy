/** The advertising-info orchestrator: a read-through cache over a two-key preference store,
    filled from the strategy chain and kept current by a refresh step.

    The store holds the keys `advertising_id` (a string) and `limit_ad_tracking_enabled`
    (a boolean); each may be absent. Every write replaces or removes both keys in a single
    `save` of one edit.
 */
module Provider {
  import opened Info

  /** The contents of the preference store; `None` is an absent key. */
  datatype StoreState = StoreState(advertisingId: Option<string>, limitAdTracking: Option<bool>)

  const EmptyStore := StoreState(None, None)

  /** A store as the persistence rule leaves it: both keys removed, or both present with a
      non-empty identifier. */
  predicate WellFormed(s: StoreState) {
    s == EmptyStore || (s.advertisingId.Some? && s.advertisingId.value != "" && s.limitAdTracking.Some?)
  }

  /** `getInfoFromPreferences`: each key read on its own, an absent id as `""` and an absent
      flag as `false`. */
  function ReadInfo(s: StoreState): (info: AdvertisingInfo) {
    AdvertisingInfo(
      if s.advertisingId.Some? then s.advertisingId.value else "",
      if s.limitAdTracking.Some? then s.limitAdTracking.value else false)
  }

  /** `storeInfoToPreferences`: the store contents after persisting `info`, whatever was there
      before. A valid record reads back exactly; anything else reads back as the defaults. */
  function Persisted(info: Option<AdvertisingInfo>): (s: StoreState)
    ensures WellFormed(s)
    ensures IsInfoValid(info) ==> ReadInfo(s) == info.value
    ensures !IsInfoValid(info) ==> ReadInfo(s) == Absent
  {
    if IsInfoValid(info) then StoreState(Some(info.value.advertisingId), Some(info.value.limitAdTrackingEnabled))
    else EmptyStore
  }

  /** Reading fresh defaults: an empty store yields `("", false)`. */
  lemma ReadDefaults()
    ensures ReadInfo(EmptyStore) == Absent
  {
  }

  /** Persisting an invalid or null record removes both keys. */
  lemma InvalidWriteClears(info: Option<AdvertisingInfo>)
    requires !IsInfoValid(info)
    ensures Persisted(info) == EmptyStore
    ensures ReadInfo(Persisted(info)) == Absent
  {
  }

  /** On a well-formed store, reading then persisting what was read gives back the store:
      the read loses nothing the persistence rule keeps. */
  lemma ReadPersistRoundTrip(s: StoreState)
    requires WellFormed(s)
    ensures Persisted(Some(ReadInfo(s))) == s
  {
  }

  /** On a well-formed store a read yields a valid record exactly when the id key is present. */
  lemma ValidReadIffIdStored(s: StoreState)
    requires WellFormed(s)
    ensures IsInfoValid(Some(ReadInfo(s))) <==> s.advertisingId.Some?
  {
  }

  /** A store the refresh step may leave as it was, or persist `latest` into. */
  function RefreshedStore(cached: AdvertisingInfo, latest: Option<AdvertisingInfo>, s: StoreState): (after: StoreState) {
    if Some(cached) == latest then s else Persisted(latest)
  }

  /** Skipping the write when nothing changed is invisible: on a well-formed store whose read
      gave `cached`, the refresh leaves the same contents as always persisting `latest`. */
  lemma RefreshSkipIsUnobservable(s: StoreState, cached: AdvertisingInfo, latest: Option<AdvertisingInfo>)
    requires WellFormed(s)
    requires ReadInfo(s) == cached
    ensures RefreshedStore(cached, latest, s) == Persisted(latest)
  {
    if Some(cached) == latest {
      ReadPersistRoundTrip(s);
    }
  }

  /** A refresh whose strategies all fail clears a previously valid cache. */
  lemma InvalidFreshClearsValidCache(s: StoreState, cached: AdvertisingInfo, latest: Option<AdvertisingInfo>)
    requires IsInfoValid(Some(cached))
    requires !IsInfoValid(latest)
    ensures RefreshedStore(cached, latest, s) == EmptyStore
  {
  }

  /** After a cache miss whose chain resolves a valid record, the next read of the store is a
      cache hit serving that same record. */
  lemma MissThenHit(reflection: Option<AdvertisingInfo>, service: Option<AdvertisingInfo>)
    requires IsInfoValid(GetAdvertisingInfoFromStrategies(reflection, service))
    ensures IsInfoValid(Some(ReadInfo(Persisted(GetAdvertisingInfoFromStrategies(reflection, service)))))
    ensures Some(ReadInfo(Persisted(GetAdvertisingInfoFromStrategies(reflection, service))))
         == GetAdvertisingInfoFromStrategies(reflection, service)
  {
  }

  /** A cache miss whose chain yields an invalid record, even one with its flag set, leaves a
      store that reads back as the defaults rather than as the record just returned. */
  lemma MissWithInvalidResultReadsDefaults(reflection: Option<AdvertisingInfo>, service: Option<AdvertisingInfo>)
    requires !IsInfoValid(GetAdvertisingInfoFromStrategies(reflection, service))
    ensures ReadInfo(Persisted(GetAdvertisingInfoFromStrategies(reflection, service))) == Absent
  {
  }

  /** The preference store: two optional keys, and a count of `save` calls so that "no write"
      can be told apart from "a write of the same contents". */
  class PreferenceStore {
    var advertisingId: Option<string>
    var limitAdTracking: Option<bool>
    ghost var saves: nat

    /** Opens a store holding whatever an earlier process left in it. */
    constructor (initial: StoreState)
      ensures State() == initial && saves == 0
    {
      advertisingId := initial.advertisingId;
      limitAdTracking := initial.limitAdTracking;
      saves := 0;
    }

    function State(): (s: StoreState)
      reads this
    {
      StoreState(advertisingId, limitAdTracking)
    }

    /** Saves one edit that puts both keys. */
    method SavePut(id: string, limit: bool)
      modifies this
      ensures State() == StoreState(Some(id), Some(limit))
      ensures saves == old(saves) + 1
    {
      advertisingId, limitAdTracking := Some(id), Some(limit);
      saves := saves + 1;
    }

    /** Saves one edit that removes both keys. */
    method SaveRemove()
      modifies this
      ensures State() == EmptyStore
      ensures saves == old(saves) + 1
    {
      advertisingId, limitAdTracking := None, None;
      saves := saves + 1;
    }
  }

  /** The orchestrator. The strategies' answers are passed to the operations that run the
      chain; the refresh task that a cache hit would start on a thread is the separate method
      `RefreshInfoIfNeeded`, to be invoked with the record the hit handed out. */
  class AdvertisingInfoProvider {
    const preferenceStore: PreferenceStore

    constructor (store: PreferenceStore)
      ensures preferenceStore == store
    {
      preferenceStore := store;
    }

    /** `getInfoFromPreferences`: reads the stored record, with defaults for absent keys. */
    method GetInfoFromPreferences() returns (info: AdvertisingInfo)
      ensures info == ReadInfo(preferenceStore.State())
      ensures preferenceStore.State() == EmptyStore ==> info == Absent
      ensures IsInfoValid(Some(info)) <==>
                preferenceStore.advertisingId.Some? && preferenceStore.advertisingId.value != ""
    {
      var id := if preferenceStore.advertisingId.Some? then preferenceStore.advertisingId.value else "";
      var limit := if preferenceStore.limitAdTracking.Some? then preferenceStore.limitAdTracking.value else false;
      info := AdvertisingInfo(id, limit);
    }

    /** `storeInfoToPreferences`: one save, putting both keys for a valid record and removing
        both otherwise, regardless of what the store held. */
    method StoreInfoToPreferences(info: Option<AdvertisingInfo>)
      modifies preferenceStore
      ensures preferenceStore.State() == Persisted(info)
      ensures IsInfoValid(info) ==> ReadInfo(preferenceStore.State()) == info.value
      ensures !IsInfoValid(info) ==> preferenceStore.State() == EmptyStore
      ensures preferenceStore.saves == old(preferenceStore.saves) + 1
    {
      if IsInfoValid(info) {
        preferenceStore.SavePut(info.value.advertisingId, info.value.limitAdTrackingEnabled);
      } else {
        preferenceStore.SaveRemove();
      }
    }

    /** `getAdvertisingInfo`. A valid stored record is returned as is, without a save, and is
        also handed back in `refreshFor` as the record the refresh task compares against. On a
        miss the chain's result is returned (valid or not, possibly null), after being
        persisted; no refresh is started. */
    method GetAdvertisingInfo(reflection: Option<AdvertisingInfo>, service: Option<AdvertisingInfo>)
      returns (info: Option<AdvertisingInfo>, refreshFor: Option<AdvertisingInfo>)
      modifies preferenceStore
      ensures IsInfoValid(Some(ReadInfo(old(preferenceStore.State())))) ==>
                info == Some(ReadInfo(old(preferenceStore.State()))) && refreshFor == info &&
                preferenceStore.State() == old(preferenceStore.State()) &&
                preferenceStore.saves == old(preferenceStore.saves)
      ensures !IsInfoValid(Some(ReadInfo(old(preferenceStore.State())))) ==>
                info == GetAdvertisingInfoFromStrategies(reflection, service) && refreshFor == None &&
                preferenceStore.State() == Persisted(info) &&
                preferenceStore.saves == old(preferenceStore.saves) + 1
      ensures WellFormed(old(preferenceStore.State())) ==> WellFormed(preferenceStore.State())
    {
      var cached := GetInfoFromPreferences();
      if IsInfoValid(Some(cached)) {
        return Some(cached), Some(cached);
      }
      info := GetAdvertisingInfoFromStrategies(reflection, service);
      StoreInfoToPreferences(info);
      refreshFor := None;
    }

    /** The body of the refresh task started for `advertisingInfo`: resolve the chain again and
        save only when the fresh result differs from the record that was served (a null fresh
        result always differs). */
    method RefreshInfoIfNeeded(advertisingInfo: AdvertisingInfo,
                               reflection: Option<AdvertisingInfo>, service: Option<AdvertisingInfo>)
      modifies preferenceStore
      ensures Some(advertisingInfo) == GetAdvertisingInfoFromStrategies(reflection, service) ==>
                preferenceStore.State() == old(preferenceStore.State()) &&
                preferenceStore.saves == old(preferenceStore.saves)
      ensures Some(advertisingInfo) != GetAdvertisingInfoFromStrategies(reflection, service) ==>
                preferenceStore.State() == Persisted(GetAdvertisingInfoFromStrategies(reflection, service)) &&
                preferenceStore.saves == old(preferenceStore.saves) + 1
      ensures preferenceStore.State()
           == RefreshedStore(advertisingInfo, GetAdvertisingInfoFromStrategies(reflection, service),
                             old(preferenceStore.State()))
      ensures WellFormed(old(preferenceStore.State())) ==> WellFormed(preferenceStore.State())
    {
      var infoToStore := GetAdvertisingInfoFromStrategies(reflection, service);
      if Some(advertisingInfo) != infoToStore {
        StoreInfoToPreferences(infoToStore);
      }
    }
  }
}
