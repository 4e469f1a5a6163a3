# Advertising-info provider, modelled in Dafny

This project models `AdvertisingInfoProvider` from the Twitter Kit for Android core module.
The provider serves the device's advertising record: an advertising identifier plus the user's
"limit ad tracking" opt-out flag. It works as a read-through cache over a preference store
with two keys, `advertising_id` and `limit_ad_tracking_enabled`:

- A record is valid when it exists and its identifier is non-empty.
- On a cache hit, the stored valid record is returned without a store write. A background
  refresh is started for it.
- On a cache miss, a two-step strategy chain is run and its result is persisted. The chain
  tries the reflection lookup first and the bound-service lookup second.
- Persisting a valid record writes both keys in one save. Persisting anything else removes
  both keys in one save.
- The refresh resolves the chain again and saves only when the result differs from the
  record that was served.

Files:

- `info.dfy`, module `Info`: the `AdvertisingInfo` value, the validity rule and the
  strategy chain. The chain comes with a reference definition over any number of
  strategies (`FirstValid`).
- `provider.dfy`, module `Provider`: the store contents as a value (`StoreState`) and the
  persistence and read rules as functions (`Persisted`, `ReadInfo`). It also holds the
  `PreferenceStore` class, which has the two optional keys and a ghost count of saves,
  and the `AdvertisingInfoProvider` class, whose methods change the store. Lemmas relate
  several calls to each other.

The source functions without a row of their own are modelled by definitions that the
lemmas and methods in the table are about: `Info.IsInfoValid` is `isInfoValid`
(AdvertisingInfoProvider.java:110-112), `Provider.ReadInfo` is the value
`getInfoFromPreferences` reads (lines 96-100), and `Provider.RefreshedStore` is the store
the refresh body leaves (lines 70-75).

Assumptions and modelling choices:

- `None` stands for Java `null`. The strategy results are parameters, since the strategies
  themselves are outside the model.
- `AdvertisingInfo.equals` is not part of this model. It is assumed to be structural
  equality on both fields, false against `null`. So in the model a null refresh result
  always counts as a change and clears the store.
- The refresh task that a cache hit starts on a new thread is the method
  `RefreshInfoIfNeeded`, which is called explicitly. `GetAdvertisingInfo` returns the record
  the task would compare against (`refreshFor`), or `None` on a miss, where no task starts.
- "The service strategy is not consulted" cannot be observed in a model with no effects.
  It is stated as independence instead: with a valid reflection result, the chain's answer
  is the same for every service result.
- One might expect an exhausted chain to return the invalid record `("", false)`. The code
  (AdvertisingInfoProvider.java:120-133) returns the service strategy's result as is: it may
  be `null`, or it may have an empty id with the flag set. The model follows the code. Such a
  result is returned to the caller, but the store reads back as `("", false)`; see
  `MissWithInvalidResultReadsDefaults`.

## Model

| member | source | states |
|---|---|---|
| `Info.ValidityRule` | twitter-core/src/main/java/com/twitter/sdk/android/core/internal/AdvertisingInfoProvider.java:110-112 | null is never valid; a record is valid exactly when its id is non-empty |
| `Info.ValidityIgnoresLimit` | twitter-core/src/main/java/com/twitter/sdk/android/core/internal/AdvertisingInfoProvider.java:110-112 | changing the opt-out flag never changes validity |
| `Info.AbsentIsInvalid` | twitter-core/src/main/java/com/twitter/sdk/android/core/internal/AdvertisingInfoProvider.java:96-112 | the defaults `("", false)` that an empty store reads as are an invalid record |
| `Info.FirstValid` | twitter-core/src/main/java/com/twitter/sdk/android/core/internal/AdvertisingInfoProvider.java:114-134 | reference chain over any number of strategies: the result is one of the strategy results; it is valid iff some strategy's result is valid; when none is, it is the last strategy's result |
| `Info.FirstValidIsFirst` | twitter-core/src/main/java/com/twitter/sdk/android/core/internal/AdvertisingInfoProvider.java:114-134 | the reference chain returns the first valid result in priority order |
| `Info.GetAdvertisingInfoFromStrategies` | twitter-core/src/main/java/com/twitter/sdk/android/core/internal/AdvertisingInfoProvider.java:114-134 | the two-step chain returns one of the two results; it is valid iff either one is valid; it equals the reference chain on `[reflection, service]` |
| `Info.ReflectionShortCircuits` | twitter-core/src/main/java/com/twitter/sdk/android/core/internal/AdvertisingInfoProvider.java:117-131 | a valid reflection result is returned, and the service result has no influence on the answer |
| `Info.ServiceFallback` | twitter-core/src/main/java/com/twitter/sdk/android/core/internal/AdvertisingInfoProvider.java:120-123 | with an invalid or null reflection result, the service result is returned as is, valid or not |
| `Provider.Persisted` | twitter-core/src/main/java/com/twitter/sdk/android/core/internal/AdvertisingInfoProvider.java:81-94 | the persisted store always has both keys or neither; a valid record reads back exactly; an invalid or null one reads back as `("", false)` |
| `Provider.ReadDefaults` | twitter-core/src/main/java/com/twitter/sdk/android/core/internal/AdvertisingInfoProvider.java:96-100 | an empty store reads as `("", false)` |
| `Provider.InvalidWriteClears` | twitter-core/src/main/java/com/twitter/sdk/android/core/internal/AdvertisingInfoProvider.java:86-91 | persisting an invalid or null record removes both keys, whatever the store held |
| `Provider.ReadPersistRoundTrip` | twitter-core/src/main/java/com/twitter/sdk/android/core/internal/AdvertisingInfoProvider.java:81-100 | on a store in the shape persistence leaves it, persisting what was read gives back the same store |
| `Provider.ValidReadIffIdStored` | twitter-core/src/main/java/com/twitter/sdk/android/core/internal/AdvertisingInfoProvider.java:96-100 | on such a store, a read is valid exactly when the id key is present |
| `Provider.RefreshSkipIsUnobservable` | twitter-core/src/main/java/com/twitter/sdk/android/core/internal/AdvertisingInfoProvider.java:70-75 | when the served record was read from such a store, skipping the write on "no change" leaves the same contents as always persisting the fresh result |
| `Provider.InvalidFreshClearsValidCache` | twitter-core/src/main/java/com/twitter/sdk/android/core/internal/AdvertisingInfoProvider.java:71-74 | a refresh that resolves an invalid or null record clears a valid cache |
| `Provider.MissThenHit` | twitter-core/src/main/java/com/twitter/sdk/android/core/internal/AdvertisingInfoProvider.java:50-59 | after a miss that resolved a valid record, the store reads back as that record and is valid, so the next call is a hit serving it |
| `Provider.MissWithInvalidResultReadsDefaults` | twitter-core/src/main/java/com/twitter/sdk/android/core/internal/AdvertisingInfoProvider.java:57-59 | after a miss that resolved an invalid record, the store reads back as `("", false)`, not as the returned record |
| `Provider.PreferenceStore.constructor` | twitter-core/src/main/java/com/twitter/sdk/android/core/internal/AdvertisingInfoProvider.java:37 | opening the store finds whatever contents it already held |
| `Provider.PreferenceStore.SavePut` | twitter-core/src/main/java/com/twitter/sdk/android/core/internal/AdvertisingInfoProvider.java:83-85 | one save of an edit that puts both keys; both keys hold the given values afterwards |
| `Provider.PreferenceStore.SaveRemove` | twitter-core/src/main/java/com/twitter/sdk/android/core/internal/AdvertisingInfoProvider.java:89-91 | one save of an edit that removes both keys; both keys are absent afterwards |
| `Provider.AdvertisingInfoProvider.constructor` | twitter-core/src/main/java/com/twitter/sdk/android/core/internal/AdvertisingInfoProvider.java:35-38 | the provider works on the given store |
| `Provider.AdvertisingInfoProvider.GetInfoFromPreferences` | twitter-core/src/main/java/com/twitter/sdk/android/core/internal/AdvertisingInfoProvider.java:96-100 | returns the stored record with a default for each absent key; it is valid iff a non-empty id is stored; the store is unchanged |
| `Provider.AdvertisingInfoProvider.StoreInfoToPreferences` | twitter-core/src/main/java/com/twitter/sdk/android/core/internal/AdvertisingInfoProvider.java:81-94 | exactly one save; afterwards the store is the persisted form of the record: a valid record reads back exactly, anything else leaves both keys absent |
| `Provider.AdvertisingInfoProvider.GetAdvertisingInfo` | twitter-core/src/main/java/com/twitter/sdk/android/core/internal/AdvertisingInfoProvider.java:47-60 | hit: returns the stored record and hands it to the refresh, with no save and the store unchanged; miss: returns the chain's result, saves once, and leaves the persisted form of that result; a store in the persisted shape stays in that shape |
| `Provider.AdvertisingInfoProvider.RefreshInfoIfNeeded` | twitter-core/src/main/java/com/twitter/sdk/android/core/internal/AdvertisingInfoProvider.java:67-78 | if the freshly resolved record equals the served one, there is no save and the store is unchanged; otherwise there is one save, leaving the persisted form of the fresh record; a store in the persisted shape stays in that shape |

## Left out

- Thread creation for the refresh: the refresh body is the explicitly invoked
  `RefreshInfoIfNeeded`. Races between a refresh's write and concurrent callers are not
  modelled, because a sequential model cannot state them.
- Logging through the framework logger: these calls are observation only.
- The concrete reflection and service strategies, `getReflectionStrategy` and
  `getServiceStrategy`: they call into the Android platform. Their results are parameters.
- The platform context, the preference-store implementation, the shared-preferences editor
  and `TextUtils.isEmpty`: these are library code. The store is two optional fields, and each
  save of an edit is one atomic update. The preferences file name is not modelled.
- `AdvertisingInfo.equals` and its constructor: they are not part of this model. Equality is
  assumed structural.
- A Java `null` identifier inside a record is not distinguished from `""`. Both count as empty
  for validity, and a valid record never stores either.
