/** The advertising record, its validity rule and the strategy fallback chain.

    A strategy is an opaque provider (on-device reflection lookup, bound-service lookup);
    the model only sees what each one returned, as an `Option<AdvertisingInfo>`, where
    `None` stands for the Java `null` that `isInfoValid` explicitly tolerates.
 */
module Info {

  datatype Option<T> = None | Some(value: T)

  /** The advertising identifier and the user's opt-out flag. Equality is structural
      (both fields), which is what `AdvertisingInfo.equals` is assumed to do. */
  datatype AdvertisingInfo = AdvertisingInfo(advertisingId: string, limitAdTrackingEnabled: bool)

  /** The record a read of an empty store yields: both keys at their defaults. */
  const Absent := AdvertisingInfo("", false)

  /** A record is usable when it exists and carries a non-empty identifier. */
  predicate IsInfoValid(info: Option<AdvertisingInfo>) {
    info.Some? && info.value.advertisingId != ""
  }

  /** Null is never valid; a record is valid exactly when its id has at least one character,
      whatever its flag says. */
  lemma ValidityRule(id: string, limit: bool)
    ensures !IsInfoValid(None)
    ensures IsInfoValid(Some(AdvertisingInfo(id, limit))) <==> |id| > 0
  {
  }

  /** The opt-out flag plays no part in validity. */
  lemma ValidityIgnoresLimit(info: AdvertisingInfo, limit: bool)
    ensures IsInfoValid(Some(info)) == IsInfoValid(Some(info.(limitAdTrackingEnabled := limit)))
  {
  }

  /** The sentinel a read of an empty store produces is invalid. */
  lemma AbsentIsInvalid()
    ensures !IsInfoValid(Some(Absent))
  {
  }

  /** Reference definition of a prioritised strategy chain: the first valid result in
      priority order, or the last strategy's result (whatever it is) when none is valid. */
  function FirstValid(results: seq<Option<AdvertisingInfo>>): (r: Option<AdvertisingInfo>)
    requires |results| > 0
    ensures r in results
    ensures IsInfoValid(r) <==> exists k :: 0 <= k < |results| && IsInfoValid(results[k])
    ensures !IsInfoValid(r) ==> r == results[|results| - 1]
    decreases |results|
  {
    if |results| == 1 || IsInfoValid(results[0]) then results[0] else FirstValid(results[1..])
  }

  /** The chain returns the first valid result in priority order. */
  lemma {:induction false} FirstValidIsFirst(results: seq<Option<AdvertisingInfo>>, i: nat)
    requires i < |results|
    requires IsInfoValid(results[i])
    requires forall j :: 0 <= j < i ==> !IsInfoValid(results[j])
    ensures FirstValid(results) == results[i]
  {
    if i > 0 {
      assert !IsInfoValid(results[0]);
      FirstValidIsFirst(results[1..], i - 1);
    }
  }

  /** `getAdvertisingInfoFromStrategies`: try the reflection strategy, and consult the
      service strategy only when the reflection result is not valid. The service result is
      returned without any further check, so it may be invalid or null. */
  function GetAdvertisingInfoFromStrategies(reflection: Option<AdvertisingInfo>,
                                            service: Option<AdvertisingInfo>): (r: Option<AdvertisingInfo>)
    ensures r == reflection || r == service
    ensures IsInfoValid(r) <==> IsInfoValid(reflection) || IsInfoValid(service)
    ensures r == FirstValid([reflection, service])
  {
    assert [reflection, service][1..] == [service];
    if IsInfoValid(reflection) then reflection else service
  }

  /** A valid reflection result wins, and the service strategy cannot influence the answer:
      with any two service results the chain returns the same record. */
  lemma ReflectionShortCircuits(reflection: Option<AdvertisingInfo>,
                                service1: Option<AdvertisingInfo>, service2: Option<AdvertisingInfo>)
    requires IsInfoValid(reflection)
    ensures GetAdvertisingInfoFromStrategies(reflection, service1) == reflection
    ensures GetAdvertisingInfoFromStrategies(reflection, service1)
         == GetAdvertisingInfoFromStrategies(reflection, service2)
  {
  }

  /** An invalid (or null) reflection result hands the decision entirely to the service
      strategy, whose answer comes back as is, valid or not. */
  lemma ServiceFallback(reflection: Option<AdvertisingInfo>, service: Option<AdvertisingInfo>)
    requires !IsInfoValid(reflection)
    ensures GetAdvertisingInfoFromStrategies(reflection, service) == service
  {
  }
}
