/**
 * The onboarding store (providers/OnboardingProvider.tsx): the settings chosen
 * during onboarding and the flag that says onboarding is done, persisted under
 * noor_onboarding_complete (the text "true") and noor_onboarding_data.
 *
 * The clock and the outcome of every storage call are parameters.
 */
module OnboardingStore {
  import opened KeyValue

  datatype LocationMethod = Auto | Manual

  /** Where the user prays; coordinates are carried, never computed with. */
  datatype LocationData = LocationData(latitude: real, longitude: real, cityName: string, source: LocationMethod)

  /** Reminder preferences: on or off, which prayers, how many minutes before. */
  datatype NotificationSettings = NotificationSettings(enabled: bool, prayers: seq<string>, reminderMinutes: int)

  /** Everything onboarding collects; `completedAt` is stamped when it finishes. */
  datatype OnboardingData = OnboardingData(
    location: Option<LocationData>,
    calculationMethod: string,
    notifications: NotificationSettings,
    completedAt: Option<string>)

  /** The data a new or reset user starts from. */
  const DefaultOnboardingData: OnboardingData :=
    OnboardingData(None, "isna", NotificationSettings(false, [], 15), None)

  /** The text stored under the completion key once onboarding is done. */
  const CompleteFlagText: string := "true"

  /** The defaults: no location, the "isna" method, reminders off for no prayer at 15 minutes, never completed. */
  lemma DefaultsAreBlank()
    ensures DefaultOnboardingData.location == None
    ensures DefaultOnboardingData.calculationMethod == "isna"
    ensures !DefaultOnboardingData.notifications.enabled
    ensures DefaultOnboardingData.notifications.prayers == []
    ensures DefaultOnboardingData.notifications.reminderMinutes == 15
    ensures DefaultOnboardingData.completedAt == None
  {
  }

  /** setLocationData: replace the location and nothing else. */
  function WithLocation(d: OnboardingData, location: LocationData): (r: OnboardingData)
    ensures r.location == Some(location)
    ensures r.calculationMethod == d.calculationMethod && r.notifications == d.notifications && r.completedAt == d.completedAt
  {
    d.(location := Some(location))
  }

  /** setCalculationMethod: replace the calculation method and nothing else. */
  function WithCalculationMethod(d: OnboardingData, calculationMethod: string): (r: OnboardingData)
    ensures r.calculationMethod == calculationMethod
    ensures r.location == d.location && r.notifications == d.notifications && r.completedAt == d.completedAt
  {
    d.(calculationMethod := calculationMethod)
  }

  /** setNotificationSettings: replace the notification settings and nothing else. */
  function WithNotificationSettings(d: OnboardingData, settings: NotificationSettings): (r: OnboardingData)
    ensures r.notifications == settings
    ensures r.location == d.location && r.calculationMethod == d.calculationMethod && r.completedAt == d.completedAt
  {
    d.(notifications := settings)
  }

  /** The data completeOnboarding persists and keeps: the same, stamped with the completion time. */
  function Completed(d: OnboardingData, now: string): (r: OnboardingData)
    ensures r.completedAt == Some(now)
    ensures r.location == d.location && r.calculationMethod == d.calculationMethod && r.notifications == d.notifications
  {
    d.(completedAt := Some(now))
  }

  /** The completion flag a load settles on: true only for the exact text "true", and false after any error. */
  function LoadedFlag(readFails: bool, flagText: Option<string>, data: Slot<OnboardingData>): (complete: bool)
    ensures complete <==> !readFails && !data.Corrupt? && flagText == Some(CompleteFlagText)
  {
    if readFails then false
    else if data.Corrupt? then false
    else flagText == Some(CompleteFlagText)
  }

  /** Setters answer only for their own field: applying the three in either order gives the same data. */
  lemma SettersCommute(d: OnboardingData, l: LocationData, m: string, n: NotificationSettings)
    ensures WithLocation(WithCalculationMethod(WithNotificationSettings(d, n), m), l)
         == WithNotificationSettings(WithCalculationMethod(WithLocation(d, l), m), n)
  {
  }

  /** The provider's state and the two keys it persists. */
  class OnboardingState {
    /** None before the first load (React's initial `null`). */
    var isOnboardingComplete: Option<bool>
    var onboardingData: OnboardingData
    var isLoading: bool

    var storedFlag: Option<string>
    var storedData: Slot<OnboardingData>

    /** A store on first render: flag unknown, default data, still loading, over what the device holds. */
    constructor (flagText: Option<string>, dataBlob: Slot<OnboardingData>)
      ensures isOnboardingComplete == None && onboardingData == DefaultOnboardingData && isLoading
      ensures storedFlag == flagText && storedData == dataBlob
    {
      isOnboardingComplete, onboardingData, isLoading := None, DefaultOnboardingData, true;
      storedFlag, storedData := flagText, dataBlob;
    }

    /**
     * checkOnboardingStatus: read both keys (`readFails` is a rejected read). The
     * flag is set from the text first; saved data replaces the current data; a
     * data text that does not parse sends the load to its catch block, which
     * sets the flag false. Loading ends either way.
     */
    method CheckOnboardingStatus(readFails: bool)
      modifies this
      ensures !isLoading
      ensures isOnboardingComplete == Some(LoadedFlag(readFails, storedFlag, storedData))
      ensures onboardingData == if !readFails && storedData.Present? then storedData.value else old(onboardingData)
      ensures storedFlag == old(storedFlag) && storedData == old(storedData)
    {
      if readFails {
        isOnboardingComplete := Some(false);
      } else {
        isOnboardingComplete := Some(storedFlag == Some(CompleteFlagText));
        if storedData.Corrupt? {
          isOnboardingComplete := Some(false);
        } else if storedData.Present? {
          onboardingData := storedData.value;
        }
      }
      isLoading := false;
    }

    method SetLocationData(location: LocationData)
      modifies this
      ensures onboardingData == WithLocation(old(onboardingData), location)
      ensures isOnboardingComplete == old(isOnboardingComplete) && isLoading == old(isLoading)
      ensures storedFlag == old(storedFlag) && storedData == old(storedData)
    {
      onboardingData := WithLocation(onboardingData, location);
    }

    method SetCalculationMethod(calculationMethod: string)
      modifies this
      ensures onboardingData == WithCalculationMethod(old(onboardingData), calculationMethod)
      ensures isOnboardingComplete == old(isOnboardingComplete) && isLoading == old(isLoading)
      ensures storedFlag == old(storedFlag) && storedData == old(storedData)
    {
      onboardingData := WithCalculationMethod(onboardingData, calculationMethod);
    }

    method SetNotificationSettings(settings: NotificationSettings)
      modifies this
      ensures onboardingData == WithNotificationSettings(old(onboardingData), settings)
      ensures isOnboardingComplete == old(isOnboardingComplete) && isLoading == old(isLoading)
      ensures storedFlag == old(storedFlag) && storedData == old(storedData)
    {
      onboardingData := WithNotificationSettings(onboardingData, settings);
    }

    /**
     * completeOnboarding: write the flag and the stamped data together; each key
     * takes its write if that write lands. Only when both land are the data and
     * the flag updated in memory; otherwise the error is rethrown and memory is
     * left as it was.
     */
    method CompleteOnboarding(now: string, flagWriteOk: bool, dataWriteOk: bool) returns (r: Outcome)
      modifies this
      ensures r == Pass <==> flagWriteOk && dataWriteOk
      ensures r == Pass ==> onboardingData == Completed(old(onboardingData), now) && isOnboardingComplete == Some(true)
      ensures r != Pass ==> onboardingData == old(onboardingData) && isOnboardingComplete == old(isOnboardingComplete)
      ensures storedFlag == if flagWriteOk then Some(CompleteFlagText) else old(storedFlag)
      ensures storedData == AfterWrite(old(storedData), Completed(old(onboardingData), now), dataWriteOk)
      ensures isLoading == old(isLoading)
    {
      var finalData := Completed(onboardingData, now);
      if flagWriteOk {
        storedFlag := Some(CompleteFlagText);
      }
      storedData := AfterWrite(storedData, finalData, dataWriteOk);
      if !(flagWriteOk && dataWriteOk) {
        return Fail(WriteFailed);
      }
      onboardingData := finalData;
      isOnboardingComplete := Some(true);
      r := Pass;
    }

    /**
     * resetOnboarding: remove both keys; each key is gone if its removal lands.
     * Only when both land are the defaults and a false flag restored in memory;
     * a failure is swallowed and memory is left as it was.
     */
    method ResetOnboarding(flagRemoveOk: bool, dataRemoveOk: bool)
      modifies this
      ensures flagRemoveOk && dataRemoveOk ==> onboardingData == DefaultOnboardingData && isOnboardingComplete == Some(false)
      ensures !(flagRemoveOk && dataRemoveOk) ==> onboardingData == old(onboardingData) && isOnboardingComplete == old(isOnboardingComplete)
      ensures storedFlag == if flagRemoveOk then None else old(storedFlag)
      ensures storedData == if dataRemoveOk then Absent else old(storedData)
      ensures isLoading == old(isLoading)
    {
      if flagRemoveOk {
        storedFlag := None;
      }
      if dataRemoveOk {
        storedData := Absent;
      }
      if flagRemoveOk && dataRemoveOk {
        onboardingData := DefaultOnboardingData;
        isOnboardingComplete := Some(false);
      }
    }
  }

  /** A completion whose writes both land, followed by a load that succeeds, finds onboarding done and the stamped data. */
  method CompleteThenReload(s: OnboardingState, now: string) returns (r: Outcome)
    modifies s
    ensures r == Pass
    ensures s.isOnboardingComplete == Some(true) && s.onboardingData == Completed(old(s.onboardingData), now)
    ensures !s.isLoading
  {
    r := s.CompleteOnboarding(now, true, true);
    s.CheckOnboardingStatus(false);
  }

  /** A reset whose removals both land, followed by any load, finds onboarding not done and the defaults. */
  method ResetThenReload(s: OnboardingState, readFails: bool)
    modifies s
    ensures s.isOnboardingComplete == Some(false) && s.onboardingData == DefaultOnboardingData
    ensures !s.isLoading
  {
    s.ResetOnboarding(true, true);
    s.CheckOnboardingStatus(readFails);
  }
}
