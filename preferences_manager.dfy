/**
 * `PreferencesManager`: three boolean settings in their own key-value store named "settings".
 * A key that was never written reads `true`; each setter writes its own key only.
 */
module Preferences {
  import Repository

  /** Name of the settings store. */
  const StoreName := "settings"

  const NotificationEnabledKey := "notification_enabled"
  const MusicEnabledKey := "music_enabled"
  const VibrationEnabledKey := "vibration_enabled"

  /** `preferences[key] ?: true`. */
  function ReadFlag(prefs: map<string, bool>, key: string): (b: bool)
    ensures key !in prefs ==> b
    ensures key in prefs ==> b == prefs[key]
  {
    if key in prefs then prefs[key] else true
  }

  /** A flag reads back what was last written to it. */
  lemma ReadAfterWrite(prefs: map<string, bool>, key: string, enabled: bool)
    ensures ReadFlag(prefs[key := enabled], key) == enabled
  {
  }

  /** Writing one key leaves every other flag reading as before. */
  lemma WriteKeepsOthers(prefs: map<string, bool>, key: string, other: string, enabled: bool)
    requires key != other
    ensures ReadFlag(prefs[key := enabled], other) == ReadFlag(prefs, other)
  {
  }

  /** The "settings" store's contents. */
  class SettingsStore {
    var prefs: map<string, bool>

    constructor ()
      ensures prefs == map[]
    {
      prefs := map[];
    }
  }

  class PreferencesManager {
    const store: SettingsStore

    constructor (store: SettingsStore)
      ensures this.store == store
    {
      this.store := store;
    }

    function IsNotificationEnabled(): (b: bool)
      reads store
      ensures b <==> NotificationEnabledKey !in store.prefs || store.prefs[NotificationEnabledKey]
    {
      ReadFlag(store.prefs, NotificationEnabledKey)
    }

    function IsMusicEnabled(): (b: bool)
      reads store
      ensures b <==> MusicEnabledKey !in store.prefs || store.prefs[MusicEnabledKey]
    {
      ReadFlag(store.prefs, MusicEnabledKey)
    }

    function IsVibrationEnabled(): (b: bool)
      reads store
      ensures b <==> VibrationEnabledKey !in store.prefs || store.prefs[VibrationEnabledKey]
    {
      ReadFlag(store.prefs, VibrationEnabledKey)
    }

    method SetNotificationEnabled(enabled: bool)
      modifies store
      ensures store.prefs == old(store.prefs)[NotificationEnabledKey := enabled]
      ensures IsNotificationEnabled() == enabled
      ensures IsMusicEnabled() == old(IsMusicEnabled()) && IsVibrationEnabled() == old(IsVibrationEnabled())
    {
      store.prefs := store.prefs[NotificationEnabledKey := enabled];
    }

    method SetMusicEnabled(enabled: bool)
      modifies store
      ensures store.prefs == old(store.prefs)[MusicEnabledKey := enabled]
      ensures IsMusicEnabled() == enabled
      ensures IsNotificationEnabled() == old(IsNotificationEnabled()) && IsVibrationEnabled() == old(IsVibrationEnabled())
    {
      store.prefs := store.prefs[MusicEnabledKey := enabled];
    }

    method SetVibrationEnabled(enabled: bool)
      modifies store
      ensures store.prefs == old(store.prefs)[VibrationEnabledKey := enabled]
      ensures IsVibrationEnabled() == enabled
      ensures IsNotificationEnabled() == old(IsNotificationEnabled()) && IsMusicEnabled() == old(IsMusicEnabled())
    {
      store.prefs := store.prefs[VibrationEnabledKey := enabled];
    }
  }

  /**
   * The settings screen's three switches, written one after another: each flag reads what was
   * written to it, and the card-of-day record, which lives in another store, is untouched.
   */
  method SettingsKeepDailyRecord(manager: PreferencesManager, day: Repository.DayStore,
                                 notification: bool, music: bool, vibration: bool)
    modifies manager.store
    ensures day.Record() == old(day.Record())
    ensures manager.IsNotificationEnabled() == notification
    ensures manager.IsMusicEnabled() == music
    ensures manager.IsVibrationEnabled() == vibration
  {
    manager.SetNotificationEnabled(notification);
    manager.SetMusicEnabled(music);
    manager.SetVibrationEnabled(vibration);
  }
}
