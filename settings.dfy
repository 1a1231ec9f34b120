/** `src/stores/settings.ts`: the signed-in user's profile and settings, loaded together. */
module Settings {
  import opened Remote

  datatype UserProfile = UserProfile(name: string, email: string, fullName: Option<string>, isActive: bool)

  /** The settings record. The second field keeps the backend's own spelling,
      `defautl_sub_type_id`. */
  datatype UserSettings = UserSettings(
    defaultTypeId: Option<int>,
    defautlSubTypeId: Option<int>,
    locale: string,
    excludedActivityTypes: seq<int>)

  /** The body of `/users/me/settings/`: the settings sit under a `settings` property. */
  datatype SettingsCollection = SettingsCollection(settings: Field<UserSettings>)

  /** The error `fetchAllSettings` ends with, or `None` when both loads succeed. A fetch that
      throws rejects the `Promise.all` (the profile's first when both throw); otherwise the
      profile's status is checked before the settings' status. */
  function LoadError(profile: Outcome<UserProfile>, settings: Outcome<SettingsCollection>): (e: Option<string>)
    ensures e.None? <==> profile.Ok? && settings.Ok?
    ensures profile.Raised? ==> e == Some(profile.message)
    ensures settings.Raised? && !profile.Raised? ==> e == Some(settings.message)
    ensures profile.NotOk? && !settings.Raised? ==> e == Some("Failed to load user profile.")
    ensures profile.Ok? && settings.NotOk? ==> e == Some("Failed to load user settings.")
  {
    if profile.Raised? then Some(profile.message)
    else if settings.Raised? then Some(settings.message)
    else if profile.NotOk? then Some("Failed to load user profile.")
    else if settings.NotOk? then Some("Failed to load user settings.")
    else None
  }

  class SettingsStore {
    var userProfile: Option<UserProfile>
    var userSettings: Field<UserSettings>
    var isLoading: bool
    var error: Option<string>

    constructor ()
      ensures userProfile == None && userSettings == Null && !isLoading && error == None
    {
      userProfile := None;
      userSettings := Null;
      isLoading := false;
      error := None;
    }

    /** `fetchAllSettings`: single-flight; with a token both resources are requested, and
        profile and settings are assigned only when both loads succeed. */
    method FetchAllSettings(token: Option<string>, profile: Outcome<UserProfile>,
                            settings: Outcome<SettingsCollection>)
      returns (sent: seq<Request>)
      modifies this
      ensures old(isLoading) ==>
                sent == [] && isLoading && error == old(error)
                && userProfile == old(userProfile) && userSettings == old(userSettings)
      ensures !old(isLoading) ==> !isLoading
      ensures !old(isLoading) && !Present(token) ==>
                sent == [] && error == Some("Not authenticated.")
                && userProfile == old(userProfile) && userSettings == old(userSettings)
      ensures !old(isLoading) && Present(token) ==>
                sent == [Request(Get, "/users/me"), Request(Get, "/users/me/settings/")]
                && error == LoadError(profile, settings)
      ensures !old(isLoading) && Present(token) && profile.Ok? && settings.Ok? ==>
                userProfile == Some(profile.payload) && userSettings == settings.payload.settings
      ensures !(profile.Ok? && settings.Ok?) ==>
                userProfile == old(userProfile) && userSettings == old(userSettings)
    {
      if isLoading {
        return [];
      }
      isLoading := true;
      error := None;
      if !Present(token) {
        error := Some("Not authenticated.");
        isLoading := false;
        return [];
      }
      sent := [Request(Get, "/users/me"), Request(Get, "/users/me/settings/")];
      if profile.Raised? {
        error := Some(profile.message);
      } else if settings.Raised? {
        error := Some(settings.message);
      } else if !profile.Ok? {
        error := Some("Failed to load user profile.");
      } else if !settings.Ok? {
        error := Some("Failed to load user settings.");
      } else {
        userProfile := Some(profile.payload);
        userSettings := settings.payload.settings;
      }
      isLoading := false;
    }
  }
}
