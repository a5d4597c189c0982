/** The settings page (Settings.tsx): the one-way premium upgrade and the dark-mode
    switch. */
module SettingsPage {
  import opened Wrappers
  import opened Records
  import opened Auth
  import ThemeSelector

  /** The only update the upgrade ever asks for: `{ is_premium: true }`. */
  const PremiumPatch: ProfilePatch := ProfilePatch(None, Some(true))

  /** handlePremiumUpgrade's guard: a premium profile asks for nothing; any other
      session, a missing profile included (`profile?.is_premium` is then falsy), asks
      for the premium flag and nothing else. */
  function UpgradeRequest(profile: Option<Profile>): (r: Option<ProfilePatch>)
    ensures r.None? <==> ThemeSelector.IsPremium(profile)
    ensures r.Some? ==> r.value.isPremium == Some(true) && r.value.username.None?
  {
    if ThemeSelector.IsPremium(profile) then None else Some(PremiumPatch)
  }

  /** The session's profile after the handler, given whether `updateProfile` succeeds. */
  function Upgraded(profile: Option<Profile>, succeeds: bool): (r: Option<Profile>)
    ensures r.Some? <==> profile.Some?
    ensures r.Some? ==> r.value.id == profile.value.id && r.value.username == profile.value.username
    ensures r.Some? ==> (r.value.isPremium <==> profile.value.isPremium || succeeds)
  {
    if UpgradeRequest(profile).Some? && succeeds && profile.Some?
    then Some(ApplyPatch(profile.value, PremiumPatch))
    else profile
  }

  /** The upgrade is idempotent and one-way: once it has succeeded, every further
      call, whatever its outcome, leaves the profile as it is and asks for nothing. */
  lemma UpgradeIdempotent(p: Profile, succeeds: bool)
    ensures var q := Upgraded(Some(p), true);
      && ThemeSelector.IsPremium(q)
      && UpgradeRequest(q).None?
      && Upgraded(q, succeeds) == q
  {
  }

  /** The handler, against the session. The congratulation notice appears exactly
      when an update was asked for and came back without an error. */
  method HandlePremiumUpgrade(session: Session, succeeds: bool) returns (request: Option<ProfilePatch>, notice: bool)
    modifies session
    ensures request == UpgradeRequest(old(session.profile))
    ensures notice <==> request.Some? && succeeds
    ensures session.user == old(session.user)
    ensures session.profile == Upgraded(old(session.profile), succeeds)
  {
    request := UpgradeRequest(session.profile);
    notice := false;
    if request.None? {
      return;
    }
    var error := session.UpdateProfile(request.value, succeeds);
    notice := !error;
  }

  /** The switch is checked exactly when the colour theme is 'dark'. */
  predicate DarkModeChecked(theme: Option<string>)
  {
    theme == Some("dark")
  }

  /** The colour theme a flip of the switch writes. */
  function ThemeForSwitch(checked: bool): (r: string)
    ensures r == "dark" || r == "light"
  {
    if checked then "dark" else "light"
  }

  /** Flipping the switch to a position and reading it back gives that position. */
  lemma SwitchRoundTrip(checked: bool)
    ensures DarkModeChecked(Some(ThemeForSwitch(checked))) == checked
  {
  }

  /** The colour-theme setting the switch writes (next-themes' store, not part of this
      model). */
  class Appearance {
    var theme: Option<string>

    constructor (theme: Option<string>)
      ensures this.theme == theme
    {
      this.theme := theme;
    }

    method FlipDarkMode(checked: bool)
      modifies this
      ensures theme == Some(ThemeForSwitch(checked))
      ensures DarkModeChecked(theme) == checked
    {
      theme := Some(ThemeForSwitch(checked));
    }
  }
}
