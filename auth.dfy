/** The session the pages read (the auth context, whose code is not part of this
    model): the signed-in user, their profile, and `updateProfile`, modelled as a call
    that either applies a partial update to the profile or reports an error. */
module Auth {
  import opened Wrappers
  import opened Records

  /** A partial profile update; None leaves a column as it is. */
  datatype ProfilePatch = ProfilePatch(username: Option<string>, isPremium: Option<bool>)

  function ApplyPatch(p: Profile, patch: ProfilePatch): (r: Profile)
    ensures r.id == p.id
    ensures r.username == (if patch.username.Some? then patch.username.value else p.username)
    ensures r.isPremium == (if patch.isPremium.Some? then patch.isPremium.value else p.isPremium)
  {
    Profile(p.id, patch.username.GetOr(p.username), patch.isPremium.GetOr(p.isPremium))
  }

  /** What a page shows: a page without a signed-in user navigates to /login and
      renders nothing. */
  datatype Screen = RedirectToLogin | Page

  function Gate(user: Option<Id>): Screen
  {
    if user.None? then RedirectToLogin else Page
  }

  class Session {
    var user: Option<Id>
    var profile: Option<Profile>

    constructor (user: Option<Id>, profile: Option<Profile>)
      ensures this.user == user && this.profile == profile
    {
      this.user := user;
      this.profile := profile;
    }

    /** updateProfile: on success the session's profile is replaced by the patched
        one; on error nothing changes. */
    method UpdateProfile(patch: ProfilePatch, succeeds: bool) returns (error: bool)
      modifies this`profile
      ensures error <==> !succeeds
      ensures profile == if succeeds && old(profile).Some? then Some(ApplyPatch(old(profile).value, patch))
                         else old(profile)
    {
      error := !succeeds;
      if succeeds && profile.Some? {
        profile := Some(ApplyPatch(profile.value, patch));
      }
    }
  }
}
