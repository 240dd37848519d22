/** The session and profile state shared by the app
    (src/state/SessionProvider.tsx): the auth listener, the profile load with
    its `lastLoadedUserId` guard and automatic profile creation, the forced
    refresh and the combined loading flag. The backend's answers are
    parameters; each load runs as one start step and one completion step. */
module SessionProvider {
  import opened Common
  import opened Strings
  import opened ProfileTypes

  /** The part of a Supabase `Session` the provider reads. */
  datatype Session = Session(userId: Id, email: Option<string>)

  /** A `profiles` row as stored: the list and the flag may be null. */
  datatype ProfileRow = ProfileRow(
    id: Id,
    displayName: Option<string>,
    avatarUrl: Option<string>,
    mail: Option<string>,
    goal: Option<string>,
    goalDescription: Option<string>,
    timezone: Option<string>,
    trainingDays: Option<seq<TrainingDay>>,
    onboardingComplete: Option<bool>)

  /** `{ ...row, training_days: row.training_days ?? [], onboarding_complete: Boolean(row.onboarding_complete) }` */
  function Normalize(row: ProfileRow): (p: Profile)
    ensures p.id == row.id && p.displayName == row.displayName && p.avatarUrl == row.avatarUrl
    ensures p.mail == row.mail && p.goal == row.goal && p.goalDescription == row.goalDescription
    ensures p.timezone == row.timezone
    ensures p.trainingDays == (if row.trainingDays.Some? then row.trainingDays.value else [])
    ensures p.onboardingComplete <==> row.onboardingComplete == Some(true)
  {
    Profile(row.id, row.displayName, row.avatarUrl, row.mail, row.goal, row.goalDescription, row.timezone,
            row.trainingDays.GetOr([]), row.onboardingComplete == Some(true))
  }

  /** The name a created profile gets when the session has no e-mail. */
  const DefaultDisplayName := "Kullanıcı"

  /** The row upserted for a user without a profile. */
  datatype ProfileInsert = ProfileInsert(
    id: Id,
    displayName: string,
    mail: Option<string>,
    onboardingComplete: bool,
    trainingDays: seq<TrainingDay>,
    timezone: string)

  /** `insertPayload`: named after the text before the first '@' of the e-mail,
      not onboarded, with no training days, in UTC. */
  function NewProfilePayload(userId: Id, email: Option<string>): (p: ProfileInsert)
    ensures p.id == userId && p.mail == email
    ensures !p.onboardingComplete && p.trainingDays == [] && p.timezone == "UTC"
    ensures email.None? ==> p.displayName == DefaultDisplayName
    ensures email.Some? ==>
      '@' !in p.displayName && |p.displayName| <= |email.value| &&
      p.displayName == email.value[..|p.displayName|] &&
      (|p.displayName| < |email.value| ==> email.value[|p.displayName|] == '@')
  {
    match email
    case None => ProfileInsert(userId, DefaultDisplayName, None, false, [], "UTC")
    case Some(e) =>
      FirstPiece(e, '@');
      ProfileInsert(userId, Split(e, '@')[0], email, false, [], "UTC")
  }

  /** An e-mail with one '@' gives the local part as the display name. */
  lemma DisplayNameIsLocalPart(userId: Id, local: string, domain: string)
    requires '@' !in local && '@' !in domain
    ensures NewProfilePayload(userId, Some(local + "@" + domain)).displayName == local
  {
    SplitPrefix(local, "@" + domain, '@');
    assert local + ("@" + domain) == local + "@" + domain;
  }

  /** What the `profiles` select returned. */
  datatype ProfileFetch = FetchFailed | NoProfile | Found(row: ProfileRow)

  /** The profile a load ends with, for a signed-in user with `email`: none
      after a fetch error, the normalised row when one was found, and the
      normalised created row (none when the upsert fails) when none was. */
  function LoadOutcome(userId: Id, email: Option<string>, fetched: ProfileFetch,
                       upsert: ProfileInsert -> Option<ProfileRow>): (p: Option<Profile>)
    ensures fetched.FetchFailed? ==> p.None?
    ensures fetched.Found? ==> p == Some(Normalize(fetched.row))
    ensures fetched.NoProfile? && upsert(NewProfilePayload(userId, email)).None? ==> p.None?
    ensures fetched.NoProfile? && upsert(NewProfilePayload(userId, email)).Some? ==>
      p == Some(Normalize(upsert(NewProfilePayload(userId, email)).value))
  {
    match fetched
    case FetchFailed => None
    case Found(row) => Some(Normalize(row))
    case NoProfile =>
      var created := upsert(NewProfilePayload(userId, email));
      if created.None? then None else Some(Normalize(created.value))
  }

  /** The e-mail of an optional session. */
  function EmailOf(session: Option<Session>): Option<string>
  {
    if session.Some? then session.value.email else None
  }

  class Provider {
    var session: Option<Session>
    var profile: Option<Profile>
    var isSessionLoading: bool
    var isProfileLoading: bool
    /** `lastLoadedUserId.current` */
    var lastLoadedUserId: Option<Id>

    /** The provider on mount: no session yet, the session loading. */
    constructor ()
      ensures session.None? && profile.None? && isSessionLoading && !isProfileLoading && lastLoadedUserId.None?
    {
      session := None;
      profile := None;
      isSessionLoading := true;
      isProfileLoading := false;
      lastLoadedUserId := None;
    }

    /** `isLoading: isSessionLoading || isProfileLoading` */
    function IsLoading(): (r: bool)
      reads this
      ensures r <==> isSessionLoading || isProfileLoading
    {
      isSessionLoading || isProfileLoading
    }

    /** The `getSession()` result on mount: an error keeps the session; either
        way the session stops loading. */
    method InitialSession(result: Option<Option<Session>>)
      modifies this
      ensures session == (if result.Some? then result.value else old(session))
      ensures !isSessionLoading
      ensures profile == old(profile) && isProfileLoading == old(isProfileLoading)
      ensures lastLoadedUserId == old(lastLoadedUserId)
    {
      if result.Some? {
        session := result.value;
      }
      isSessionLoading := false;
    }

    /** The `onAuthStateChange` listener: a null session clears the profile and the marker. */
    method AuthStateChanged(next: Option<Session>)
      modifies this
      ensures session == next
      ensures next.None? ==> profile.None? && lastLoadedUserId.None?
      ensures next.Some? ==> profile == old(profile) && lastLoadedUserId == old(lastLoadedUserId)
      ensures isSessionLoading == old(isSessionLoading) && isProfileLoading == old(isProfileLoading)
    {
      session := next;
      if next.None? {
        profile := None;
        lastLoadedUserId := None;
      }
    }

    /** The start of `loadProfile(userId)`: nothing for the user already
        recorded; otherwise the user is recorded and the profile is loading.
        Returns whether a fetch is issued. */
    method StartLoad(userId: Id) returns (fetching: bool)
      modifies this
      ensures fetching <==> old(lastLoadedUserId) != Some(userId)
      ensures !fetching ==> unchanged(this)
      ensures fetching ==> lastLoadedUserId == Some(userId) && isProfileLoading
      ensures fetching ==> session == old(session) && profile == old(profile) && isSessionLoading == old(isSessionLoading)
    {
      if lastLoadedUserId == Some(userId) {
        return false;
      }
      isProfileLoading := true;
      lastLoadedUserId := Some(userId);
      return true;
    }

    /** The rest of `loadProfile(userId)`, given the fetch result and what the
        upsert of a new profile returns (`None` for an error). */
    method CompleteLoad(userId: Id, fetched: ProfileFetch, upsert: ProfileInsert -> Option<ProfileRow>)
      modifies this
      ensures fetched.FetchFailed? ==> profile.None?
      ensures fetched.Found? ==> profile == Some(Normalize(fetched.row))
      ensures fetched.NoProfile? ==>
        var payload := NewProfilePayload(userId, if old(session).Some? then old(session).value.email else None);
        profile == (if upsert(payload).Some? then Some(Normalize(upsert(payload).value)) else None)
      ensures profile == LoadOutcome(userId, EmailOf(old(session)), fetched, upsert)
      ensures !isProfileLoading
      ensures session == old(session) && isSessionLoading == old(isSessionLoading)
      ensures lastLoadedUserId == old(lastLoadedUserId)
    {
      match fetched {
        case FetchFailed =>
          profile := None;
        case NoProfile =>
          var email := if session.Some? then session.value.email else None;
          var payload := NewProfilePayload(userId, email);
          var created := upsert(payload);
          if created.None? {
            profile := None;
          } else {
            profile := Some(Normalize(created.value));
          }
        case Found(row) =>
          profile := Some(Normalize(row));
      }
      isProfileLoading := false;
    }

    /** `loadProfile(userId)` as one sequential step. */
    method LoadProfile(userId: Id, fetched: ProfileFetch, upsert: ProfileInsert -> Option<ProfileRow>)
      modifies this
      ensures old(lastLoadedUserId) == Some(userId) ==> unchanged(this)
      ensures lastLoadedUserId == Some(userId)
      ensures old(lastLoadedUserId) != Some(userId) ==> !isProfileLoading
      ensures old(lastLoadedUserId) != Some(userId) && fetched.Found? ==> profile == Some(Normalize(fetched.row))
      ensures old(lastLoadedUserId) != Some(userId) && fetched.FetchFailed? ==> profile.None?
      ensures old(lastLoadedUserId) != Some(userId) && fetched.NoProfile? ==>
        var payload := NewProfilePayload(userId, EmailOf(old(session)));
        profile == (if upsert(payload).Some? then Some(Normalize(upsert(payload).value)) else None)
      ensures old(lastLoadedUserId) != Some(userId) ==> profile == LoadOutcome(userId, EmailOf(old(session)), fetched, upsert)
      ensures session == old(session) && isSessionLoading == old(isSessionLoading)
    {
      var fetching := StartLoad(userId);
      if fetching {
        CompleteLoad(userId, fetched, upsert);
      }
    }

    /** The effect on a session change: load the user's profile, or clear it
        without a session. */
    method SessionEffect(fetched: ProfileFetch, upsert: ProfileInsert -> Option<ProfileRow>)
      modifies this
      ensures old(session).None? ==> profile.None? && lastLoadedUserId == old(lastLoadedUserId)
      ensures old(session).Some? ==> lastLoadedUserId == Some(old(session).value.userId)
      ensures old(session).Some? && old(lastLoadedUserId) == Some(old(session).value.userId) ==> unchanged(this)
      ensures old(session).Some? && old(lastLoadedUserId) != Some(old(session).value.userId) ==>
        !isProfileLoading && profile == LoadOutcome(old(session).value.userId, old(session).value.email, fetched, upsert)
      ensures session == old(session) && isSessionLoading == old(isSessionLoading)
    {
      if session.Some? {
        LoadProfile(session.value.userId, fetched, upsert);
      } else {
        profile := None;
      }
    }

    /** `refreshProfile`: forget the marker and load again, so the fetch is
        always issued for a signed-in user. */
    method RefreshProfile(fetched: ProfileFetch, upsert: ProfileInsert -> Option<ProfileRow>)
      modifies this
      ensures old(session).None? ==> unchanged(this)
      ensures old(session).Some? ==> lastLoadedUserId == Some(old(session).value.userId) && !isProfileLoading
      ensures old(session).Some? && fetched.Found? ==> profile == Some(Normalize(fetched.row))
      ensures old(session).Some? && fetched.FetchFailed? ==> profile.None?
      ensures old(session).Some? && fetched.NoProfile? ==>
        var payload := NewProfilePayload(old(session).value.userId, old(session).value.email);
        profile == (if upsert(payload).Some? then Some(Normalize(upsert(payload).value)) else None)
      ensures old(session).Some? ==>
        profile == LoadOutcome(old(session).value.userId, old(session).value.email, fetched, upsert)
      ensures session == old(session) && isSessionLoading == old(isSessionLoading)
    {
      if session.Some? {
        lastLoadedUserId := None;
        LoadProfile(session.value.userId, fetched, upsert);
      }
    }
  }

  /** A failed load is not retried: after a failed fetch for a new user, the
      next load of that user, whatever the backend would now return, leaves
      the profile missing. */
  method FailedLoadNotRetried(p: Provider, userId: Id, retry: ProfileFetch, upsert: ProfileInsert -> Option<ProfileRow>)
    requires p.lastLoadedUserId != Some(userId)
    modifies p
    ensures p.profile.None? && p.lastLoadedUserId == Some(userId) && !p.isProfileLoading
  {
    p.LoadProfile(userId, FetchFailed, upsert);
    p.LoadProfile(userId, retry, upsert);
  }
}
