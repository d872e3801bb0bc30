/**
  The stored Last.fm identity of a host user, and the lookup that finds it
  (the host-side configuration behind Utils.UserHelpers.GetUser).
 */
module LastfmModels {
  import opened Wrappers
  import opened NetText

  /** The host's identifier for a user (a Guid, or the User object it stands for). */
  type UserId = nat

  /**
    A linked Last.fm account: the user name, the lifetime session key that is
    stored instead of a password (null until the user has authenticated), and
    the per-user opt-in to scrobbling (read by the handlers as Options.Scrobble).
   */
  datatype LastfmUser = LastfmUser(username: string, sessionKey: Option<string>, scrobble: bool)

  /** The configured accounts, keyed by the host user they belong to. */
  type UserDirectory = map<UserId, LastfmUser>

  /** GetUser: the account linked to a host user, or null when there is none. */
  function GetUser(dir: UserDirectory, id: UserId): Option<LastfmUser> {
    if id in dir then Some(dir[id]) else None
  }

  /** The account can authenticate a call: its session key is neither null nor blank. */
  predicate HasSessionKey(user: LastfmUser) {
    !IsNullOrWhiteSpace(user.sessionKey)
  }
}
