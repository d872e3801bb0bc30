/**
  What the router promises, stated against the three handlers: which guard
  turns an event away, when exactly a call is made and with which arguments,
  and which facts each handler ignores.
 */
module GatingProperties {
  import opened Wrappers
  import opened NetText
  import opened LastfmModels
  import opened ServerEntryPoint

  /** A session key a call can be made with: present, and holding some character that is not white space. */
  ghost predicate UsableKey(user: LastfmUser) {
    && user.sessionKey.Some?
    && exists i | 0 <= i < |user.sessionKey.value| :: !IsWhiteSpace(user.sessionKey.value[i])
  }

  /**
    The rule the router obeys, stated as one condition instead of a chain of
    returns: an audio item, a host user with a linked account, an opt-in to
    scrobbling where the handler asks for one, and a usable session key.
   */
  ghost predicate Entitled(item: Item, id: UserId, dir: UserDirectory, needsOptIn: bool) {
    && item.kind == Audio
    && id in dir
    && (needsOptIn ==> dir[id].scrobble)
    && UsableKey(dir[id])
  }

  lemma UsableKeyIsSessionKey(user: LastfmUser)
    ensures UsableKey(user) <==> HasSessionKey(user)
  {
  }

  /** Playback start calls NowPlaying exactly when the first user is entitled, with that item and that account. */
  lemma NowPlayingExactlyWhenEntitled(e: PlaybackStartEvent, dir: UserDirectory)
    ensures OnPlaybackStart(e, dir).Dispatched? <==> e.users != [] && Entitled(e.item, e.users[0], dir, true)
    ensures OnPlaybackStart(e, dir).Dispatched? ==> OnPlaybackStart(e, dir).call == NowPlaying(e.item, dir[e.users[0]])
  {
  }

  /** Playback stop calls Scrobble exactly when the play was complete and the first user is entitled. */
  lemma ScrobbleExactlyWhenEntitled(e: PlaybackStopEvent, dir: UserDirectory)
    ensures OnPlaybackStopped(e, dir).Dispatched? <==>
              e.playedToCompletion && e.users != [] && Entitled(e.item, e.users[0], dir, true)
    ensures OnPlaybackStopped(e, dir).Dispatched? ==> OnPlaybackStopped(e, dir).call == Scrobble(e.item, dir[e.users[0]])
  {
  }

  /**
    A saved user datum calls LoveTrack exactly when it is a rating update and
    the user is entitled without any opt-in, forwarding IsFavorite unchanged.
   */
  lemma LoveTrackExactlyWhenEntitled(e: UserDataSaveEvent, dir: UserDirectory)
    ensures OnUserDataSaved(e, dir).Dispatched? <==>
              e.saveReason == UpdateUserRating && Entitled(e.item, e.userId, dir, false)
    ensures OnUserDataSaved(e, dir).Dispatched? ==>
              OnUserDataSaved(e, dir).call == LoveTrack(e.item, dir[e.userId], e.userData.isFavorite)
  {
  }

  /** No handler acts on an item that is not audio, whatever else the event holds. */
  lemma NonAudioIsIgnored(s: PlaybackStartEvent, t: PlaybackStopEvent, u: UserDataSaveEvent, dir: UserDirectory)
    ensures s.item.kind != Audio ==> OnPlaybackStart(s, dir) == Skipped(NotAudio)
    ensures t.item.kind != Audio ==> OnPlaybackStopped(t, dir) == Skipped(NotAudio)
    ensures u.item.kind != Audio ==> OnUserDataSaved(u, dir) == Skipped(NotAudio)
  {
  }

  /**
    A partial play is never scrobbled; the completion test comes before the
    lookup, so the accounts and the user list (even an empty one) play no part.
   */
  lemma PartialPlayIsNeverScrobbled(e: PlaybackStopEvent, dir: UserDirectory, dir': UserDirectory, users': seq<UserId>)
    requires !e.playedToCompletion
    ensures !OnPlaybackStopped(e, dir).Dispatched?
    ensures e.item.kind == Audio ==> OnPlaybackStopped(e, dir) == Skipped(NotPlayedToCompletion)
    ensures OnPlaybackStopped(e, dir) == OnPlaybackStopped(e.(users := users'), dir')
  {
  }

  /** Only a rating update is mirrored to Last.fm. */
  lemma NonRatingSaveIsNeverLoved(e: UserDataSaveEvent, dir: UserDirectory)
    requires e.saveReason != UpdateUserRating
    ensures !OnUserDataSaved(e, dir).Dispatched?
    ensures e.item.kind == Audio ==> OnUserDataSaved(e, dir) == Skipped(NotRatingUpdate)
  {
  }

  /** A host user with no linked account gets no call from any handler. */
  lemma UnlinkedUserGetsNoCall(s: PlaybackStartEvent, t: PlaybackStopEvent, u: UserDataSaveEvent, dir: UserDirectory)
    ensures s.users != [] && s.users[0] !in dir ==> !OnPlaybackStart(s, dir).Dispatched?
    ensures s.item.kind == Audio && s.users != [] && s.users[0] !in dir ==> OnPlaybackStart(s, dir) == Skipped(UserNotFound)
    ensures t.users != [] && t.users[0] !in dir ==> !OnPlaybackStopped(t, dir).Dispatched?
    ensures t.item.kind == Audio && t.playedToCompletion && t.users != [] && t.users[0] !in dir ==>
              OnPlaybackStopped(t, dir) == Skipped(UserNotFound)
    ensures u.userId !in dir ==> !OnUserDataSaved(u, dir).Dispatched?
    ensures u.item.kind == Audio && u.saveReason == UpdateUserRating && u.userId !in dir ==>
              OnUserDataSaved(u, dir) == Skipped(UserNotFound)
  {
  }

  /** A user who has not opted in to scrobbling gets neither NowPlaying nor Scrobble. */
  lemma OptedOutUserIsNotScrobbled(s: PlaybackStartEvent, t: PlaybackStopEvent, dir: UserDirectory)
    ensures s.users != [] && s.users[0] in dir && !dir[s.users[0]].scrobble ==> !OnPlaybackStart(s, dir).Dispatched?
    ensures s.item.kind == Audio && s.users != [] && s.users[0] in dir && !dir[s.users[0]].scrobble ==>
              OnPlaybackStart(s, dir) == Skipped(ScrobbleDisabled)
    ensures t.users != [] && t.users[0] in dir && !dir[t.users[0]].scrobble ==> !OnPlaybackStopped(t, dir).Dispatched?
    ensures t.item.kind == Audio && t.playedToCompletion && t.users != [] && t.users[0] in dir && !dir[t.users[0]].scrobble ==>
              OnPlaybackStopped(t, dir) == Skipped(ScrobbleDisabled)
  {
  }

  /** The rating handler never consults the opt-in flag: setting it either way leaves the outcome as it was. */
  lemma LoveIgnoresOptIn(e: UserDataSaveEvent, dir: UserDirectory, optIn: bool)
    requires e.userId in dir
    ensures OnUserDataSaved(e, dir[e.userId := dir[e.userId].(scrobble := optIn)]) ==
              match OnUserDataSaved(e, dir)
              case Dispatched(c) => Dispatched(c.(user := c.user.(scrobble := optIn)))
              case other => other
  {
  }

  /** A null, empty or blank session key means no call from any handler. */
  lemma BlankSessionKeyGetsNoCall(s: PlaybackStartEvent, t: PlaybackStopEvent, u: UserDataSaveEvent, dir: UserDirectory)
    ensures s.users != [] && s.users[0] in dir && !HasSessionKey(dir[s.users[0]]) ==> !OnPlaybackStart(s, dir).Dispatched?
    ensures t.users != [] && t.users[0] in dir && !HasSessionKey(dir[t.users[0]]) ==> !OnPlaybackStopped(t, dir).Dispatched?
    ensures u.userId in dir && !HasSessionKey(dir[u.userId]) ==> !OnUserDataSaved(u, dir).Dispatched?
    ensures u.item.kind == Audio && u.saveReason == UpdateUserRating && u.userId in dir && !HasSessionKey(dir[u.userId]) ==>
              OnUserDataSaved(u, dir) == Skipped(NoSessionKey)
  {
  }

  /** The playback handlers look at the first user only: whoever follows in the list has no effect. */
  lemma FirstUserOnly(s: PlaybackStartEvent, t: PlaybackStopEvent, rest: seq<UserId>, dir: UserDirectory)
    ensures s.users != [] ==> OnPlaybackStart(s, dir) == OnPlaybackStart(s.(users := [s.users[0]] + rest), dir)
    ensures t.users != [] ==> OnPlaybackStopped(t, dir) == OnPlaybackStopped(t.(users := [t.users[0]] + rest), dir)
  {
  }

  /**
    Only the account of the user concerned is read: two directories that give
    that user the same account give the same outcome, however they differ elsewhere.
   */
  lemma OnlyOwnAccountIsRead(s: PlaybackStartEvent, t: PlaybackStopEvent, u: UserDataSaveEvent,
                             dir: UserDirectory, dir': UserDirectory)
    ensures s.users != [] && GetUser(dir, s.users[0]) == GetUser(dir', s.users[0]) ==>
              OnPlaybackStart(s, dir) == OnPlaybackStart(s, dir')
    ensures t.users != [] && GetUser(dir, t.users[0]) == GetUser(dir', t.users[0]) ==>
              OnPlaybackStopped(t, dir) == OnPlaybackStopped(t, dir')
    ensures GetUser(dir, u.userId) == GetUser(dir', u.userId) ==> OnUserDataSaved(u, dir) == OnUserDataSaved(u, dir')
  {
  }

  /** Renames a NowPlaying call to the Scrobble call with the same arguments. */
  function AsScrobble(o: Outcome): Outcome {
    match o
    case Dispatched(NowPlaying(item, user)) => Dispatched(Scrobble(item, user))
    case other => other
  }

  /**
    Once a play is complete, the stop handler applies the start handler's
    guards in the start handler's order, and scrobbles where the start handler
    would announce the track.
   */
  lemma StopFollowsStartOnCompletion(e: PlaybackStopEvent, dir: UserDirectory)
    requires e.playedToCompletion
    ensures OnPlaybackStopped(e, dir) == AsScrobble(OnPlaybackStart(PlaybackStartEvent(e.item, e.users), dir))
  {
  }

  /**
    For a user who has opted in, a rating update reaches Last.fm exactly when a
    playback start by that user would: the two handlers differ only in the opt-in gate.
   */
  lemma LoveAgreesWithNowPlayingWhenOptedIn(e: UserDataSaveEvent, dir: UserDirectory)
    requires e.saveReason == UpdateUserRating
    requires e.userId in dir && dir[e.userId].scrobble
    ensures OnUserDataSaved(e, dir).Dispatched? <==>
              OnPlaybackStart(PlaybackStartEvent(e.item, [e.userId]), dir).Dispatched?
  {
  }
}
