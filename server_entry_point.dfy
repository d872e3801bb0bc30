/**
  The event router of the plugin's server entry point. The host raises three
  events; each handler runs a chain of early-return guards and, when every
  guard passes, makes exactly one call to the Last.fm API client. A handler is
  modelled as a function from the event and the configured accounts to the
  outcome of one invocation: the call it made, the guard that turned the event
  away, or the exception it let escape.
 */
module ServerEntryPoint {
  import opened Wrappers
  import opened NetText
  import opened LastfmModels

  /** Whether a library item is an Audio entity (a null item is not). */
  datatype ItemKind = Audio | Other

  datatype Item = Item(id: nat, kind: ItemKind)

  /** The host's UserDataSaveReason. */
  datatype SaveReason =
    | PlaybackStart
    | PlaybackProgress
    | PlaybackFinished
    | TogglePlayed
    | UpdateUserRating
    | Import

  /** The per-user data saved with a user-data event. */
  datatype UserItemData = UserItemData(isFavorite: bool)

  /** PlaybackProgressEventArgs, as raised for the start of playback. */
  datatype PlaybackStartEvent = PlaybackStartEvent(item: Item, users: seq<UserId>)

  /** PlaybackStopEventArgs. */
  datatype PlaybackStopEvent = PlaybackStopEvent(item: Item, users: seq<UserId>, playedToCompletion: bool)

  /** UserDataSaveEventArgs. */
  datatype UserDataSaveEvent =
    UserDataSaveEvent(item: Item, userId: UserId, saveReason: SaveReason, userData: UserItemData)

  /** The three calls a handler can make on the API client. */
  datatype Call =
    | NowPlaying(item: Item, user: LastfmUser)
    | Scrobble(item: Item, user: LastfmUser)
    | LoveTrack(item: Item, user: LastfmUser, isFavorite: bool)

  /** The guard whose early return ended a handler (each logs, or returns silently). */
  datatype SkipReason =
    | NotAudio
    | NotPlayedToCompletion
    | NotRatingUpdate
    | UserNotFound
    | ScrobbleDisabled
    | NoSessionKey

  /** Exceptions a handler can let escape. */
  datatype Exception = InvalidOperation  // Enumerable.First on an empty user list

  datatype Outcome =
    | Dispatched(call: Call)
    | Skipped(reason: SkipReason)
    | Threw(exception: Exception)

  /** The handler of PlaybackStart: tells Last.fm what the first user is now playing. */
  function OnPlaybackStart(e: PlaybackStartEvent, dir: UserDirectory): (r: Outcome)
    ensures r.Threw? <==> e.item.kind == Audio && e.users == []
    ensures r.Dispatched? ==>
              && e.item.kind == Audio && e.users != [] && e.users[0] in dir
              && dir[e.users[0]].scrobble && HasSessionKey(dir[e.users[0]])
              && r.call == NowPlaying(e.item, dir[e.users[0]])
  {
    if e.item.kind != Audio then Skipped(NotAudio)
    else if e.users == [] then Threw(InvalidOperation)
    else
      match GetUser(dir, e.users[0])
      case None => Skipped(UserNotFound)
      case Some(user) =>
        if !user.scrobble then Skipped(ScrobbleDisabled)
        else if IsNullOrWhiteSpace(user.sessionKey) then Skipped(NoSessionKey)
        else Dispatched(NowPlaying(e.item, user))
  }

  /** The handler of PlaybackStopped: scrobbles a track the first user played to the end. */
  function OnPlaybackStopped(e: PlaybackStopEvent, dir: UserDirectory): (r: Outcome)
    ensures r.Threw? <==> e.item.kind == Audio && e.playedToCompletion && e.users == []
    ensures r.Dispatched? ==>
              && e.item.kind == Audio && e.playedToCompletion && e.users != [] && e.users[0] in dir
              && dir[e.users[0]].scrobble && HasSessionKey(dir[e.users[0]])
              && r.call == Scrobble(e.item, dir[e.users[0]])
  {
    if e.item.kind != Audio then Skipped(NotAudio)
    else if !e.playedToCompletion then Skipped(NotPlayedToCompletion)
    else if e.users == [] then Threw(InvalidOperation)
    else
      match GetUser(dir, e.users[0])
      case None => Skipped(UserNotFound)
      case Some(user) =>
        if !user.scrobble then Skipped(ScrobbleDisabled)
        else if IsNullOrWhiteSpace(user.sessionKey) then Skipped(NoSessionKey)
        else Dispatched(Scrobble(e.item, user))
  }

  /** The handler of UserDataSaved: mirrors a rating change as love or unlove on Last.fm. */
  function OnUserDataSaved(e: UserDataSaveEvent, dir: UserDirectory): (r: Outcome)
    ensures !r.Threw?
    ensures r.Dispatched? ==>
              && e.item.kind == Audio && e.saveReason == UpdateUserRating && e.userId in dir
              && HasSessionKey(dir[e.userId])
              && r.call == LoveTrack(e.item, dir[e.userId], e.userData.isFavorite)
  {
    if e.item.kind != Audio then Skipped(NotAudio)
    else if e.saveReason != UpdateUserRating then Skipped(NotRatingUpdate)
    else
      match GetUser(dir, e.userId)
      case None => Skipped(UserNotFound)
      case Some(user) =>
        if IsNullOrWhiteSpace(user.sessionKey) then Skipped(NoSessionKey)
        else Dispatched(LoveTrack(e.item, user, e.userData.isFavorite))
  }
}
