/** The router's behaviour on a few concrete events. */
module Scenarios {
  import opened Wrappers
  import opened LastfmModels
  import opened ServerEntryPoint

  const Track := Item(7, Audio)
  const Alice := LastfmUser("alice", Some("3f2a9c0d41e6b785"), true)
  const Bob := LastfmUser("bob", Some("71be04d29a3cf168"), true)
  const Directory: UserDirectory := map[1 := Alice, 2 := Bob]

  /** An opted-in user with a key starts an audio track: one NowPlaying with that track and user. */
  lemma StartAnnouncesTrack()
    ensures OnPlaybackStart(PlaybackStartEvent(Track, [1]), Directory) == Dispatched(NowPlaying(Track, Alice))
  {
  }

  /** The same user plays it to the end: one Scrobble. */
  lemma CompletedPlayIsScrobbled()
    ensures OnPlaybackStopped(PlaybackStopEvent(Track, [1], true), Directory) == Dispatched(Scrobble(Track, Alice))
  {
  }

  /** The same user stops half way: nothing. */
  lemma HalfPlayIsNotScrobbled()
    ensures OnPlaybackStopped(PlaybackStopEvent(Track, [1], false), Directory) == Skipped(NotPlayedToCompletion)
  {
  }

  /** A rating update by a user whose key is empty, or white space only: nothing. */
  lemma RatingWithoutKeyIsDropped()
    ensures OnUserDataSaved(UserDataSaveEvent(Track, 3, UpdateUserRating, UserItemData(true)),
                            Directory[3 := LastfmUser("carol", Some(""), true)]) == Skipped(NoSessionKey)
    ensures OnUserDataSaved(UserDataSaveEvent(Track, 3, UpdateUserRating, UserItemData(true)),
                            Directory[3 := LastfmUser("carol", Some(" \t\n"), true)]) == Skipped(NoSessionKey)
  {
  }

  /** A rating update by an opted-out user with a key is still loved. */
  lemma RatingByOptedOutUserIsLoved()
    ensures OnUserDataSaved(UserDataSaveEvent(Track, 1, UpdateUserRating, UserItemData(false)),
                            Directory[1 := Alice.(scrobble := false)]) ==
              Dispatched(LoveTrack(Track, Alice.(scrobble := false), false))
  {
  }

  /** Two start events for the same track by different users: two NowPlaying calls, each with its own account. */
  lemma TwoListenersTwoCalls()
    ensures OnPlaybackStart(PlaybackStartEvent(Track, [1]), Directory) == Dispatched(NowPlaying(Track, Alice))
    ensures OnPlaybackStart(PlaybackStartEvent(Track, [2]), Directory) == Dispatched(NowPlaying(Track, Bob))
  {
  }

  /** A start event with two users announces the track for the first one only. */
  lemma SharedSessionAnnouncesFirstUser()
    ensures OnPlaybackStart(PlaybackStartEvent(Track, [2, 1]), Directory) == Dispatched(NowPlaying(Track, Bob))
  {
  }

  /** An audio start event with no user at all escapes as an exception. */
  lemma NoUserThrows()
    ensures OnPlaybackStart(PlaybackStartEvent(Track, []), Directory) == Threw(InvalidOperation)
  {
  }
}
