# Last.fm scrobbler: event gating

This project models the event router of a media-server plugin that forwards
playback and rating events to Last.fm. The host raises three events. Each
handler runs a short chain of early-return guards and, when every guard
passes, makes exactly one call to the Last.fm API client:

- playback start leads to `NowPlaying`;
- playback stop leads to `Scrobble`;
- a saved rating leads to `LoveTrack`.

Each handler is a pure function of two inputs: the event, and the configured
Last.fm accounts keyed by host user. It returns an `Outcome`, which is one of:

- `Dispatched(call)`: the one API call made, with its arguments;
- `Skipped(reason)`: the guard whose early return was taken;
- `Threw(InvalidOperation)`: the exception `Enumerable.First` raises when a
  playback event carries an empty user list.

Modules:

- `Wrappers`: `Option`, which stands for a C# reference that may be null.
- `NetText`: `Char.IsWhiteSpace` and `String.IsNullOrWhiteSpace` from .NET,
  written out.
- `LastfmModels`: the linked account (user name, session key, scrobble
  opt-in), the account directory, and the `GetUser` lookup.
- `ServerEntryPoint`: the events, the calls, and the three handlers.
- `GatingProperties`: what the handlers promise, including a declarative
  statement of the gating rule (`Entitled`) that each handler is proved to
  match exactly.
- `Scenarios`: the router's behaviour on concrete events.

Choices made where the code and its description differ:

- **Options.Scrobble.** The handlers read `LastfmUser.Options.Scrobble`, but
  the `LastfmUser` class in `Lastfm.Scrobbler/Models/LastfmUser.cs` has no
  `Options` member. The account record is therefore built from how the
  handlers use it: `username`, `sessionKey` and a `scrobble` flag.
- **Empty user list.** Handlers are meant never to throw. The code, however,
  calls `e.Users.First()` with no guard. On an audio start event, or on a
  completed audio stop event, an empty user list therefore raises an
  exception. The model follows the code and returns `Threw(InvalidOperation)`.
  It does not make a non-empty list a precondition.
- **Identifiers.** `GetUser` is called with a `User` object in the playback
  handlers and with a `Guid` in the rating handler. Both are modelled as one
  `UserId`.
- **Null item.** A null item fails the `is Audio` test, so it is folded into
  `ItemKind.Other`.

## Model

| member | source | states |
|---|---|---|
| `NetText.AllWhiteSpace` | Lastfm-Scrobbler/ServerEntryPoint.cs:102 | the scan behind `IsNullOrWhiteSpace` is true exactly when every character of the string is white space |
| `NetText.IsNullOrWhiteSpace` | Lastfm-Scrobbler/ServerEntryPoint.cs:102 | a session key fails the test when it is null, empty, or made of white space only |
| `NetText.NonWhiteSpaceCharPasses` | Lastfm-Scrobbler/ServerEntryPoint.cs:137 | one character that is not white space is enough for a key to pass the test |
| `NetText.PaddingIsIrrelevant` | Lastfm-Scrobbler/ServerEntryPoint.cs:168 | white space around a key never changes whether the key passes the test |
| `ServerEntryPoint.OnPlaybackStart` | Lastfm-Scrobbler/ServerEntryPoint.cs:147-176 | throws exactly when an audio event has no user; a call is made only for audio, a linked and opted-in first user with a key, and that call is `NowPlaying` of the item and that account |
| `ServerEntryPoint.OnPlaybackStopped` | Lastfm-Scrobbler/ServerEntryPoint.cs:113-145 | throws exactly when a completed audio event has no user; a call is made only for a completed audio play by a linked and opted-in first user with a key, and that call is `Scrobble` of the item and that account |
| `ServerEntryPoint.OnUserDataSaved` | Lastfm-Scrobbler/ServerEntryPoint.cs:84-111 | never throws; a call is made only for an audio rating update by a linked user with a key, and that call is `LoveTrack` with `IsFavorite` unchanged |
| `GatingProperties.UsableKeyIsSessionKey` | Lastfm-Scrobbler/ServerEntryPoint.cs:168-172 | the handlers' key test agrees with the declarative one: some character of the key is not white space |
| `GatingProperties.NowPlayingExactlyWhenEntitled` | Lastfm-Scrobbler/ServerEntryPoint.cs:147-176 | playback start calls `NowPlaying` if and only if the first user is entitled with opt-in required, and the call carries that item and that account |
| `GatingProperties.ScrobbleExactlyWhenEntitled` | Lastfm-Scrobbler/ServerEntryPoint.cs:113-145 | playback stop calls `Scrobble` if and only if the play was complete and the first user is entitled with opt-in required |
| `GatingProperties.LoveTrackExactlyWhenEntitled` | Lastfm-Scrobbler/ServerEntryPoint.cs:84-111 | a saved user datum calls `LoveTrack` if and only if it is a rating update and the user is entitled without opt-in; `IsFavorite` is forwarded unchanged |
| `GatingProperties.NonAudioIsIgnored` | Lastfm-Scrobbler/ServerEntryPoint.cs:87-88 | each of the three handlers turns a non-audio item away at its first guard, whatever else the event holds (also lines 116-117 and 150-151) |
| `GatingProperties.PartialPlayIsNeverScrobbled` | Lastfm-Scrobbler/ServerEntryPoint.cs:119-122 | a stop event that was not played to completion is never scrobbled, and its outcome depends on neither the accounts nor the user list, because no user is looked up |
| `GatingProperties.NonRatingSaveIsNeverLoved` | Lastfm-Scrobbler/ServerEntryPoint.cs:91-92 | a save with any reason other than a rating update is never loved, and for audio it stops at that guard |
| `GatingProperties.UnlinkedUserGetsNoCall` | Lastfm-Scrobbler/ServerEntryPoint.cs:94-100 | a user with no linked account gets no call from any handler, and the handler reports "user not found" once the earlier guards pass (also lines 122-128 and 153-159) |
| `GatingProperties.OptedOutUserIsNotScrobbled` | Lastfm-Scrobbler/ServerEntryPoint.cs:131-135 | in the start and stop handlers, a user who has not opted in gets no call (also lines 162-166) |
| `GatingProperties.LoveIgnoresOptIn` | Lastfm-Scrobbler/ServerEntryPoint.cs:94-110 | the rating handler never reads the opt-in flag: changing it changes nothing but the flag inside the forwarded account |
| `GatingProperties.BlankSessionKeyGetsNoCall` | Lastfm-Scrobbler/ServerEntryPoint.cs:102-106 | a null or blank session key means no call from any handler (also lines 137-141 and 168-172) |
| `GatingProperties.FirstUserOnly` | Lastfm-Scrobbler/ServerEntryPoint.cs:122 | the playback handlers depend on the first user alone; replacing every later user leaves the outcome unchanged (also line 153) |
| `GatingProperties.OnlyOwnAccountIsRead` | Lastfm-Scrobbler/ServerEntryPoint.cs:94 | each handler reads only the account of the user concerned; directories that agree on that user give the same outcome (also lines 122 and 153) |
| `GatingProperties.StopFollowsStartOnCompletion` | Lastfm-Scrobbler/ServerEntryPoint.cs:122-144 | for a completed play, the stop handler makes the start handler's decision and scrobbles where the start handler would announce the track |
| `GatingProperties.LoveAgreesWithNowPlayingWhenOptedIn` | Lastfm-Scrobbler/ServerEntryPoint.cs:94-110 | for an opted-in user, a rating update reaches Last.fm exactly when that user's playback start would; the opt-in gate is the only difference |
| `Scenarios.StartAnnouncesTrack` | Lastfm-Scrobbler/ServerEntryPoint.cs:175 | an opted-in user with a key starting an audio track produces one `NowPlaying` with that track and account |
| `Scenarios.CompletedPlayIsScrobbled` | Lastfm-Scrobbler/ServerEntryPoint.cs:144 | the same user playing the track to the end produces one `Scrobble` |
| `Scenarios.HalfPlayIsNotScrobbled` | Lastfm-Scrobbler/ServerEntryPoint.cs:119-120 | the same user stopping part way produces no call |
| `Scenarios.RatingWithoutKeyIsDropped` | Lastfm-Scrobbler/ServerEntryPoint.cs:102-106 | a rating update by a user whose key is empty or white space only produces no call |
| `Scenarios.RatingByOptedOutUserIsLoved` | Lastfm-Scrobbler/ServerEntryPoint.cs:110 | a rating update by an opted-out user with a key is still loved |
| `Scenarios.TwoListenersTwoCalls` | Lastfm-Scrobbler/ServerEntryPoint.cs:153-175 | two start events for one track by different users give two `NowPlaying` calls, each with its own account |
| `Scenarios.SharedSessionAnnouncesFirstUser` | Lastfm-Scrobbler/ServerEntryPoint.cs:153 | a start event with two users announces the track for the first user only |
| `Scenarios.NoUserThrows` | Lastfm-Scrobbler/ServerEntryPoint.cs:153 | an audio start event with no user escapes as an exception |

## Left out

- Constructor and `Instance` singleton (Lastfm-Scrobbler/ServerEntryPoint.cs:57-70): host wiring with no behaviour to state.
- Event subscriptions in `Run` (Lastfm-Scrobbler/ServerEntryPoint.cs:75-82): each handler is modelled as called once per event; how the host delivers events is not modelled.
- `OnConfigurationUpdated`, `Dispose` and `LoadRegistrationInfoAsync`: their bodies are empty.
- Logging (`Plugin.Logger.Debug` and `Info`): the only trace kept is the `SkipReason` of the guard that logged.
- `async void` on the playback handlers, and concurrency between handlers: each handler is pure, so two invocations cannot interfere.
- `LastfmApiClient` (`NowPlaying`, `Scrobble`, `LoveTrack`): the network client is not part of this model. A call is recorded as a `Call` value, and its result and failures are not modelled.
- `Utils.UserHelpers.GetUser` is not part of this model. It is abstracted as a map from host user to linked account.
- `Lastfm.Scrobbler/Plugin.cs`: plugin metadata, configuration forwarding and the singleton are left out. The `SemaphoreSlim(4, 4)` pool is left out because the handlers shown never use it.
- The `MediaBrowserUserId` field of `LastfmUser`: the key of the account map plays its role.
- Null `Options` or null `UserData` objects: the handlers would throw a null-reference exception on them; the model assumes the host always supplies both.
