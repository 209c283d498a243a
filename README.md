# OpenSubsonic provider and candidate scoring, modelled in Dafny

This project models two parts of the provider layer of UnblockNeteaseMusic, a
service that finds a playable track for a song request.

- `provider/base/base.go`: the steps that every provider shares.
  - `PreSearchSong` upper-cases the request's keyword, song name and artist name.
  - `CalScore` rejects a candidate, or accepts it with a weighted match score.
  - `AfterSearchSong` sorts the candidates by score and caps the list.
- `provider/opensubsonic/opensubsonic.go`: the OpenSubsonic backend provider.
  - A pool of authenticated clients. The last choice is reused for ten minutes; otherwise a random client is picked.
  - A search that scores only the first `maxIndex` backend results, taken in year order.
  - A playback notifier. It sends a "now playing" scrobble at once and sets a timer for a later "submission" scrobble.
  - A new playback always stops the pending timer first.

Files:

- `text.dfy` (module `Text`): the `strings` functions used by the source. These are `ToUpper`, `Contains` and a one-character `ReplaceAll`.
- `common.dfy` (module `Common`): the search request `SearchSong` and the result record `Song`.
- `sorting.dfy` (module `Sorting`): an in-place sort of an array by descending key, used for every sort in the source.
- `base.dfy` (module `Base`): `PreSearchSong`, `CalScore` and `AfterSearchSong`.
- `opensubsonic.dfy` (module `OpenSubsonicProvider`): the provider.
  - The class `OpenSubsonic` holds the package variables `clients`, `lastUsedClient`, `lastUsedTime` and `handle`, plus a log of the scrobbles sent.
  - Each method is proved against a pure function: `Acquire` for `getClient`, `StartPlayback` for `GetSongUrl`, `Fire` for the timer's callback, and `SearchOutcome`/`CandidateSongs` for `SearchSong`.
  - The provider's properties are lemmas about those functions.

Modelling choices:

- Time is an integer clock in milliseconds, because the scrobbles carry Unix milliseconds. The reuse window is 600000 ms.
- The random pick `rand.Intn(len(clients))` is a parameter `pick`. It is required to be an index of the pool when the pool is non-empty.
- The backend calls are fields of a `Backend` value.
  - `Search2` returns a result list or fails.
  - `GetStreamURL` returns a URL or fails.
  - `Scrobble` is an entry appended to the scrobble log.
- `utils.CalMatchScoresV2` is a function parameter `matcher`. Nothing is assumed about its values.
- float32 arithmetic is `real` arithmetic.
- `timer.Stop()` marks the timer as no longer live. The slot itself is never emptied, as in the source, where `handle` is never reset to nil.
- The timer firing is an explicit step, `FireTimer`. It can only take effect once the delay has passed.
- `common.SongSlice` is not part of this model. Its order is taken to be descending match score.
- `sort.Sort` and `sort.Slice` are not stable. Every caller therefore uses only the sort's contract: the result is ordered by the key and is a permutation of the input. A particular order among equal keys is never used.
- The year sort in `SearchSong` uses the same sort, with the negated year as key.

Behaviour of the source worth knowing (the model follows it):

- The accompaniment rule ("伴奏") compares the raw strings. The other three exclusion rules compare upper-cased strings.
- `AfterSearchSong` uses an unstable sort. No tie order is promised.
- `GetSongUrl` stops the pending timer before it checks anything else. This happens even when no client is available or the song has no duration.
- A reused client does not refresh `lastUsedTime`. A client chosen at time t expires at t + 10 min, however often it was reused in between.

## Model

| member | source | states |
|---|---|---|
| `Text.ToUpper` | provider/base/base.go:15-17 | the result has the input's length and each character is the input's, upper-cased (ASCII rule) |
| `Text.ToUpperIdempotent` | provider/base/base.go:14-19 | upper-casing twice equals upper-casing once |
| `Text.ContainsIff` | provider/base/base.go:46-60 | `Contains(s, sub)` holds exactly when some position of `s` starts a copy of `sub` |
| `Text.ReplaceChar` | provider/base/base.go:72-73 | same length; every occurrence of the pattern character is replaced and every other character kept; no pattern character remains |
| `Base.PreSearchSong` | provider/base/base.go:14-19 | keyword, name and artist name are upper-cased, and ordering, limit and quality are unchanged |
| `Base.PreSearchSongIdempotent` | provider/base/base.go:14-19 | normalising a normalised request changes nothing |
| `Base.LiveFactor` | provider/base/base.go:64-68 | the title factor is 0.6 exactly when the title carries "LIVE" or "演唱会" that the keyword lacks, and 1 otherwise |
| `Base.NormaliseSingers` | provider/base/base.go:71-73 | same length; each '&' and each '·' becomes '、', every other character is kept, and no '&' or '·' is left |
| `Base.CalScore` | provider/base/base.go:44-82 | any ordering but MatchedScoreDesc gives (0, true); under MatchedScoreDesc the candidate is accepted exactly when no exclusion rule hits it; a rejection has score 0; an accepted score is title·0.55 + artist·0.35 + 0.1·(maxIndex − index)/maxIndex; with both names empty it is the position bonus alone |
| `Base.AccompanimentRejected` | provider/base/base.go:46-48 | a title containing "伴奏" (raw comparison) with a keyword lacking it gives (0, false), whatever the artist and position |
| `Base.MarkerRejected` | provider/base/base.go:49-60 | a title containing "DJ", "COVER" or "MIX" after upper-casing, with an upper-cased keyword lacking it, gives (0, false) |
| `Base.AccompanimentExample` | provider/base/base.go:45-48 | keyword "SONG" and title "SONG (伴奏)" are rejected |
| `Base.LivePenalty` | provider/base/base.go:62-65 | a non-empty live title the keyword does not ask for scores exactly 0.6 times its raw match |
| `Base.PenaltyAppliedAtMostOnce` | provider/base/base.go:64-68 | the title score is the raw match or 0.6 of it; the two penalties never compound |
| `Base.SingerSeparatorsNormalised` | provider/base/base.go:71-74 | the singer string given to the matcher contains neither "&" nor "·" |
| `Base.PositionBonusDecreasing` | provider/base/base.go:76 | for maxIndex > 0, an earlier index earns a strictly larger position bonus |
| `Base.ScoreDecreasesWithIndex` | provider/base/base.go:61-77 | for the same title and artist, an accepted candidate's score strictly decreases as its index grows |
| `Base.Capped` | provider/base/base.go:87-89 | with a positive limit below the list length the count is the limit; in every other case, a limit of 0 (no cap) included, it is the list length |
| `Base.AfterSearchSong` | provider/base/base.go:83-91 | the result has `Capped(limit, len)` entries and is a prefix of the slice; under MatchedScoreDesc with more than one entry the slice becomes a descending permutation of itself, otherwise it is untouched; under MatchedScoreDesc every kept entry scores at least as high as every dropped one |
| `Sorting.SortDescending` | provider/base/base.go:84-86 | afterwards the array is ordered by non-increasing key and is a permutation of its old contents |
| `OpenSubsonicProvider.Acquire` | provider/opensubsonic/opensubsonic.go:150-173 | the client list never changes; no client is returned exactly when the reuse window has passed and the pool is empty; a valid pool stays valid and any client returned is one of the pool's |
| `OpenSubsonicProvider.AcquireSticky` | provider/opensubsonic/opensubsonic.go:156-159 | within the window the remembered client is returned and the pool state, including `lastUsedTime`, is unchanged |
| `OpenSubsonicProvider.AcquireEmpty` | provider/opensubsonic/opensubsonic.go:157-163 | after the reuse check fails, an empty pool gives an error and an unchanged state |
| `OpenSubsonicProvider.AcquireFresh` | provider/opensubsonic/opensubsonic.go:165-172 | otherwise client `pick` is returned and becomes the remembered client with `lastUsedTime = now` |
| `OpenSubsonicProvider.SecondAcquireReuses` | provider/opensubsonic/opensubsonic.go:156-172 | a second request less than 10 min after the recorded time returns the same client and changes nothing |
| `OpenSubsonicProvider.ReuseDoesNotExtendTTL` | provider/opensubsonic/opensubsonic.go:156-172 | a reused client still expires 10 min after it was chosen, and the next request picks afresh and records its time |
| `OpenSubsonicProvider.Authenticated` | provider/opensubsonic/opensubsonic.go:34-50 | the pool gains at most one client per account |
| `OpenSubsonicProvider.AuthenticatedIff` | provider/opensubsonic/opensubsonic.go:45-48 | a client enters the pool exactly when some account for it authenticates |
| `OpenSubsonicProvider.ScrobbleDelay` | provider/opensubsonic/opensubsonic.go:118-124 | for a positive duration the delay is between 0 and 240 and at most the duration; it is 240 above 480 s and half the duration (rounded down) otherwise |
| `OpenSubsonicProvider.Stop` | provider/opensubsonic/opensubsonic.go:111-113 | stopping keeps the slot and makes its timer unable to fire |
| `OpenSubsonicProvider.StartPlayback` | provider/opensubsonic/opensubsonic.go:110-139 | the old timer is stopped in every case; without a client or with duration ≤ 0 nothing else happens; otherwise exactly one "submission=false" scrobble is logged and a live timer is set for this client and track, with delay `ScrobbleDelay(duration)`; after it, only a timer it set itself can be live; delays stay within 0..240 |
| `OpenSubsonicProvider.Fire` | provider/opensubsonic/opensubsonic.go:129-135 | a live, due timer logs one "submission=true" scrobble for its client and track and stops; otherwise nothing changes; the log only grows, by at most one |
| `OpenSubsonicProvider.FiresAtMostOnce` | provider/opensubsonic/opensubsonic.go:129-135 | a timer that fired does not fire again |
| `OpenSubsonicProvider.LastPlaybackWins` | provider/opensubsonic/opensubsonic.go:111-135 | after two playbacks the log holds both "now playing" scrobbles, and the only "played" scrobble that can follow is the second track's |
| `OpenSubsonicProvider.MaxIndex` | provider/opensubsonic/opensubsonic.go:62-66 | 1 ≤ maxIndex ≤ 10, never more than len/2 + 1, and equal to it below the cap, so the position bonus never divides by zero |
| `OpenSubsonicProvider.MaxIndexFits` | provider/opensubsonic/opensubsonic.go:62-74 | with at least one result, maxIndex does not exceed the number of results |
| `OpenSubsonicProvider.Admit` | provider/opensubsonic/opensubsonic.go:75-99 | a result is kept exactly when its stream URL resolves and CalScore accepts its title and artist; the kept song carries the id `OpenSubsonicTag + ID`, the size, that URL, `Br = BitRate*1000`, the title, artist, album and duration, the source "OpenSubsonic", the identity map {UnKeyWord: keyword, MusicId: ID, songType: suffix} and the CalScore score |
| `OpenSubsonicProvider.KeptLength` | provider/opensubsonic/opensubsonic.go:71-100 | the filter keeps at most one song per result it looks at |
| `OpenSubsonicProvider.KeptIff` | provider/opensubsonic/opensubsonic.go:71-100 | a song is collected exactly when it is the admitted song of one of the results looked at |
| `OpenSubsonicProvider.SearchOutcomeSongs` | provider/opensubsonic/opensubsonic.go:62-107 | a search yields at most maxIndex ≤ 10 songs; each comes from a result at an index below maxIndex in year order that was admitted; each has a MusicId; the first has the highest score |
| `OpenSubsonicProvider.CollectCandidates` | provider/opensubsonic/opensubsonic.go:71-100 | the loop with its `break` and skips yields exactly the admitted songs among the first maxIndex results, in order |
| `OpenSubsonicProvider.OpenSubsonic.constructor` | provider/opensubsonic/opensubsonic.go:20-23 | the package variables start empty |
| `OpenSubsonicProvider.OpenSubsonic.Init` | provider/opensubsonic/opensubsonic.go:34-50 | the clients of the authenticating accounts are appended in order; nothing else changes |
| `OpenSubsonicProvider.OpenSubsonic.GetClient` | provider/opensubsonic/opensubsonic.go:150-173 | the returned client and the new pool state are those of `Acquire`; the notifier state is unchanged |
| `OpenSubsonicProvider.OpenSubsonic.SearchSong` | provider/opensubsonic/opensubsonic.go:52-108 | the pool changes as in `Acquire`; no client or no response gives no songs; otherwise the result is a permutation, in descending score order, of the admitted songs among the first maxIndex results of a year-ascending permutation of the response |
| `OpenSubsonicProvider.OpenSubsonic.GetSongUrl` | provider/opensubsonic/opensubsonic.go:110-139 | the song is returned unchanged; the pool changes as in `Acquire` and the notifier as in `StartPlayback` |
| `OpenSubsonicProvider.OpenSubsonic.FireTimer` | provider/opensubsonic/opensubsonic.go:129-135 | the notifier changes as in `Fire`; the pool is untouched |
| `OpenSubsonicProvider.OpenSubsonic.ParseSong` | provider/opensubsonic/opensubsonic.go:141-148 | an empty search gives the empty song and sends nothing; otherwise the best-scoring song is the one handed to GetSongUrl and returned, and the state after is that of `StartPlayback` with a second client request |

## Left out

- The album argument at opensubsonic.go:95 is not modelled. That line passes six arguments (`result.Album` among them) to `CalScore`, but `CalScore` as defined at base.go:44 takes five. The model follows base.go: its caller passes the title, the artist, the index and maxIndex.
- `base.Fetch` (network request, status check, JSON parsing) is not modelled: it is I/O through packages outside this model.
- `parseAccounts` (file opening and JSON decoding) is not modelled. `Init` takes the decoded accounts and an authentication oracle in place of `client.Authenticate`.
- The Subsonic client library (`Search2`, `GetStreamURL`, `Scrobble`) is represented only by oracles and the scrobble log. The request options it is sent, such as `maxBitRate`, `format` and `artistCount`, are not modelled.
- `utils.CalMatchScoresV2` is not part of this model. It is a parameter, and no range is assumed for it.
- `Text.ToUpper`: upper-cases only ASCII letters. Go's `strings.ToUpper` maps every Unicode letter, and that case mapping is not modelled here. This can change a rule's outcome: Go maps 'ı' (U+0131) to 'I' and 'ſ' (U+017F) to 'S', so the source rejects the title "Mıx" for the keyword "song" while the model accepts it, and a keyword "lıve" cancels the LIVE penalty in the source but not in the model.
- `Base.CalScore`: requires `maxIndex != 0`. In the source, a zero maxIndex is a float32 division by zero, which yields an infinite or NaN score rather than an error. Real division cannot express that. The only caller passes `MaxIndex(...) ≥ 1`.
- float32 rounding and overflow are not modelled: scores are `real`. `Br = BitRate*1000` is unbounded `int`, so its overflow is not modelled either.
- Concurrency is not modelled. The mutex in `getClient` is created fresh on every call, so it excludes nothing, and the timer callback runs on another goroutine. The model runs everything in sequence, and the timer firing is a separate step (`FireTimer`).
- `math/rand` is not modelled: the pick is a parameter.
- The value of `common.OpenSubsonicTag` is defined outside this model. A stand-in string is used for the song id prefix.
- `GetSongUrl`'s `searchSong` argument and the `Quality` field that `ParseSong` passes into it are not modelled: `GetSongUrl` never reads them.
- `OpenSubsonicProvider.OpenSubsonic.GetSongUrl` and `OpenSubsonicProvider.StartPlayback` require that a song with positive duration has a `MusicId` key whenever a client is available. The source's type assertion on `PlatformUniqueKey["MusicId"]` panics without it; without a client it returns the song before that point, and the model covers that case. Every song from `SearchSong` has the key.
- Aliasing is not modelled. The Go slice `AfterSearchSong` returns shares storage with its input; the model returns a sequence and states that it equals a prefix of the sorted array.
