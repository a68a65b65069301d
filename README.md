# Music streaming core, modelled in Dafny

The system is a small music-streaming application:

- **Song service (reader).** Serves albums and songs from an SQL database behind a Redis cache-aside layer. A hit answers the cached document. On a miss the handler runs its SQL queries and stores the result with a 1800-second expiry. Every cache call is skipped while the Redis client is not ready.
- **Admin service (writers).** Checks the caller's role and the uploaded file, writes the tables, then deletes cache keys.
- **User service.** Registers and logs in users against a user table.
- **Recommendation model and its Flask API.** Answers emotion-based recommendations, the available filter options and a capped text search.
- **Front end (React).** Keeps the playback state in a provider, renders a player footer, and filters the song and album pages by a search box.

The model follows the program's structure, one module per concern:

| file | module | what it holds |
|---|---|---|
| wrappers.dfy | `Wrappers` | `Option` |
| seqs.dfy | `Seqs` | order-preserving `Filter`, `Take` (pandas `head`), subsequences |
| text.dfy | `Text` | decimal rendering, ASCII lower-casing, substring search, `strip`, `padStart` |
| catalog.dfy | `Catalog` | the `albums`/`songs` tables and the SQL statements the handlers issue |
| cache.dfy | `Cache` | Redis `GET`/`SET … EX`/`DEL`, the reader's key namespace |
| platform.dfy | `Platform` | the shared state (tables, Redis, clock, the two clients' ready flags) and the passing of time |
| song_service.dfy | `SongService` | the cache-aside readers, as functions from state to state and reply |
| admin_service.dfy | `AdminService` | the writers: checks, commit, then key deletion |
| coherence.dfy | `Coherence` | what readers serve compared with what the tables say, before and after each writer |
| backend.dfy | `Backend` | `Deployment`, a class with the tables and the cache as fields. Each handler is a method proved to perform its step function. |
| recommender.dfy | `Recommender` | `get_emotion_based_recommendations`: the chain of masks, `nlargest`, the result, and the method that narrows step by step |
| options.dfy | `Options` | `get_available_options`: sorted distinct values and integer ranges |
| recommend_api.dfy | `RecommendApi` | request validation and status codes of `/api/emotions`, `/api/recommend`, `/api/similar`, `/api/search` |
| library.dfy | `Library` | the search filters and empty-result messages of the Songs and Albums pages |
| player_context.dfy | `PlayerContext` | `PlayerProvider`, a class holding the playback state, and the `<audio>` element its handlers drive |
| player.dfy | `Player` | the footer: `formatTime`, the muted volume bar, nothing rendered without a song |
| accounts.dfy | `Accounts` | `UserStore`, a class holding the user table: registration, login, lookup |

Inputs the code takes from the outside world are parameters:

- **Readers and writers.** The current time; whether each service's Redis client `isReady`; the caller's role; the uploaded file's content and the URL Cloudinary returns for it; the writer's cache policy (the source's key lists or the corrected ones, see Findings).
- **Recommendation model.** The loaded table (absent when the model is untrained).
- **Player.** Whether the `<audio>` element is mounted; the element's duration.
- **User service.** The bcrypt salt.

## Model

| member | source | states |
|---|---|---|
| Catalog.InsertAlbum | admin_service/src/controller.ts:36-40 | the insert appends exactly one album, with the next `SERIAL` id and the given title, description and thumbnail; nothing else changes; ids stay below the counter |
| Catalog.InsertSong | admin_service/src/controller.ts:81-83 | the insert appends exactly one song with the next id, no thumbnail, the uploaded audio URL and the album id; nothing else changes |
| Catalog.SetThumbnail | admin_service/src/controller.ts:118-120 | every row with the id gets the thumbnail, every other row and the row order are unchanged, the album table is untouched |
| Catalog.ThumbnailRows | admin_service/src/controller.ts:118-120 | row by row, only rows with the id change |
| Catalog.DeleteAlbumCascade | admin_service/src/controller.ts:144-145 | afterwards no song of the album and not the album remain, and every other album and every song of another album is still there |
| Catalog.DeleteSongRow | admin_service/src/controller.ts:173 | exactly the rows with the id disappear; albums are untouched |
| Catalog.AlbumsWithIdAfterDelete | admin_service/src/controller.ts:145 | deleting one album leaves the rows of every other id as they were |
| Catalog.SongsOfAlbumAfterCascade | admin_service/src/controller.ts:144 | deleting one album's songs leaves every other album's song list exactly as it was |
| Catalog.SongsOfAlbumAfterSongDelete | admin_service/src/controller.ts:173 | deleting a song leaves the song list of every album that did not hold it exactly as it was |
| Catalog.SongsOfAlbumAfterThumbnail | admin_service/src/controller.ts:118-120 | setting a thumbnail leaves the song list of every album that did not hold the song exactly as it was |
| Cache.KeyOf | song_service/dist/controller.js:60 | the relation key is `album_songs_` followed by the decimal id |
| Cache.KeyOfInjective | song_service/dist/controller.js:9-74 | the three key families never collide, and distinct album ids give distinct keys |
| Cache.Get | song_service/dist/controller.js:9 | `GET` answers exactly while the entry is live (before its expiry) |
| Cache.Del | admin_service/src/controller.ts:41-44 | `DEL` removes exactly the named keys and leaves every other entry as it was |
| Cache.Set | song_service/dist/controller.js:20 | `SET k v EX ttl` stores exactly that value under the key with expiry now + ttl, adds no other key and leaves every other entry as it was |
| Cache.SetThenGet | song_service/dist/controller.js:20 | a value set with `EX ttl` is returned for exactly `ttl` seconds |
| Cache.DelThenGetMisses | admin_service/src/controller.ts:147-154 | after `DEL` the key misses |
| Cache.DelElsewhereKeeps | admin_service/src/controller.ts:147-154 | `DEL` of other keys does not change what a key returns |
| Platform.Tick | song_service/dist/controller.js:20 | time passing changes only the clock |
| SongService.Load | song_service/dist/controller.js:12-18 | the album and song lists are the whole tables. For one album the query answers nothing exactly when no album has the id; otherwise it answers the first album with the id and exactly the songs whose album id matches. |
| SongService.CacheAside | song_service/dist/controller.js:4-82 | a read never changes the tables, the clock or the flags, and writes no key but its own |
| SongService.GetSingleSong | song_service/dist/controller.js:83-90 | 404 "Song not found" exactly when no row has the id; otherwise a row with that id |
| SongService.CacheHitServesStoredPayload | song_service/dist/controller.js:8-13 | a live entry is served as it is, nothing changes, and the tables are not consulted |
| SongService.CacheMissLoadsAndPopulates | song_service/dist/controller.js:54-78 | a miss answers the loaded body and stores exactly it with expiry now + 1800; an unknown album gets 404 and nothing is stored |
| SongService.NotReadyBypassesCache | song_service/dist/controller.js:8-21 | with the client not ready nothing changes and the answer comes from the tables whatever Redis holds |
| SongService.InvalidateThenReadLoads | song_service/dist/controller.js:8-21 | after its key is deleted, the next read loads from the tables |
| SongService.ReadsKeepExpiryBounded | song_service/dist/controller.js:20 | reads and time keep every entry's expiry within 1800 s of now |
| SongService.ReadAfterExpiryIsFresh | song_service/dist/controller.js:6-20 | 1800 s after the last write of an entry a read answers the current tables: staleness is bounded by the expiry |
| AdminService.Commit | admin_service/src/controller.ts:36-173 | every write keeps ids below their counters |
| AdminService.AddAlbum | admin_service/src/controller.ts:14-49 | a non-admin gets 401 with no change; an admin succeeds exactly when a non-empty file came with the request; every failure leaves the world unchanged; a success commits exactly the album insert; ids stay below their counters |
| AdminService.AddSong | admin_service/src/controller.ts:51-91 | a non-admin gets 401 with no change; an admin succeeds exactly when the album exists and a non-empty file came; every failure leaves the world unchanged; a success commits exactly the song insert; ids stay below their counters |
| AdminService.AddThumbnail | admin_service/src/controller.ts:93-129 | a non-admin gets 401 with no change; an admin succeeds exactly when the song exists and a non-empty file came; every failure leaves the world unchanged; a success commits exactly the thumbnail update; ids stay below their counters |
| AdminService.DeleteAlbum | admin_service/src/controller.ts:131-158 | a non-admin gets 401 with no change; an admin succeeds exactly when the album exists; every failure leaves the world unchanged; a success commits exactly the cascade delete; ids stay below their counters |
| AdminService.DeleteSong | admin_service/src/controller.ts:160-183 | a non-admin gets 401 with no change; an admin succeeds exactly when the song exists; every failure leaves the world unchanged; a success commits exactly the row delete; ids stay below their counters |
| AdminService.CommitThenInvalidate | admin_service/src/controller.ts:41-44 | the store write is committed first; keys are deleted only when the client is ready; nothing else changes |
| AdminService.NonAdminChangesNothing | admin_service/src/controller.ts:15-18 | a missing user or any role other than admin gets 401 "Unauthorized" from all five writers, with no change at all |
| AdminService.MissingFileWritesNothing | admin_service/src/controller.ts:20-25 | no file means 400 and no write; for songs and thumbnails only after the album or song check passes |
| AdminService.AddSongUnknownAlbum | admin_service/src/controller.ts:57-64 | `addSong` for a missing album gives 404 "Album not found" and changes nothing |
| AdminService.AddAlbumEffect | admin_service/src/controller.ts:14-49 | a successful `addAlbum` appends exactly the album it echoes and deletes only the key `album` |
| AdminService.SongWritesDeleteOnlySongs | admin_service/src/controller.ts:51-129 | `addSong` and `addThumbnail` commit their write and delete `songs` and nothing else |
| AdminService.DeleteAlbumEffect | admin_service/src/controller.ts:131-158 | 404 "Album not found" and no change for an unknown album. Otherwise the album and its songs go, and `songs` and `albums` are deleted. |
| AdminService.DeleteSongEffect | admin_service/src/controller.ts:160-183 | 404 "Song not found" and no change for an unknown song; otherwise exactly that song goes and `songs` is deleted |
| AdminService.NoWriterEvictsRelation | admin_service/src/controller.ts:41-178 | no writer's key list contains any `album_songs_<id>` key |
| AdminService.NotReadyStillCommits | admin_service/src/controller.ts:41-44 | with the client not ready the write still commits and the cache is left alone |
| Coherence.ReadKeepsCoherent | song_service/dist/controller.js:4-82 | if every live entry agrees with the tables, it still does after any read |
| Coherence.TickKeepsCoherent | song_service/dist/controller.js:20 | time passing keeps live entries agreeing with the tables |
| Coherence.CoherentReadServesTables | song_service/dist/controller.js:4-82 | when every live entry agrees with the tables, every read, hit or miss, answers what the tables hold |
| Coherence.RelationAfterAlbumInsert | admin_service/src/controller.ts:36-40 | an album insert leaves every existing album's relation document unchanged |
| Coherence.RelationAfterSongInsert | admin_service/src/controller.ts:81-83 | a song insert leaves every other album's relation document unchanged |
| Coherence.RelationAfterThumbnail | admin_service/src/controller.ts:118-120 | a thumbnail update leaves the relation document of every album not holding the song unchanged |
| Coherence.RelationAfterAlbumDelete | admin_service/src/controller.ts:144-145 | deleting album `id` leaves every other album's relation document unchanged |
| Coherence.RelationAfterSongDelete | admin_service/src/controller.ts:173 | deleting a song leaves the relation document of every album not holding it unchanged |
| Coherence.LoadOutsideIntendedFanOut | admin_service/src/controller.ts:36-178 | a query whose key is outside a write's corrected key list loads the same before and after the write |
| Coherence.IntendedWriteKeepsCoherent | admin_service/src/controller.ts:36-178 | a write followed by deletion of its corrected key list keeps every live entry agreeing with the tables |
| Coherence.IntendedHandlersKeepCoherent | admin_service/src/controller.ts:14-183 | every writer with the corrected key lists keeps the cache coherent, on every path, when the client is ready |
| Coherence.IntendedAddAlbumThenReadListsIt | admin_service/src/controller.ts:14-49 | with the corrected key list, an album list read after `addAlbum` contains the new album |
| Coherence.IntendedDeleteAlbumThenReadMisses | admin_service/src/controller.ts:131-158 | with the corrected key list, reading a deleted album's songs answers 404 |
| Coherence.AlbumDeleteFanOut | admin_service/src/controller.ts:147-154 | deleting album 7 should clear exactly `albums`, `songs` and `album_songs_7`; the source clears only the first two |
| Coherence.AddAlbumLeavesAlbumListStale | admin_service/src/controller.ts:41-44 | as written, after `addAlbum` a cached album list without the new album keeps being served while it is live |
| Coherence.DeletedAlbumStillServed | admin_service/src/controller.ts:147-154 | as written, a deleted album and its songs keep being served from `album_songs_<id>` while the tables answer 404 |
| Coherence.AddSongLeavesRelationStale | admin_service/src/controller.ts:84-87 | as written, an album's cached song list keeps being served without the song just added |
| Coherence.DeletedSongStillServed | admin_service/src/controller.ts:175-178 | as written, a deleted song keeps being served in its album's cached song list |
| Backend.Deployment.constructor | admin_service/src/index.ts:35-57 | empty tables, both id sequences at 1, an empty cache |
| Backend.Deployment.Read | song_service/dist/controller.js:4-82 | the method performs exactly the cache-aside step |
| Backend.Deployment.GetAllAlbums | song_service/dist/controller.js:4-28 | performs the album-list read |
| Backend.Deployment.GetAllSongs | song_service/dist/controller.js:29-53 | performs the song-list read |
| Backend.Deployment.GetAllSongOfAlbum | song_service/dist/controller.js:54-82 | performs the album-songs read |
| Backend.Deployment.GetSingleSong | song_service/dist/controller.js:83-90 | answers from the tables only |
| Backend.Deployment.Tick | song_service/dist/controller.js:20 | only the clock moves |
| Backend.Deployment.Invalidate | admin_service/src/controller.ts:41-44 | deletes exactly the keys when ready, and changes nothing else |
| Backend.Deployment.AddAlbum | admin_service/src/controller.ts:14-49 | performs `addAlbum` under the deployment's key policy |
| Backend.Deployment.AddSong | admin_service/src/controller.ts:51-91 | performs `addSong` |
| Backend.Deployment.AddThumbnail | admin_service/src/controller.ts:93-129 | performs `addThumbnail` |
| Backend.Deployment.DeleteAlbum | admin_service/src/controller.ts:131-158 | performs `deleteAlbum` |
| Backend.Deployment.DeleteSong | admin_service/src/controller.ts:160-183 | performs `deleteSong` |
| Recommender.SatisfyingSnoc | recommendation_model/model.py:59-76 | narrowing an already narrowed table by one more mask is narrowing by all of them at once |
| Recommender.CriteriaMeanAdmits | recommendation_model/model.py:54-76 | a row survives the chain of masks exactly when it has the emotion, a listed genre (if a non-empty list is given), each given bound (inclusive), and the asked-for explicit flag |
| Recommender.Candidates | recommendation_model/model.py:54-76 | the mask chain; `CandidatesExactly` and `CandidatesQualify` state what it keeps |
| Recommender.CandidatesExactly | recommendation_model/model.py:54-76 | the surviving rows are exactly the qualifying rows, in table order |
| Recommender.CandidatesQualify | recommendation_model/model.py:54-76 | every surviving row is a row of the table that passes every mask |
| Recommender.InsertByPopularity | recommendation_model/model.py:81 | insertion adds exactly one row |
| Recommender.InsertKeepsOrder | recommendation_model/model.py:81 | insertion keeps the rows ordered by popularity, highest first |
| Recommender.SortByPopularity | recommendation_model/model.py:81 | the sort is a permutation ordered by popularity, highest first |
| Recommender.TopByPopularity | recommendation_model/model.py:81 | `nlargest(n, "Popularity")`; `TopIsMostPopular` and `TopFromInput` state what it returns |
| Recommender.TopIsMostPopular | recommendation_model/model.py:81 | `nlargest(n)` gives min(n, rows) rows, most popular first, none less popular than a row left out |
| Recommender.TopFromInput | recommendation_model/model.py:81 | every top row is an input row |
| Recommender.EmotionBasedRecommendations | recommendation_model/model.py:50-106 | raises the not-trained `ValueError` exactly without a table; the no-emotion error object when no row has the emotion |
| Recommender.TopQualifies | recommendation_model/model.py:54-81 | `nlargest(n)` of the candidates keeps min(n, candidates) rows, each a qualifying row of the table |
| Recommender.RecommendationsQualify | recommendation_model/model.py:81-106 | every recommendation qualifies; there are min(n, total_found) of them; `total_found` counts the qualifying rows; the emotion and the filters are echoed |
| Recommender.NoMatchAfterFilters | recommendation_model/model.py:78-79 | once some row has the emotion, the criteria error comes back exactly when no row qualifies |
| Recommender.RecommendationsAreTopCandidates | recommendation_model/model.py:81 | the recommendations are the qualifying rows, most popular first, and no qualifying row left out is more popular than one returned |
| Recommender.NarrowBy | recommendation_model/model.py:59-76 | applying one filter key's mask to the narrowed rows gives the rows meeting every mask so far |
| Recommender.ApplyFilters | recommendation_model/model.py:59-76 | the successive reassignments of `emotion_songs` end with exactly the candidate rows |
| Recommender.GetEmotionBasedRecommendations | recommendation_model/model.py:50-106 | the step-by-step method returns what the specification function says |
| Options.InsertUnique | recommendation_model/model.py:147-149 | inserting into a strictly sorted list keeps it strictly sorted and adds exactly the one value |
| Options.SortedUnique | recommendation_model/model.py:147-149 | `sorted(unique())` is strictly increasing, holds every value of the column and nothing else |
| Options.StrictlySortedUnique | recommendation_model/model.py:147-149 | only one strictly sorted list holds a given set of strings |
| Options.MinOf | recommendation_model/model.py:150-161 | `min()` is a value of the column and no value is smaller |
| Options.MaxOf | recommendation_model/model.py:150-161 | `max()` is a value of the column and no value is larger |
| Options.RangeOfBounds | recommendation_model/model.py:150-161 | each range is attained at both ends and contains every value of its column |
| Options.OptionListDescribesColumn | recommendation_model/model.py:147-149 | the option list holds each value once, in Python string order, and is the only such list |
| Options.GetAvailableOptions | recommendation_model/model.py:142-162 | raises exactly without a table or on an empty one (the not-trained message, and the `int(NaN)` message); every option list it returns is strictly increasing |
| Options.OptionsDescribeTable | recommendation_model/model.py:142-162 | on a non-empty table every list and range describes its column |
| Options.OptionsUntrained | recommendation_model/model.py:143-144 | untrained, the call raises the not-trained `ValueError` |
| RecommendApi.NumRecommendations | recommendation_model/flask_ml_api.py:63-67 | absent means 10; any accepted count lies between 1 and 50; rejected exactly for non-integers and out-of-range integers (`True` counts as 1, `False` is rejected) |
| RecommendApi.GetEmotions | recommendation_model/flask_ml_api.py:42-49 | 500 "Model not initialized" without a model; otherwise 200 exactly when `get_available_options` returns, with its whole result as the body, and 500 with the raised message when it raises (the not-trained message without a table, the `int(NaN)` message on an empty one) |
| RecommendApi.EmotionsReplyDescribesTable | recommendation_model/flask_ml_api.py:47 | on a non-empty table the reply holds each column's sorted distinct values and ranges attained at both ends that cover their columns |
| RecommendApi.RecommendSongs | recommendation_model/flask_ml_api.py:52-71 | the endpoint; `RecommendOutcomes` states its outcomes |
| RecommendApi.RecommendOutcomes | recommendation_model/flask_ml_api.py:52-71 | the checks run in order: model, then emotion, then count. Exactly the accepted requests with a table succeed, carrying the model's answer, and at most 50 recommendations come back. |
| RecommendApi.GetSimilarSongs | recommendation_model/flask_ml_api.py:74-92 | 500 without a model; 400 exactly when the artist or the song is missing or empty; accepted exactly when both are given and the count is valid |
| RecommendApi.SearchSongs | recommendation_model/flask_ml_api.py:95-122 | the endpoint; `BlankQueryRejected`, `SearchResultsMatch` and `SearchIgnoresCaseAndPadding` state its answers |
| RecommendApi.BlankQueryRejected | recommendation_model/flask_ml_api.py:101-103 | 400 "Search query is required" exactly for a missing or all-whitespace query |
| RecommendApi.SearchResultsMatch | recommendation_model/flask_ml_api.py:104-120 | the results are `head(20)` of the matches: exactly the matching rows of some prefix of the table, at most 20, in table order, each matching the normalised query; `total_found` is the number returned; fewer than 20 means all matches |
| RecommendApi.FirstMatches | recommendation_model/flask_ml_api.py:105 | the first 20 matches are the matches of a prefix of the table, a subsequence of it, each matching; fewer than 20 means all of them |
| Seqs.TakeFilterIsPrefixFilter | recommendation_model/flask_ml_api.py:105 | `head(n)` of a mask is the mask applied to some prefix: the earliest matching rows |
| RecommendApi.SearchDependsOnlyOnQuery | recommendation_model/flask_ml_api.py:99-105 | two requests with the same normalised query get the same answer |
| RecommendApi.NormaliseIgnoresCaseAndPadding | recommendation_model/flask_ml_api.py:101 | `strip().lower()` gives the same query for a query, its lower-cased form and the query padded with white space |
| RecommendApi.SearchIgnoresCaseAndPadding | recommendation_model/flask_ml_api.py:101 | the answer does not depend on the query's case or surrounding white space |
| Text.NatToString | frontend/src/components/Player.jsx:26 | the rendering is all digits, non-empty, a single digit exactly below 10, and has no leading zero |
| Text.NatToStringReadsBack | frontend/src/components/Player.jsx:26 | reading the rendering back as a decimal gives the number |
| Text.NatToStringInjective | song_service/dist/controller.js:60 | distinct numbers render differently |
| Text.ToLower | recommendation_model/flask_ml_api.py:101 | `lower()` keeps the length and folds each character on its own (ASCII) |
| Text.PadStart2 | frontend/src/components/Player.jsx:26 | `padStart(2, "0")` gives at least two characters, ends with the input and pads with zeros |
| Text.Trim | recommendation_model/flask_ml_api.py:101 | `strip()` leaves a slice of the input with no white space at either end |
| Text.TrimEmptyIff | recommendation_model/flask_ml_api.py:101-103 | `strip()` leaves nothing exactly for all-whitespace input |
| Text.TrimPadded | recommendation_model/flask_ml_api.py:101 | white space added at both ends is stripped again |
| Text.TrimLower | recommendation_model/flask_ml_api.py:101 | stripping and lower-casing commute |
| Library.FilteredSongs | frontend/src/pages/Songs.jsx:30-34 | `filteredSongs`; `FilteredSongsAreTheMatches` states what it keeps |
| Library.FilteredSongsAreTheMatches | frontend/src/pages/Songs.jsx:30-34 | the shown songs are a subsequence of the fetched list, each matching, with no matching song left out |
| Library.EmptyQueryShowsAllSongs | frontend/src/pages/Songs.jsx:30-34 | an empty query shows every song |
| Library.FilteredSongsIdempotent | frontend/src/pages/Songs.jsx:30-34 | filtering twice is filtering once |
| Library.SongQueryCaseInsensitive | frontend/src/pages/Songs.jsx:32-33 | every case variant of the query (as lower-casing sees it) shows the same songs |
| Library.NoSongsMessageIff | frontend/src/pages/Songs.jsx:171 | "No songs found" shows exactly when no song matches |
| Library.FilteredAlbums | frontend/src/pages/Albums.jsx:29-33 | `filteredAlbums`; `FilteredAlbumsAreTheMatches` states what it keeps |
| Library.FilteredAlbumsAreTheMatches | frontend/src/pages/Albums.jsx:29-33 | the shown albums are a subsequence of the fetched list, each matching, with no matching album left out |
| Library.EmptyQueryShowsAllAlbums | frontend/src/pages/Albums.jsx:29-33 | an empty query shows every album |
| Library.FilteredAlbumsIdempotent | frontend/src/pages/Albums.jsx:29-33 | filtering twice is filtering once |
| Library.AlbumQueryCaseInsensitive | frontend/src/pages/Albums.jsx:31-32 | the query's case does not matter |
| Library.NoAlbumsMessageIff | frontend/src/pages/Albums.jsx:111 | "No albums found" shows exactly when no album matches |
| PlayerContext.PlayerProvider.constructor | frontend/src/contexts/PlayerContext.jsx:12-19 | no song, not playing, time and duration 0, volume 1, not muted, no repeat, no shuffle |
| PlayerContext.PlayerProvider.PlaySong | frontend/src/contexts/PlayerContext.jsx:49-58 | the song always becomes current. Only with a mounted element is it loaded from the start and played, and `isPlaying` set. |
| PlayerContext.PlayerProvider.TogglePlay | frontend/src/contexts/PlayerContext.jsx:60-70 | nothing happens without an element or a song; otherwise the element pauses or plays and `isPlaying` flips; the element's source, position and volume never change |
| PlayerContext.PlayerProvider.HandleSeek | frontend/src/contexts/PlayerContext.jsx:72-78 | element and state move to the new time; the element's source, volume and paused flag and every other state value are unchanged |
| PlayerContext.PlayerProvider.HandleVolumeChange | frontend/src/contexts/PlayerContext.jsx:80-87 | the volume takes the value and `isMuted` becomes `value == 0`; nothing changes without an element or for a value the element refuses; the element's source, position and paused flag never change |
| PlayerContext.PlayerProvider.ToggleMute | frontend/src/contexts/PlayerContext.jsx:89-100 | `isMuted` flips; the stored volume never changes; unmuting gives the element the stored volume back, muting gives it 0; the element's source, position and paused flag never change |
| PlayerContext.PlayerProvider.Ended | frontend/src/contexts/PlayerContext.jsx:29-36 | with repeat the element restarts at 0 and keeps playing; otherwise `isPlaying` becomes false and the element's position and paused flag stay; its source and volume never change |
| PlayerContext.PlayerProvider.TimeUpdate | frontend/src/contexts/PlayerContext.jsx:27 | the state takes the element's position |
| PlayerContext.PlayerProvider.LoadedMetadata | frontend/src/contexts/PlayerContext.jsx:28 | the state takes the element's duration |
| PlayerContext.PlayerProvider.ToggleRepeat | frontend/src/components/Player.jsx:123 | only `isRepeat` flips |
| PlayerContext.PlayerProvider.ToggleShuffle | frontend/src/components/Player.jsx:65 | only `isShuffle` flips |
| Player.FormatTime | frontend/src/components/Player.jsx:23-27 | `formatTime`; `FormatTimeShape`, `FormatTimeReadsBack` and `FormatTimeInjective` state its text |
| Player.FormatTimeShape | frontend/src/components/Player.jsx:23-27 | the text is the whole minutes, a colon, and the seconds zero-padded to exactly two characters |
| Player.TwoDigitSeconds | frontend/src/components/Player.jsx:25-26 | seconds below 60 show as exactly two digits that read back as their value |
| Player.FormatTimeReadsBack | frontend/src/components/Player.jsx:23-27 | minutes times 60 plus the two-digit seconds (< 60) is the time shown |
| Player.FormatTimeInjective | frontend/src/components/Player.jsx:23-27 | different times are shown differently |
| Player.Render | frontend/src/components/Player.jsx:29 | nothing is rendered exactly when there is no current song |
| Player.RenderShowsState | frontend/src/components/Player.jsx:39-203 | the footer names the song and shows its thumbnail or the placeholder. It shows elapsed and total time as `m:ss`, and a volume between 0 and 1 that is 0 exactly when muted or set to 0. |
| Player.VolumeBarIsElementVolume | frontend/src/components/Player.jsx:198-203 | every handler keeps the volume bar equal to the volume the audio element plays at |
| Accounts.HashVerifies | user_service/dist/controller.js:13 | a digest accepts the password it was made from and no other |
| Accounts.FindFirst | user_service/dist/controller.js:7 | finds a user satisfying the condition, and nothing exactly when none does |
| Accounts.FindByEmail | user_service/dist/controller.js:7 | finds a user with the email, and nothing exactly when none has it |
| Accounts.FindById | user_service/dist/controller.js:50 | finds a user with the id, and nothing exactly when none has it |
| Accounts.FindByEmailUnique | user_service/src/model.ts:12 | with unique emails, the lookup finds the one user holding the email |
| Accounts.RegisteredUserCanLogIn | user_service/dist/controller.js:13-42 | a newly registered user is found by email and accepted with its password and no other |
| Accounts.UserStore.constructor | user_service/src/model.ts:10-19 | an empty table |
| Accounts.UserStore.Register | user_service/dist/controller.js:5-27 | a taken email gives 400 "User already exists" and no change. Otherwise exactly one user is appended: role "user", an empty playlist, the password's digest. The reply is 201 with the user and a token; emails stay unique. |
| Accounts.UserStore.Login | user_service/dist/controller.js:28-48 | 400 "User does not exist" exactly for an unknown email; 400 "Invalid credentials" exactly for a wrong password; otherwise 200 with that user and a token for it; the table is only read |
| Accounts.UserStore.GetUser | user_service/dist/controller.js:49-60 | 400 "User does not exist" exactly when no user has the id; otherwise 200 with that user |

## Left out

- **Network and connection handling.** Redis and SQL connections, Express routing, middleware and the `tryCatch` wrappers are not modelled. Nor is the JWT verification in the auth middleware: the caller's role is a parameter. Store failures and the 500 answers they produce are left out.
- **Cloudinary and Multer uploads.** `getBuffer` and the upload are foreign calls. The file is its data-URI content; an empty content stands for `getBuffer` producing no content, which each writer answers with 500 "Error uploading file"; the returned secure URL is a parameter.
- **Serialisation.** `JSON.stringify`/`JSON.parse` of cached documents is taken as exact: cache entries hold values. A corrupt cache entry, which would make `JSON.parse` throw, is not modelled.
- **Concurrency.** Readers and writers are interleaved only as whole handler steps. The source has no per-key lease, so stampedes are not modelled; nor is a write racing a read that repopulates the cache.
- **Route ids.** Route ids are natural numbers. Spellings such as `07` or `7abc`, which Postgres and the key template treat differently, are not modelled.
- **The `ON DELETE SET NULL` rule on `songs.album_id`.** It is not modelled; no writer can trigger it, because `deleteAlbum` deletes the album's songs first.
- **Hashing and tokens.** bcrypt is an abstract digest that accepts only its own password: collisions and the cost of 10 rounds are not modelled. `jwt.sign` is an opaque token naming the user id and the 3-day lifetime. The MongoDB `ObjectId` is a counter.
- **Request-body edge cases in the user service.** A missing field in a request body would make `bcrypt.hash` or mongoose validation throw; this is not modelled. The race between `findOne` and `create` against the unique index is not modelled.
- **`myProfile`.** It only echoes the middleware's user.
- **Non-string JSON values.** In `/api/recommend` and `/api/similar`, `emotion`, `artist` and `song` are modelled as present-or-absent strings; other JSON values are not modelled. The `filters` values are modelled as typed options: `genre` a list of strings, the six bounds integers, `explicit` a boolean. So the model does not capture that `'explicit'` set to `null`, `0` or `""` filters on "No" by Python truthiness, that a bound present as `null` makes the comparison raise (`TypeError`, answered with 500), or that a `genre` that is not a list makes `isin` raise. A missing or non-object JSON body (`request.get_json()` returning None) is not modelled.
- **What the Flask handlers delegate to.** `get_similar_songs` (the nearest-neighbour search over scaled features), `preprocess_data` (sampling, `fillna`, scaling), `get_dataset_stats`, `save_model`/`load_model` and `initialize_model` are not modelled. The model slot is a parameter: absent, or present with a loaded or missing table.
- **Numeric columns.** Tempo, energy and danceability are integers; float or NaN values, and pandas' NaN handling in `min`/`max` and in the masks, are not modelled. The one exception is the empty table, whose `int(NaN)` error is modelled.
- **`RecommendApi.SearchSongs`.** It matches plain substrings. pandas `str.contains` interprets the query as a regular expression, so queries with metacharacters behave differently (or raise) in the source. NaN artist or song cells are not modelled.
- **Case and white space.** Lower-casing folds ASCII letters only, and `strip()` removes ASCII white space only. Unicode case mapping and Unicode spaces are not modelled.
- **`Recommender.TopIsMostPopular`.** The order of rows with equal popularity is taken as table order (a stable sort). pandas `nlargest` keeps the first occurrences among ties but does not promise their relative order, so the contract states less about ties than the model computes.
- **Player percentages and times.** The progress and volume bar widths (`currentTime / duration * 100`) are floating-point and not modelled; only the level shown is. Times are whole seconds, so fractional, negative and NaN times in `formatTime` are not modelled. Clicking on the bars is modelled only through the handlers it calls.
- **`PlayerContext.PlayerProvider.PlaySong` and `Ended`.** `play()` is taken to start playback. The promise it returns can reject (a browser autoplay policy, a failed load); that path is left out. Whether a finished element reports `paused` is not modelled.
- **`PlayerContext.PlayerProvider.HandleVolumeChange`.** Values outside 0..1 follow the HTML standard's volume setter, which throws an `IndexSizeError`: the handler stops before any state update.
- **Other front-end components.** The remaining pages and components are rendering and fetch calls with no logic of their own.

Where the system's specification and its code differ, the model follows the code:

- **Failing cache calls.** The specification degrades a failing cache call to a database-only answer. In the code the only guard is the `isReady` check, and a `GET` or `SET` that fails after it ends the request through the error wrapper. The model keeps the check; the failing call is left out, as above.
- **Failing key deletions.** The specification logs and swallows them. In the code the error propagates after the commit. It is left out with the other store failures.
- **Corrupt cache entries.** The specification treats them as a miss. In the code `JSON.parse` throws instead. They are left out.
- **The writers' key lists.** The specification calls for complete key lists; the code's lists are narrower (see Findings). The source's lists are the `AsWritten` policy, and the complete ones the `Intended` policy.
- **`deleteSong`.** It checks that the song exists and answers 404 "Song not found" (controller.ts 166-172). The model includes that check.

## Findings

| source | as written | input that shows it | evidently intended | confidence | as-written member | corrected member |
|---|---|---|---|---|---|---|
| admin_service/src/controller.ts:41-44 | `addAlbum` deletes the key `album`, which no reader uses; the album list is cached under `albums` | a read of all albums (cached under `albums`), then `addAlbum` by an admin with a file, then a read of all albums before 1800 s pass: the list comes back from the cache without the new album | delete `albums` | not executed | Coherence.AddAlbumLeavesAlbumListStale | Coherence.IntendedAddAlbumThenReadListsIt |
| admin_service/src/controller.ts:147-154 | `deleteAlbum` deletes `songs` and `albums` but not `album_songs_<id>` | a read of album 7's songs, then `deleteAlbum(7)`, then the same read: the deleted album and its songs are served from the cache while the tables have neither | also delete `album_songs_<id>` (the full fan-out of the delete) | not executed | Coherence.DeletedAlbumStillServed | Coherence.IntendedDeleteAlbumThenReadMisses |
| admin_service/src/controller.ts:84-87 | `addSong`, `addThumbnail` and `deleteSong` delete only `songs`, never the relation key of the song's album (lines 84-87, 121-124, 175-178) | a read of album 7's songs, then `addSong` into album 7: the cached list without the new song keeps being served | also delete `album_songs_<albumId>` of each album whose songs change | not executed | Coherence.AddSongLeavesRelationStale | Coherence.IntendedHandlersKeepCoherent |
| admin_service/src/controller.ts:175-178 | `deleteSong` leaves the song in its album's cached song list | a read of album 7's songs, then `deleteSong` of one of them: the deleted song keeps being served | also delete `album_songs_<albumId>` | not executed | Coherence.DeletedSongStillServed | Coherence.IntendedHandlersKeepCoherent |
