# StreamHub media browser: a Dafny model of its catalog, lists and player

StreamHub is a browser front end with two halves: a movie catalog backed by a
remote metadata service (falling back to a fixed list of six movies), and a
music player driven entirely by a fixed list of six mock tracks. This project
models the logic underneath the page wiring:

- **Track catalog** (`MusicCatalog`, scripts/api.js). The six mock tracks,
  the case-insensitive search by name or artist, the first-match lookup by
  identifier, and the catalog object's cursor. The cursor moves forward with
  `(i + 1) % n` and backward with `(i - 1 + n) % n`. `MusicApi` is a class
  whose methods update `currentTrackIndex`. Each method is proved against the
  functions `NextIndex`, `PrevIndex`, `MatchingTracks` and `FindTrack`, and
  the lemmas about those functions prove the search, the lookup and the
  wraparound.
- **Movie catalog, offline** (`MovieCatalog`, scripts/api.js). The mock
  movie list, the title search, and the detail table that holds only movie 1,
  so every identifier gets movie 1's record. `getMovies`, `getMovieDetails`
  and `searchMovies` are modelled with the service key and the outcome of the
  remote request (`Fetch`) as parameters. With the shipped placeholder key, or
  when the request fails, each answers from the offline data.
- **Favorites and watchlist** (`Movies`, scripts/movies.js). `MovieManager`
  is a class holding two identifier lists and a reference to a key/value
  store class that stands for the device storage. Insertion is guarded by
  membership. Removal filters the identifier out. Each change is saved under
  the list's own key. The methods keep the lists duplicate-free and keep the
  store in step with memory (`Persisted`). Each method leaves the other list
  and its key alone.
- **Player** (`Player`, scripts/music.js). `MusicPlayer` is a class with the
  source's fields (`tracks`, `currentTrack`, `isPlaying`, and the audio
  source). Each transport method is proved equal to a step function on
  `PlayerState`. The lemmas prove what those steps do: an unknown identifier
  changes nothing, with a current track two toggles whose plays succeed
  restore the state, and every step keeps the player consistent.
- **Clock display** (`Clock`, scripts/music.js). `formatTime` on whole
  seconds, with a parser back from `m:ss` that proves the round trip.

`Seqs` and `Text` hold the built-in operations the source calls:
`Array.prototype.filter` and `includes`, ASCII `toLowerCase`, the decimal
rendering of a number, and `padStart`.

Behaviour worth knowing, modelled as the code does it:

- `nextTrack` and `previousTrack` each build a **fresh** catalog object
  (scripts/music.js:102 and :110). A fresh cursor always starts at 0. So
  `nextTrack` always selects the second track (id 2) and `previousTrack`
  always selects the last track (id 6), whatever is playing
  (`NextAndPreviousIgnoreCurrent`, `NextTwiceStaysPut`).
- Selecting a track raises `isPlaying` only when the audio element's
  `play()` promise resolves. It does not unconditionally enter a playing
  state.
- `getMockMovieDetails` returns movie 1's record for every identifier. The
  record carries the requested identifier only when the request was for 1.

## Model

| member | source | states |
|---|---|---|
| MusicCatalog.MockMusicDataShape | scripts/api.js:12-67 | the catalog has six tracks and track i has identifier i + 1 |
| MusicCatalog.MatchingTracksSpec | scripts/api.js:241-251 | the search keeps exactly the tracks whose lowercased name or artist includes the lowercased query, with their multiplicities, in catalog order; the empty query keeps every track |
| MusicCatalog.SearchWeeknd | scripts/api.js:241-251 | searching the mock catalog for "weeknd" yields exactly the tracks with identifiers 1 and 2 |
| MusicCatalog.FindTrack | scripts/api.js:253-255 | the lookup returns none exactly when no track has the identifier, and otherwise the track at the first position that has it |
| MusicCatalog.FindTrackAt | scripts/api.js:253-255 | with distinct identifiers, looking up the identifier of the track at position i returns that track |
| MusicCatalog.NextIndex | scripts/api.js:258 | the next cursor stays in [0, n) and is i + 1, or 0 after the last track |
| MusicCatalog.PrevIndex | scripts/api.js:263 | the previous cursor stays in [0, n) and is i - 1, or n - 1 before the first track |
| MusicCatalog.PrevNextInverse | scripts/api.js:257-265 | previous after next, and next after previous, restore the cursor |
| MusicCatalog.AdvanceCompose | scripts/api.js:257-260 | a + b forward moves are a moves followed by b moves |
| MusicCatalog.AdvanceWithoutWrap | scripts/api.js:257-260 | before reaching the last track, k forward moves add k to the cursor |
| MusicCatalog.AdvanceFullCycle | scripts/api.js:257-260 | n forward moves bring the cursor back to where it started |
| MusicCatalog.MusicApi.constructor | scripts/api.js:227-230 | a new catalog holds the mock tracks with the cursor at 0 |
| MusicCatalog.MusicApi.GetTracks | scripts/api.js:232-239 | resolves to the whole track list |
| MusicCatalog.MusicApi.SearchTracks | scripts/api.js:241-251 | resolves to the matching tracks of the catalog |
| MusicCatalog.MusicApi.GetTrackById | scripts/api.js:253-255 | returns the first-match lookup of the identifier |
| MusicCatalog.MusicApi.GetNextTrack | scripts/api.js:257-260 | moves the cursor to the next index, keeps it valid, and returns the track there |
| MusicCatalog.MusicApi.GetPreviousTrack | scripts/api.js:262-265 | moves the cursor to the previous index, keeps it valid, and returns the track there |
| MovieCatalog.MockMoviesShape | scripts/api.js:150-201 | the offline list has six distinct movies with identifiers 1 to 6 in order |
| MovieCatalog.MockMovieDetails | scripts/api.js:203-222 | every identifier yields movie 1's record, which carries the requested identifier only when it is 1 |
| MovieCatalog.DetailsAgreeWithSummary | scripts/api.js:203-222 | movie 1's detail record agrees with the first movie of the offline list on every shared field |
| MovieCatalog.MockSearchSpec | scripts/api.js:126-129 | the offline search keeps exactly the movies whose lowercased title includes the lowercased query, in list order and without duplicates; the empty query keeps all |
| MovieCatalog.GetMovies | scripts/api.js:78-99 | without a key or after a failed request the answer is the offline list, otherwise the remote list; it never fails |
| MovieCatalog.GetMovieDetails | scripts/api.js:101-121 | without a key or after a failed request the answer is movie 1's offline record, otherwise the remote record |
| MovieCatalog.SearchMovies | scripts/api.js:123-148 | without a key, and after a failed request, the answer is the same offline title search; otherwise the remote results |
| MovieCatalog.ConfiguredCatalogIsOffline | scripts/api.js:72-83 | with the shipped key the remote service is never consulted: the list is the offline one, search results come from it, and every detail lookup gives movie 1 |
| Seqs.Filter | scripts/api.js:244-247 | `filter` keeps exactly the elements of the list that satisfy the predicate and never lengthens it |
| Text.LowerStr | scripts/api.js:245-246 | `toLowerCase` keeps the length and lowercases each ASCII capital, leaving every other character alone |
| Text.Decimal | scripts/music.js:169 | the decimal rendering of a number is a non-empty digit string, one digit exactly below 10 and without a leading zero otherwise |
| Text.PadStart2 | scripts/music.js:169 | `padStart(2, '0')` leaves a string of two or more characters alone and prefixes a shorter one with zeros up to length two |
| Movies.KeyValueStore.SetItem | scripts/movies.js:37-43 | `setItem` makes the key hold the value and leaves every other key unchanged |
| Seqs.WithoutSpec | scripts/movies.js:20-23 | filtering an identifier out removes exactly its occurrences, keeps every other element as often and in order, and keeps a duplicate-free list duplicate-free |
| Movies.Insert | scripts/movies.js:13-18 | inserting makes the identifier present, adds nothing else, leaves a list that has it unchanged and otherwise appends it at the end |
| Movies.InsertSpec | scripts/movies.js:13-18 | inserting keeps a list duplicate-free, inserting twice equals inserting once, and the identifier then occurs exactly once |
| Movies.RemoveUndoesInsert | scripts/movies.js:13-23 | removing a freshly inserted identifier gives back the original list, and removing an absent identifier changes nothing |
| Movies.MovieManager.constructor | scripts/movies.js:8-11 | both lists are loaded from their keys, an absent key giving the empty list, so memory and store agree |
| Movies.MovieManager.SaveFavorites | scripts/movies.js:37-39 | the favorites key now holds the favorites list; no other key changes |
| Movies.MovieManager.SaveWatchlist | scripts/movies.js:41-43 | the watchlist key now holds the watchlist; no other key changes |
| Movies.MovieManager.AddToFavorites | scripts/movies.js:13-18 | a present identifier leaves list and store untouched; an absent one is appended and saved; afterwards it is a favorite; the watchlist and its key are unchanged; no duplicates and store agreement are preserved |
| Movies.MovieManager.RemoveFromFavorites | scripts/movies.js:20-23 | every occurrence is filtered out and the list is always saved; afterwards it is not a favorite and every other identifier's membership is unchanged; the watchlist and its key are unchanged |
| Movies.MovieManager.AddToWatchlist | scripts/movies.js:25-30 | the watchlist counterpart of adding a favorite, leaving the favorites and their key unchanged |
| Movies.MovieManager.RemoveFromWatchlist | scripts/movies.js:32-35 | the watchlist counterpart of removing a favorite, leaving the favorites and their key unchanged |
| Player.PlayTrackSpec | scripts/music.js:57-66 | an identifier that is not loaded leaves the whole state unchanged; a loaded one becomes the current track, its preview becomes the source, and the player plays if it was playing or the audio started |
| Player.StepsPreserveConsistency | scripts/music.js:52-113 | every transition keeps the list unloaded or the mock catalog, and keeps a current track loaded and its preview the source |
| Player.NextAndPreviousIgnoreCurrent | scripts/music.js:99-113 | once loaded, next always selects track 2 and previous always selects track 6, whatever was current |
| Player.NextTwiceStaysPut | scripts/music.js:99-105 | pressing next again selects the same track again |
| Player.NothingLoadedIsInert | scripts/music.js:57-113 | before loading, selecting, next, previous and toggling without a current track change nothing |
| Player.ToggleWithoutTrack | scripts/music.js:83-90 | with no current track and tracks loaded, toggling selects the first loaded track, makes its preview the source, keeps the list, and plays if it was playing or the audio started; with none loaded it changes nothing |
| Player.ToggleTwice | scripts/music.js:83-97 | with a current track, toggling changes only the playing flag: a playing player pauses and a paused one plays exactly when the audio starts; two toggles whose plays succeed restore the state |
| Player.MusicPlayer.constructor | scripts/music.js:3-10 | a new player has no tracks, no current track, no source and is not playing |
| Player.MusicPlayer.LoadTracks | scripts/music.js:52-55 | the loaded list becomes the mock catalog and nothing else changes |
| Player.MusicPlayer.PlayTrack | scripts/music.js:57-66 | the new state is the select-and-play step of the old one |
| Player.MusicPlayer.Play | scripts/music.js:68-75 | the playing flag is raised only when the audio starts; nothing else changes |
| Player.MusicPlayer.Pause | scripts/music.js:77-81 | the playing flag is lowered; nothing else changes |
| Player.MusicPlayer.TogglePlay | scripts/music.js:83-97 | the new state is the toggle step of the old one |
| Player.MusicPlayer.NextTrack | scripts/music.js:99-105 | the new state is the next step of the old one, built from a fresh catalog's next track |
| Player.MusicPlayer.PreviousTrack | scripts/music.js:107-113 | the new state is the previous step of the old one, built from a fresh catalog's previous track |
| Clock.FormatTime | scripts/music.js:164-170 | NaN shows "0:00"; otherwise the text is the minutes in decimal without leading zeros, a colon, and two digits whose value is the seconds modulo 60 |
| Clock.TwoDigits | scripts/music.js:168-169 | a number below 100 padded to two digits keeps its value |
| Clock.FormatTimeRoundTrip | scripts/music.js:164-170 | reading the displayed text back gives the number of seconds, so distinct times display differently |
| Clock.FormatTimeNaN | scripts/music.js:165 | NaN displays as zero seconds do |
| Text.IncludesIffOccurs | scripts/api.js:245-246 | `includes` holds exactly when the query occurs at some position of the string |
| Text.DecimalValue | scripts/music.js:169 | the decimal digits of a number read back as that number |

## Left out

- scripts/main.js is not part of this model: it does tab and view switching, HTML rendering and event wiring. Its only calls into the modelled core are `getTracks`, `searchTracks`, `playTrack`, `getMovies`, `searchMovies` and `getMovieDetails`.
- The network side of `MovieAPI` is not modelled: URL building, `encodeURIComponent`, `fetch`, the `response.ok` check and JSON decoding. The outcome of a request is the parameter `Fetch`, so the `category` and `page` arguments of `getMovies` do not appear. Console logging is left out.
- `setTimeout` delays and promises are reduced to their resolved values. Each operation is taken to complete before the next starts, so overlapping searches that resolve out of order are not modelled.
- `Text.LowerStr`: lowercases ASCII letters only. Unicode case mapping is not modelled.
- `MovieCatalog.MockMovies`: the overview texts of the offline movies and of movie 1's detail record are not kept. No modelled operation reads them, and the long literals make the solver too slow. Ratings are stored in tenths (8.7 becomes 87) instead of as floating point.
- `Clock.FormatTime`: models whole non-negative seconds and NaN only. The player passes fractional media times and can pass Infinity; the floor of fractional seconds and the display of Infinity are not modelled. Minutes are an unbounded integer always printed in full decimal; JavaScript numbers are doubles, which print from 1e21 in exponent notation and are inexact above 2^53, sizes that media times never reach.
- `seek`, the progress percentage and the time display updates are not modelled. They compute with floating point and write to the page.
- The playback position is not modelled. Assigning a new source reloads the audio element and puts the position back at 0; `seek` and the time display are left out, so nothing in the model reads the position.
- The audio element is reduced to its source. Its own paused, ended and current-time state are not modelled. The outcome of its `play()` promise is the parameter `playResolves`. The `ended` event handler just calls `nextTrack`, which is modelled.
- `updateNowPlaying`, `updatePlayButton` and `setupEventListeners` only write to the page, so they are not modelled. `initializePlayer` also starts `loadTracks` (scripts/music.js:12-15), so building a player starts loading the catalog. The model's constructor leaves the list empty, and `LoadTracks` applies the load as a separate step once the catalog answers, its effect happening all at once.
- `localStorage` is the class `KeyValueStore`, which maps keys directly to integer lists. JSON encoding, malformed stored values and quota errors are not modelled.
- `isFavorite` and `isInWatchlist` are the membership predicates `IsFavorite` and `IsInWatchlist`. They have no contracts of their own; the add and remove methods state their effect on them.
