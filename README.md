# PlaylistRX in Dafny

PlaylistRX rebuilds two Spotify playlists of one user on every run:

- **"[RX] Master"** is a weighted draw from the playlists the user names in `playlistsToInclude`. "Liked Songs" there means the saved tracks.
- **"[RX] Radio"** holds top tracks and more popular album tracks of artists sampled from the Master. It is optionally seeded with "Discover Weekly".

Both passes use the same negative signals:

- the user's top-track positions;
- how often each track occurs in "[RX] Songs I Hear Too Much";
- optionally, the artists heard too much: 3 or more too-much plays turn on extra weighting, 10 or more blacklist the artist by case-insensitive substring match.

A track starts at weight 10. Its penalty tiers are scaled by `weightModifier`, and a uniform draw below `weight / 10` keeps it.

This project models that core. The sources of data become explicit inputs:

- the service's answers: a catalog map for track information, a list of the user's playlists, and per-artist releases;
- the configuration;
- every random choice, as streams indexed by the position of the element drawn for.

The spec functions and lemmas state each step; the methods carry the loops. The two playlists are the fields of a `Library` object, which the Radio pass and the Master pass update.

Modules, one per file, in dependency order:

- `Common` (common.dfy): options, track information, dictionary-like entry lists and the configuration.
- `Seqs` (seqs.dfy): prefix `Take`, position-aware filter `Select`, subsequences.
- `Weight` (weight.dfy): the weight tiers, the clamp and the inclusion test.
- `Catalog` (catalog.dfy): track-information lookup and playlist lookup by name.
- `Signals` (signals.dfy): top positions, too-much counts, and the artist tables (heard too much, blacklist).
- `Blacklist` (blacklist.dfy): `lower()` and substring containment.
- `Shuffling` (shuffle.dfy): `random.shuffle` in place on an array, and `random.sample` over a pool list.
- `Radio` (radio.dfy): the per-artist selection and the Radio list.
- `Master` (master.dfy): gathering, the display-key map, the weighted selection and the split deck.
- `Library` (library.dfy): the class holding both playlists, and the passes in program order.

Behaviour the model follows as the code has it:

- The Master weight is not clamped; the Radio weight is clamped to [0, 10]. Only the Master adds the artist escalation.
- The escalation count sums the too-much counts over the Master *candidates* credited to the artist, not over the whole too-much playlist. `Master.ArtistTotalCountsPlays` states this exactly.
- Heard-too-much and blacklist totals are per artist **name**. The heard-too-much set holds artist **ids**.
- The blacklist threshold is 10.
- Without `playlistsToInclude`, the program stops after the Radio pass. This is `MissingPlaylistsToInclude`.
- A negative `numberOfRadioArtists` makes the artist sample fail. The run then ends before either playlist is touched. This is `NegativeRadioArtists`.
- When the Master selection is empty, the Master playlist is left as it is.
- The Radio playlist is always cleared, and refilled only when tracks were found.
- The split-deck step reads the Master after the Radio pass may have appended to it.

A few lemmas are stated for the reader, as checks on the model, and no other proof calls them:

- `Blacklist.CaseInsensitive` and `Blacklist.LowerIdempotent`: the blacklist test lower-cases both sides, so letter case never decides a match.
- `Blacklist.MatchNotLonger`: a substring match needs a blacklisted name no longer than the artist name.
- `Blacklist.EmptyNameBlacklistsAll`: an empty name would match every artist. The ensures of `Signals.BuildSignals` shows that the blacklist never holds one.
- `Master.CutDeckEmptyCurrent`: splitting against an empty Master adds no tracks; before the bottom half is shuffled again, top and bottom together are the shuffled selection, which is what the plain shuffle returns.

## Model

| member | source | states |
|---|---|---|
| `Weight.Clamp` | PlaylistRX.py:257 | the clamped weight lies in [0, 10]; it is the identity inside that range and saturates on either side |
| `Weight.ComputeWeight` | PlaylistRX.py:487-519 | the weight of both paths: with a non-negative modifier it is at most 10 and at least 10 − 14·mod without escalation or 10 − 17·mod with it; a zero modifier gives 10; clamping keeps it in [0, 10] |
| `Weight.Included` | PlaylistRX.py:521 | with a non-negative draw, a weight ≤ 0 never keeps the track; a weight ≥ 10 always does (draws below 1) |
| `Weight.TierTable` | PlaylistRX.py:242-248 | with modifier 1 and no top position, too-much counts 0, 1, 2, ≥3 give weights 10, 5, 3, 1 |
| `Weight.RankTiers` | PlaylistRX.py:249-256 | top positions below 50, 100, 200 subtract 5, 4, 3 times the modifier; later positions subtract nothing |
| `Weight.RadioIsClampedMaster` | PlaylistRX.py:240-257 | the Radio weight is the un-escalated Master weight clamped to [0, 10] |
| `Weight.MorePlaysNeverRaise` | PlaylistRX.py:487-499 | with a non-negative modifier, more too-much plays never raise the weight, the rest being equal |
| `Weight.TooMuchPenaltyMonotone` | PlaylistRX.py:242-248 | the too-much penalty tier grows with the play count |
| `Weight.WeightMonotone` | PlaylistRX.py:487-519 | with a non-negative modifier, more plays, a higher rank tier or a larger artist count never raise the weight |
| `Weight.OverplayedTopTrack` | PlaylistRX.py:240-259 | 3 too-much plays at top position 10 with modifier 1: Master weight −4, Radio weight 0, and neither path keeps the track for any draw in [0, 1) |
| `Weight.RadioSkipIsNotIncluded` | PlaylistRX.py:258-259 | the Radio skip test `draw >= weight/10` is exactly the negation of the Master keep test |
| `Signals.TopPositions` | PlaylistRX.py:405 | the position map has exactly the top tracks as keys; each maps to its last position in the top list |
| `Signals.TopPositionsInverse` | PlaylistRX.py:405 | on a top list without repeats, the position of the i-th top track is i |
| `Signals.CountOccurrences` | PlaylistRX.py:407-410 | the keys are the tracks of the list; each count is the track's number of occurrences, duplicates included |
| `Signals.ArtistNameCounts` | PlaylistRX.py:424-430 | keys are the non-empty artist names of the too-much information; each value is the occurrence-weighted total of that name |
| `Signals.ArtistsHeardTooMuch` | PlaylistRX.py:433-438 | an artist id is included exactly when some entry carries it under a name whose total is at least 3 |
| `Signals.BuildSignals` | PlaylistRX.py:404-442 | positions and counts as above; the heard-too-much set and the blacklist names are exactly those meeting the 3 and 10 thresholds, and are empty when their option is off; the empty name is never blacklisted |
| `Signals.HeardTooMuchMatches` | PlaylistRX.py:433-438 | the set the loop builds from the name table is the set of ids meeting the threshold on the name totals |
| `Signals.BlacklistMatches` | PlaylistRX.py:440-442 | the blacklist names are exactly the names whose total is at least 10 |
| `Signals.SameCounts` | PlaylistRX.py:407-421 | the per-track counts and the occurrence table built from the same playlist are equal maps |
| `Signals.NoInfoNoTotals` | PlaylistRX.py:416-417 | an empty too-much playlist gives zero name totals and no heard-too-much artist |
| `Signals.NameTotalCountsOccurrences` | PlaylistRX.py:419-430 | the total of an artist name equals the number of positions of the too-much playlist whose track carries that name |
| `Signals.EmptyNameTotal` | PlaylistRX.py:426-430 | the empty artist name is never totalled, so its total is 0 |
| `Signals.NameTotalPositive` | PlaylistRX.py:426-430 | a positive total belongs to a non-empty name carried by some too-much track |
| `Catalog.TracksInfo` | PlaylistRX.py:111-127 | one entry per distinct requested id that the catalog knows, in request order, each with the catalog's information |
| `Catalog.FindByName` | PlaylistRX.py:33-43 | the first playlist whose name equals the given one, and None exactly when no playlist has that name |
| `Blacklist.Lower` | PlaylistRX.py:187 | lower-casing keeps the length and maps every character on its own |
| `Blacklist.Contains` | PlaylistRX.py:187 | `needle in hay` holds exactly when the needle occurs at some position of the haystack |
| `Blacklist.LowerIdempotent` | PlaylistRX.py:187 | lower-casing twice equals lower-casing once |
| `Blacklist.CaseInsensitive` | PlaylistRX.py:185-189 | two artist names that differ only in letter case are blacklisted alike |
| `Blacklist.ContainsInside` | PlaylistRX.py:187 | a name that matches an artist name also matches any name that contains it |
| `Blacklist.BeMatchesBeyonce` | PlaylistRX.py:185-189 | the blacklisted name "Be" blacklists "Beyoncé" |
| `Blacklist.BeeMissesBeyonce` | PlaylistRX.py:185-189 | "Bee" does not blacklist "Beyoncé": only contiguous substrings match |
| `Blacklist.EmptyNameBlacklistsAll` | PlaylistRX.py:475-485 | an empty blacklisted name would blacklist every artist; `Signals.BuildSignals` ensures no such name gets into the blacklist |
| `Blacklist.MatchNotLonger` | PlaylistRX.py:475-485 | a match needs a blacklisted name no longer than the artist name |
| `Shuffling.Shuffled` | PlaylistRX.py:265 | the Fisher–Yates shuffle driven by a pick stream, swapping each position from the last one down with a picked position at or below it, is a permutation of its input |
| `Shuffling.Shuffle` | PlaylistRX.py:311-313 | the in-place array shuffle computes exactly `Shuffling.Shuffled` of its input and stream, hence a permutation of it |
| `Shuffling.Sample` | PlaylistRX.py:178 | sampling k of n (k ≤ n) gives k elements drawn without replacement: a sub-multiset of the population |
| `Shuffling.SubMultisetDistinct` | PlaylistRX.py:178 | a sample of distinct artist ids has no repeats |
| `Radio.MainArtistTracks` | PlaylistRX.py:210-220 | exactly the album tracks whose first artist is the artist, in album order |
| `Radio.FirstById` | PlaylistRX.py:222-226 | distinct ids, only input tracks, and every id of the input represented |
| `Radio.DedupById` | PlaylistRX.py:222-226 | the seen-set loop computes the first track of every id in first-occurrence order |
| `Radio.SortByPopularity` | PlaylistRX.py:229 | a permutation of the tracks, ordered by non-increasing popularity (missing popularity counts as 0) |
| `Radio.PoolShape` | PlaylistRX.py:228-230 | the pool has ⌊3n/4⌋ of the n distinct tracks, all of them from the input, most popular first |
| `Radio.PoolDistinct` | PlaylistRX.py:228-230 | the pool has no repeated id |
| `Radio.PoolKeepsMostPopular` | PlaylistRX.py:228-230 | a track left out of the pool is never more popular than one in it |
| `Radio.RadioWeight` | PlaylistRX.py:240-257 | the Radio weight lies in [0, 10] |
| `Radio.SelectTopSongs` | PlaylistRX.py:234-261 | the first `radioArtistSongs` top tracks that pass the weighting, in top-track order; a subsequence of the top tracks; with weighting off, the plain prefix |
| `Radio.ReplaceSongs` | PlaylistRX.py:263-301 | the length is kept; the number of replacements is the smaller of the cap and the number of eligible pool tracks (none for empty top songs); every slot keeps its own top song or holds one of the eligible pool tracks used, which are the first ones in shuffled-pool order; without replacements nothing changes; after at least one replacement, the last eligible track used is in the result |
| `Radio.OverwriteSlots` | PlaylistRX.py:266-300 | the loop stops at the end of the pool or at the cap, and its state then satisfies the invariant of `Radio.ReplaceStep` |
| `Radio.ReplaceStep` | PlaylistRX.py:266-300 | one pass of the replacement loop: an eligible track overwrites the picked slot and counts once, any other track changes nothing; the slots hold top songs or tracks used so far, and the last track used is in one of them |
| `Radio.ReplacedSlots` | PlaylistRX.py:266-269 | when the loop stops at the cap or at the end of the pool, the tracks used are the first eligible ones, as many as the cap allows, and the last of them is in the result |
| `Radio.ReplacementsFromPool` | PlaylistRX.py:268-274 | a replacement track is a pool track that is not among the top songs |
| `Radio.ArtistPoolTracks` | PlaylistRX.py:210-230 | the pool has distinct ids, and only album tracks credited first to the artist |
| `Radio.ArtistSongs` | PlaylistRX.py:195-303 | one song per slot of the top selection (the first `radioArtistSongs` top tracks that pass the weighting); each slot keeps its top track or holds one of the replacement tracks used, which are the first eligible tracks of the pool shuffled with the artist's stream, at most `radioArtistRandomSongs` of them; when top songs exist and some track is used, the last one used is among the songs; with `radioArtistRandomSongs` ≤ 0 the songs are the top selection; every song is a top track or an album track credited first to the artist |
| `Radio.UsedFromPool` | PlaylistRX.py:263-274 | a replacement track used is a track of the artist's pool that is not in the top selection |
| `Radio.ReplacementLands` | PlaylistRX.py:263-301 | with top songs, a positive `radioArtistRandomSongs` and an eligible track in the shuffled pool, some slot of the artist's songs holds a track outside the top selection |
| `Radio.ReplacedSongs` | PlaylistRX.py:263-303 | the slot facts of the replacement step, over the artist's top selection and shuffled pool, are the artist's songs as `Radio.ArtistSongs` states them |
| `Radio.SongsContribute` | PlaylistRX.py:195-303 | every song of an artist is one of its top tracks or a pool track, and so comes from that artist |
| `Radio.SongOrigin` | PlaylistRX.py:234-301 | one song of an artist is one of its top tracks or a track of its pool |
| `Radio.BlockContributes` | PlaylistRX.py:181-303 | a song in an artist's block comes from that artist, whose name is not blacklisted |
| `Radio.BlockAt` | PlaylistRX.py:181-304 | the k-th block of the blocks built so far is the k-th chosen artist's block, drawn with the k-th streams |
| `Radio.NextBlock` | PlaylistRX.py:181-303 | the next chosen artist adds one block: nothing for a blacklisted name, otherwise its songs; at most `radioArtistSongs` of them |
| `Radio.BlocksFromSampledArtists` | PlaylistRX.py:181-303 | every song of the blocks comes from a chosen artist that is not blacklisted |
| `Radio.TracksBy` | PlaylistRX.py:171-175 | an artist credited on no Master track has no tracks |
| `Radio.LastName` | PlaylistRX.py:176 | a name is recorded exactly when some Master track is credited to the artist |
| `Radio.GroupByArtist` | PlaylistRX.py:167-176 | the keys are the credited artist ids with non-empty id, each once; each track list is that artist's Master tracks in order; each name comes from the artist's last track |
| `Radio.GroupStep` | PlaylistRX.py:171-176 | how one more Master track changes the credited set, the track list and the recorded name of an artist |
| `Radio.KeysCount` | PlaylistRX.py:178 | the number of keys is the number of distinct credited artists |
| `Radio.ChooseArtists` | PlaylistRX.py:167-179 | for a non-negative request n, min(n, #artists) distinct credited artists, each with its recorded name |
| `Radio.SampledArtistSongs` | PlaylistRX.py:181-304 | the songs are the blocks of the chosen artists one after the other, in sample order: an empty block for a blacklisted name, otherwise the artist's songs as `Radio.ArtistSongs` states them, drawn with that artist's streams; at most `radioArtistSongs` songs per artist |
| `Radio.BuildRadio` | PlaylistRX.py:155-304 | a negative `numberOfRadioArtists` fails the sample; otherwise the chosen artists are distinct credited artists, min(n, #artists) of them, and the list is exactly the Discover Weekly seed followed by one block per chosen artist in sample order (see `Radio.SampledArtistSongs`), so every later track comes from a chosen artist that is not blacklisted |
| `Radio.NotInMaster` | PlaylistRX.py:317-318 | each radio track keeps its multiplicity unless it is already in the Master, where it drops to zero |
| `Master.SourcesCover` | PlaylistRX.py:460-467 | a track is gathered exactly when some configured source holds it: the liked songs for "Liked Songs", otherwise the first playlist of that name |
| `Master.CollectSources` | PlaylistRX.py:460-467 | the loop gathers the sources' tracks in configuration order |
| `Master.SetToList` | PlaylistRX.py:469 | every gathered id exactly once |
| `Master.TrackMap` | PlaylistRX.py:470 | one candidate per display key "name - artist", the keys being exactly those of the candidates' information, each from the last track with that key |
| `Master.ArtistCount` | PlaylistRX.py:509-512 | the loop computes the artist's escalation count |
| `Master.MasterEscalation` | PlaylistRX.py:504-519 | escalation applies only with the option on to an artist heard too much; it then subtracts 3 or 2 times the modifier for a count of ≥6 or 3–5, and nothing otherwise |
| `Master.ArtistTotalCountsPlays` | PlaylistRX.py:504-512 | the escalation count is the number of too-much positions holding a candidate track credited to the artist |
| `Master.CandidateWeight` | PlaylistRX.py:487-519 | the loop's weight computation for one track is its Master weight |
| `Master.SelectMaster` | PlaylistRX.py:472-527 | the selection is the ids, in map order, of the candidates that are not blacklisted and whose draw falls below a tenth of their Master weight |
| `Master.SelectedAreAllowed` | PlaylistRX.py:475-526 | a selected track is a non-blacklisted candidate; with non-negative draws its weight is positive |
| `Master.SelectedComeFromSources` | PlaylistRX.py:469-526 | a selected track is a gathered id that the catalog knows, and its artist is not blacklisted |
| `Master.BlacklistedNeverSelected` | PlaylistRX.py:475-485 | a candidate by a blacklisted artist is never selected, whatever the draws |
| `Master.SelectFromSources` | PlaylistRX.py:460-527 | the gathered ids are distinct and are exactly the tracks of the configured sources; the selection is the weighted selection over the display-key map built from them |
| `Master.CutDeck` | PlaylistRX.py:536-553 | the top is the first half of the shuffled selection; top and bottom together hold the selection plus the first quarter of the current Master |
| `Master.ArrangeMaster` | PlaylistRX.py:529-566 | when splitting against a non-empty Master, the result holds the selection plus the Master's first quarter and starts with half of a rearranged selection; otherwise it is a permutation of the selection |
| `Master.CutDeckEmptyCurrent` | PlaylistRX.py:559-561 | splitting against an empty Master would only rearrange the selection, like the plain shuffle the branch uses |
| `Library.Library.GenerateRadio` | PlaylistRX.py:155-321 | a negative `numberOfRadioArtists` ends the pass with neither playlist changed; otherwise the Radio holds, up to order, exactly the Discover Weekly seed and the per-artist blocks of `Radio.BuildRadio` for the artists sampled from the Master; the Master gains the shuffled radio tracks not already in it exactly when `includeRadioInMaster` is on |
| `Library.ShuffledRadio` | PlaylistRX.py:155-313 | a negative `numberOfRadioArtists` fails; otherwise the chosen artists are as in `Radio.BuildRadio`, and the new Radio holds, up to order, exactly the Discover Weekly seed and the per-artist blocks, within the size bound |
| `Library.BuiltRadioFrom` | PlaylistRX.py:160-165 | the built radio list keeps the whole Discover Weekly seed, and every track is a seed track or an artist song |
| `Library.ShuffledRadioFrom` | PlaylistRX.py:311-313 | shuffling does not change where radio tracks come from |
| `Library.Library.AssembleMaster` | PlaylistRX.py:460-570 | without `playlistsToInclude` nothing changes; otherwise the gathered ids are distinct and cover the sources, and the Master is unchanged when nothing is selected, else replaced by the arranged selection; the Radio is untouched |
| `Library.Library.Run` | PlaylistRX.py:401-570 | one run: a negative `numberOfRadioArtists` ends it with both playlists unchanged; otherwise the outcome reports a missing `playlistsToInclude`; the Radio respects its size bound; without radio-into-Master and with an empty selection the Master is unchanged; without splitting, a non-empty selection becomes the Master up to order |

## Left out

- The Spotify client, authentication and the 429 retry loop are not modelled. Service answers are parameters: a catalog map for `getTracksInfo`, a playlist list for name lookups and playlist contents, and a releases function per artist.
- Paging and batching (50 or 100 items per request) are not modelled. The top-tracks list stands for what `getUserTopTracks` returns, up to 200 tracks.
- Track information comes from the catalog map as a record. The "Unknown" artist name and the missing artist id of a track without artists are values the map may hold.
- playlist creation (`getOrCreatePlaylist`) is not modelled. The three playlists are assumed to exist, and `Library` holds the contents of the two that are rewritten.
- Album tracks of an artist are flattened into one list per artist, in album order.
- Argument parsing, `loadConfig` and the command-line overrides are not modelled. `Config` holds the values after the program's `config.get` defaults are applied.
- Printing, the `attempted` and `filtered` counters, and the status messages are not modelled. They affect no playlist.
- Floating point is not modelled: `weightModifier` and the draws are exact reals. `int(len * 0.75)` is `(3 * len) / 4`, which agrees with the float result for any list size that occurs.
- The too-much playlist is fetched twice, for the counts and for the artist tables. The model assumes both fetches return the same contents. `Signals.SameCounts` shows the two count tables then agree.
- `Blacklist.Lower`: `str.lower()` is modelled on ASCII letters only. Other characters, such as "É", are left unchanged.
- Python's `set` iteration order in `list(set(rawIds))` is modelled as an arbitrary permutation of the distinct ids.
- `Radio.SortByPopularity`: stability among equal popularities is implemented but not stated.
- `Radio.ReplaceSongs`: which slot each replacement overwrites, and that a later replacement can overwrite an earlier one, are left to the slot stream. The contract says which track each slot can hold, not which replacement lands where. It does not say that replacements hit distinct slots, because the source does not guarantee that.
- `Radio.ArtistSongs`: which slot each used replacement ends up in is left to the slot stream, as for `Radio.ReplaceSongs`. `Radio.SampledArtistSongs`, `Radio.BuildRadio` and `Library.Library.GenerateRadio` inherit this.
- `Shuffling.Shuffle`: the stream stands for CPython's `randbelow(i + 1)` draws, reduced into range. That every arrangement is reachable, and the uniformity of the distribution, are not stated.
- `Shuffling.Sample`: only the size and the sub-multiset fact are stated, not which elements a given stream picks. CPython switches between two algorithms by population size; the model follows the pool algorithm.
- `Library.Library.GenerateRadio`: the Radio is stated up to order, as a multiset, although `Shuffling.Shuffle` pins down the order for a given stream.
- `Library.Library.Run`: the contract does not restate the two passes' full contracts. It gives only the outcome, the failed-sample case, the size bound of the Radio and the unchanged-Master case.
