# Mood playlist builder — a Dafny model

This project models the core of a mood-based playlist generator. An emotion
label, obtained elsewhere from a photograph, selects a seed table entry:
genres and search keywords. The builder queries a music catalog with those
seeds, collects the returned track URIs into a set, and shuffles them. It then
creates a playlist holding at most 30 of them. When nothing was found, it
answers with a curated fallback playlist for the mood.

Modules:

- `Wrappers` (`wrappers.dfy`): `Option`, `Result` and `Outcome` values.
- `MoodSeeds` (`mood_seeds.dfy`): `get_mood_seeds`. The six-entry seed table,
  ASCII lower-casing and capitalisation, and the `dict.get(mood.lower(),
  neutral)` resolution (`ParseMood`). The fallback-URL table uses the same
  resolution.
- `Catalog` (`catalog.dfy`): the catalog as an oracle. A `Catalog` value fixes
  the response to every recommendation or search query (failure, or a list of
  track entries), to the current-user lookup, to playlist creation and to the
  add call. `Call` is one entry of the log of calls made. `Gather` is the set
  collected by a sequence of queries.
- `PlaylistBuilder` (`playlist_builder.dfy`): `create_playlist`. `Run` is the
  specification. It gives the answer and the call log for one shuffle order.
  `CreatePlaylist` is the imperative version: the two search loops, the
  set-to-list conversion, an in-place Fisher–Yates shuffle on an array, and
  the playlist calls. Its contract ties it to `Run` and states that its
  shuffle order lists the collected set. The lemmas about `Run` hold for
  every such order.

The source and the prose design disagree in places. The model follows the
source:

- The token check only tests that an `access_token` key is present. An empty
  token value passes.
- Genre queries are issued in list order, then keyword queries in list order.
- A failed current-user lookup is wrapped in the same error as a failed
  creation or add call.
- Inside one query, the URIs read before a malformed track entry stay in the
  set. `tracks.add` has already run when `track["uri"]` raises and the
  per-query `except` skips the rest. A query that fails outright adds
  nothing.

## Model

| member | source | states |
|---|---|---|
| `MoodSeeds.Lower` | spotify_integration.py:52 | `mood.lower()`: same length; no upper-case letter remains; every other character is kept in place |
| `MoodSeeds.LowerOfAllLower` | spotify_integration.py:52 | lower-casing a lower-case string changes nothing, so lower-casing is idempotent |
| `MoodSeeds.Capitalize` | spotify_integration.py:106 | `mood.capitalize()`: same length; the first character is not lower-case and the rest is; it lower-cases to the same string as the input |
| `MoodSeeds.Key` | spotify_integration.py:26-51 | the dictionary key of each mood: non-empty and already lower-case, so `mood.lower()` can equal it |
| `MoodSeeds.KeysDistinct` | spotify_integration.py:26-51 | the six table keys are pairwise different, and each lies in the key set |
| `MoodSeeds.KeysCover` | spotify_integration.py:26-51 | a string is in the key set exactly when it is some mood's key, so the keys are exactly the key set |
| `MoodSeeds.ParseMood` | spotify_integration.py:52 | the mood whose key equals the lower-cased input; `Neutral` when no key matches |
| `MoodSeeds.ParseKey` | spotify_integration.py:52 | any input that lower-cases to a mood's key resolves to that mood |
| `MoodSeeds.ParseMoodIgnoresCase` | spotify_integration.py:52 | the resolution depends only on the lower-cased input; resolving the lower-cased input gives the same mood |
| `MoodSeeds.SeedsOf` | spotify_integration.py:26-51 | each mood's fixed entry, in the listed order: 5 to 7 genres and 5 to 9 keywords |
| `MoodSeeds.GetMoodSeeds` | spotify_integration.py:24-52 | the entry of the mood whose key is `mood.lower()`; the `neutral` entry for every other input, the empty string included; both lists are non-empty |
| `Catalog.Uris` | spotify_integration.py:77-78 | a URI is added exactly when it belongs to a track entry that has no malformed entry before it |
| `Catalog.Harvest` | spotify_integration.py:71-81 | a failed query adds nothing; a fully readable response adds every URI it lists |
| `Catalog.Gather` | spotify_integration.py:67-96 | definition: the set after issuing the queries in order from an empty set, each adding its harvest; its contents are stated by `GatherExactly` |
| `Catalog.GatherStep` | spotify_integration.py:70-96 | one more query adds exactly its own harvest to what the queries before it collected |
| `Catalog.GatherAppend` | spotify_integration.py:67-96 | issuing two query lists one after the other collects the union of what each collects |
| `Catalog.GatherComplete` | spotify_integration.py:79-81 | what a query harvests is collected whatever the other queries answer, failures included |
| `Catalog.GatherSound` | spotify_integration.py:67-96 | every collected URI was harvested by some issued query; nothing else enters the set |
| `Catalog.GatherExactly` | spotify_integration.py:67-96 | a URI is collected exactly when some issued query harvested it |
| `Catalog.OnlyAnsweredQueriesContribute` | spotify_integration.py:79-81 | every collected URI comes from a query that did not fail |
| `Catalog.SilentCatalogCollectsNothing` | spotify_integration.py:67-96 | when every query answers with an empty track list, the collected set is empty |
| `Catalog.FailureIsolation` | spotify_integration.py:70-96 | making one query fail loses at most that query's URIs; everything the other queries harvest is still collected |
| `PlaylistBuilder.ValidToken` | spotify_integration.py:56-57 | the token passes exactly when it is present and has an `access_token` key; the empty-dictionary test adds nothing beyond that |
| `PlaylistBuilder.ValenceTenths` | spotify_integration.py:75 | target valence 0.8 exactly for happy, 0.2 exactly for sad, 0.5 for every other mood |
| `PlaylistBuilder.GenreQueries` | spotify_integration.py:70-76 | one recommendation query per genre, in order, each with limit 5 and the given valence |
| `PlaylistBuilder.KeywordQueries` | spotify_integration.py:84-91 | one track search per keyword, in order, each with limit 5 and market "US" |
| `PlaylistBuilder.Queries` | spotify_integration.py:64-91 | the queries issued for a mood: between 10 and 16 of them, whatever the mood |
| `PlaylistBuilder.QueriesFollowSeeds` | spotify_integration.py:64-91 | the issued queries are all the genre queries of the mood's seeds, then all its keyword queries |
| `PlaylistBuilder.Collected` | spotify_integration.py:64-96 | definition: the URIs gathered by all the mood's queries; its contents are stated by `Catalog.GatherExactly` and `CollectTracks` |
| `PlaylistBuilder.PlaylistName` | spotify_integration.py:106 | definition: "Your ", the capitalised mood, " Mood Mix"; stated by `NameCarriesMood` |
| `PlaylistBuilder.NameCarriesMood` | spotify_integration.py:106 | the title is the mood framed by "Your " and " Mood Mix", equal to the mood up to letter case, its first letter not lower-case |
| `PlaylistBuilder.Description` | spotify_integration.py:107 | definition: the fixed description around the mood; stated by `DescriptionCarriesMood` |
| `PlaylistBuilder.DescriptionCarriesMood` | spotify_integration.py:107 | the description holds the mood exactly as given, not lower-cased, at a fixed position |
| `PlaylistBuilder.FallbackId` | spotify_integration.py:116-124 | the curated playlist id of each mood; the neutral id is the one of `neutral` and of no other mood, and it is also the lookup default |
| `PlaylistBuilder.FallbackUrl` | spotify_integration.py:116-124 | the playlist URL of the curated playlist of the mood whose key is `mood.lower()`; the neutral one for an unknown mood |
| `PlaylistBuilder.Wrap` | spotify_integration.py:126-128 | a caught error becomes a creation failure whose message is the fixed prefix followed by the original message, which can be read back after the prefix |
| `PlaylistBuilder.Publish` | spotify_integration.py:102-128 | definition of the steps after the shuffle (user lookup, creation, add or fallback, wrapped failures); stated by `PublishShape`, `PublishCounts`, `PublishAddsPrefix`, `PublishFallback` and `PublishFailures` |
| `PlaylistBuilder.Run` | spotify_integration.py:54-128 | definition of the whole call for one shuffle order: answer and call log; stated by the lemmas from `ValidationFirst` to `UnknownMoodWithSilentCatalog` |
| `PlaylistBuilder.Absorb` | spotify_integration.py:71-81 | one query's inner loop adds exactly that query's harvest to the set |
| `PlaylistBuilder.SearchGenres` | spotify_integration.py:69-81 | the genre loop collects the union of the genre queries' harvests and issues each genre query once, in order |
| `PlaylistBuilder.SearchKeywords` | spotify_integration.py:83-96 | the keyword loop adds the union of the keyword queries' harvests and issues each keyword query once, in order |
| `PlaylistBuilder.CollectTracks` | spotify_integration.py:64-96 | both strategies together collect the union over all of the mood's queries and issue exactly those queries |
| `PlaylistBuilder.ListOf` | spotify_integration.py:99 | `list(tracks)` lists every element of the set exactly once |
| `PlaylistBuilder.Shuffle` | spotify_integration.py:100 | the in-place shuffle leaves a permutation of the array's old contents |
| `PlaylistBuilder.ShuffledList` | spotify_integration.py:98-100 | the shuffled list lists every collected URI exactly once |
| `PlaylistBuilder.PublishPlaylist` | spotify_integration.py:102-124 | the answer and the calls are those of `Publish`: user lookup, creation, then one add of the first `min(30, n)` entries or the fallback URL |
| `PlaylistBuilder.CreatePlaylist` | spotify_integration.py:54-128 | the answer and the call log are those of the specification `Run`, for a shuffle order that lists exactly the collected URIs; a bad token gives the credential error and only a bad token does; a failed user lookup gives its wrapped message; with nothing collected and a created playlist the answer is the fallback URL |
| `PlaylistBuilder.PrefixOfArrangement` | spotify_integration.py:112 | the first `min(n, size)` entries of any ordering of a set are that many distinct members of the set |
| `PlaylistBuilder.PublishShape` | spotify_integration.py:103-112 | after the searches the user lookup comes first, at most two calls follow, none is a query, and the credential error cannot arise |
| `PlaylistBuilder.ValidationFirst` | spotify_integration.py:56-61 | a missing, empty or keyless token fails with the unwrapped credential error and no call at all; a good token never yields that error, and opening the session is the first call |
| `PlaylistBuilder.SearchesPrecedePlaylistCalls` | spotify_integration.py:67-103 | every query is issued once, in order, whether or not earlier ones failed, and all before the user lookup; no query follows it |
| `PlaylistBuilder.PublishCounts` | spotify_integration.py:103-112 | after the searches: one creation exactly when the user lookup succeeds; one add exactly when the playlist was created and the list is non-empty |
| `PlaylistBuilder.OneCreateAtMostOneAdd` | spotify_integration.py:99-113 | over the whole log: one creation exactly when the user lookup succeeds, at most one add, and an add exactly when creation succeeded and something was collected |
| `PlaylistBuilder.PublishAddsPrefix` | spotify_integration.py:111-113 | after a successful creation with a non-empty list, the last call adds the list's first `min(30, n)` entries to the new playlist; the answer is its URL exactly when the add succeeds |
| `PlaylistBuilder.AddsCappedBatch` | spotify_integration.py:111-113 | the last call adds min(30, n) distinct collected URIs, n being the number collected, to the new playlist, whatever the shuffle order; the answer is that playlist's URL exactly when the add succeeds |
| `PlaylistBuilder.PublishFallback` | spotify_integration.py:111-124 | after a successful creation with an empty list, no add call follows and the answer is the fallback URL |
| `PlaylistBuilder.FallbackWhenNothingCollected` | spotify_integration.py:103-124 | with nothing collected, a playlist is still created, nothing is added, and the answer is the mood's curated URL, the neutral one for an unknown mood |
| `PlaylistBuilder.PublishFailures` | spotify_integration.py:103-128 | after the searches: a failing user lookup, creation or add call gives "Failed to create playlist: " followed by that call's message; the answer is an error exactly when one of them fails |
| `PlaylistBuilder.FailuresWrapped` | spotify_integration.py:126-128 | over the whole run: the answer is an error exactly when the user lookup, the creation, or (something having been collected) the add call fails, and the error always carries the fixed prefix |
| `PlaylistBuilder.UnknownMoodWithSilentCatalog` | spotify_integration.py:116-124 | an unrecognised mood with every query answering no tracks yields the neutral fallback URL |

## Left out

- `create_spotify_client` (spotify_integration.py:9-22): reads environment variables and builds the OAuth manager. Both are foreign calls. Its result reaches the builder only as the token.
- app.py and emotion_detection.py are not part of this model. They hold the web form, session state, the OAuth code exchange, temporary files and the foreign emotion classifier. The classifier's sentinel labels "Neutral" and "Error" simply resolve to the neutral entry.
- The network: every catalog call is answered by the `Catalog` oracle. The answer to a query depends only on the query. Within one mood's seed lists no entry repeats, so no query is issued twice in a run.
- The catalog is not assumed to honour `limit=5`: a response may list any number of tracks.
- Missing fields in catalog responses are folded into a call's failure, by the point where the source reads them:
  - `recommendations["tracks"]` and `results["tracks"]["items"]` are read inside the query's `try`, so they fail that query.
  - `current_user()["id"]` is read before the creation, so it fails the user lookup.
  - `playlist["id"]` is read only when the list is non-empty, before the add call. It counts as a failed creation on that path. On the empty path the source never reads it, and the creation counts as successful.
  - `playlist["external_urls"]["spotify"]` is read only after the add call has been made. It counts as a failed add call, so the log still shows the add.
  - The model's `Playlist` always carries both fields, so the catalog value is chosen per run to express these cases.
- Shuffle: states only that the result is a permutation. Every swap partner is allowed, but the uniform distribution of `random.shuffle` is not modelled.
- Lower: models Python's `str.lower` on ASCII letters only. Non-ASCII case mappings are not modelled.
- Capitalize: models Python's `str.capitalize` on ASCII letters only. It matters only for the playlist name.
- Valences are integer tenths (8, 2, 5) rather than floating-point 0.8, 0.2, 0.5.
- `print` logging of skipped queries and of the final error is not modelled.
- The Python client object is not modelled as a heap object. Building it is the `OpenSession` log entry. It holds no state the builder reads back.
