/** `create_playlist`: validate the token, query the catalog once per genre
    and once per keyword of the mood's seeds, collect the returned track URIs
    into a set, shuffle them, create a playlist and fill it with at most 30
    of them, or answer with a curated fallback playlist when nothing was
    found. Failures after the token check are wrapped in one error. */
module PlaylistBuilder {
  import opened Wrappers
  import opened MoodSeeds
  import opened Catalog

  /** `token_info`: absent, or a dictionary of string fields. */
  type Token = Option<map<string, string>>

  const AccessTokenKey: string := "access_token"
  const InvalidTokenMessage: string := "Invalid or missing Spotify authentication token"
  const FailurePrefix: string := "Failed to create playlist: "
  const PlaylistUrlPrefix: string := "https://open.spotify.com/playlist/"
  const NeutralFallbackId: string := "37i9dQZF1DX3rxVfibe1L0"
  /** Most tracks added to a new playlist. */
  const TrackLimit: nat := 30
  /** Result count asked of every recommendation and search query. */
  const QueryLimit: nat := 5
  const Market: string := "US"

  datatype Error =
    | InvalidCredential(message: string)        // the ValueError raised before the try
    | PlaylistCreationFailed(message: string)   // the Exception raised by the outer except

  function Min(a: int, b: int): int { if a <= b then a else b }

  // ---------------------------------------------------------------------
  // The pieces of the specification
  // ---------------------------------------------------------------------

  /** The token is present, non-empty, and has an `access_token` field. */
  function ValidToken(token: Token): (ok: bool)
    ensures ok <==> token.Some? && AccessTokenKey in token.value
  {
    !(token.None? || |token.value| == 0 || AccessTokenKey !in token.value)
  }

  /** The target valence of every genre query: 0.8 for happy, 0.2 for sad,
      0.5 for every other mood. */
  function ValenceTenths(mood: string): (v: Tenths)
    ensures v == 8 <==> ParseMood(mood) == Happy
    ensures v == 2 <==> ParseMood(mood) == Sad
    ensures v == 5 <==> ParseMood(mood) !in {Happy, Sad}
  {
    if Lower(mood) == "happy" then 8 else if Lower(mood) == "sad" then 2 else 5
  }

  /** One recommendation query per genre, in list order. */
  function GenreQueries(genres: seq<string>, valence: Tenths): (qs: seq<Query>)
    ensures |qs| == |genres|
    ensures forall i :: 0 <= i < |genres| ==> qs[i] == Recommend(genres[i], QueryLimit, valence)
  {
    seq(|genres|, i requires 0 <= i < |genres| => Recommend(genres[i], QueryLimit, valence))
  }

  /** One track search per keyword, in list order. */
  function KeywordQueries(keywords: seq<string>): (qs: seq<Query>)
    ensures |qs| == |keywords|
    ensures forall j :: 0 <= j < |keywords| ==> qs[j] == Search(keywords[j], QueryLimit, Market)
  {
    seq(|keywords|, j requires 0 <= j < |keywords| => Search(keywords[j], QueryLimit, Market))
  }

  /** The queries issued for `mood`: the genre queries, then the keyword
      queries. */
  function Queries(mood: string): (qs: seq<Query>)
    ensures 10 <= |qs| <= 16
  {
    var seeds := GetMoodSeeds(mood);
    GenreQueries(seeds.genres, ValenceTenths(mood)) + KeywordQueries(seeds.keywords)
  }

  /** Every genre query asks for 5 tracks at the mood's valence and comes
      before every keyword query, which asks for 5 tracks in the US market;
      the seeds are used once each, in list order. */
  lemma QueriesFollowSeeds(mood: string)
    ensures var seeds, qs := GetMoodSeeds(mood), Queries(mood);
      && |qs| == |seeds.genres| + |seeds.keywords|
      && (forall i :: 0 <= i < |seeds.genres| ==>
            qs[i] == Recommend(seeds.genres[i], QueryLimit, ValenceTenths(mood)))
      && (forall j :: 0 <= j < |seeds.keywords| ==>
            qs[|seeds.genres| + j] == Search(seeds.keywords[j], QueryLimit, Market))
  {
  }

  /** The URIs collected by all the queries for `mood`. */
  function Collected(mood: string, catalog: Catalog): set<Uri>
  {
    Gather(Queries(mood), catalog.respond)
  }

  /** The log entries for issuing `qs` in order. */
  function Asked(qs: seq<Query>): (log: seq<Call>)
    ensures |log| == |qs| && forall i :: 0 <= i < |qs| ==> log[i] == Ask(qs[i])
  {
    seq(|qs|, i requires 0 <= i < |qs| => Ask(qs[i]))
  }

  lemma AskedAppend(a: seq<Query>, b: seq<Query>)
    ensures Asked(a + b) == Asked(a) + Asked(b)
  {
    assert forall i :: 0 <= i < |a + b| ==> Asked(a + b)[i] == (Asked(a) + Asked(b))[i];
  }

  /** The playlist title: the mood, capitalised, between fixed words. */
  function PlaylistName(mood: string): string
  {
    "Your " + Capitalize(mood) + " Mood Mix"
  }

  /** The title carries the mood up to letter case, with its first letter
      not lower-case. */
  lemma {:induction false} NameCarriesMood(mood: string)
    ensures var name := PlaylistName(mood);
      && |name| == |mood| + 14 && name[..5] == "Your " && name[|mood| + 5..] == " Mood Mix"
      && Lower(name[5..|mood| + 5]) == Lower(mood)
      && (|mood| > 0 ==> !IsLower(name[5]))
  {
    assert PlaylistName(mood)[5..|mood| + 5] == Capitalize(mood);
  }

  /** The playlist description: the mood as given, between fixed words. */
  function Description(mood: string): string
  {
    "Custom playlist generated based on your " + mood + " mood"
  }

  /** The description carries the mood exactly as given, not lower-cased. */
  lemma DescriptionCarriesMood(mood: string)
    ensures var text := Description(mood);
      |text| == |mood| + 45 && text[40..|mood| + 40] == mood
  {
  }

  /** The curated playlist of each mood. */
  function FallbackId(m: Mood): (id: string)
    ensures id == NeutralFallbackId <==> m == Neutral
  {
    match m
    case Happy => "37i9dQZF1DXdPec7aLTmlC"
    case Sad => "37i9dQZF1DX7qK8ma5wgG1"
    case Angry => "37i9dQZF1EIhuf6Y9zbnVa"
    case Surprise => "37i9dQZF1EIhq2vQuxpBQS"
    case Fear => "37i9dQZF1EIhtBm8L7FW0x"
    case Neutral => NeutralFallbackId
  }

  /** The fallback answer: the curated playlist of the mood whose key is
      `mood.lower()`, and the neutral one for any other mood. */
  function FallbackUrl(mood: string): (url: string)
    ensures forall m :: Key(m) == Lower(mood) ==> url == PlaylistUrlPrefix + FallbackId(m)
    ensures Lower(mood) !in MoodKeys ==> url == PlaylistUrlPrefix + NeutralFallbackId
  {
    var m := ParseMood(mood);
    assert forall n :: Key(n) == Lower(mood) ==> n == m by {
      forall n | Key(n) == Lower(mood) ensures n == m {
        KeysDistinct(n, m);
      }
    }
    PlaylistUrlPrefix + FallbackId(m)
  }

  function Wrap(message: string): (e: Error)
    ensures e.PlaylistCreationFailed? && FailurePrefix <= e.message
    ensures e.message[|FailurePrefix|..] == message
  {
    PlaylistCreationFailed(FailurePrefix + message)
  }

  /** `trackList` lists every element of `tracks` exactly once, in some order. */
  ghost predicate Arrangement(trackList: seq<Uri>, tracks: set<Uri>)
  {
    multiset(trackList) == multiset(tracks)
  }

  predicate NoDuplicates(s: seq<Uri>)
  {
    forall i, j :: 0 <= i < j < |s| ==> s[i] != s[j]
  }

  /** What happens once the searches are done and the collected URIs were
      shuffled into `trackList`: the answer and the calls made. */
  function Publish(mood: string, catalog: Catalog, trackList: seq<Uri>): (Result<string, Error>, seq<Call>)
  {
    match catalog.currentUser
    case Failure(e) => (Failure(Wrap(e)), [CurrentUser])
    case Success(user) =>
      var name, description := PlaylistName(mood), Description(mood);
      var create := UserPlaylistCreate(user, name, description);
      match catalog.createPlaylist(user, name, description)
      case Failure(e) => (Failure(Wrap(e)), [CurrentUser, create])
      case Success(p) =>
        if trackList == [] then (Success(FallbackUrl(mood)), [CurrentUser, create])
        else
          var batch := trackList[..Min(TrackLimit, |trackList|)];
          var add := PlaylistAddItems(p.id, batch);
          match catalog.addItems(p.id, batch)
          case Fail(e) => (Failure(Wrap(e)), [CurrentUser, create, add])
          case Pass => (Success(p.url), [CurrentUser, create, add])
  }

  /** The whole of `create_playlist` for one shuffle order `trackList`: the
      answer, and the calls made in order. */
  function Run(mood: string, token: Token, catalog: Catalog, trackList: seq<Uri>): (Result<string, Error>, seq<Call>)
  {
    if !ValidToken(token) then (Failure(InvalidCredential(InvalidTokenMessage)), [])
    else
      var (answer, tail) := Publish(mood, catalog, trackList);
      (answer, [OpenSession(token.value[AccessTokenKey])] + Asked(Queries(mood)) + tail)
  }

  // ---------------------------------------------------------------------
  // The implementation
  // ---------------------------------------------------------------------

  /** One query's `for track in ...: tracks.add(track["uri"])`, inside its
      own `try`: the loop stops at the first entry without a `uri`, and a
      failed call adds nothing. */
  method Absorb(tracks: set<Uri>, response: Response) returns (grown: set<Uri>)
    ensures grown == tracks + Harvest(response)
  {
    grown := tracks;
    if response.Items? {
      var items := response.tracks;
      var k := 0;
      assert items[k..] == items;
      while k < |items|
        invariant 0 <= k <= |items|
        invariant grown + Uris(items[k..]) == tracks + Uris(items)
      {
        if items[k].Malformed? {
          assert Uris(items[k..]) == {};
          break;
        }
        assert items[k..][1..] == items[k + 1..];
        grown := grown + {items[k].uri};
        k := k + 1;
      }
    }
  }

  /** `list(tracks)`: the set's elements in whatever order iteration yields. */
  method ListOf(tracks: set<Uri>) returns (list: seq<Uri>)
    ensures Arrangement(list, tracks)
  {
    list := [];
    var rest := tracks;
    while rest != {}
      invariant rest <= tracks
      invariant multiset(list) + multiset(rest) == multiset(tracks)
      decreases |rest|
    {
      var u :| u in rest;
      assert multiset(rest) == multiset(rest - {u}) + multiset{u};
      list := list + [u];
      rest := rest - {u};
    }
  }

  /** `random.shuffle(a)`: a Fisher-Yates shuffle in place, where every
      choice of the swap partner is allowed, so the result may be any
      arrangement of the old contents. */
  method Shuffle(a: array<Uri>)
    modifies a
    ensures multiset(a[..]) == old(multiset(a[..]))
  {
    var i := a.Length;
    while i > 1
      invariant 0 <= i <= a.Length
      invariant multiset(a[..]) == old(multiset(a[..]))
    {
      i := i - 1;
      var j :| 0 <= j <= i;
      a[i], a[j] := a[j], a[i];
    }
  }

  /** Strategy 1 of `create_playlist`: one recommendation query per genre,
      each in its own `try`, growing an initially empty set. */
  method SearchGenres(genres: seq<string>, valence: Tenths, catalog: Catalog)
    returns (tracks: set<Uri>, ghost asked: seq<Call>)
    ensures tracks == Gather(GenreQueries(genres, valence), catalog.respond)
    ensures asked == Asked(GenreQueries(genres, valence))
  {
    ghost var qs := GenreQueries(genres, valence);
    tracks, asked := {}, [];
    for i := 0 to |genres|
      invariant tracks == Gather(qs[..i], catalog.respond)
      invariant asked == Asked(qs[..i])
    {
      var q := Recommend(genres[i], QueryLimit, valence);
      GatherStep(qs, catalog.respond, i);
      assert Asked(qs[..i + 1]) == Asked(qs[..i]) + [Ask(q)];
      asked := asked + [Ask(q)];
      tracks := Absorb(tracks, catalog.respond(q));
    }
    assert qs[..|genres|] == qs;
  }

  /** Strategy 2 of `create_playlist`: one track search per keyword, each in
      its own `try`, adding to the set the genre queries left. */
  method SearchKeywords(keywords: seq<string>, catalog: Catalog, start: set<Uri>)
    returns (tracks: set<Uri>, ghost asked: seq<Call>)
    ensures tracks == start + Gather(KeywordQueries(keywords), catalog.respond)
    ensures asked == Asked(KeywordQueries(keywords))
  {
    ghost var qs := KeywordQueries(keywords);
    tracks, asked := start, [];
    for j := 0 to |keywords|
      invariant tracks == start + Gather(qs[..j], catalog.respond)
      invariant asked == Asked(qs[..j])
    {
      var q := Search(keywords[j], QueryLimit, Market);
      GatherStep(qs, catalog.respond, j);
      assert Asked(qs[..j + 1]) == Asked(qs[..j]) + [Ask(q)];
      asked := asked + [Ask(q)];
      tracks := Absorb(tracks, catalog.respond(q));
    }
    assert qs[..|keywords|] == qs;
  }

  /** Both search strategies of `create_playlist` for the seeds of `mood`. */
  method CollectTracks(mood: string, catalog: Catalog) returns (tracks: set<Uri>, ghost asked: seq<Call>)
    ensures tracks == Collected(mood, catalog)
    ensures asked == Asked(Queries(mood))
  {
    var seeds := GetMoodSeeds(mood);
    var valence := ValenceTenths(mood);
    var fromGenres, askedGenres := SearchGenres(seeds.genres, valence, catalog);
    ghost var askedKeywords;
    tracks, askedKeywords := SearchKeywords(seeds.keywords, catalog, fromGenres);
    asked := askedGenres + askedKeywords;
    ghost var genreQs, keywordQs := GenreQueries(seeds.genres, valence), KeywordQueries(seeds.keywords);
    assert Queries(mood) == genreQs + keywordQs;
    GatherAppend(genreQs, keywordQs, catalog.respond);
    AskedAppend(genreQs, keywordQs);
  }

  /** `track_list = list(tracks); random.shuffle(track_list)`. */
  method ShuffledList(tracks: set<Uri>) returns (trackList: seq<Uri>)
    ensures Arrangement(trackList, tracks)
  {
    var listed := ListOf(tracks);
    var a := new Uri[|listed|](k requires 0 <= k < |listed| => listed[k]);
    assert a[..] == listed;
    Shuffle(a);
    trackList := a[..];
  }

  /** The user lookup, the playlist creation, the add call or the fallback,
      for the shuffled list `trackList`. `Publish` is the specification of
      these steps and the lemmas below are proved about it; this method is
      its executable counterpart, tied to it by its postconditions. */
  method PublishPlaylist(mood: string, catalog: Catalog, trackList: seq<Uri>)
    returns (answer: Result<string, Error>, ghost tail: seq<Call>)
    ensures answer == Publish(mood, catalog, trackList).0
    ensures tail == Publish(mood, catalog, trackList).1
  {
    match catalog.currentUser
    case Failure(e) =>
      answer, tail := Failure(Wrap(e)), [CurrentUser];
    case Success(user) =>
      var name, description := PlaylistName(mood), Description(mood);
      var create := UserPlaylistCreate(user, name, description);
      match catalog.createPlaylist(user, name, description)
      case Failure(e) =>
        answer, tail := Failure(Wrap(e)), [CurrentUser, create];
      case Success(p) =>
        if |trackList| > 0 {
          var batch := trackList[..Min(TrackLimit, |trackList|)];
          var add := PlaylistAddItems(p.id, batch);
          tail := [CurrentUser, create, add];
          match catalog.addItems(p.id, batch)
          case Fail(e) =>
            answer := Failure(Wrap(e));
          case Pass =>
            answer := Success(p.url);
        } else {
          answer, tail := Success(FallbackUrl(mood)), [CurrentUser, create];
        }
  }

  /** `create_playlist(mood, token_info)`. The answer is real; the calls
      made and the shuffle order drawn are returned as ghost values so that
      the contract can speak of them. */
  method CreatePlaylist(mood: string, token: Token, catalog: Catalog)
    returns (answer: Result<string, Error>, ghost log: seq<Call>, ghost trackList: seq<Uri>)
    ensures ValidToken(token) ==> Arrangement(trackList, Collected(mood, catalog))
    ensures answer == Run(mood, token, catalog, trackList).0
    ensures log == Run(mood, token, catalog, trackList).1
    ensures !ValidToken(token) <==> answer == Failure(InvalidCredential(InvalidTokenMessage))
    ensures ValidToken(token) && catalog.currentUser.Failure? ==>
              answer == Failure(PlaylistCreationFailed(FailurePrefix + catalog.currentUser.error))
    ensures && ValidToken(token) && Collected(mood, catalog) == {}
            && catalog.currentUser.Success?
            && catalog.createPlaylist(catalog.currentUser.value, PlaylistName(mood), Description(mood)).Success?
            ==> answer == Success(FallbackUrl(mood))
  {
    if token.None? || |token.value| == 0 || AccessTokenKey !in token.value {
      return Failure(InvalidCredential(InvalidTokenMessage)), [], [];
    }
    var session := OpenSession(token.value[AccessTokenKey]);
    var tracks, asked := CollectTracks(mood, catalog);
    var tl := ShuffledList(tracks);
    trackList := tl;
    ghost var tail;
    answer, tail := PublishPlaylist(mood, catalog, tl);
    log := [session] + asked + tail;
    ValidationFirst(mood, token, catalog, tl);
    RunUnfolds(mood, token, catalog, tl);
    PublishFailures(mood, catalog, tl);
    PrefixOfArrangement(tl, tracks, TrackLimit);
  }

  // ---------------------------------------------------------------------
  // What the specification promises, for every shuffle order
  // ---------------------------------------------------------------------

  /** A URI listed twice occurs twice in the list's multiset. */
  lemma {:induction false} RepeatCountsTwice(xs: seq<Uri>, i: nat, j: nat)
    requires i < j < |xs|
    ensures xs[i] == xs[j] ==> multiset(xs)[xs[i]] >= 2
  {
    assert xs == xs[..i] + [xs[i]] + xs[i + 1..j] + [xs[j]] + xs[j + 1..];
  }

  /** The first `n` entries of an arrangement of a set: `min(n, |set|)`
      distinct elements of the set. */
  lemma {:induction false} PrefixOfArrangement(xs: seq<Uri>, tracks: set<Uri>, n: nat)
    requires Arrangement(xs, tracks)
    ensures |xs| == |tracks|
    ensures var b := xs[..Min(n, |xs|)];
      && |b| == Min(n, |tracks|)
      && (forall u :: u in b ==> u in tracks)
      && NoDuplicates(b)
  {
    assert |multiset(xs)| == |xs|;
    var b := xs[..Min(n, |xs|)];
    forall u | u in b ensures u in tracks {
      assert u in multiset(xs);
    }
    forall i, j | 0 <= i < j < |b| ensures b[i] != b[j] {
      assert multiset(xs)[xs[i]] <= 1;
      RepeatCountsTwice(xs, i, j);
    }
  }

  /** With a good token a run is the session, the queries, then the calls
      after the searches. */
  lemma RunUnfolds(mood: string, token: Token, catalog: Catalog, trackList: seq<Uri>)
    requires ValidToken(token)
    ensures var (answer, tail) := Publish(mood, catalog, trackList);
      Run(mood, token, catalog, trackList)
        == (answer, [OpenSession(token.value[AccessTokenKey])] + Asked(Queries(mood)) + tail)
  {
  }

  /** The calls after the searches: the user lookup first, then at most
      two more calls, none of them a query. */
  lemma PublishShape(mood: string, catalog: Catalog, trackList: seq<Uri>)
    ensures var (answer, tail) := Publish(mood, catalog, trackList);
      && 1 <= |tail| <= 3 && tail[0] == CurrentUser
      && (forall i :: 0 <= i < |tail| ==> !tail[i].Ask?)
      && !(answer.Failure? && answer.error.InvalidCredential?)
  {
  }

  /** The layout of a log made of a session, queries and a tail that starts
      with the user lookup and holds no query. */
  lemma LogLayout(session: Call, qs: seq<Query>, tail: seq<Call>)
    requires |tail| >= 1 && tail[0] == CurrentUser
    requires forall i :: 0 <= i < |tail| ==> !tail[i].Ask?
    ensures var log := [session] + Asked(qs) + tail;
      && |log| > |qs| + 1
      && log[0] == session
      && (forall i :: 0 <= i < |qs| ==> log[i + 1] == Ask(qs[i]))
      && log[|qs| + 1] == CurrentUser
      && (forall i :: |qs| + 1 <= i < |log| ==> !log[i].Ask?)
  {
    var log := [session] + Asked(qs) + tail;
    forall i | |qs| + 1 <= i < |log| ensures !log[i].Ask? {
      assert log[i] == tail[i - |qs| - 1];
    }
  }

  /** The token is checked before anything else: a bad token fails with the
      unwrapped credential error and no call at all, and a good one never
      yields that error and opens the session first. */
  lemma {:induction false} ValidationFirst(mood: string, token: Token, catalog: Catalog, trackList: seq<Uri>)
    ensures var (answer, log) := Run(mood, token, catalog, trackList);
      && (!ValidToken(token) ==> answer == Failure(InvalidCredential(InvalidTokenMessage)) && log == [])
      && (ValidToken(token) ==>
            !(answer.Failure? && answer.error.InvalidCredential?)
            && |log| > 0 && log[0] == OpenSession(token.value[AccessTokenKey]))
  {
    if ValidToken(token) {
      RunUnfolds(mood, token, catalog, trackList);
      PublishShape(mood, catalog, trackList);
    }
  }

  /** Every genre query and then every keyword query is issued, each once and
      in list order, whether or not earlier ones failed, before any playlist
      call; nothing but these queries sits between the session and the user
      lookup, and no query follows it. */
  lemma {:induction false} SearchesPrecedePlaylistCalls(mood: string, token: Token, catalog: Catalog, trackList: seq<Uri>)
    requires ValidToken(token)
    ensures var (answer, log) := Run(mood, token, catalog, trackList);
      var qs := Queries(mood);
      && |log| > |qs| + 1
      && (forall i :: 0 <= i < |qs| ==> log[i + 1] == Ask(qs[i]))
      && log[|qs| + 1] == CurrentUser
      && (forall i :: |qs| + 1 <= i < |log| ==> !log[i].Ask?)
  {
    RunUnfolds(mood, token, catalog, trackList);
    PublishShape(mood, catalog, trackList);
    LogLayout(OpenSession(token.value[AccessTokenKey]), Queries(mood), Publish(mood, catalog, trackList).1);
  }

  /** The calls after the searches create at most one playlist, exactly
      when the user lookup succeeds, and add at most once, exactly when the
      playlist was created and the list is not empty. */
  lemma {:induction false} PublishCounts(mood: string, catalog: Catalog, trackList: seq<Uri>)
    ensures var tail := Publish(mood, catalog, trackList).1;
      && CountCreates(tail) == (if catalog.currentUser.Success? then 1 else 0)
      && CountAdds(tail) ==
           (if && catalog.currentUser.Success?
               && catalog.createPlaylist(catalog.currentUser.value, PlaylistName(mood), Description(mood)).Success?
               && trackList != []
            then 1 else 0)
  {
    var tail := Publish(mood, catalog, trackList).1;
    assert tail[..1] == [CurrentUser];
    assert CountCreates([CurrentUser]) == 0 && CountAdds([CurrentUser]) == 0 by {
      assert [CurrentUser][..0] == [];
    }
    if |tail| >= 2 {
      assert tail[..2][..1] == [CurrentUser];
    }
    if |tail| == 3 {
      assert tail[..3][..2] == tail[..2];
    }
  }

  /** Over the whole run: exactly one playlist is created when the user
      lookup succeeds (none otherwise), and at most one add call is made,
      exactly when the playlist was created and something was collected. */
  lemma {:induction false} OneCreateAtMostOneAdd(mood: string, token: Token, catalog: Catalog, trackList: seq<Uri>)
    requires ValidToken(token)
    requires Arrangement(trackList, Collected(mood, catalog))
    ensures var (answer, log) := Run(mood, token, catalog, trackList);
      && CountCreates(log) == (if catalog.currentUser.Success? then 1 else 0)
      && CountAdds(log) <= CountCreates(log)
      && (CountAdds(log) == 1 <==>
            && catalog.currentUser.Success?
            && catalog.createPlaylist(catalog.currentUser.value, PlaylistName(mood), Description(mood)).Success?
            && Collected(mood, catalog) != {})
  {
    PrefixOfArrangement(trackList, Collected(mood, catalog), TrackLimit);
    RunUnfolds(mood, token, catalog, trackList);
    var tail := Publish(mood, catalog, trackList).1;
    var head := [OpenSession(token.value[AccessTokenKey])];
    var asked := Asked(Queries(mood));
    PublishCounts(mood, catalog, trackList);
    CountAppend(head + asked, tail);
    CountAppend(head, asked);
    QueriesOnly(asked);
    assert head[..0] == [];
  }

  /** After a successful creation with a non-empty list, the last call adds
      the list's first `min(30, n)` entries to the new playlist, and the
      answer is its URL exactly when that call succeeds. */
  lemma PublishAddsPrefix(mood: string, catalog: Catalog, trackList: seq<Uri>)
    requires catalog.currentUser.Success?
    requires catalog.createPlaylist(catalog.currentUser.value, PlaylistName(mood), Description(mood)).Success?
    requires trackList != []
    ensures var (answer, tail) := Publish(mood, catalog, trackList);
      var p := catalog.createPlaylist(catalog.currentUser.value, PlaylistName(mood), Description(mood)).value;
      var batch := trackList[..Min(TrackLimit, |trackList|)];
      && |tail| == 3
      && tail[2] == PlaylistAddItems(p.id, batch)
      && (answer.Success? <==> catalog.addItems(p.id, batch).Pass?)
      && (answer.Success? ==> answer.value == p.url)
  {
  }

  /** When something was collected, the one add call carries the first
      `min(30, n)` entries of the shuffled list: that many distinct URIs, all
      collected, whatever the shuffle order; the answer is the new
      playlist's URL exactly when the add succeeds. */
  lemma {:induction false} AddsCappedBatch(mood: string, token: Token, catalog: Catalog, trackList: seq<Uri>)
    requires ValidToken(token)
    requires Arrangement(trackList, Collected(mood, catalog))
    requires Collected(mood, catalog) != {}
    requires catalog.currentUser.Success?
    requires catalog.createPlaylist(catalog.currentUser.value, PlaylistName(mood), Description(mood)).Success?
    ensures var (answer, log) := Run(mood, token, catalog, trackList);
      var p := catalog.createPlaylist(catalog.currentUser.value, PlaylistName(mood), Description(mood)).value;
      var tracks := Collected(mood, catalog);
      && |log| > 0 && log[|log| - 1].PlaylistAddItems?
      && var batch := log[|log| - 1].uris;
      && log[|log| - 1].playlistId == p.id
      && |batch| == Min(TrackLimit, |tracks|)
      && (forall u :: u in batch ==> u in tracks)
      && NoDuplicates(batch)
      && (answer.Success? <==> catalog.addItems(p.id, batch).Pass?)
      && (answer.Success? ==> answer.value == p.url)
  {
    PrefixOfArrangement(trackList, Collected(mood, catalog), TrackLimit);
    RunUnfolds(mood, token, catalog, trackList);
    PublishAddsPrefix(mood, catalog, trackList);
  }

  /** After a successful creation with an empty list, no add call follows
      and the answer is the fallback URL. */
  lemma PublishFallback(mood: string, catalog: Catalog)
    requires catalog.currentUser.Success?
    requires catalog.createPlaylist(catalog.currentUser.value, PlaylistName(mood), Description(mood)).Success?
    ensures var (answer, tail) := Publish(mood, catalog, []);
      && answer == Success(FallbackUrl(mood))
      && tail == [CurrentUser, UserPlaylistCreate(catalog.currentUser.value, PlaylistName(mood), Description(mood))]
  {
  }

  /** When nothing was collected a playlist is still created but nothing is
      added, and the answer is the curated playlist of the mood, the neutral
      one for an unknown mood. */
  lemma {:induction false} FallbackWhenNothingCollected(mood: string, token: Token, catalog: Catalog, trackList: seq<Uri>)
    requires ValidToken(token)
    requires Arrangement(trackList, Collected(mood, catalog))
    requires Collected(mood, catalog) == {}
    requires catalog.currentUser.Success?
    requires catalog.createPlaylist(catalog.currentUser.value, PlaylistName(mood), Description(mood)).Success?
    ensures var (answer, log) := Run(mood, token, catalog, trackList);
      && answer == Success(FallbackUrl(mood))
      && (Lower(mood) !in MoodKeys ==> answer == Success(PlaylistUrlPrefix + NeutralFallbackId))
      && |log| > 0 && log[|log| - 1].UserPlaylistCreate?
      && (forall i :: 0 <= i < |log| ==> !log[i].PlaylistAddItems?)
  {
    PrefixOfArrangement(trackList, Collected(mood, catalog), TrackLimit);
    assert trackList == [];
    RunUnfolds(mood, token, catalog, trackList);
    PublishFallback(mood, catalog);
    var log := Run(mood, token, catalog, trackList).1;
    var head := [OpenSession(token.value[AccessTokenKey])] + Asked(Queries(mood));
    forall i | 0 <= i < |log| ensures !log[i].PlaylistAddItems? {
      if i < |head| {
        assert log[i] == head[i];
      }
    }
  }

  /** After the searches the answer is an error exactly when the user
      lookup, the playlist creation or the add call fails, and the error is
      that call's message behind the fixed prefix. */
  lemma PublishFailures(mood: string, catalog: Catalog, trackList: seq<Uri>)
    ensures var answer := Publish(mood, catalog, trackList).0;
      && (catalog.currentUser.Failure? ==>
            answer == Failure(PlaylistCreationFailed(FailurePrefix + catalog.currentUser.error)))
      && (catalog.currentUser.Success? ==>
            var created := catalog.createPlaylist(catalog.currentUser.value, PlaylistName(mood), Description(mood));
            && (created.Failure? ==> answer == Failure(PlaylistCreationFailed(FailurePrefix + created.error)))
            && (created.Success? && trackList == [] ==> answer.Success?)
            && (created.Success? && trackList != [] ==>
                  var added := catalog.addItems(created.value.id, trackList[..Min(TrackLimit, |trackList|)]);
                  && (added.Fail? ==> answer == Failure(PlaylistCreationFailed(FailurePrefix + added.error)))
                  && (added.Pass? ==> answer == Success(created.value.url))))
    ensures var answer := Publish(mood, catalog, trackList).0;
      && (answer.Failure? <==>
            || catalog.currentUser.Failure?
            || catalog.createPlaylist(catalog.currentUser.value, PlaylistName(mood), Description(mood)).Failure?
            || (trackList != [] &&
                catalog.addItems(catalog.createPlaylist(catalog.currentUser.value, PlaylistName(mood), Description(mood)).value.id,
                                 trackList[..Min(TrackLimit, |trackList|)]).Fail?))
      && (answer.Failure? ==>
            answer.error.PlaylistCreationFailed? && FailurePrefix <= answer.error.message)
  {
  }

  /** Over the whole run with a good token: the answer is an error exactly
      when the user lookup, the creation, or (when something was collected)
      the add call fails, and then it carries that call's message behind
      the fixed prefix. */
  lemma {:induction false} FailuresWrapped(mood: string, token: Token, catalog: Catalog, trackList: seq<Uri>)
    requires ValidToken(token)
    requires Arrangement(trackList, Collected(mood, catalog))
    ensures var answer := Run(mood, token, catalog, trackList).0;
      && (answer.Failure? <==>
            || catalog.currentUser.Failure?
            || catalog.createPlaylist(catalog.currentUser.value, PlaylistName(mood), Description(mood)).Failure?
            || (Collected(mood, catalog) != {} &&
                catalog.addItems(catalog.createPlaylist(catalog.currentUser.value, PlaylistName(mood), Description(mood)).value.id,
                                 trackList[..Min(TrackLimit, |trackList|)]).Fail?))
      && (answer.Failure? ==>
            answer.error.PlaylistCreationFailed? && FailurePrefix <= answer.error.message)
  {
    PrefixOfArrangement(trackList, Collected(mood, catalog), TrackLimit);
    RunUnfolds(mood, token, catalog, trackList);
    PublishFailures(mood, catalog, trackList);
  }

  /** When every query answers with no tracks, an unrecognised mood gets
      the neutral curated playlist. */
  lemma {:induction false} UnknownMoodWithSilentCatalog(mood: string, token: Token, catalog: Catalog, trackList: seq<Uri>)
    requires ValidToken(token)
    requires Lower(mood) !in MoodKeys
    requires forall q :: catalog.respond(q) == Items([])
    requires catalog.currentUser.Success?
    requires catalog.createPlaylist(catalog.currentUser.value, PlaylistName(mood), Description(mood)).Success?
    requires Arrangement(trackList, Collected(mood, catalog))
    ensures Run(mood, token, catalog, trackList).0 == Success(PlaylistUrlPrefix + NeutralFallbackId)
  {
    SilentCatalogCollectsNothing(Queries(mood), catalog.respond);
    FallbackWhenNothingCollected(mood, token, catalog, trackList);
  }
}
