/** The music catalog as the playlist builder sees it: the queries it sends,
    the answers it may get back, and the calls it makes, recorded as a log.
    The network itself is not modelled; a `Catalog` value is an oracle that
    fixes, for one run, what every call answers. */
module Catalog {
  import opened Wrappers

  type Uri = string

  /** Target valence as integer tenths: 8 stands for 0.8. */
  type Tenths = nat

  datatype Query =
    | Recommend(genre: string, limit: nat, valence: Tenths)   // sp.recommendations
    | Search(keyword: string, limit: nat, market: string)     // sp.search

  /** One entry of a response's track list: either it has a `uri` field, or
      reading `track["uri"]` raises. */
  datatype TrackItem = Track(uri: Uri) | Malformed

  /** What a query yields: the call (or the lookup of its track list) raises
      with a message, or a list of track entries comes back. */
  datatype Response = Failed(message: string) | Items(tracks: seq<TrackItem>)

  datatype Playlist = Playlist(id: string, url: string)

  /** The oracle: the answer to every call the builder can make. */
  datatype Catalog = Catalog(
    respond: Query -> Response,
    currentUser: Result<string, string>,
    createPlaylist: (string, string, string) -> Result<Playlist, string>,
    addItems: (string, seq<Uri>) -> Outcome<string>)

  /** The calls the builder makes, in the order it makes them. */
  datatype Call =
    | OpenSession(accessToken: string)
    | Ask(query: Query)
    | CurrentUser
    | UserPlaylistCreate(user: string, name: string, description: string)
    | PlaylistAddItems(playlistId: string, uris: seq<Uri>)

  // ---------------------------------------------------------------------
  // What one query contributes
  // ---------------------------------------------------------------------

  /** Every entry before position `i` has a `uri`. */
  predicate ReadableBefore(items: seq<TrackItem>, i: int)
    requires 0 <= i <= |items|
  {
    forall j :: 0 <= j < i ==> items[j].Track?
  }

  /** The URIs the loop `for track in items: tracks.add(track["uri"])` adds
      before it finishes or the first malformed entry raises. */
  function Uris(items: seq<TrackItem>): (r: set<Uri>)
    ensures forall i :: 0 <= i < |items| && items[i].Track? && ReadableBefore(items, i) ==> items[i].uri in r
    ensures forall u :: u in r ==> exists i :: 0 <= i < |items| && items[i] == Track(u) && ReadableBefore(items, i)
  {
    if items == [] || items[0].Malformed? then {}
    else
      var rest := Uris(items[1..]);
      assert forall i :: 1 <= i <= |items| && ReadableBefore(items[1..], i - 1) ==> ReadableBefore(items, i);
      assert forall i :: 1 <= i < |items| && ReadableBefore(items, i) ==> ReadableBefore(items[1..], i - 1);
      {items[0].uri} + rest
  }

  /** The URIs a query adds to the collected set: none when it fails. */
  function Harvest(r: Response): (s: set<Uri>)
    ensures r.Failed? ==> s == {}
    ensures r.Items? && (forall i :: 0 <= i < |r.tracks| ==> r.tracks[i].Track?) ==>
              forall i :: 0 <= i < |r.tracks| ==> r.tracks[i].uri in s
  {
    match r
    case Failed(_) => {}
    case Items(items) => Uris(items)
  }

  /** The collected set after the queries `qs` were issued in order, starting
      from the empty set. */
  function Gather(qs: seq<Query>, respond: Query -> Response): set<Uri>
  {
    if qs == [] then {}
    else Gather(qs[..|qs| - 1], respond) + Harvest(respond(qs[|qs| - 1]))
  }

  /** Issuing `a` and then `b` collects the union of what each collects. */
  lemma {:induction false} GatherAppend(a: seq<Query>, b: seq<Query>, respond: Query -> Response)
    ensures Gather(a + b, respond) == Gather(a, respond) + Gather(b, respond)
    decreases |b|
  {
    if b != [] {
      var b' := b[..|b| - 1];
      assert (a + b)[..|a + b| - 1] == a + b';
      GatherAppend(a, b', respond);
    } else {
      assert a + b == a;
    }
  }

  /** One more query adds its harvest to what the queries before it
      collected. */
  lemma GatherStep(qs: seq<Query>, respond: Query -> Response, i: nat)
    requires i < |qs|
    ensures Gather(qs[..i + 1], respond) == Gather(qs[..i], respond) + Harvest(respond(qs[i]))
  {
    assert qs[..i + 1][..i] == qs[..i];
  }

  /** Some query among `qs` harvested `u`. */
  ghost predicate HarvestedBySome(qs: seq<Query>, respond: Query -> Response, u: Uri)
  {
    exists i :: 0 <= i < |qs| && u in Harvest(respond(qs[i]))
  }

  /** Whatever a query among `qs` harvests is collected. */
  lemma {:induction false} GatherComplete(qs: seq<Query>, respond: Query -> Response, i: nat)
    requires i < |qs|
    ensures Harvest(respond(qs[i])) <= Gather(qs, respond)
    decreases |qs|
  {
    var n := |qs| - 1;
    if i < n {
      GatherComplete(qs[..n], respond, i);
    }
  }

  /** Every collected URI was harvested by some query among `qs`. */
  lemma {:induction false} GatherSound(qs: seq<Query>, respond: Query -> Response, u: Uri)
    requires u in Gather(qs, respond)
    ensures HarvestedBySome(qs, respond, u)
    decreases |qs|
  {
    var n := |qs| - 1;
    if u !in Harvest(respond(qs[n])) {
      var front := qs[..n];
      GatherSound(front, respond, u);
      var i :| 0 <= i < |front| && u in Harvest(respond(front[i]));
      assert qs[i] == front[i];
    }
  }

  /** A URI is collected exactly when some issued query harvested it: the
      collected set is the union of the harvests. */
  lemma GatherExactly(qs: seq<Query>, respond: Query -> Response, u: Uri)
    ensures u in Gather(qs, respond) <==> HarvestedBySome(qs, respond, u)
  {
    if u in Gather(qs, respond) {
      GatherSound(qs, respond, u);
    }
    if HarvestedBySome(qs, respond, u) {
      var i :| 0 <= i < |qs| && u in Harvest(respond(qs[i]));
      GatherComplete(qs, respond, i);
    }
  }

  /** Every collected URI comes from a query that did not fail. */
  lemma OnlyAnsweredQueriesContribute(qs: seq<Query>, respond: Query -> Response, u: Uri)
    requires u in Gather(qs, respond)
    ensures exists i :: 0 <= i < |qs| && respond(qs[i]).Items? && u in Harvest(respond(qs[i]))
  {
    GatherExactly(qs, respond, u);
  }

  /** Queries that all answer with no tracks collect nothing. */
  lemma {:induction false} SilentCatalogCollectsNothing(qs: seq<Query>, respond: Query -> Response)
    requires forall q :: respond(q) == Items([])
    ensures Gather(qs, respond) == {}
    decreases |qs|
  {
    if qs != [] {
      SilentCatalogCollectsNothing(qs[..|qs| - 1], respond);
      assert Harvest(respond(qs[|qs| - 1])) == Uris([]);
    }
  }

  /** Making one query fail loses at most what that query harvested, and
      every other query's harvest is still collected. */
  lemma {:induction false} FailureIsolation(qs: seq<Query>, respond: Query -> Response,
                                            respond': Query -> Response, k: nat)
    requires k < |qs|
    requires respond'(qs[k]).Failed?
    requires forall q :: q != qs[k] ==> respond'(q) == respond(q)
    ensures Gather(qs, respond') <= Gather(qs, respond)
    ensures Gather(qs, respond) - Harvest(respond(qs[k])) <= Gather(qs, respond')
  {
    forall u | u in Gather(qs, respond') ensures u in Gather(qs, respond) {
      GatherExactly(qs, respond', u);
      var i :| 0 <= i < |qs| && u in Harvest(respond'(qs[i]));
      GatherComplete(qs, respond, i);
    }
    forall u | u in Gather(qs, respond) - Harvest(respond(qs[k])) ensures u in Gather(qs, respond') {
      GatherExactly(qs, respond, u);
      var i :| 0 <= i < |qs| && u in Harvest(respond(qs[i]));
      GatherComplete(qs, respond', i);
    }
  }

  // ---------------------------------------------------------------------
  // Counting calls in a log
  // ---------------------------------------------------------------------

  function CountCreates(log: seq<Call>): nat
  {
    if log == [] then 0
    else CountCreates(log[..|log| - 1]) + (if log[|log| - 1].UserPlaylistCreate? then 1 else 0)
  }

  function CountAdds(log: seq<Call>): nat
  {
    if log == [] then 0
    else CountAdds(log[..|log| - 1]) + (if log[|log| - 1].PlaylistAddItems? then 1 else 0)
  }

  /** Counts add up over the two halves of a log. */
  lemma {:induction false} CountAppend(a: seq<Call>, b: seq<Call>)
    ensures CountCreates(a + b) == CountCreates(a) + CountCreates(b)
    ensures CountAdds(a + b) == CountAdds(a) + CountAdds(b)
    decreases |b|
  {
    if b != [] {
      var b' := b[..|b| - 1];
      assert (a + b)[..|a + b| - 1] == a + b';
      CountAppend(a, b');
    } else {
      assert a + b == a;
    }
  }

  /** A log of queries only creates nothing and adds nothing. */
  lemma {:induction false} QueriesOnly(log: seq<Call>)
    requires forall i :: 0 <= i < |log| ==> log[i].Ask?
    ensures CountCreates(log) == 0 && CountAdds(log) == 0
    decreases |log|
  {
    if log != [] {
      QueriesOnly(log[..|log| - 1]);
    }
  }
}
