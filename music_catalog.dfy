/**
 * The mock track catalog (`MusicAPI` and `MOCK_MUSIC_DATA` in scripts/api.js):
 * a fixed, ordered list of tracks, a search by name or artist, a lookup by
 * identifier, and a cursor that moves forward and backward with wraparound.
 */
module MusicCatalog {
  import opened Wrappers
  import opened Seqs
  import opened Text

  /** One track of the catalog; `duration` is in whole seconds. */
  datatype Track = Track(
    id: int,
    name: string,
    artist: string,
    album: string,
    duration: nat,
    previewUrl: string,
    image: string)

  const PreviewUrl: string := "https://www.soundjay.com/misc/sounds/bell-ringing-05.wav"

  /** The six tracks the catalog is built from, in catalog order. */
  const MockMusicData: seq<Track> := [
    Track(1, "Blinding Lights", "The Weeknd", "After Hours", 200, PreviewUrl,
      "https://images.unsplash.com/photo-1493225457124-a3eb161ffa5f?w=500"),
    Track(2, "Save Your Tears", "The Weeknd", "After Hours", 215, PreviewUrl,
      "https://images.unsplash.com/photo-1470225620780-dba8ba36b745?w=500"),
    Track(3, "Levitating", "Dua Lipa", "Future Nostalgia", 203, PreviewUrl,
      "https://images.unsplash.com/photo-1571974599782-87624638275f?w=500"),
    Track(4, "Don't Start Now", "Dua Lipa", "Future Nostalgia", 183, PreviewUrl,
      "https://images.unsplash.com/photo-1571974599782-87624638275f?w=500"),
    Track(5, "Watermelon Sugar", "Harry Styles", "Fine Line", 174, PreviewUrl,
      "https://images.unsplash.com/photo-1516280440614-37939bbacd81?w=500"),
    Track(6, "Adore You", "Harry Styles", "Fine Line", 207, PreviewUrl,
      "https://images.unsplash.com/photo-1516280440614-37939bbacd81?w=500")
  ]

  /** The mock catalog is non-empty, has six tracks, and track `i` has identifier `i + 1`. */
  lemma MockMusicDataShape()
    ensures |MockMusicData| == 6
    ensures forall i :: 0 <= i < |MockMusicData| ==> MockMusicData[i].id == i + 1
  {
  }

  /** The search predicate: the lowercased name or the lowercased artist includes the lowercased query. */
  predicate TrackMatches(t: Track, query: string)
  {
    Includes(LowerStr(t.name), LowerStr(query)) || Includes(LowerStr(t.artist), LowerStr(query))
  }

  /** The tracks `searchTracks(query)` resolves to. */
  function MatchingTracks(tracks: seq<Track>, query: string): seq<Track>
  {
    Filter(tracks, t => TrackMatches(t, query))
  }

  /**
   * The search returns exactly the matching tracks, each as often as in the
   * catalog, in catalog order; the empty query matches every track.
   */
  lemma MatchingTracksSpec(tracks: seq<Track>, query: string)
    ensures forall t :: t in MatchingTracks(tracks, query) <==> t in tracks && TrackMatches(t, query)
    ensures forall t :: multiset(MatchingTracks(tracks, query))[t] == if TrackMatches(t, query) then multiset(tracks)[t] else 0
    ensures IsSubsequence(MatchingTracks(tracks, query), tracks)
    ensures query == "" ==> MatchingTracks(tracks, query) == tracks
  {
    FilterIsSubsequence(tracks, t => TrackMatches(t, query));
    forall t ensures multiset(MatchingTracks(tracks, query))[t] == if TrackMatches(t, query) then multiset(tracks)[t] else 0 {
      FilterCount(tracks, t => TrackMatches(t, query), t);
    }
    if query == "" {
      FilterKeepsAll(tracks, t => TrackMatches(t, query));
    }
  }

  /** `tracks.find(track => track.id === id)`: the first track with that identifier, or none. */
  function FindTrack(tracks: seq<Track>, id: int): (r: Option<Track>)
    ensures r.None? <==> forall i :: 0 <= i < |tracks| ==> tracks[i].id != id
    ensures r.Some? ==> exists i :: 0 <= i < |tracks| && tracks[i] == r.value && r.value.id == id
                                    && forall j :: 0 <= j < i ==> tracks[j].id != id
  {
    if tracks == [] then None
    else if tracks[0].id == id then Some(tracks[0])
    else
      var r := FindTrack(tracks[1..], id);
      assert forall i :: 0 < i < |tracks| ==> tracks[i] == tracks[1..][i - 1];
      if r.Some? then
        var i :| 0 <= i < |tracks[1..]| && tracks[1..][i] == r.value && r.value.id == id
                 && forall j :: 0 <= j < i ==> tracks[1..][j].id != id;
        assert tracks[i + 1] == r.value;
        assert forall j :: 0 < j < i + 1 ==> tracks[j].id == tracks[1..][j - 1].id;
        r
      else r
  }

  /** In a catalog whose identifiers are distinct, the lookup finds the track at the position of the identifier. */
  lemma FindTrackAt(tracks: seq<Track>, i: int)
    requires 0 <= i < |tracks|
    requires forall j, k :: 0 <= j < k < |tracks| ==> tracks[j].id != tracks[k].id
    ensures FindTrack(tracks, tracks[i].id) == Some(tracks[i])
  {
    var r := FindTrack(tracks, tracks[i].id);
    var k :| 0 <= k < |tracks| && tracks[k] == r.value && r.value.id == tracks[i].id
             && forall j :: 0 <= j < k ==> tracks[j].id != tracks[i].id;
  }

  /**
   * `(i + 1) % n`: the cursor moves to the following track, from the last back to the first.
   * Both operands are non-negative, where Dafny's `%` and JavaScript's agree.
   */
  function NextIndex(i: int, n: int): (r: int)
    requires 0 <= i < n
    ensures 0 <= r < n
    ensures r == if i == n - 1 then 0 else i + 1
  {
    (i + 1) % n
  }

  /** `(i - 1 + n) % n`: the cursor moves to the preceding track, from the first to the last. */
  function PrevIndex(i: int, n: int): (r: int)
    requires 0 <= i < n
    ensures 0 <= r < n
    ensures r == if i == 0 then n - 1 else i - 1
  {
    (i - 1 + n) % n
  }

  /** Moving back after moving forward (and forward after back) restores the cursor. */
  lemma PrevNextInverse(i: int, n: int)
    requires 0 <= i < n
    ensures PrevIndex(NextIndex(i, n), n) == i
    ensures NextIndex(PrevIndex(i, n), n) == i
  {
  }

  /** The cursor after `k` forward moves from `i`. */
  function Advance(i: int, n: int, k: nat): (r: int)
    requires 0 <= i < n
    ensures 0 <= r < n
  {
    if k == 0 then i else NextIndex(Advance(i, n, k - 1), n)
  }

  /** Moving `a + b` times is moving `a` times and then `b` times. */
  lemma {:induction false} AdvanceCompose(i: int, n: int, a: nat, b: nat)
    requires 0 <= i < n
    ensures Advance(i, n, a + b) == Advance(Advance(i, n, a), n, b)
  {
    if b > 0 {
      AdvanceCompose(i, n, a, b - 1);
    }
  }

  /** Before the cursor reaches the last track, `k` forward moves add `k` to it. */
  lemma {:induction false} AdvanceWithoutWrap(i: int, n: int, k: nat)
    requires 0 <= i && i + k < n
    ensures Advance(i, n, k) == i + k
  {
    if k > 0 {
      AdvanceWithoutWrap(i, n, k - 1);
    }
  }

  /** Moving forward as many times as there are tracks returns the cursor to where it started. */
  lemma AdvanceFullCycle(i: int, n: int)
    requires 0 <= i < n
    ensures Advance(i, n, n) == i
  {
    AdvanceWithoutWrap(i, n, n - i - 1);
    assert Advance(i, n, n - i) == 0;
    AdvanceCompose(i, n, n - i, i);
    if i > 0 {
      AdvanceWithoutWrap(0, n, i);
    }
  }

  /** The catalog object: the track list and its own cursor into it. */
  class MusicApi {
    const tracks: seq<Track>
    var currentTrackIndex: int

    /** The cursor is a valid position in a non-empty catalog. */
    ghost predicate Valid()
      reads this
    {
      |tracks| > 0 && 0 <= currentTrackIndex < |tracks|
    }

    /** A new catalog holds the mock tracks with the cursor on the first one. */
    constructor ()
      ensures Valid()
      ensures tracks == MockMusicData && currentTrackIndex == 0
    {
      tracks := MockMusicData;
      currentTrackIndex := 0;
    }

    /** The whole catalog, as `getTracks` resolves it. */
    method GetTracks() returns (r: seq<Track>)
      ensures r == tracks
    {
      r := tracks;
    }

    /** The tracks `searchTracks(query)` resolves to. */
    method SearchTracks(query: string) returns (r: seq<Track>)
      ensures r == MatchingTracks(tracks, query)
    {
      r := MatchingTracks(tracks, query);
    }

    method GetTrackById(id: int) returns (r: Option<Track>)
      ensures r == FindTrack(tracks, id)
    {
      r := FindTrack(tracks, id);
    }

    /** Moves the cursor one track forward, wrapping to the first, and returns the track there. */
    method GetNextTrack() returns (t: Track)
      requires Valid()
      modifies this`currentTrackIndex
      ensures Valid()
      ensures currentTrackIndex == NextIndex(old(currentTrackIndex), |tracks|)
      ensures t == tracks[currentTrackIndex]
    {
      currentTrackIndex := (currentTrackIndex + 1) % |tracks|;
      t := tracks[currentTrackIndex];
    }

    /** Moves the cursor one track back, wrapping to the last, and returns the track there. */
    method GetPreviousTrack() returns (t: Track)
      requires Valid()
      modifies this`currentTrackIndex
      ensures Valid()
      ensures currentTrackIndex == PrevIndex(old(currentTrackIndex), |tracks|)
      ensures t == tracks[currentTrackIndex]
    {
      currentTrackIndex := (currentTrackIndex - 1 + |tracks|) % |tracks|;
      t := tracks[currentTrackIndex];
    }
  }

  /** A track by The Weeknd matches the query "weeknd". */
  lemma WeekndMatches(t: Track)
    requires t.artist == "The Weeknd"
    ensures TrackMatches(t, "weeknd")
  {
    var artist, q := LowerStr("The Weeknd"), LowerStr("weeknd");
    assert artist[4..10] == q;
    IncludesIffOccurs(artist, q);
    assert OccursAt(artist, q, 4);
  }

  /** None of the other names and artists of the mock catalog mentions "weeknd", in any letter case. */
  lemma WeekndAbsent(s: string)
    requires s in ["Levitating", "Dua Lipa", "Don't Start Now", "Watermelon Sugar", "Harry Styles", "Adore You"]
    ensures !Includes(LowerStr(s), LowerStr("weeknd"))
  {
    if s == "Levitating" {
      NotIncludes(LowerStr("Levitating"), LowerStr("weeknd"));
    } else if s == "Dua Lipa" {
      NotIncludes(LowerStr("Dua Lipa"), LowerStr("weeknd"));
    } else if s == "Don't Start Now" {
      NotIncludes(LowerStr("Don't Start Now"), LowerStr("weeknd"));
    } else if s == "Watermelon Sugar" {
      NotIncludes(LowerStr("Watermelon Sugar"), LowerStr("weeknd"));
    } else if s == "Harry Styles" {
      NotIncludes(LowerStr("Harry Styles"), LowerStr("weeknd"));
    } else {
      NotIncludes(LowerStr("Adore You"), LowerStr("weeknd"));
    }
  }

  /** Searching the mock catalog for "weeknd" yields the two tracks by The Weeknd, identifiers 1 and 2. */
  lemma SearchWeeknd()
    ensures MatchingTracks(MockMusicData, "weeknd") == MockMusicData[..2]
    ensures MatchingTracks(MockMusicData, "weeknd")[0].id == 1 && MatchingTracks(MockMusicData, "weeknd")[1].id == 2
  {
    var m := MockMusicData;
    WeekndMatches(m[0]);
    WeekndMatches(m[1]);
    forall k | 2 <= k < |m| ensures !TrackMatches(m[k], "weeknd") {
      WeekndAbsent(m[k].name);
      WeekndAbsent(m[k].artist);
    }
    FilterKeepsPrefix(m, t => TrackMatches(t, "weeknd"), 2);
  }
}
