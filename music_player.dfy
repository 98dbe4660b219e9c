/** The background-music player: a fixed playlist played in order, with
    next/previous wrapping around the ends, recovery after a failed track,
    and an elapsed-time display.  Audio loading and playback are outside
    the model; what remains is which track each control asks for and the
    play/pause flag. */
module MusicPlayer {

  import opened Optional
  import Decimal

  /** A playlist entry; `file` is the path the audio is loaded from. */
  datatype Track = Track(id: string, title: string, artist: string, file: string)

  /** The playlist, ids "1" to "8" in order. */
  const GameTracks: seq<Track> := [
    Track("1", "Therapy Session", "Lil Durk",
      "/music/01-Lil-Durk-Therapy-Session-(NaijaBee.com).mp3"),
    Track("2", "Pelle Coat", "Lil Durk",
      "/music/02-Lil-Durk-Pelle-Coat-(NaijaBee.com).mp3"),
    Track("3", "All My Life", "Lil Durk ft. J Cole",
      "/music/03-Lil-Durk-All-My-Life-ft-J-Cole-(NaijaBee.com).mp3"),
    Track("4", "Never Again", "Lil Durk",
      "/music/04-Lil-Durk-Never-Again-(NaijaBee.com).mp3"),
    Track("5", "Put Em On Ice", "Lil Durk",
      "/music/05-Lil-Durk-Put-Em-On-Ice-(NaijaBee.com).mp3"),
    Track("6", "Big Dawg", "Lil Durk ft. Chief Wuk",
      "/music/06-Lil-Durk-Big-Dawg-ft-Chief-Wuk-(NaijaBee.com).mp3"),
    Track("7", "Never Imagined", "Lil Durk ft. Future",
      "/music/07-Lil-Durk-Never-Imagined-ft-Future-(NaijaBee.com).mp3"),
    Track("8", "Sad Songs", "Lil Durk",
      "/music/08-Lil-Durk-Sad-Songs-(NaijaBee.com).mp3")
  ]

  // ---------------------------------------------------------------------
  // Index arithmetic

  /** `Math.trunc(a / n)`: the quotient rounded toward zero. */
  function JsQuot(a: int, n: int): int
    requires n > 0
  {
    if a >= 0 then a / n else -((-a) / n)
  }

  /** JavaScript's `a % n` for `n > 0`: what is left of `a` after taking
      away the truncated quotient's multiple of `n`, so the remainder has
      the sign of `a`. */
  function JsRem(a: int, n: int): (r: int)
    requires n > 0
    ensures a == JsQuot(a, n) * n + r
    ensures a >= 0 ==> 0 <= r < n
    ensures a < 0 ==> -n < r <= 0
  {
    if a >= 0 then a % n else -((-a) % n)
  }

  /** The three facts above pin the remainder down: any `q`, `r` with
      `a == q * n + r` and `r` in the range for the sign of `a` are the
      truncated quotient and `JsRem`. */
  lemma JsRemUnique(a: int, n: int, q: int, r: int)
    requires n > 0 && a == q * n + r
    requires a >= 0 ==> 0 <= r < n
    requires a < 0 ==> -n < r <= 0
    ensures r == JsRem(a, n) && q == JsQuot(a, n)
  {
    var q0, r0 := JsQuot(a, n), JsRem(a, n);
    var d := q - q0;
    assert d * n == q * n - q0 * n;
    assert d * n == r0 - r;
    if d >= 1 {
      MulAtLeast(d, n);
    } else if d <= -1 {
      MulAtLeast(-d, n);
    }
  }

  lemma MulAtLeast(d: int, n: int)
    requires d >= 1 && n > 0
    ensures d * n >= n
  {
  }

  /** `findIndex` by id: the first position holding the id, or -1. */
  function FindIndex(tracks: seq<Track>, id: string): (r: int)
    ensures -1 <= r < |tracks|
    ensures r == -1 <==> forall j :: 0 <= j < |tracks| ==> tracks[j].id != id
    ensures r >= 0 ==> tracks[r].id == id && forall j :: 0 <= j < r ==> tracks[j].id != id
  {
    if tracks == [] then -1
    else if tracks[0].id == id then 0
    else
      var k := FindIndex(tracks[1..], id);
      if k == -1 then -1 else k + 1
  }

  /** `find` by id. */
  function FindById(tracks: seq<Track>, id: string): Option<Track> {
    var k := FindIndex(tracks, id);
    if k >= 0 then Some(tracks[k]) else None
  }

  function NextIndex(i: int, n: int): int
    requires n > 0
  {
    JsRem(i + 1, n)
  }

  function PrevIndex(i: int, n: int): int
    requires n > 0
  {
    JsRem(i - 1 + n, n)
  }

  /** From any position, or from "not found" (-1), next lands in the
      playlist, steps forward by one and wraps from the last to the first. */
  lemma NextIndexSteps(i: int, n: int)
    requires n > 0 && -1 <= i < n
    ensures 0 <= NextIndex(i, n) < n
    ensures NextIndex(i, n) == if i == n - 1 then 0 else i + 1
  {
    if i == n - 1 {
      ModSelf(n);
    } else {
      ModBelow(i + 1, n);
    }
  }

  /** Previous lands in the playlist, steps back by one and wraps from the
      first to the last. */
  lemma PrevIndexSteps(i: int, n: int)
    requires n > 0 && -1 <= i < n
    ensures 0 <= PrevIndex(i, n) < n
    ensures 0 <= i ==> PrevIndex(i, n) == if i == 0 then n - 1 else i - 1
    ensures i == -1 ==> PrevIndex(i, n) == if n == 1 then 0 else n - 2
  {
    if i == -1 && n == 1 {
      assert PrevIndex(i, n) == -((-(-1)) % 1);
    } else if i <= 0 {
      ModBelow(i - 1 + n, n);
    } else {
      ModPlusN(i - 1, n);
    }
  }

  /** Next and previous undo each other on every playlist position. */
  lemma NextPrevInverse(i: int, n: int)
    requires n > 0 && 0 <= i < n
    ensures NextIndex(PrevIndex(i, n), n) == i
    ensures PrevIndex(NextIndex(i, n), n) == i
  {
    PrevIndexSteps(i, n);
    NextIndexSteps(i, n);
    NextIndexSteps(PrevIndex(i, n), n);
    PrevIndexSteps(NextIndex(i, n), n);
  }

  // ---------------------------------------------------------------------
  // Which track each control asks for

  /** `playNextTrack`: the first track when nothing is loaded, else the
      one after the current track (the first when the current one is not
      in the list); nothing for an empty playlist. */
  function NextTarget(current: Option<Track>, tracks: seq<Track>): Option<Track> {
    if |tracks| == 0 then None
    else match current
      case None => Some(tracks[0])
      case Some(c) =>
        NextIndexSteps(FindIndex(tracks, c.id), |tracks|);
        Some(tracks[NextIndex(FindIndex(tracks, c.id), |tracks|)])
  }

  /** `playPreviousTrack`. */
  function PrevTarget(current: Option<Track>, tracks: seq<Track>): Option<Track> {
    if |tracks| == 0 then None
    else match current
      case None => Some(tracks[0])
      case Some(c) =>
        PrevIndexSteps(FindIndex(tracks, c.id), |tracks|);
        Some(tracks[PrevIndex(FindIndex(tracks, c.id), |tracks|)])
  }

  /** `handlePlaybackError`: with a loaded track, the track after it, or
      the first track when it is not in the list. */
  function RecoveryTarget(current: Option<Track>, hasAudio: bool, tracks: seq<Track>): Option<Track>
    requires |tracks| > 0
  {
    if current.None? || !hasAudio then None
    else
      var k := FindIndex(tracks, current.value.id);
      if k >= 0 then Some(tracks[(k + 1) % |tracks|]) else Some(tracks[0])
  }

  /** The id tried after a track fails to play: its number modulo the
      playlist length, plus one, printed back; an id that is not a numeral
      reads as `NaN` and stays `NaN`. */
  function FallbackId(id: string, n: nat): string {
    if n == 0 then "NaN"
    else match Decimal.ParseNumeral(id)
      case Some(v) => Decimal.ToString(JsRem(v, n) + 1)
      case None => "NaN"
  }

  function FallbackTrack(track: Track, tracks: seq<Track>): Option<Track> {
    FindById(tracks, FallbackId(track.id, |tracks|))
  }

  /** On ids 1..n the fallback id is the cyclic successor: n is followed
      by 1. */
  lemma FallbackIdCycles(k: nat, n: nat)
    requires n > 0 && 1 <= k <= n
    ensures FallbackId(Decimal.ToString(k), n) == Decimal.ToString(if k < n then k + 1 else 1)
  {
    Decimal.ParseToString(k);
    FallbackIdOfNumeral(k, n);
    SuccessorWraps(k, n);
  }

  lemma FallbackIdOfNumeral(k: nat, n: nat)
    requires n > 0
    requires Decimal.ParseNumeral(Decimal.ToString(k)) == Some(k)
    ensures FallbackId(Decimal.ToString(k), n) == Decimal.ToString(JsRem(k, n) + 1)
  {
  }

  lemma SuccessorWraps(k: nat, n: int)
    requires n > 0 && 1 <= k <= n
    ensures JsRem(k, n) + 1 == if k < n then k + 1 else 1
  {
    if k < n {
      ModBelow(k, n);
    } else {
      ModSelf(n);
    }
  }

  lemma ModBelow(k: int, n: int)
    requires 0 <= k < n
    ensures k % n == k
  {
  }

  lemma ModPlusN(k: int, n: int)
    requires 0 <= k < n
    ensures (k + n) % n == k
  {
    assert k + n == 1 * n + k;
  }

  lemma ModSelf(n: int)
    requires n > 0
    ensures n % n == 0
  {
  }

  /** A playlist whose ids are "1", "2", ... in order. */
  predicate Numbered(tracks: seq<Track>) {
    forall i :: 0 <= i < |tracks| ==> tracks[i].id == Decimal.ToString(i + 1)
  }

  lemma GameTracksNumbered()
    ensures |GameTracks| == 8 && Numbered(GameTracks)
  {
    forall i | 0 <= i < |GameTracks| ensures GameTracks[i].id == Decimal.ToString(i + 1) {
      assert Decimal.ToString(i + 1) == ["0123456789"[i + 1]];
    }
  }

  lemma {:induction false} FindNumbered(tracks: seq<Track>, k: nat)
    requires Numbered(tracks) && 1 <= k <= |tracks|
    ensures FindIndex(tracks, Decimal.ToString(k)) == k - 1
  {
    var r := FindIndex(tracks, Decimal.ToString(k));
    assert tracks[k - 1].id == Decimal.ToString(k);
    if r != k - 1 {
      assert 0 <= r < k - 1;
      Decimal.ToStringInjective(r + 1, k);
    }
  }

  /** On a numbered playlist the three ways of moving on agree: next,
      error recovery and the failed-play fallback all pick the following
      track, wrapping to the first. */
  lemma MovingOnAgrees(tracks: seq<Track>, i: nat)
    requires Numbered(tracks) && i < |tracks|
    ensures var after := Some(tracks[(i + 1) % |tracks|]);
      && NextTarget(Some(tracks[i]), tracks) == after
      && RecoveryTarget(Some(tracks[i]), true, tracks) == after
      && FallbackTrack(tracks[i], tracks) == after
  {
    NextMovesOn(tracks, i);
    RecoveryMovesOn(tracks, i);
    FallbackMovesOn(tracks, i);
  }

  lemma NextMovesOn(tracks: seq<Track>, i: nat)
    requires Numbered(tracks) && i < |tracks|
    ensures NextTarget(Some(tracks[i]), tracks) == Some(tracks[(i + 1) % |tracks|])
  {
    FindNumbered(tracks, i + 1);
    NextIndexSteps(i, |tracks|);
  }

  lemma RecoveryMovesOn(tracks: seq<Track>, i: nat)
    requires Numbered(tracks) && i < |tracks|
    ensures RecoveryTarget(Some(tracks[i]), true, tracks) == Some(tracks[(i + 1) % |tracks|])
  {
    FindNumbered(tracks, i + 1);
  }

  lemma FallbackMovesOn(tracks: seq<Track>, i: nat)
    requires Numbered(tracks) && i < |tracks|
    ensures FallbackTrack(tracks[i], tracks) == Some(tracks[(i + 1) % |tracks|])
  {
    var n := |tracks|;
    var j := (i + 1) % n;
    FollowingIndex(i, n);
    assert tracks[i].id == Decimal.ToString(i + 1);
    FallbackIdCycles(i + 1, n);
    FindNumbered(tracks, j + 1);
  }

  lemma FollowingIndex(i: nat, n: int)
    requires i < n
    ensures (i + 1) % n + 1 == if i + 1 < n then i + 2 else 1
  {
    if i + 1 < n {
      ModBelow(i + 1, n);
    } else {
      ModSelf(n);
    }
  }

  /** On the game's own playlist, track 8 is followed by track 1 whichever
      way the player moves on. */
  lemma PlaylistCycles(i: nat)
    requires i < |GameTracks|
    ensures var after := Some(GameTracks[(i + 1) % 8]);
      && NextTarget(Some(GameTracks[i]), GameTracks) == after
      && RecoveryTarget(Some(GameTracks[i]), true, GameTracks) == after
      && FallbackTrack(GameTracks[i], GameTracks) == after
  {
    GameTracksNumbered();
    MovingOnAgrees(GameTracks, i);
  }

  /** With nothing loaded, next and previous both start the first track. */
  lemma NoCurrentStartsFirst(tracks: seq<Track>)
    requires |tracks| > 0
    ensures NextTarget(None, tracks) == PrevTarget(None, tracks) == Some(tracks[0])
  {
  }

  // ---------------------------------------------------------------------
  // Play/pause

  /** The player state the controls change synchronously. */
  datatype Deck = Deck(isPlaying: bool, currentTrack: Option<Track>)

  predicate IsCurrent(d: Deck, t: Track) {
    d.currentTrack.Some? && d.currentTrack.value.id == t.id
  }

  /** `togglePlayPause`: no effect without audio or a loaded track. */
  function Toggled(d: Deck, hasAudio: bool): Deck {
    if !hasAudio || d.currentTrack.None? then d else d.(isPlaying := !d.isPlaying)
  }

  /** `handlePlayTrack`, up to the point where loading starts: picking the
      loaded track toggles play/pause; any other track leaves the state to
      the load that follows. */
  function Picked(d: Deck, hasAudio: bool, t: Track): Deck {
    if hasAudio && IsCurrent(d, t) then Toggled(d, hasAudio) else d
  }

  predicate StartsLoad(d: Deck, hasAudio: bool, t: Track) {
    hasAudio && !IsCurrent(d, t)
  }

  /** The state once a load of `t` has started playing. */
  function Loaded(t: Track): Deck {
    Deck(true, Some(t))
  }

  /** Picking a track that is not loaded starts its load; once it plays,
      picking it again pauses it instead of reloading it, and a third pick
      resumes it. */
  lemma PickLoadPick(d: Deck, t: Track)
    requires !IsCurrent(d, t)
    ensures StartsLoad(d, true, t) && Picked(d, true, t) == d
    ensures !StartsLoad(Loaded(t), true, t)
    ensures Picked(Loaded(t), true, t) == Deck(false, Some(t))
    ensures Picked(Picked(Loaded(t), true, t), true, t) == Loaded(t)
  {
  }

  /** Picking the loaded track pauses a playing one, resumes a paused one,
      and never reloads it. */
  lemma PickCurrentToggles(d: Deck, t: Track)
    requires IsCurrent(d, t)
    ensures Picked(d, true, t) == d.(isPlaying := !d.isPlaying)
    ensures !StartsLoad(d, true, t)
  {
  }

  /** Toggling twice restores the state; without a loaded track toggling
      does nothing. */
  lemma ToggleTwice(d: Deck, hasAudio: bool)
    ensures Toggled(Toggled(d, hasAudio), hasAudio) == d
    ensures d.currentTrack.None? ==> Toggled(d, hasAudio) == d
  {
  }

  class Player {
    var isPlaying: bool
    var currentTrack: Option<Track>
    /** Whether the audio element exists (it is created on mount). */
    const hasAudio: bool
    const tracks: seq<Track>

    function State(): Deck
      reads this
    {
      Deck(isPlaying, currentTrack)
    }

    constructor (hasAudio: bool)
      ensures State() == Deck(false, None)
      ensures this.hasAudio == hasAudio && tracks == GameTracks
    {
      this.hasAudio := hasAudio;
      tracks := GameTracks;
      isPlaying := false;
      currentTrack := None;
    }

    method TogglePlayPause()
      modifies this
      ensures State() == Toggled(old(State()), hasAudio)
    {
      if !hasAudio || currentTrack.None? {
        return;
      }
      isPlaying := !isPlaying;
    }

    /** `handlePlayTrack`; `loading` tells whether the asynchronous load of
        `track` starts. */
    method PlayTrack(track: Track) returns (loading: bool)
      modifies this
      ensures State() == Picked(old(State()), hasAudio, track)
      ensures loading == StartsLoad(old(State()), hasAudio, track)
    {
      if !hasAudio {
        return false;
      }
      if currentTrack.Some? && currentTrack.value.id == track.id {
        TogglePlayPause();
        return false;
      }
      loading := true;
    }

    /** `startPlaylist`: plays the first track. */
    method StartPlaylist() returns (target: Option<Track>, loading: bool)
      modifies this
      ensures target == if |tracks| > 0 then Some(tracks[0]) else None
      ensures State() == if target.Some? then Picked(old(State()), hasAudio, target.value) else old(State())
      ensures loading == (target.Some? && StartsLoad(old(State()), hasAudio, target.value))
    {
      target := None;
      loading := false;
      if |tracks| > 0 {
        target := Some(tracks[0]);
        loading := PlayTrack(tracks[0]);
      }
    }

    /** `handlePlaybackError`. */
    method RecoverFromError() returns (target: Option<Track>, loading: bool)
      modifies this
      ensures target == if |tracks| > 0 then RecoveryTarget(old(currentTrack), hasAudio, tracks) else None
      ensures State() == if target.Some? then Picked(old(State()), hasAudio, target.value) else old(State())
      ensures loading == (target.Some? && StartsLoad(old(State()), hasAudio, target.value))
    {
      target := None;
      loading := false;
      if |tracks| > 0 {
        target := RecoveryTarget(currentTrack, hasAudio, tracks);
        if target.Some? {
          loading := PlayTrack(target.value);
        }
      }
    }

    /** The load of `track` succeeded and playback began. */
    method LoadSucceeded(track: Track)
      modifies this
      ensures State() == Loaded(track)
    {
      currentTrack := Some(track);
      isPlaying := true;
    }

    /** The load of `track` failed; `srcSet` tells whether it failed after
        the file was found, when the track had already become current.
        `retry` is the track tried half a second later, if any. */
    method LoadFailed(track: Track, srcSet: bool) returns (retry: Option<Track>)
      modifies this
      ensures retry == FallbackTrack(track, tracks)
      ensures State() == if srcSet then old(State()).(currentTrack := Some(track)) else old(State())
    {
      if srcSet {
        currentTrack := Some(track);
      }
      retry := FallbackTrack(track, tracks);
    }

    /** The `ended` listener. It is bound once, when the player mounts, so
        it runs the first render's `playNextTrack`, which sees no current
        track: the first track is loaded again, whatever is playing now. */
    method TrackEnded() returns (target: Option<Track>, loading: bool)
      ensures target == NextTarget(None, tracks)
      ensures loading == (target.Some? && StartsLoad(Deck(false, None), hasAudio, target.value))
      ensures |tracks| > 0 ==> target == Some(tracks[0]) && loading == hasAudio
    {
      target := NextTarget(None, tracks);
      loading := target.Some? && hasAudio;
    }

    /** `playNextTrack`, from the next button. */
    method PlayNext() returns (target: Option<Track>, loading: bool)
      modifies this
      ensures target == NextTarget(old(currentTrack), tracks)
      ensures State() == if target.Some? then Picked(old(State()), hasAudio, target.value) else old(State())
      ensures loading == (target.Some? && StartsLoad(old(State()), hasAudio, target.value))
    {
      target := NextTarget(currentTrack, tracks);
      loading := false;
      if target.Some? {
        loading := PlayTrack(target.value);
      }
    }

    /** `playPreviousTrack`. */
    method PlayPrevious() returns (target: Option<Track>, loading: bool)
      modifies this
      ensures target == PrevTarget(old(currentTrack), tracks)
      ensures State() == if target.Some? then Picked(old(State()), hasAudio, target.value) else old(State())
      ensures loading == (target.Some? && StartsLoad(old(State()), hasAudio, target.value))
    {
      target := PrevTarget(currentTrack, tracks);
      loading := false;
      if target.Some? {
        loading := PlayTrack(target.value);
      }
    }
  }

  // ---------------------------------------------------------------------
  // Elapsed time

  /** `formatTime` on whole seconds: minutes, a colon, and the seconds
      padded to two digits. */
  function FormatTime(t: nat): (r: string)
    ensures |r| >= 4
    ensures r == Decimal.ToString(t / 60) + ":" + r[|r| - 2..]
    ensures Decimal.IsNumeral(r[|r| - 2..])
  {
    var seconds := t % 60;
    var padded := (if seconds < 10 then "0" else "") + Decimal.ToString(seconds);
    TwoDigits(seconds);
    Decimal.ToString(t / 60) + ":" + padded
  }

  lemma TwoDigits(n: nat)
    requires n < 60
    ensures |(if n < 10 then "0" else "") + Decimal.ToString(n)| == 2
    ensures Decimal.IsNumeral((if n < 10 then "0" else "") + Decimal.ToString(n))
    ensures Decimal.ValueOf((if n < 10 then "0" else "") + Decimal.ToString(n)) == n
  {
    var p := (if n < 10 then "0" else "") + Decimal.ToString(n);
    Decimal.ValueOfToString(n);
    if n < 10 {
      assert p[..1] == "0";
    }
  }

  /** The display reads back as the time it shows: minutes times sixty
      plus the two-digit seconds, which stay below sixty. */
  lemma FormatTimeReadsBack(t: nat)
    ensures var r := FormatTime(t);
      && |r| >= 4 && r[|r| - 3] == ':'
      && Decimal.IsNumeral(r[..|r| - 3])
      && Decimal.ValueOf(r[|r| - 2..]) < 60
      && Decimal.ValueOf(r[..|r| - 3]) * 60 + Decimal.ValueOf(r[|r| - 2..]) == t
  {
    var r := FormatTime(t);
    var m := Decimal.ToString(t / 60);
    var p := (if t % 60 < 10 then "0" else "") + Decimal.ToString(t % 60);
    TwoDigits(t % 60);
    assert r == m + ":" + p;
    assert r[..|r| - 3] == m;
    assert r[|r| - 2..] == p;
    Decimal.ValueOfToString(t / 60);
  }
}
