/** The player: which playlist entry plays, what happens when it ends, when the
    overlay video restarts, and which overlay layer is shown. */
module VideoPlayer {
  import opened Common
  import opened Media

  /** `onPlaylistEnded`'s choice of the next index: the next entry if there is
      one, otherwise the first one when looping a non-empty playlist, otherwise
      the same index (playback stops at the end). */
  function NextIndex(idx: int, length: nat, loop: bool): (next: int)
    ensures 0 <= idx < length ==> 0 <= next < length
    ensures next == idx || next == idx + 1 || next == 0
  {
    if idx < length - 1 then idx + 1
    else if loop && length > 0 then 0
    else idx
  }

  /** A looping playlist is a cycle: from any valid index the next one is the
      following index modulo the length. */
  lemma LoopingAdvanceIsCyclic(idx: int, length: nat)
    requires 0 <= idx < length
    ensures NextIndex(idx, length, true) == (idx + 1) % length
  {
    if idx == length - 1 {
      assert (idx + 1) % length == 0;
    } else {
      assert (idx + 1) % length == idx + 1;
    }
  }

  /** Without looping the index moves forward and then stays on the last entry. */
  lemma NonLoopingAdvanceStops(idx: int, length: nat)
    requires 0 <= idx < length
    ensures NextIndex(idx, length, false) == if idx + 1 < length then idx + 1 else length - 1
  {
  }

  /** An empty playlist keeps index 0 whatever the loop flag. */
  lemma EmptyPlaylistStays(loop: bool)
    ensures NextIndex(0, 0, loop) == 0
  {
  }

  /** The index after `n` end-of-video events. */
  function Advance(idx: int, length: nat, loop: bool, n: nat): int
  {
    if n == 0 then idx else NextIndex(Advance(idx, length, loop, n - 1), length, loop)
  }

  /** Starting from the first entry of a looping playlist, the `n`-th ending
      leads to index `n mod length`: the index runs through every entry in
      order and wraps around. */
  lemma {:induction false} LoopingPlaylistCycles(length: nat, n: nat)
    requires length > 0
    ensures Advance(0, length, true, n) == n % length
  {
    if n > 0 {
      LoopingPlaylistCycles(length, n - 1);
      LoopingAdvanceIsCyclic((n - 1) % length, length);
      ModSucc(n - 1, length);
    }
  }

  lemma ModSucc(m: nat, length: nat)
    requires length > 0
    ensures (m % length + 1) % length == (m + 1) % length
  {
    var q, r := m / length, m % length;
    assert m == q * length + r;
    if r + 1 < length {
      ModUnique(m + 1, length, q, r + 1);
      ModUnique(r + 1, length, 0, r + 1);
    } else {
      assert m + 1 == (q + 1) * length + 0;
      ModUnique(m + 1, length, q + 1, 0);
      ModUnique(r + 1, length, 1, 0);
    }
  }

  /** The remainder is the unique `r` in [0, length) with `a == q * length + r`. */
  lemma ModUnique(a: int, length: int, q: int, r: int)
    requires length > 0 && 0 <= r < length && a == q * length + r
    ensures a % length == r
  {
    var q', r' := a / length, a % length;
    assert a == q' * length + r';
    SubMul(q, q', length);
    if q > q' {
      MulAtLeast(q - q', length);
    } else if q < q' {
      MulAtLeast(q' - q, length);
    }
  }

  lemma SubMul(a: int, b: int, c: int)
    ensures (a - b) * c == a * c - b * c
  {
  }

  lemma MulAtLeast(k: int, length: int)
    requires k >= 1 && length > 0
    ensures k * length >= length
  {
  }

  /** Without looping, the `n`-th ending from the first entry leads to entry
      `n`, or to the last entry once the playlist is exhausted. */
  lemma {:induction false} NonLoopingPlaylistStops(length: nat, n: nat)
    requires length > 0
    ensures Advance(0, length, false, n) == if n < length then n else length - 1
  {
    if n > 0 {
      NonLoopingPlaylistStops(length, n - 1);
    }
  }

  /** The per-file part of the playlist signature: name, size, last modification. */
  datatype FileKey = FileKey(name: string, size: nat, lastModified: int)

  /** The signature the index-reset effect depends on, one key per file. */
  function Signature(playlist: seq<VideoFile>): (sig: seq<FileKey>)
    ensures |sig| == |playlist|
    ensures forall i :: 0 <= i < |sig| ==>
      sig[i] == FileKey(playlist[i].name, playlist[i].size, playlist[i].lastModified)
  {
    seq(|playlist|, i requires 0 <= i < |playlist| =>
      FileKey(playlist[i].name, playlist[i].size, playlist[i].lastModified))
  }

  /** The layer above the playlist video: the overlay video when a file is
      chosen, the static and lightning canvas otherwise; both at the configured
      opacity. */
  datatype OverlayLayer = OverlayVideo(file: VideoFile, opacity: real) | LightningCanvas(opacity: real)

  function ChooseOverlay(overlayFile: Option<VideoFile>, overlayAlpha: real): (layer: OverlayLayer)
    ensures layer.OverlayVideo? <==> overlayFile.Some?
    ensures layer.OverlayVideo? ==> overlayFile == Some(layer.file)
    ensures layer.opacity == overlayAlpha
  {
    match overlayFile
    case Some(f) => OverlayVideo(f, overlayAlpha)
    case None => LightningCanvas(overlayAlpha)
  }

  class Player {
    var playlist: seq<VideoFile>
    var currentIdx: int
    const playlistLoop: bool
    const overlayLoop: bool
    const overlayDelay: real
    const overlayFile: Option<VideoFile>
    const overlayAlpha: real

    /** The overlay video element's playback state. */
    var overlayPaused: bool
    var overlayTime: real
    /** `overlayTimeout.current` while it is pending, by its delay in milliseconds. */
    var overlayTimeout: Option<real>

    /** The index is 0 or names an entry of the playlist; only an overlay video
        that exists can be waiting to restart. */
    ghost predicate Valid()
      reads this
    {
      0 <= currentIdx && (currentIdx == 0 || currentIdx < |playlist|)
      && (overlayTimeout.Some? ==> overlayFile.Some?)
    }

    /** Mounting the player with saved settings: the first entry plays and the
        overlay video, if any, plays from its start. */
    constructor Mount(settings: PlayerSettings)
      ensures Valid()
      ensures playlist == settings.playlist && currentIdx == 0
      ensures playlistLoop == settings.playlistLoop && overlayLoop == settings.overlayLoop
      ensures overlayDelay == settings.overlayDelay && overlayFile == settings.overlayFile
      ensures overlayAlpha == settings.overlayAlpha
      ensures !overlayPaused && overlayTime == 0.0 && overlayTimeout == None
    {
      playlist := settings.playlist;
      currentIdx := 0;
      playlistLoop := settings.playlistLoop;
      overlayLoop := settings.overlayLoop;
      overlayDelay := settings.overlayDelay;
      overlayFile := settings.overlayFile;
      overlayAlpha := settings.overlayAlpha;
      overlayPaused := false;
      overlayTime := 0.0;
      overlayTimeout := None;
    }

    /** The layer shown above the playlist video. */
    function Overlay(): (layer: OverlayLayer)
      reads this
      ensures layer.OverlayVideo? <==> overlayFile.Some?
      ensures layer.opacity == overlayAlpha
    {
      ChooseOverlay(overlayFile, overlayAlpha)
    }

    /** `onPlaylistEnded`. */
    method PlaylistEnded()
      requires Valid()
      modifies this`currentIdx
      ensures Valid()
      ensures currentIdx == NextIndex(old(currentIdx), |playlist|, playlistLoop)
    {
      if currentIdx < |playlist| - 1 {
        currentIdx := currentIdx + 1;
      } else if playlistLoop && |playlist| > 0 {
        currentIdx := 0;
      }
    }

    /** The playlist prop changing: when the signature of its files differs
        the index goes back to the first entry; otherwise it is kept. */
    method PlaylistChanged(newPlaylist: seq<VideoFile>)
      requires Valid()
      modifies this`playlist, this`currentIdx
      ensures Valid() && playlist == newPlaylist
      ensures Signature(newPlaylist) != Signature(old(playlist)) ==> currentIdx == 0
      ensures Signature(newPlaylist) == Signature(old(playlist)) ==> currentIdx == old(currentIdx)
    {
      if Signature(newPlaylist) != Signature(playlist) {
        currentIdx := 0;
      } else {
        assert |newPlaylist| == |Signature(newPlaylist)| == |playlist|;
      }
      playlist := newPlaylist;
    }

    /** `onOverlayEnded`: only when the overlay loops (and the overlay video
        exists) is it paused and a restart scheduled `overlayDelay` seconds
        later; otherwise nothing happens. */
    method OverlayEnded()
      requires Valid()
      modifies this`overlayPaused, this`overlayTimeout
      ensures Valid()
      ensures overlayLoop && overlayFile.Some? ==>
        overlayPaused && overlayTimeout == Some(overlayDelay * 1000.0)
      ensures !(overlayLoop && overlayFile.Some?) ==>
        overlayPaused == old(overlayPaused) && overlayTimeout == old(overlayTimeout)
    {
      if overlayLoop && overlayFile.Some? {
        overlayPaused := true;
        overlayTimeout := Some(overlayDelay * 1000.0);
      }
    }

    /** The restart timeout firing: the overlay video rewinds to 0 and plays. */
    method OverlayRestartFires()
      requires Valid()
      modifies this`overlayPaused, this`overlayTime, this`overlayTimeout
      ensures Valid() && overlayTimeout == None
      ensures old(overlayTimeout).Some? ==> overlayTime == 0.0 && !overlayPaused
      ensures old(overlayTimeout).None? ==> overlayTime == old(overlayTime) && overlayPaused == old(overlayPaused)
    {
      if overlayTimeout.Some? {
        overlayTime := 0.0;
        overlayPaused := false;
        overlayTimeout := None;
      }
    }

    /** Unmounting: the pending overlay restart, if any, is cleared. */
    method Unmount()
      requires Valid()
      modifies this`overlayTimeout
      ensures Valid() && overlayTimeout == None
    {
      overlayTimeout := None;
    }
  }
}
