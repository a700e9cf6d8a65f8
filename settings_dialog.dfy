/** The settings dialog: loading the stored settings with a default for every
    missing field, clamping the transparency input, and saving, which is
    refused while no playlist video is selected. */
module SettingsDialog {
  import opened Common
  import opened Media

  /** The single storage key the settings live under. */
  const SettingsKey: string := "video_overlay_player_settings"

  /** The stored JSON object; any field may be missing. */
  datatype Stored = Stored(
    overlayAlpha: Option<real>,
    playlistLoop: Option<bool>,
    playlistMuted: Option<bool>,
    overlayLoop: Option<bool>,
    overlayMuted: Option<bool>,
    overlayDelay: Option<real>,
    lastPlaylistNames: Option<seq<string>>,
    lastOverlayName: Option<string>)

  /** A stored string: a JSON object, or text that `JSON.parse` rejects. */
  datatype StoredValue = Json(record: Stored) | Unparsable

  /** The browser's key-value store. */
  class Storage {
    var entries: map<string, StoredValue>

    constructor (entries: map<string, StoredValue>)
      ensures this.entries == entries
    {
      this.entries := entries;
    }
  }

  /** The dialog's form fields: transparency in percent, the four flags, the
      replay delay in seconds, and the names of the files last used. */
  datatype Form = Form(
    alphaPercent: real,
    playlistLoop: bool,
    playlistMuted: bool,
    overlayLoop: bool,
    overlayMuted: bool,
    overlayDelay: real,
    lastPlaylistNames: seq<string>,
    lastOverlayName: string)

  /** The initial field values, which are also each field's default. */
  const Defaults := Form(50.0, false, false, true, false, 0.0, [], "")

  /** `Math.round`: the nearest integer, halves rounded up. */
  function Round(x: real): (n: int)
    ensures n as real - 0.5 <= x < n as real + 0.5
  {
    (x + 0.5).Floor
  }

  /** The form a parsed record loads into: the stored fraction as a rounded
      percent, the other fields as stored, and the default for every field
      that is missing. */
  function Defaulted(s: Stored): (f: Form)
    ensures s.overlayAlpha.None? ==> f.alphaPercent == Defaults.alphaPercent
    ensures s.overlayAlpha.Some? ==> f.alphaPercent == Round(s.overlayAlpha.value * 100.0) as real
    ensures s.playlistLoop.None? ==> f.playlistLoop == Defaults.playlistLoop
    ensures s.playlistLoop.Some? ==> f.playlistLoop == s.playlistLoop.value
    ensures s.playlistMuted.None? ==> f.playlistMuted == Defaults.playlistMuted
    ensures s.playlistMuted.Some? ==> f.playlistMuted == s.playlistMuted.value
    ensures s.overlayLoop.None? ==> f.overlayLoop == Defaults.overlayLoop
    ensures s.overlayLoop.Some? ==> f.overlayLoop == s.overlayLoop.value
    ensures s.overlayMuted.None? ==> f.overlayMuted == Defaults.overlayMuted
    ensures s.overlayMuted.Some? ==> f.overlayMuted == s.overlayMuted.value
    ensures s.overlayDelay.None? ==> f.overlayDelay == Defaults.overlayDelay
    ensures s.overlayDelay.Some? ==> f.overlayDelay == s.overlayDelay.value
    ensures s.lastPlaylistNames.None? ==> f.lastPlaylistNames == Defaults.lastPlaylistNames
    ensures s.lastPlaylistNames.Some? ==> f.lastPlaylistNames == s.lastPlaylistNames.value
    ensures s.lastOverlayName.None? ==> f.lastOverlayName == Defaults.lastOverlayName
    ensures s.lastOverlayName.Some? ==> f.lastOverlayName == s.lastOverlayName.value
  {
    Form(
      match s.overlayAlpha case Some(a) => Round(a * 100.0) as real case None => 50.0,
      match s.playlistLoop case Some(b) => b case None => false,
      match s.playlistMuted case Some(b) => b case None => false,
      match s.overlayLoop case Some(b) => b case None => true,
      match s.overlayMuted case Some(b) => b case None => false,
      match s.overlayDelay case Some(d) => d case None => 0.0,
      match s.lastPlaylistNames case Some(names) => names case None => [],
      match s.lastOverlayName case Some(name) => name case None => "")
  }

  /** An empty record loads as all defaults. */
  lemma EmptyRecordLoadsDefaults()
    ensures Defaulted(Stored(None, None, None, None, None, None, None, None)) == Defaults
  {
  }

  datatype Status = Found | NotFound

  /** The load effect's outcome given what the store holds under the key and
      the form's current values: nothing stored gives `NotFound` and every
      default; a stored string gives `Found`, and an unparsable one leaves the
      form as it was. */
  function Load(entry: Option<StoredValue>, current: Form): (r: (Status, Form))
    ensures entry.None? ==> r == (NotFound, Defaults)
    ensures entry.Some? ==> r.0 == Found
    ensures entry == Some(Unparsable) ==> r.1 == current
    ensures entry.Some? && entry.value.Json? ==> r.1 == Defaulted(entry.value.record)
  {
    match entry
    case None => (NotFound, Defaults)
    case Some(Unparsable) => (Found, current)
    case Some(Json(s)) => (Found, Defaulted(s))
  }

  /** The transparency field's `onChange`: the number typed, clamped into [0, 100]. */
  function Clamp(v: real): (c: real)
    ensures 0.0 <= c <= 100.0
    ensures 0.0 <= v <= 100.0 ==> c == v
    ensures v < 0.0 ==> c == 0.0
    ensures v > 100.0 ==> c == 100.0
  {
    Max(0.0, Min(100.0, v))
  }

  /** `playlist.map(f => f.name)` */
  function Names(playlist: seq<VideoFile>): (names: seq<string>)
    ensures |names| == |playlist|
    ensures forall i :: 0 <= i < |names| ==> names[i] == playlist[i].name
  {
    seq(|playlist|, i requires 0 <= i < |playlist| => playlist[i].name)
  }

  /** The chosen overlay file's name, or the empty string when there is none. */
  function OverlayName(overlayFile: Option<VideoFile>): (name: string)
    ensures overlayFile.Some? ==> name == overlayFile.value.name
    ensures overlayFile.None? ==> name == ""
  {
    match overlayFile case Some(f) => f.name case None => ""
  }

  /** The record `handleSave` stores: every field present, the transparency
      as a fraction, and the chosen files by name. */
  function SavedRecord(form: Form, playlist: seq<VideoFile>, overlayFile: Option<VideoFile>): (s: Stored)
    ensures s.overlayAlpha.Some? && s.overlayAlpha.value * 100.0 == form.alphaPercent
    ensures s.playlistLoop == Some(form.playlistLoop) && s.playlistMuted == Some(form.playlistMuted)
    ensures s.overlayLoop == Some(form.overlayLoop) && s.overlayMuted == Some(form.overlayMuted)
    ensures s.overlayDelay == Some(form.overlayDelay)
    ensures s.lastPlaylistNames.Some? && |s.lastPlaylistNames.value| == |playlist|
    ensures forall i :: 0 <= i < |playlist| ==> s.lastPlaylistNames.value[i] == playlist[i].name
    ensures s.lastOverlayName == Some(OverlayName(overlayFile))
  {
    Stored(
      Some(form.alphaPercent / 100.0),
      Some(form.playlistLoop),
      Some(form.playlistMuted),
      Some(form.overlayLoop),
      Some(form.overlayMuted),
      Some(form.overlayDelay),
      Some(Names(playlist)),
      Some(OverlayName(overlayFile)))
  }

  /** The object `handleSave` passes to `onSave`. */
  function SavePayload(form: Form, playlist: seq<VideoFile>, overlayFile: Option<VideoFile>): (p: PlayerSettings)
    ensures p.playlist == playlist && p.overlayFile == overlayFile
    ensures p.overlayAlpha * 100.0 == form.alphaPercent
    ensures 0.0 <= form.alphaPercent <= 100.0 ==> 0.0 <= p.overlayAlpha <= 1.0
    ensures p.playlistLoop == form.playlistLoop && p.playlistMuted == form.playlistMuted
    ensures p.overlayLoop == form.overlayLoop && p.overlayMuted == form.overlayMuted
    ensures p.overlayDelay == form.overlayDelay
  {
    PlayerSettings(
      playlist, overlayFile, form.alphaPercent / 100.0,
      form.playlistLoop, form.playlistMuted, form.overlayLoop, form.overlayMuted,
      form.overlayDelay)
  }

  /** What is stored and what the player receives agree on every setting. */
  lemma SavedRecordMatchesPayload(form: Form, playlist: seq<VideoFile>, overlayFile: Option<VideoFile>)
    ensures var s, p := SavedRecord(form, playlist, overlayFile), SavePayload(form, playlist, overlayFile);
      s.overlayAlpha == Some(p.overlayAlpha) && s.overlayDelay == Some(p.overlayDelay)
      && s.playlistLoop == Some(p.playlistLoop) && s.playlistMuted == Some(p.playlistMuted)
      && s.overlayLoop == Some(p.overlayLoop) && s.overlayMuted == Some(p.overlayMuted)
      && s.lastPlaylistNames == Some(Names(p.playlist))
  {
  }

  /** A whole percent survives being saved as a fraction and loaded back. */
  lemma PercentRoundTrip(p: int)
    requires 0 <= p <= 100
    ensures Round((p as real / 100.0) * 100.0) == p
  {
    assert (p as real / 100.0) * 100.0 == p as real;
  }

  /** Saving and loading again gives back the form, with the names of the
      files just saved as the "last used" hints, whenever the transparency is
      a whole percent in [0, 100]. */
  lemma SaveThenLoad(form: Form, playlist: seq<VideoFile>, overlayFile: Option<VideoFile>, p: int)
    requires 0 <= p <= 100 && form.alphaPercent == p as real
    ensures Defaulted(SavedRecord(form, playlist, overlayFile))
      == form.(lastPlaylistNames := Names(playlist), lastOverlayName := OverlayName(overlayFile))
  {
    PercentRoundTrip(p);
  }

  /** A clamped transparency is saved and handed over as an opacity in [0, 1]. */
  lemma ClampedAlphaIsOpacity(form: Form, v: real, playlist: seq<VideoFile>, overlayFile: Option<VideoFile>)
    ensures var saved := SavePayload(form.(alphaPercent := Clamp(v)), playlist, overlayFile);
      0.0 <= saved.overlayAlpha <= 1.0
  {
  }

  class Dialog {
    /** The files chosen in this session; they are never restored. */
    var playlist: seq<VideoFile>
    var overlayFile: Option<VideoFile>
    var form: Form
    /** The "Settings loaded." / "No settings found." indicator. */
    var status: Option<Status>
    /** Bumped whenever the form is reloaded, to re-render it. */
    var formKey: nat

    /** Showing the dialog: the fields start at their defaults, then the load
        effect reads the store; whatever it finds, the selected files are cleared. */
    constructor Open(storage: Storage)
      ensures playlist == [] && overlayFile == None
      ensures var entry := if SettingsKey in storage.entries then Some(storage.entries[SettingsKey]) else None;
        status == Some(Load(entry, Defaults).0) && form == Load(entry, Defaults).1
        && formKey == (if entry == Some(Unparsable) then 0 else 1)
    {
      playlist := [];
      overlayFile := None;
      form := Defaults;
      status := None;
      formKey := 0;
      new;
      if SettingsKey in storage.entries {
        status := Some(Found);
        match storage.entries[SettingsKey] {
          case Json(s) =>
            form := Defaulted(s);
            formKey := formKey + 1;
          case Unparsable =>
        }
      } else {
        status := Some(NotFound);
        form := Defaults;
        formKey := formKey + 1;
      }
      playlist := [];
      overlayFile := None;
    }

    /** The transparency field's `onChange` with the number typed. */
    method SetTransparency(input: real)
      modifies this`form
      ensures form == old(form).(alphaPercent := Clamp(input))
    {
      form := form.(alphaPercent := Clamp(input));
    }

    /** The playlist file input: every selected file, in order. */
    method SelectPlaylist(files: seq<VideoFile>)
      modifies this`playlist
      ensures playlist == files
    {
      playlist := files;
    }

    /** The overlay file input: the first selected file, if any. */
    method SelectOverlay(files: seq<VideoFile>)
      modifies this`overlayFile
      ensures overlayFile == if |files| > 0 then Some(files[0]) else None
    {
      overlayFile := if |files| > 0 then Some(files[0]) else None;
    }

    /** `handleSave`. With no playlist video selected nothing is stored and
        `onSave` is not called (the user gets an alert). Otherwise the record is
        stored under the settings key, replacing what was there and leaving
        other keys alone, and `onSave` receives the payload. */
    method Save(storage: Storage) returns (onSave: Option<PlayerSettings>)
      modifies storage
      ensures playlist == [] ==> storage.entries == old(storage.entries) && onSave == None
      ensures playlist != [] ==>
        storage.entries == old(storage.entries)[SettingsKey := Json(SavedRecord(form, playlist, overlayFile))]
        && onSave == Some(SavePayload(form, playlist, overlayFile))
    {
      if |playlist| == 0 {
        return None;
      }
      storage.entries := storage.entries[SettingsKey := Json(SavedRecord(form, playlist, overlayFile))];
      onSave := Some(SavePayload(form, playlist, overlayFile));
    }
  }
}
