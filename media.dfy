/** What the settings dialog hands to the player. */
module Media {
  import opened Common

  /** A user-selected video file, by the attributes the program reads. */
  datatype VideoFile = VideoFile(name: string, size: nat, lastModified: int)

  /** The object `onSave` receives and the player is rendered with: the chosen
      files, the overlay's opacity as a fraction, the loop and mute flags and
      the overlay's replay delay in seconds. */
  datatype PlayerSettings = PlayerSettings(
    playlist: seq<VideoFile>,
    overlayFile: Option<VideoFile>,
    overlayAlpha: real,
    playlistLoop: bool,
    playlistMuted: bool,
    overlayLoop: bool,
    overlayMuted: bool,
    overlayDelay: real)
}
