# Halloween overlay player — a Dafny model of its core

The program is a fullscreen local video player. A playlist of videos plays one
after another, optionally looping. On top of it sits either an overlay video at
a chosen transparency or, when no overlay file is chosen, a generated canvas:
film-grain static with occasional lightning flashes and a creature picture.
A settings dialog loads and stores the loop, mute, transparency and delay
settings; the chosen files themselves must be picked again every time.

This project models three pieces of logic in that program:

- **The fallback overlay canvas** (`src/StaticLightningCanvas.jsx`).
  - `StaticNoise`: packing a grey shade into a 32-bit pixel, and the noise fill of a fresh buffer (`drawStatic`).
  - `LightningBolt`: the bolt-path loop (`drawLightning`), proved to terminate and to stay within its bounds.
  - `CreatureImage`: the centred creature rectangle, and the process-wide image cache (`getCreatureImg`).
  - `Flash`: the flash/fade state machine as pure functions.
  - `OverlayCanvas`: the animation effect as a `Renderer` class. Frames, the reset timer, resizes, cleanup, the picture's load and an opacity change are its methods.
- **The player** (`src/VideoPlayer.jsx`), module `VideoPlayer`.
  - The next-index choice when a playlist video ends, with its cyclic (looping) and saturating (non-looping) behaviour.
  - The reset of the index when the playlist changes.
  - The overlay restart after its delay.
  - The choice between the overlay video and the canvas.
- **The settings dialog** (`src/SettingsDialog.jsx`), module `SettingsDialog`.
  - Defaulting of missing stored fields, with percent↔fraction conversion.
  - The transparency clamp.
  - The save, refused with an empty playlist, writing a key-value store.
  - The round trip from save to load.

`Common` holds `Option`, `Max`, `Min` and `Roll`. A `Roll` is a value of `Math.random()`, a real in [0, 1), and every random value is an explicit input. `Media` holds the file and the settings object that the dialog hands to the player. Numbers are Dafny `real`s, which are exact rationals. Pixels are `bv32` words.

The model follows the code. Some of its behaviour is easy to misread:

- The bolt is stroked at alpha 0.95, not at `fade`, because `drawLightning` sets its own `globalAlpha` (src/StaticLightningCanvas.jsx:17). Only the creature picture is drawn at `fade`.
- On a portrait canvas the code makes the picture's *width* 66% of the canvas width, and its height is then 140/120 of that width. Only on landscape or square canvases is the picture's larger dimension (its height) 66% of the smaller canvas side.
- `fade` decays on every frame that draws the flash, which means whenever a flash is active or `fade > 0`. This is not limited to frames while the flash is active.
- On a canvas of positive height the bolt has between 6 and 13 segments in exact arithmetic. Each segment descends less than 20% of the height, so five segments never reach the bottom edge.
- A test of the dialog expects `onSave` to be called with no playlist selected. The code refuses to save in that case, and the model follows the code.

## Model

| member | source | states |
|---|---|---|
| `StaticNoise.ShadeOf` | src/StaticLightningCanvas.jsx:8 | the shade is the floor of `r * 256`, so a byte 0..255 |
| `StaticNoise.Pack` | src/StaticLightningCanvas.jsx:9 | the packed word equals `0xFF000000 + shade * 0x010101`; its red, green and blue bytes are the shade and its alpha byte is 255 |
| `StaticNoise.NoiseFrame` | src/StaticLightningCanvas.jsx:7-10 | one word per random value, every word an opaque grey |
| `StaticNoise.DrawStatic` | src/StaticLightningCanvas.jsx:4-12 | the fresh buffer has exactly `width * height` words and equals the noise frame of the rolls, so no previous pixel survives |
| `LightningBolt.LineWidth` | src/StaticLightningCanvas.jsx:21 | the stroke width lies in [3, 5) |
| `LightningBolt.StartX` | src/StaticLightningCanvas.jsx:24 | the bolt starts inside the middle 60% of the width, in [0.2W, 0.8W) |
| `LightningBolt.Jitter` | src/StaticLightningCanvas.jsx:28 | each step moves x by at least −0.04W and by less than 0.04W |
| `LightningBolt.Descent` | src/StaticLightningCanvas.jsx:29 | each step moves y down by at least 0.08H and by less than 0.2H |
| `LightningBolt.DrawLightning` | src/StaticLightningCanvas.jsx:15-34 | the loop terminates. The path starts at the top edge and each point follows from the previous one. Every point but the last is above the bottom edge, and the last is at or past it by less than 0.2H. There are 6 to 13 segments when H > 0 and none when H = 0 |
| `CreatureImage.CreatureRect` | src/StaticLightningCanvas.jsx:94-105 | the width:height ratio is 120:140. The rectangle is centred (`2x + w = W`, `2y + h = H`) and lies inside the canvas. `h = 0.66H` when W ≥ H and `w = 0.66W` when W < H |
| `CreatureImage.SquareCanvasRect` | src/StaticLightningCanvas.jsx:94-105 | on a 1000×1000 canvas the picture is 3960/7 wide and 660 high, with its corner at (1520/7, 170) |
| `CreatureImage.Image.constructor` | src/StaticLightningCanvas.jsx:56-57 | a new image element is not yet decoded and has no load handler |
| `CreatureImage.ImageCache.constructor` | src/StaticLightningCanvas.jsx:51 | the slot starts empty |
| `CreatureImage.ImageCache.Get` | src/StaticLightningCanvas.jsx:51-59 | returns the cached image, the same object, if there is one; otherwise a new undecoded image without handler, which is stored in the slot |
| `CreatureImage.RepeatedLookupsShareOneImage` | src/StaticLightningCanvas.jsx:51-59 | two lookups in a row return the same object, and an image already cached is the one returned: the picture is built at most once |
| `Flash.Decay` | src/StaticLightningCanvas.jsx:112-113 | the new fade is `max(0, fade − 0.07)` |
| `Flash.Tick` | src/StaticLightningCanvas.jsx:88-122 | fade stays in [0, 1], and only a trigger raises it, to exactly 1 with the flash active. A trigger needs an inactive flash and a roll below 0.01. Without a trigger the active flag is unchanged, a drawn frame (active or fade > 0) decays the fade by `Decay`, and a frame that is not drawn changes nothing |
| `Flash.ResetFires` | src/StaticLightningCanvas.jsx:119-121 | the reset timer only clears the active flag and leaves fade unchanged |
| `Flash.ResetDelay` | src/StaticLightningCanvas.jsx:121 | the reset delay lies in [60, 160) ms |
| `Flash.ActiveRunDecays` | src/StaticLightningCanvas.jsx:88-114 | with the flash active, n frames leave it active with fade `max(0, fade − 0.07n)`, whatever the rolls |
| `Flash.MissedRollsStartNoFlash` | src/StaticLightningCanvas.jsx:115 | frames whose trigger rolls are all at least 0.01 start no new flash, from any state |
| `Flash.FadeWithoutRetrigger` | src/StaticLightningCanvas.jsx:88-122 | over any mix of frames and reset-timer firings in which no frame starts a new flash (replayed from the start state, so a low roll while the flash is active is allowed), the fade ends at `max(0, fade − 0.07 · frames)`, wherever the reset falls |
| `Flash.TenFramesAfterTrigger` | src/StaticLightningCanvas.jsx:112-121 | starting at fade 1 with the flash active, ten frames with no new flash leave fade 0.3, whether or not the reset fired among them |
| `Flash.FadedOutAfterFifteenFrames` | src/StaticLightningCanvas.jsx:112-121 | after fifteen such frames the fade is 0 |
| `Flash.LowRollBeforeResetStillFades` | src/StaticLightningCanvas.jsx:112-121 | a roll below 0.01 while the flash is active, then the reset, then nine frames whose rolls miss, end at fade 0.3 |
| `Flash.IdleUntilTriggered` | src/StaticLightningCanvas.jsx:88-122 | with no flash and no fade, frames whose rolls are all at least 0.01 leave the state idle |
| `OverlayCanvas.Blank` | src/StaticLightningCanvas.jsx:78-79 | setting the canvas size leaves `width * height` pixels, all transparent black |
| `OverlayCanvas.Renderer.Mount` | src/StaticLightningCanvas.jsx:67-82 | with a canvas, the size is the viewport size, the bitmap is blank, the frame loop and the listener are registered, and there is no flash. Without a canvas nothing is started |
| `OverlayCanvas.Renderer.Frame` | src/StaticLightningCanvas.jsx:84-124 | a stopped canvas changes nothing and requests no frame. A running one replaces every pixel with fresh noise and moves the flash state by `Tick`. It starts a reset timer exactly when a flash triggers. It draws exactly when the flash was active or fade > 0: the bolt at 0.95 and the creature at the old fade, or the load handler is set to that rectangle. The shared picture, once built, stays the same object and stays decoded, and a picture built by this frame is a new object; a frame that draws no flash leaves the slot and the picture untouched |
| `OverlayCanvas.Renderer.DrawFlash` | src/StaticLightningCanvas.jsx:88-114 | appends a bolt stroke at 0.95 satisfying `IsBolt`. It appends the creature draw at fade when the picture is decoded, otherwise it installs the load handler with the centred rectangle. Then it decays fade. A picture already in the slot stays the same object, and a decoded one is left untouched; an empty slot receives a newly built picture |
| `OverlayCanvas.Renderer.ResetTimerFires` | src/StaticLightningCanvas.jsx:119-121 | the flash becomes inactive, fade is untouched and no reset is pending |
| `OverlayCanvas.Renderer.Resize` | src/StaticLightningCanvas.jsx:77-80 | while the listener is registered the canvas takes the viewport size with a blank bitmap; otherwise nothing changes |
| `OverlayCanvas.Renderer.Stop` | src/StaticLightningCanvas.jsx:126-130 | the effect stops running, the requested frame is cancelled and the listener is removed; nothing else changes |
| `OverlayCanvas.Renderer.CreatureLoaded` | src/StaticLightningCanvas.jsx:106-110 | the picture becomes decoded. An installed handler draws the last requested rectangle at the context's default alpha 1 |
| `OverlayCanvas.Renderer.SetOpacity` | src/StaticLightningCanvas.jsx:143 | only the element's opacity changes; pixels and draws stay as they are |
| `OverlayCanvas.FlashThenPictureLoads` | src/StaticLightningCanvas.jsx:51-124 | on a freshly mounted canvas with an empty picture slot, a triggering frame, a drawn frame and the picture's decode leave exactly the bolt at 0.95 and the creature drawn by the load handler at alpha 1 into the centred rectangle |
| `OverlayCanvas.StoppedCanvasDrawsNothing` | src/StaticLightningCanvas.jsx:84-130 | after cleanup, frames delivered anyway add no draw and no pixel, and no frame or listener stays registered |
| `VideoPlayer.NextIndex` | src/VideoPlayer.jsx:46-52 | a valid index stays valid, and the next index is the same one, the following one or 0 |
| `VideoPlayer.LoopingAdvanceIsCyclic` | src/VideoPlayer.jsx:46-52 | with looping, the next index is `(idx + 1) mod length`, so the last index wraps to 0 |
| `VideoPlayer.NonLoopingAdvanceStops` | src/VideoPlayer.jsx:46-52 | without looping, the index moves to `idx + 1` and stays on the last entry |
| `VideoPlayer.EmptyPlaylistStays` | src/VideoPlayer.jsx:46-52 | an empty playlist keeps index 0 |
| `VideoPlayer.LoopingPlaylistCycles` | src/VideoPlayer.jsx:46-52 | from entry 0 of a looping playlist, the n-th ending leads to entry `n mod length` |
| `VideoPlayer.NonLoopingPlaylistStops` | src/VideoPlayer.jsx:46-52 | from entry 0 without looping, the n-th ending leads to entry `min(n, length − 1)` |
| `VideoPlayer.Signature` | src/VideoPlayer.jsx:92-95 | one key per file, built from its name, size and last modification |
| `VideoPlayer.ChooseOverlay` | src/VideoPlayer.jsx:121-143 | the overlay video is shown exactly when an overlay file is present, otherwise the canvas; both at the configured opacity |
| `VideoPlayer.Player.Mount` | src/VideoPlayer.jsx:19 | the player starts on entry 0 with the given settings and no pending overlay restart |
| `VideoPlayer.Player.Overlay` | src/VideoPlayer.jsx:121-143 | the layer shown is the overlay video exactly when an overlay file was given |
| `VideoPlayer.Player.PlaylistEnded` | src/VideoPlayer.jsx:46-52 | the index becomes `NextIndex`, and the index stays 0 or a valid entry |
| `VideoPlayer.Player.PlaylistChanged` | src/VideoPlayer.jsx:89-95 | a changed signature resets the index to 0; an unchanged one keeps it |
| `VideoPlayer.Player.OverlayEnded` | src/VideoPlayer.jsx:54-66 | only with overlay looping and an overlay video is it paused and a restart scheduled after `overlayDelay * 1000` ms; otherwise nothing changes |
| `VideoPlayer.Player.OverlayRestartFires` | src/VideoPlayer.jsx:60-63 | a pending restart rewinds the overlay to time 0 and plays it |
| `VideoPlayer.Player.Unmount` | src/VideoPlayer.jsx:69-71 | the pending overlay restart is cleared |
| `SettingsDialog.Round` | src/SettingsDialog.jsx:36 | the result is the nearest integer, with halves rounded up |
| `SettingsDialog.Defaulted` | src/SettingsDialog.jsx:36-44 | every missing field gets its default: 50, false, false, true, false, 0, [] and "". Every present field loads as stored, except the fraction, which loads as the rounded percent |
| `SettingsDialog.EmptyRecordLoadsDefaults` | src/SettingsDialog.jsx:36-44 | a record with no field loads exactly the defaults |
| `SettingsDialog.Load` | src/SettingsDialog.jsx:30-58 | nothing stored gives `NotFound` with every default. Anything stored gives `Found`: a parsed record loads as `Defaulted` of it, and an unparsable value leaves the form as it was |
| `SettingsDialog.Clamp` | src/SettingsDialog.jsx:159 | the transparency lies in [0, 100]. It equals the input when the input is in range, and 0 or 100 beyond either end |
| `SettingsDialog.Names` | src/SettingsDialog.jsx:78 | the i-th name is the i-th file's name |
| `SettingsDialog.OverlayName` | src/SettingsDialog.jsx:79 | the chosen overlay file's name, or "" when none is chosen |
| `SettingsDialog.SavedRecord` | src/SettingsDialog.jsx:78-91 | every field is present: the transparency as a fraction that is the percent divided by 100, the flags and delay as in the form, and the playlist's names in order and the overlay's name |
| `SettingsDialog.SavePayload` | src/SettingsDialog.jsx:93-102 | the player gets the chosen files themselves, the transparency as a fraction (in [0, 1] for a percent in [0, 100]), and the flags and delay as in the form |
| `SettingsDialog.SavedRecordMatchesPayload` | src/SettingsDialog.jsx:80-102 | the stored record and the `onSave` payload carry the same alpha fraction, delay and flags, and the record holds the playlist's names |
| `SettingsDialog.PercentRoundTrip` | src/SettingsDialog.jsx:83 | a whole percent p in [0, 100], divided by 100 and loaded back, gives back p |
| `SettingsDialog.SaveThenLoad` | src/SettingsDialog.jsx:36-91 | loading a saved record gives back the form, with the saved file names as the hints, for a whole percent in [0, 100] |
| `SettingsDialog.ClampedAlphaIsOpacity` | src/SettingsDialog.jsx:159 | a clamped transparency reaches the player as an opacity in [0, 1] |
| `SettingsDialog.Dialog.Open` | src/SettingsDialog.jsx:29-62 | the form holds what `Load` gives for the stored entry, and the form key is bumped unless the entry is unparsable. The selected playlist and overlay file are always cleared |
| `SettingsDialog.Dialog.SetTransparency` | src/SettingsDialog.jsx:159 | only the transparency changes, to the clamped input |
| `SettingsDialog.Dialog.SelectPlaylist` | src/SettingsDialog.jsx:64-66 | the playlist becomes the selected files in order |
| `SettingsDialog.Dialog.SelectOverlay` | src/SettingsDialog.jsx:68-70 | the overlay file becomes the first selected file, or none |
| `SettingsDialog.Dialog.Save` | src/SettingsDialog.jsx:72-103 | with an empty playlist the store is untouched and `onSave` is not called. Otherwise only the settings key is (re)written with the record and `onSave` gets the payload |

## Left out

- Canvas 2D calls are modelled only as a log of bolt strokes and picture draws, each with its alpha and geometry. This covers `putImageData`, `stroke`, `drawImage`, the stroke and shadow colours, and `shadowBlur`. The noise fill is modelled as the bitmap's new contents.
- The pixel word is read with little-endian byte order, which is the order in which a `Uint32Array` aliases RGBA bytes on the platforms browsers run on. Big-endian hosts are not modelled.
- `Math.random` is replaced by explicit `Roll` inputs. The 1% trigger rate is not stated statistically; only the `< 0.01` condition is.
- Floating point is not modelled; all arithmetic is exact over the reals. The fade reaching exactly 0.3 after ten steps, and the percent round trip, hold in this arithmetic, not necessarily in JavaScript doubles.
- `requestAnimationFrame`, `setTimeout` and event listeners become explicit event methods. Timer delays are recorded, but there is no clock and no real concurrency.
- Before the first `resize()` call a canvas is 300×150. That size is not modelled, because mounting resizes the canvas at once.
- `OverlayCanvas.Renderer.CreatureLoaded`: the load handler draws into the canvas that installed it. When several canvases share the cached image, which canvas set the handler last is not tracked.
- `localStorage`, `JSON.parse` and `JSON.stringify` are modelled as an abstract map from keys to parsed records, or to an unparsable value. Stored fields are assumed to have the right JSON types when present. Three cases are not modelled: a `null` field, a stored value that is not an object, and an empty stored string.
- The delay text field's `onChange` and `Number(overlayDelay)` are not modelled: the delay is a real throughout. Non-numeric transparency input, which would give `NaN`, is not modelled either.
- The checkbox `onChange` handlers only set one flag each and are not modelled.
- `VideoPlayer.Signature`: the source joins the keys into one string, in which two different playlists could coincide. The model compares the keys themselves.
- The player's props other than the playlist are fixed for one mount. The application swaps the player out for the dialog before the settings change (`src/App.jsx`, which is not part of this model).
- Object URLs (`getVideoURL`), the `File`/`Blob` checks and fullscreen are not modelled. The mouse-move button-hiding timer, JSX, MUI and styles are not modelled either.
- The creature picture's art is not modelled beyond its 120×140 size.
- `StaticNoise.DrawStatic` and `OverlayCanvas.Renderer.Frame`: on a canvas with zero width or zero height, the browser's `createImageData` throws. That aborts `animate` before it requests the next frame, so the animation stays stopped until the component mounts again. The model instead fills an empty buffer and keeps requesting frames. As a consequence, the zero-height case of `LightningBolt.DrawLightning` is never reached from a real frame.
- `VideoPlayer.LoopingPlaylistCycles` is about the index only. With a one-entry looping playlist the index is already 0, so setting it again does not re-render the player. The ended `<video>` element is therefore not restarted. Whether an element actually replays is not modelled.
- `src/App.jsx` is not part of this model. It rewrites the stored record without the last-used file names, so the model makes no claim that those hints survive a full save through the application.
- The unused variables `lightningFade`, `lastLightningTime`, `lightningDuration` and `now` are not modelled.
