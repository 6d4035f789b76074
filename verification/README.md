# MagniRead capture core, modelled in Dafny

MagniRead is a video magnifier. A camera feed is read by a player thread
(`WebcamPlayer`), adjusted (brightness, contrast, a colour filter), and shown in a
view (`WebcamView`) that is either a live preview, a frozen snapshot, or in an
error state. The main window offers a button that toggles the view's mode and a
slider that zooms the image.

This project models that core:

- `media.dfy` (`Media`): frames, images (`QImage` by format), sizes and `Option`.
- `capture.dfy` (`Capture`): a value stand-in for OpenCV's `VideoCapture`. A
  `Device` is the handle's state: open or not, and the current frame width and
  height. It also holds the script of the hardware behind the handle: which camera
  indices open, how successive `set` requests are answered, and what successive
  `read` calls yield. Every `set` request is logged, so contracts can say which
  requests were issued.
- `player.dfy` (`Player`): the class `WebcamPlayer` from `webcamplayer.cpp`. It has
  its stop flag, an abstract "worker running" flag, the three stored settings, the
  capture handle, and the log of signals it emitted (`processedImage`, `readError`).
  Its methods are proved against pure specification functions:
  - `ClampBrightness`, `FloorContrast` and `NormaliseFilter` give the stored settings.
  - `MaxResolution` gives the resolution attempt.
  - `Emitted` and `Unread` give the worker loop's events and what it leaves unread
    when it runs until a read fails; `RunEvents` and `RunLeaves` give the same
    when a stop request may also land after some number of iterations.
  - `Process` and `BinaryPlane` give the image made from one frame.
- `view.dfy` (`View`): the class `WebcamView` from `webcamview.cpp`. It holds the
  three-valued mode, the player it owns, the stored image, the scene item and the
  scene rectangle.
- `window.dfy` (`Window`): the logic of `mainwindow.cpp`. This covers the mode
  toggle, the mode button's look, and the zoom slider's range. The slider follows
  `QAbstractSlider`'s range rules (`setMaximum` pulls the minimum down with it; the
  value is kept in range; the tick interval is never negative).

The worker thread is modelled sequentially. `Play` marks the worker running.
`Run` is the thread's body run to completion: it consumes the device's read
script until the stop flag is seen or a read fails, then marks the worker
finished. A `stop()` from the control thread is a parameter of `Run`: the number
of completed iterations after which it lands, if it does. A stop requested before
`Run` is seen at the loop's first test, as the cooperative flag is in the source.

Notes on the program's behaviour:

- The black-and-white threshold is strict: a grey level above 100 becomes 255, and
  100 itself becomes 0 (OpenCV `THRESH_BINARY`).
- There is no rotation setting.
- There is one candidate resolution (7680x4320), not a cascade.
- The file-backed source has no frame-rate pacing.
- `setMode` emits no mode-changed notification.
- `switchWebcamMode` changes only the view's mode. It neither starts nor stops the
  player, and it does not refresh the mode button.
- The stored filter starts as the empty string, which the worker treats like "None".

## Model

| member | source | states |
|---|---|---|
| `Player.ClampBrightness` | webcamplayer.cpp:131-138 | the stored brightness is within [-255, 255]; it equals the request exactly when the request is in that range; otherwise it is 255 above and -255 below |
| `Player.ClampBrightnessMonotone` | webcamplayer.cpp:131-138 | clamping preserves the order of two requests |
| `Player.FloorContrast` | webcamplayer.cpp:143-150 | the stored contrast is always > 0; it is the request when that is positive, and 0.001 otherwise |
| `Player.NormaliseFilter` | webcamplayer.cpp:155-162 | the stored filter is one of the three legal names; it equals the request exactly when the request is legal; anything else becomes "None" |
| `Player.NormalisationIdempotent` | webcamplayer.cpp:131-162 | normalising an already normalised brightness, contrast or filter gives it back unchanged |
| `Player.UnsetFilterRendersAsNone` | webcamplayer.cpp:49-75 | a frame is processed under the initial empty filter exactly as under "None" |
| `Player.BinaryPixel` | webcamplayer.cpp:62 | a thresholded pixel is 0 or 255, and it is 255 exactly when the grey level is above 100 |
| `Player.BinaryPlane` | webcamplayer.cpp:60-66 | the black-and-white plane has the grey plane's size; each pixel is 255 exactly above 100 and 0 exactly at or below 100 |
| `Player.BinaryPlaneIdempotent` | webcamplayer.cpp:60-66 | thresholding a black-and-white plane again leaves it unchanged |
| `Player.Process` | webcamplayer.cpp:49-75 | an emitted image is null exactly when the frame has no columns or no rows, and otherwise has the frame's size; it is indexed exactly for a frame without 3 channels; it is grey exactly for a 3-channel frame under Greyscale or Black and White; under Greyscale it carries the frame's luminance plane; under Black and White it carries exactly `BinaryPlane` of that plane |
| `Player.Emitted` | webcamplayer.cpp:40-78 | the worker loop's events end in exactly one ReadError, and every event before it is a processed image |
| `Player.Unread` | webcamplayer.cpp:40-47 | the loop leaves a suffix of the read script, strictly shorter when the script is not empty |
| `Player.EmittedPrefix` | webcamplayer.cpp:40-78 | each delivered frame at the head of the script yields exactly one processed image, in order, and consumes exactly one read |
| `Player.ScriptedFailure` | webcamplayer.cpp:40-47 | k delivered frames followed by a failed read yield exactly k processed images and then one ReadError; the reads after the failure are left unread |
| `Player.ScriptExhausted` | webcamplayer.cpp:42-46 | a script that ends after k frames yields k processed images and then ReadError |
| `Player.RunIsPrefix` | webcamplayer.cpp:39-79 | the events of a run that a stop may cut short are a prefix of the loop's own events; with no stop they are all of them, and the same reads are left unread |
| `Player.RunEndings` | webcamplayer.cpp:39-79 | a run without a ReadError is one a stop cut off after exactly as many iterations as it emitted images; a run with a ReadError is the loop's whole run |
| `Player.RunLeavesSuffix` | webcamplayer.cpp:39-47 | what a run leaves unread is a suffix of the read script |
| `Player.StopAfterFrames` | webcamplayer.cpp:39-79 | a stop landing after k iterations while the script delivers frames yields exactly the k processed images, no ReadError, and leaves every later read untouched |
| `Player.MaxResolution` | webcamplayer.cpp:108-126 | a closed device is left unchanged and the answer is false; otherwise both the 7680 width and the 4320 height requests are issued; the answer is true exactly when both are accepted, and then the resolution is 7680x4320; on refusal the initial width and height are requested again, and each side ends at its initial value unless its 8K request was accepted and its restore refused |
| `Player.WebcamPlayer.constructor` | webcamplayer.cpp:3-8 | a new player is stopped and not running, with brightness 0, contrast 1, an empty filter, a closed capture handle and no events |
| `Player.WebcamPlayer.Open` | webcamplayer.cpp:13-18 | the previous device is released first, which sets the stop flag if it was open; the answer is whether the camera index could be opened, and it equals the new open state |
| `Player.WebcamPlayer.Play` | webcamplayer.cpp:23-34 | a no-op while the worker runs; otherwise it clears the stop flag, applies the resolution attempt and starts the worker |
| `Player.WebcamPlayer.Run` | webcamplayer.cpp:39-79 | the loop ends stopped, and the worker has finished; if it started stopped, nothing is read or emitted; otherwise it emits exactly `RunEvents` of the read script (empty for a closed device) for the iteration at which the control thread's stop lands, and an open device is left with `RunLeaves` of its script; a closed device is left unchanged |
| `Player.WebcamPlayer.IsStopped` | webcamplayer.cpp:81-83 | reports the stop flag |
| `Player.WebcamPlayer.Release` | webcamplayer.cpp:88-96 | afterwards the device is closed; an open device is released and the stop flag set; a closed one changes nothing, so a second call is a no-op |
| `Player.WebcamPlayer.Stop` | webcamplayer.cpp:101-103 | sets the stop flag and nothing else |
| `Player.WebcamPlayer.UseMaxResolution` | webcamplayer.cpp:108-126 | the answer and the new capture state are those of `MaxResolution` |
| `Player.WebcamPlayer.SetBrightness` | webcamplayer.cpp:131-138 | stores `ClampBrightness` of the request, keeps the settings legal, and changes nothing else; storing the value `getBrightness` returned leaves the brightness unchanged |
| `Player.WebcamPlayer.SetContrast` | webcamplayer.cpp:143-150 | stores `FloorContrast` of the request, keeps the settings legal, and changes nothing else; storing the value `getContrast` returned leaves the contrast unchanged |
| `Player.WebcamPlayer.SetFilter` | webcamplayer.cpp:155-162 | stores `NormaliseFilter` of the request, keeps the settings legal, and changes nothing else; storing the name `getFilter` returned leaves the filter unchanged, except that the initial empty filter becomes "None" |
| `Player.WebcamPlayer.GetContrast` | webcamplayer.cpp:164-166 | reports the stored contrast, which is positive while the settings are legal |
| `Player.WebcamPlayer.GetBrightness` | webcamplayer.cpp:168-170 | reports the stored brightness, which lies in [-255, 255] while the settings are legal |
| `Player.WebcamPlayer.GetFilter` | webcamplayer.cpp:172-174 | reports the stored filter, which is empty or one of the three legal names while the settings are legal |
| `View.WebcamView.constructor` | webcamview.cpp:12-54 | the view takes the given mode over a fresh player; the player is started exactly in Preview; in Snapshot the placeholder image is shown; otherwise no image is stored |
| `View.WebcamView.WithDefaultMode` | webcamview.cpp:6-10 | the view takes `DefaultMode`; the player is started exactly when that is Preview; the placeholder is shown exactly when it is Snapshot, and otherwise no image is stored |
| `View.WebcamView.Start` | webcamview.cpp:40-50 | Snapshot shows the placeholder and leaves the player alone; Preview plays the player and leaves the image alone; Error does neither |
| `View.WebcamView.UpdateImage` | webcamview.cpp:59-79 | the stored image becomes the new one; the scene item is rebuilt from it at the current viewport size; the scene rectangle becomes (0, 0, width, height) |
| `View.WebcamView.Resize` | webcamview.cpp:84-88 | a non-null stored image is delivered again at the current viewport size, and the scene rectangle again fits it; with a null image nothing changes |
| `View.WebcamView.SetMode` | webcamview.cpp:93-95 | afterwards `GetMode` returns the new mode, and nothing else (in particular the player) changes |
| `View.WebcamView.GetMode` | webcamview.cpp:97-99 | reports the mode last set, by construction or by `SetMode` |
| `View.WebcamView.PlayVideo` | webcamview.cpp:104-107 | the mode becomes Preview and the player runs, started as `Play` starts it |
| `View.WebcamView.StopVideo` | webcamview.cpp:112-115 | the mode becomes Snapshot and the player's stop flag is set |
| `Window.SwitchMode` | mainwindow.cpp:47-60 | Error maps to Error and nothing else does; Preview and Snapshot each map to the other |
| `Window.SwitchModeTwice` | mainwindow.cpp:47-60 | toggling twice returns the original mode |
| `Window.ModeButtonFor` | mainwindow.cpp:25-45 | the mode button is enabled exactly when the mode is not Error, and it shows that mode's tooltip |
| `Window.EnabledExactlyWhenSwitchable` | mainwindow.cpp:25-60 | the button is enabled exactly when pressing it would change the mode |
| `Window.MainWindow.constructor` | mainwindow.cpp:5-20 | the window holds a fresh view in the default mode; the mode button matches that mode; the zoom slider's maximum is 100 times the stored zoom factor (500 with none stored); for a non-negative factor, or none, it runs from 0, with tick interval and page step 10 times the factor (50 with none stored); it starts at its minimum |
| `Window.MainWindow.CreateButtonLayout` | mainwindow.cpp:80-110 | the mode button matches the view's mode; the zoom slider's maximum is 100 times the stored zoom factor, or 500 with none stored; for a non-negative factor k the range starts at 0 and the tick interval and page step are 10k (50 with none stored); a negative factor pulls the minimum down to the maximum, with tick interval and page step 0; the single step is 1; it starts at its minimum |
| `Window.MainWindow.UpdateWebcamMode` | mainwindow.cpp:25-45 | the mode button gets the look of the view's mode and is enabled exactly when that mode is not Error |
| `Window.MainWindow.SwitchWebcamMode` | mainwindow.cpp:47-60 | the view's mode becomes `SwitchMode` of the old mode, and nothing else changes |
| `Window.MainWindow.ChangeSettings` | mainwindow.cpp:173-187 | with a stored zoom factor, the slider's maximum becomes 100 times it, under Qt's range rules; without one, the slider is unchanged |
| `Window.MainWindow.ResizeEvent` | mainwindow.cpp:192-196 | the view takes the new size and delivers its stored image again, when there is one, with a scene rectangle of exactly that image's size; with a null image the scene item and rectangle are unchanged |

## Left out

- Threads and locks are not modelled. This covers `QThread` scheduling and
  `start(LowPriority)`, the mutex in `release`, and the destructor's `release`
  followed by `wait` (webcamplayer.cpp:176-181). The player is sequential, and
  `running` is an abstract flag.
- Pixel arithmetic is not modelled. This covers `convertTo` with saturation, the
  BGR-to-RGB and RGB-to-grey conversions, and `QPixmap::scaled`. A frame instead
  carries the luminance plane those conversions would give it, and colour images
  carry only their size. Brightness and contrast therefore do not change any
  modelled pixel.
- The zoom ratio computed in `zoomImage` (mainwindow.cpp:201-206) is floating
  point and is not modelled.
- `ClampBrightness`, `FloorContrast`: settings are `real`, so a NaN request is not
  modelled. The source stores a NaN unchanged, because every comparison with NaN
  is false.
- `MaxResolution`: C++ does not fix the evaluation order of the two operands of
  `&`. The model issues the width request first. The device stores an accepted
  value as given; a driver that rounds to a nearby resolution is not modelled.
- `Window.MainWindow.CreateButtonLayout`, `Window.MainWindow.ChangeSettings`,
  `Window.MainWindow.constructor`: the stored factor is an unbounded integer.
  C++ `int` overflow of `toInt() * 100` (a stored factor above 21474836) is not
  modelled.
  Values that are not integers, which `toInt` turns into 0, are not modelled
  either; the settings store is a map from keys to integers.
- `Window.ModeButtonFor`, `Window.MainWindow.UpdateWebcamMode`: the `default`
  branch for a value outside the enumeration cannot arise, because `Mode` has
  exactly three values. The tooltip texts and the icon size are not part of this
  model.
- `DEFAULT_MODE`: webcamview.h and webcamview.cpp do not define it, so
  `View.DefaultMode` leaves its value open and every contract about it holds for
  each of the three modes.
- `open(std::string)` is declared but has no definition. `WebcamView::init` calls
  it on a video file, and the model leaves that call out, so a view's player
  starts with a closed device. `WebcamView::openWebcam`, called from
  `changeSettings` (mainwindow.cpp:179-181), is not part of this model, and
  neither is the `qDebug` output there.
- `Player.WebcamPlayer.Run`: a stop from the control thread is modelled as
  landing between iterations, where the flag is tested. A stop that lands while
  an iteration is under way takes effect at the next test, so it is the same as
  one landing after that iteration. Interleavings of the setters with the loop,
  which change the filter a later frame is processed with, are not modelled.
- The images the worker emits share their pixel buffer with the worker's OpenCV
  matrices (webcamplayer.cpp:57, 64, 68, 73 build a `QImage` over the matrix data
  without copying it), so a later frame can overwrite an image still being shown.
  The model's images are values and do not capture that aliasing.
- Signal delivery (`connect`) is not modelled. The player's `events` log stands for
  its emitted signals. Delivery of `processedImage` to `updateImage`, and of
  `modeChanged` to `updateWebcamMode`, is left to the caller.
- `WebcamView::updateImage` removes and deletes the previous scene item before one
  exists on the first call. webcamview.h declares `imageItem` without an
  initialiser and no constructor sets it, so its first value is indeterminate; the
  model treats the item as absent.
- Widget construction, layout, the settings dialog, persistence and camera
  enumeration are UI glue and are not modelled. This covers `settingsdialog.cpp`,
  `colorbutton.cpp`, `main.cpp`, the unused `webcamsettings.cpp` structure, and
  the remaining buttons of the button column.
