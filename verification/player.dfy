/** The capture player: clamped processing settings, the device lifecycle, the
    one-shot resolution attempt, and the worker loop that turns device reads into
    processed-image events. */
module Player {
  import opened Media
  import opened Capture

  const BlackAndWhite: string := "Black and White"
  const Greyscale: string := "Greyscale"
  const NoFilter: string := "None"

  /** The resolution the player asks for (8K UHD). */
  const MaxWidth: int := 7680
  const MaxHeight: int := 4320

  /** Grey level above which the black-and-white filter turns a pixel white. */
  const Threshold: Byte := 100

  predicate LegalFilter(f: string) {
    f == BlackAndWhite || f == Greyscale || f == NoFilter
  }

  // ---------------------------------------------------------------------------
  // Setting normalisation

  /** The brightness delta actually stored for a requested one: saturated to
      [-255, 255], and exactly the request inside that range. */
  function ClampBrightness(b: real): (r: real)
    ensures -255.0 <= r <= 255.0
    ensures r == b <==> -255.0 <= b <= 255.0
    ensures b > 255.0 ==> r == 255.0
    ensures b < -255.0 ==> r == -255.0
  {
    if b > 255.0 then 255.0 else if b < -255.0 then -255.0 else b
  }

  /** Clamping never reverses the order of two requests. */
  lemma ClampBrightnessMonotone(a: real, b: real)
    requires a <= b
    ensures ClampBrightness(a) <= ClampBrightness(b)
  {
  }

  /** The contrast factor actually stored: always strictly positive, exactly the
      request when that is positive, and the floor 0.001 otherwise. */
  function FloorContrast(a: real): (r: real)
    ensures r > 0.0
    ensures a > 0.0 ==> r == a
    ensures a <= 0.0 ==> r == 0.001
  {
    if a <= 0.0 then 0.001 else a
  }

  /** The filter name actually stored: one of the three legal names, the request
      itself exactly when it is legal, and "None" for anything else. */
  function NormaliseFilter(f: string): (r: string)
    ensures LegalFilter(r)
    ensures r == f <==> LegalFilter(f)
    ensures !LegalFilter(f) ==> r == NoFilter
  {
    if f == BlackAndWhite || f == Greyscale then f else NoFilter
  }

  /** Normalising an already normalised setting changes nothing. */
  lemma NormalisationIdempotent(b: real, a: real, f: string)
    ensures ClampBrightness(ClampBrightness(b)) == ClampBrightness(b)
    ensures FloorContrast(FloorContrast(a)) == FloorContrast(a)
    ensures NormaliseFilter(NormaliseFilter(f)) == NormaliseFilter(f)
  {
  }

  // ---------------------------------------------------------------------------
  // Frame processing

  /** Binary thresholding of one grey pixel (OpenCV THRESH_BINARY, threshold 100,
      maximum 255): white exactly above the threshold, black otherwise. */
  function BinaryPixel(p: Byte): (q: Byte)
    ensures q == 0 || q == 255
    ensures q == 255 <==> p > Threshold
  {
    if p > Threshold then 255 else 0
  }

  /** The black-and-white plane of a grey plane, pixel by pixel. */
  function BinaryPlane(s: seq<Byte>): (r: seq<Byte>)
    ensures |r| == |s|
    ensures forall i :: 0 <= i < |r| ==> (r[i] == 255 <==> s[i] > Threshold)
    ensures forall i :: 0 <= i < |r| ==> (r[i] == 0 <==> s[i] <= Threshold)
  {
    seq(|s|, i requires 0 <= i < |s| => BinaryPixel(s[i]))
  }

  /** A black-and-white plane is its own black-and-white image. */
  lemma BinaryPlaneIdempotent(s: seq<Byte>)
    ensures BinaryPlane(BinaryPlane(s)) == BinaryPlane(s)
  {
  }

  /** The image one loop iteration emits for a frame under a filter: a three-channel
      frame becomes a grey image (Greyscale), a thresholded grey image (Black and
      White) or an RGB image (anything else); any other frame becomes an indexed image. */
  function Process(f: Frame, filter: string): (img: Image)
    ensures img.IsNull() <==> f.cols == 0 || f.rows == 0
    ensures !img.IsNull() ==> img.Width() == f.cols && img.Height() == f.rows
    ensures img.Indexed8? <==> f.channels != 3
    ensures img.Grayscale8? <==> f.channels == 3 && (filter == Greyscale || filter == BlackAndWhite)
    ensures img.Grayscale8? && filter == Greyscale ==> img.pixels == f.luma
    ensures img.Grayscale8? && filter == BlackAndWhite ==> img.pixels == BinaryPlane(f.luma)
  {
    if f.channels == 3 then
      if filter == Greyscale then Grayscale8(f.cols, f.rows, f.luma)
      else if filter == BlackAndWhite then Grayscale8(f.cols, f.rows, BinaryPlane(f.luma))
      else Rgb888(f.cols, f.rows)
    else Indexed8(f.cols, f.rows)
  }

  /** The empty filter a new player starts with renders exactly as "None". */
  lemma UnsetFilterRendersAsNone(f: Frame)
    ensures Process(f, "") == Process(f, NoFilter)
  {
  }

  // ---------------------------------------------------------------------------
  // The worker loop, as a function of the read script

  /** The signals the player emits. */
  datatype Event = ProcessedImage(image: Image) | ReadError

  /** The events the worker loop emits while reading the given outcomes from an
      open device: one processed image per delivered frame, up to the first failed
      read (or the end of the script, where reads fail), which raises ReadError. */
  function Emitted(feed: seq<ReadOutcome>, filter: string): (es: seq<Event>)
    ensures es != [] && es[|es| - 1] == ReadError
    ensures forall i :: 0 <= i < |es| - 1 ==> es[i].ProcessedImage?
    ensures |es| <= |feed| + 1
  {
    if feed == [] || feed[0].Failed? then [ReadError]
    else [ProcessedImage(Process(feed[0].frame, filter))] + Emitted(feed[1..], filter)
  }

  /** What is left of the read script once the worker loop has stopped: everything
      after the first failed read. */
  function Unread(feed: seq<ReadOutcome>): (rest: seq<ReadOutcome>)
    ensures |rest| <= |feed| && rest == feed[|feed| - |rest|..]
    ensures feed != [] ==> |rest| < |feed|
  {
    if feed == [] then []
    else if feed[0].Failed? then feed[1..]
    else Unread(feed[1..])
  }

  /** The read outcomes the worker sees from a device: its script while it is
      open; a closed device fails the first read. */
  function Script(d: Device): seq<ReadOutcome> {
    if d.isOpen then d.feed else []
  }

  /** The stop request one iteration later: a pending count goes down by one. */
  function Later(stopAfter: Option<nat>): Option<nat> {
    if stopAfter.Some? && stopAfter.value > 0 then Some(stopAfter.value - 1) else stopAfter
  }

  /** The events of one run of the worker loop over a script when the control
      thread's stop() lands after `stopAfter` iterations (None: it never does). */
  function RunEvents(feed: seq<ReadOutcome>, filter: string, stopAfter: Option<nat>): seq<Event>
  {
    if stopAfter == Some(0) then []
    else if feed == [] || feed[0].Failed? then [ReadError]
    else [ProcessedImage(Process(feed[0].frame, filter))] + RunEvents(feed[1..], filter, Later(stopAfter))
  }

  /** What is left of the script once such a run has ended: all of it from the
      first unread outcome on. */
  function RunLeaves(feed: seq<ReadOutcome>, stopAfter: Option<nat>): seq<ReadOutcome>
  {
    if stopAfter == Some(0) || feed == [] then feed
    else if feed[0].Failed? then feed[1..]
    else RunLeaves(feed[1..], Later(stopAfter))
  }

  /** A run is a prefix of the loop's own events; when no stop comes it is all of
      them, and it consumes the same reads. */
  lemma {:induction false} RunIsPrefix(feed: seq<ReadOutcome>, filter: string, stopAfter: Option<nat>)
    ensures RunEvents(feed, filter, stopAfter) <= Emitted(feed, filter)
    ensures stopAfter.None? ==>
              RunEvents(feed, filter, stopAfter) == Emitted(feed, filter) &&
              RunLeaves(feed, stopAfter) == Unread(feed)
    decreases |feed|
  {
    if stopAfter != Some(0) && feed != [] && feed[0].Delivered? {
      RunIsPrefix(feed[1..], filter, Later(stopAfter));
    }
  }

  /** A run that raises no ReadError is one a stop cut off after exactly
      `stopAfter` images; a run that raises it is the loop's whole run. */
  lemma {:induction false} RunEndings(feed: seq<ReadOutcome>, filter: string, stopAfter: Option<nat>)
    ensures ReadError !in RunEvents(feed, filter, stopAfter) ==>
              stopAfter == Some(|RunEvents(feed, filter, stopAfter)|)
    ensures ReadError in RunEvents(feed, filter, stopAfter) ==>
              RunEvents(feed, filter, stopAfter) == Emitted(feed, filter)
    decreases |feed|
  {
    if stopAfter != Some(0) && feed != [] && feed[0].Delivered? {
      RunEndings(feed[1..], filter, Later(stopAfter));
      var ev := ProcessedImage(Process(feed[0].frame, filter));
      var rest := RunEvents(feed[1..], filter, Later(stopAfter));
      assert RunEvents(feed, filter, stopAfter) == [ev] + rest;
      assert ReadError in RunEvents(feed, filter, stopAfter) <==> ReadError in rest;
    }
  }

  /** What a run leaves unread is a suffix of the script. */
  lemma {:induction false} RunLeavesSuffix(feed: seq<ReadOutcome>, stopAfter: Option<nat>)
    ensures |RunLeaves(feed, stopAfter)| <= |feed|
    ensures RunLeaves(feed, stopAfter) == feed[|feed| - |RunLeaves(feed, stopAfter)|..]
    decreases |feed|
  {
    if stopAfter != Some(0) && feed != [] && feed[0].Delivered? {
      RunLeavesSuffix(feed[1..], Later(stopAfter));
      assert feed[1..][|feed| - 1 - |RunLeaves(feed, stopAfter)|..] == feed[|feed| - |RunLeaves(feed, stopAfter)|..];
    }
  }

  /** The read outcomes of a run of delivered frames. */
  function Deliveries(frames: seq<Frame>): seq<ReadOutcome>
  {
    seq(|frames|, i requires 0 <= i < |frames| => Delivered(frames[i]))
  }

  /** The processed-image events for a run of frames. */
  function Images(frames: seq<Frame>, filter: string): seq<Event>
  {
    seq(|frames|, i requires 0 <= i < |frames| => ProcessedImage(Process(frames[i], filter)))
  }

  /** Delivered frames at the head of the script each yield exactly one processed
      image, in order, and consume exactly their own read. */
  lemma {:induction false} EmittedPrefix(frames: seq<Frame>, rest: seq<ReadOutcome>, filter: string)
    ensures Emitted(Deliveries(frames) + rest, filter) == Images(frames, filter) + Emitted(rest, filter)
    ensures Unread(Deliveries(frames) + rest) == Unread(rest)
  {
    if frames != [] {
      var feed := Deliveries(frames) + rest;
      assert feed[0] == Delivered(frames[0]);
      assert feed[1..] == Deliveries(frames[1..]) + rest;
      EmittedPrefix(frames[1..], rest, filter);
      assert Images(frames, filter) == [ProcessedImage(Process(frames[0], filter))] + Images(frames[1..], filter);
    } else {
      assert Deliveries(frames) + rest == rest;
      assert Images(frames, filter) == [];
    }
  }

  /** A script of k delivered frames followed by a failed read makes the loop emit
      exactly the k processed images, then one ReadError, and leaves the reads after
      the failure untouched. */
  lemma ScriptedFailure(frames: seq<Frame>, tail: seq<ReadOutcome>, filter: string)
    ensures Emitted(Deliveries(frames) + [Failed] + tail, filter) == Images(frames, filter) + [ReadError]
    ensures Unread(Deliveries(frames) + [Failed] + tail) == tail
  {
    assert Deliveries(frames) + [Failed] + tail == Deliveries(frames) + ([Failed] + tail);
    EmittedPrefix(frames, [Failed] + tail, filter);
    assert ([Failed] + tail)[1..] == tail;
  }

  /** One iteration over a delivered frame with no stop due: one processed image,
      then the run over the rest of the script, one iteration closer to the stop. */
  lemma RunStep(feed: seq<ReadOutcome>, filter: string, stopAfter: Option<nat>)
    requires feed != [] && feed[0].Delivered? && stopAfter != Some(0)
    ensures RunEvents(feed, filter, stopAfter) ==
              [ProcessedImage(Process(feed[0].frame, filter))] + RunEvents(feed[1..], filter, Later(stopAfter))
    ensures RunLeaves(feed, stopAfter) == RunLeaves(feed[1..], Later(stopAfter))
  {
  }

  /** A stop that lands after k iterations, while the script still delivers
      frames, leaves exactly the k processed images and no ReadError, and leaves
      every read after those k untouched. */
  lemma {:induction false} StopAfterFrames(frames: seq<Frame>, rest: seq<ReadOutcome>, filter: string)
    ensures RunEvents(Deliveries(frames) + rest, filter, Some(|frames|)) == Images(frames, filter)
    ensures RunLeaves(Deliveries(frames) + rest, Some(|frames|)) == rest
  {
    var feed := Deliveries(frames) + rest;
    if frames != [] {
      assert feed[0] == Delivered(frames[0]);
      assert feed[1..] == Deliveries(frames[1..]) + rest;
      StopAfterFrames(frames[1..], rest, filter);
      assert Images(frames, filter) == [ProcessedImage(Process(frames[0], filter))] + Images(frames[1..], filter);
    } else {
      assert feed == rest;
      assert Images(frames, filter) == [];
    }
  }

  /** A script that runs out after k delivered frames behaves like one that fails
      there: k processed images, then ReadError, and nothing left to read. */
  lemma ScriptExhausted(frames: seq<Frame>, filter: string)
    ensures Emitted(Deliveries(frames), filter) == Images(frames, filter) + [ReadError]
    ensures Unread(Deliveries(frames)) == []
  {
    assert Deliveries(frames) + [] == Deliveries(frames);
    EmittedPrefix(frames, [], filter);
  }

  // ---------------------------------------------------------------------------
  // The resolution attempt, as a function of the device state

  /** What useMaxResolution does to the capture handle, and what it returns. A
      closed device is left alone and the answer is false. Otherwise both the width
      and the height request for 7680x4320 are issued, whatever the first answer;
      the answer is true exactly when both are accepted; and on refusal the initial
      width and height are requested again, each of which takes effect when accepted. */
  function MaxResolution(d: Device): (r: (bool, Device))
    ensures !d.isOpen ==> r == (false, d)
    ensures r.0 <==> d.isOpen && Accepts(d.replies, 0) && Accepts(d.replies, 1)
    ensures d.isOpen ==>
              r.1.requests == d.requests
                              + [Request(FrameWidth, MaxWidth), Request(FrameHeight, MaxHeight)]
                              + (if r.0 then [] else [Request(FrameWidth, d.width), Request(FrameHeight, d.height)])
    ensures r.0 ==> r.1.width == MaxWidth && r.1.height == MaxHeight
    ensures d.isOpen && !r.0 ==>
              r.1.width == (if Accepts(d.replies, 0) && !Accepts(d.replies, 2) then MaxWidth else d.width)
    ensures d.isOpen && !r.0 ==>
              r.1.height == (if Accepts(d.replies, 1) && !Accepts(d.replies, 3) then MaxHeight else d.height)
    ensures r.1.isOpen == d.isOpen && r.1.cameras == d.cameras && r.1.feed == d.feed
  {
    if !d.isOpen then (false, d)
    else
      var (w, d1) := SetProp(d, FrameWidth, MaxWidth);
      var (h, d2) := SetProp(d1, FrameHeight, MaxHeight);
      if w && h then (true, d2)
      else
        var (_, d3) := SetProp(d2, FrameWidth, d.width);
        var (_, d4) := SetProp(d3, FrameHeight, d.height);
        (false, d4)
  }

  // ---------------------------------------------------------------------------
  // The player object

  class WebcamPlayer {
    /** The cooperative stop flag the worker loop tests. */
    var stopped: bool
    /** Whether the worker thread is running (QThread::isRunning). */
    var running: bool
    var brightness: real
    var contrast: real
    var filter: string
    /** The capture handle, a member value of the player. */
    var capture: Device
    /** The signals emitted so far, in order. */
    var events: seq<Event>

    /** Every stored setting holds a legal value; the filter may still be the
        empty string it starts with. */
    ghost predicate Valid()
      reads this
    {
      -255.0 <= brightness <= 255.0 && contrast > 0.0 && (filter == "" || LegalFilter(filter))
    }

    constructor (hw: Hardware)
      ensures Valid()
      ensures stopped && !running
      ensures brightness == 0.0 && contrast == 1.0 && filter == ""
      ensures capture == Closed(hw) && events == []
    {
      stopped := true;
      running := false;
      brightness := 0.0;
      contrast := 1.0;
      filter := "";
      capture := Closed(hw);
      events := [];
    }

    /** Releases whatever device is open, then opens the camera with the given
        index; the answer is whether it is now open. */
    method Open(index: int) returns (ok: bool)
      modifies this`stopped, this`capture
      ensures capture == OpenDevice(ReleaseDevice(old(capture)), index)
      ensures ok == capture.isOpen
      ensures ok <==> index in old(capture.cameras)
      ensures stopped == (old(stopped) || old(capture.isOpen))
    {
      Release();
      capture := OpenDevice(capture, index);
      ok := capture.isOpen;
    }

    /** Starts the worker unless it is already running: clears the stop flag,
        attempts the maximum resolution, and marks the worker running. */
    method Play()
      modifies this`stopped, this`running, this`capture
      ensures running
      ensures old(running) ==> stopped == old(stopped) && capture == old(capture)
      ensures !old(running) ==> !stopped && capture == MaxResolution(old(capture)).1
    {
      if !running {
        if IsStopped() {
          stopped := false;
        }
        var _ := UseMaxResolution();
        running := true;
      }
    }

    /** The worker thread's body, run to completion. Each iteration reads a frame,
        then processes and emits it; a failed read raises the stop flag and
        ReadError and ends the loop. `stopAfter` is when the control thread's
        stop() lands: after that many completed iterations, seen at the next test
        of the flag (None: it never does). The thread has finished afterwards. */
    method Run(stopAfter: Option<nat>)
      requires running
      modifies this`stopped, this`running, this`capture, this`events
      ensures stopped && !running
      ensures old(stopped) ==> capture == old(capture) && events == old(events)
      ensures !old(stopped) ==> events == old(events) + RunEvents(Script(old(capture)), filter, stopAfter)
      ensures !old(stopped) && old(capture.isOpen) ==>
                capture == old(capture).(feed := RunLeaves(old(capture.feed), stopAfter))
      ensures !old(capture.isOpen) ==> capture == old(capture)
    {
      var pending := stopAfter;
      ghost var wholeRun := events + RunEvents(Script(capture), filter, stopAfter);
      ghost var leftOver := RunLeaves(capture.feed, stopAfter);
      while !stopped
        invariant capture.(feed := old(capture.feed)) == old(capture)
        invariant stopped <==> old(stopped)
        invariant stopped ==> capture == old(capture) && events == old(events)
        invariant !stopped ==> wholeRun == events + RunEvents(Script(capture), filter, pending)
        invariant !stopped && capture.isOpen ==> leftOver == RunLeaves(capture.feed, pending)
        invariant !capture.isOpen ==> capture == old(capture)
        decreases |capture.feed|
      {
        if pending == Some(0) {
          // The control thread's stop() lands before this read.
          Stop();
          break;
        }
        ghost var before := capture;
        var (outcome, next) := ReadFrame(capture);
        capture := next;
        if outcome.Failed? {
          assert RunEvents(Script(before), filter, pending) == [ReadError];
          Stop();
          events := events + [ReadError];
          break;
        }
        var ev := ProcessedImage(Process(outcome.frame, filter));
        RunStep(before.feed, filter, pending);
        events := events + [ev];
        pending := Later(pending);
      }
      running := false;
    }

    /** Whether the stop flag is raised. */
    function IsStopped(): (s: bool)
      reads this
      ensures s == stopped
    {
      stopped
    }

    /** Closes an open device and sets the stop flag; on a closed device it does
        nothing, so a second call never changes anything. */
    method Release()
      modifies this`stopped, this`capture
      ensures !capture.isOpen
      ensures old(capture.isOpen) ==> stopped && capture == ReleaseDevice(old(capture))
      ensures !old(capture.isOpen) ==> stopped == old(stopped) && capture == old(capture)
    {
      if capture.isOpen {
        Stop();
        capture := ReleaseDevice(capture);
      }
    }

    method Stop()
      modifies this`stopped
      ensures stopped
    {
      stopped := true;
    }

    method UseMaxResolution() returns (ok: bool)
      modifies this`capture
      ensures (ok, capture) == MaxResolution(old(capture))
    {
      if !capture.isOpen {
        return false;
      }
      var initWidth := capture.Get(FrameWidth);
      var initHeight := capture.Get(FrameHeight);
      // Both requests are issued: useMaxResolution combines them with a non-short-circuit `&`.
      var (widthSet, afterWidth) := SetProp(capture, FrameWidth, MaxWidth);
      capture := afterWidth;
      var (heightSet, afterHeight) := SetProp(capture, FrameHeight, MaxHeight);
      capture := afterHeight;
      ok := widthSet && heightSet;
      if !ok {
        capture := SetProp(capture, FrameWidth, initWidth).1;
        capture := SetProp(capture, FrameHeight, initHeight).1;
      }
    }

    method SetBrightness(b: real)
      requires Valid()
      modifies this`brightness
      ensures Valid() && brightness == ClampBrightness(b)
      ensures b == old(GetBrightness()) ==> brightness == old(brightness)
    {
      if b > 255.0 {
        brightness := 255.0;
      } else if b < -255.0 {
        brightness := -255.0;
      } else {
        brightness := b;
      }
    }

    method SetContrast(a: real)
      requires Valid()
      modifies this`contrast
      ensures Valid() && contrast == FloorContrast(a)
      ensures a == old(GetContrast()) ==> contrast == old(contrast)
    {
      if a <= 0.0 {
        contrast := 0.001;
      } else {
        contrast := a;
      }
    }

    method SetFilter(f: string)
      requires Valid()
      modifies this`filter
      ensures Valid() && filter == NormaliseFilter(f)
      ensures f == old(GetFilter()) && old(filter) != "" ==> filter == old(filter)
      ensures f == old(GetFilter()) && old(filter) == "" ==> filter == NoFilter
    {
      if f == BlackAndWhite || f == Greyscale {
        filter := f;
      } else {
        filter := NoFilter;
      }
    }

    function GetContrast(): (a: real)
      reads this
      ensures Valid() ==> a > 0.0
      ensures a == contrast
    {
      contrast
    }

    function GetBrightness(): (b: real)
      reads this
      ensures Valid() ==> -255.0 <= b <= 255.0
      ensures b == brightness
    {
      brightness
    }

    function GetFilter(): (f: string)
      reads this
      ensures Valid() ==> f == "" || LegalFilter(f)
      ensures f == filter
    {
      filter
    }
  }
}
