/** A value stand-in for OpenCV's VideoCapture as the player uses it. The hardware
    behind the handle is a script: which camera indices can be opened, how the
    device answers successive property requests, and what successive reads yield.
    Every property request is also logged, so that a caller's contract can say
    which requests it issued. */
module Capture {
  import opened Media

  datatype Prop = FrameWidth | FrameHeight

  /** A `set` request for a capture property. */
  datatype Request = Request(prop: Prop, value: int)

  /** What one `read` call yields. */
  datatype ReadOutcome = Delivered(frame: Frame) | Failed

  /** The camera hardware a capture object talks to. */
  datatype Hardware = Hardware(cameras: set<int>, width: int, height: int,
                               replies: seq<bool>, feed: seq<ReadOutcome>)

  /** The state of a capture handle: whether it is open, its current resolution,
      the rest of the hardware script, and the log of property requests. */
  datatype Device = Device(isOpen: bool, width: int, height: int, cameras: set<int>,
                           replies: seq<bool>, feed: seq<ReadOutcome>,
                           requests: seq<Request>)
  {
    /** VideoCapture::get for the two frame-size properties */
    function Get(p: Prop): int { if p == FrameWidth then width else height }
  }

  /** A default-constructed VideoCapture over the given hardware: not open, no requests yet. */
  function Closed(hw: Hardware): Device
  {
    Device(false, hw.width, hw.height, hw.cameras, hw.replies, hw.feed, [])
  }

  /** VideoCapture::open(int): succeeds exactly for an index the hardware offers. */
  function OpenDevice(d: Device, index: int): Device
  {
    d.(isOpen := index in d.cameras)
  }

  /** VideoCapture::release */
  function ReleaseDevice(d: Device): Device
  {
    d.(isOpen := false)
  }

  /** Whether the i-th reply still to come accepts its request. */
  predicate Accepts(replies: seq<bool>, i: nat) {
    i < |replies| && replies[i]
  }

  /** VideoCapture::set: logged always; answered by the next scripted reply when the
      device is open (a closed device, or one whose script is exhausted, refuses);
      an accepted request takes effect. */
  function SetProp(d: Device, p: Prop, v: int): (r: (bool, Device))
    ensures r.1.requests == d.requests + [Request(p, v)]
    ensures r.0 <==> d.isOpen && Accepts(d.replies, 0)
    ensures r.1.Get(p) == (if r.0 then v else d.Get(p))
    ensures p == FrameWidth ==> r.1.height == d.height
    ensures p == FrameHeight ==> r.1.width == d.width
    ensures r.1.replies == (if d.isOpen && d.replies != [] then d.replies[1..] else d.replies)
    ensures r.1.isOpen == d.isOpen && r.1.cameras == d.cameras && r.1.feed == d.feed
  {
    var logged := d.(requests := d.requests + [Request(p, v)]);
    if !d.isOpen || d.replies == [] then (false, logged)
    else
      var answered := logged.(replies := d.replies[1..]);
      if !d.replies[0] then (false, answered)
      else if p == FrameWidth then (true, answered.(width := v))
      else (true, answered.(height := v))
  }

  /** VideoCapture::read: the next scripted outcome when the device is open; a closed
      device, or one whose script is exhausted, fails without consuming anything.
      A read consumes at most one outcome, from the front of the script, and
      changes nothing else about the handle; a frame is only ever delivered by an
      open device, and it is the one the script had next. */
  function ReadFrame(d: Device): (r: (ReadOutcome, Device))
    ensures r.1 == d.(feed := r.1.feed)
    ensures r.1.feed == d.feed || (d.feed != [] && r.1.feed == d.feed[1..])
    ensures r.0.Delivered? ==> d.isOpen && d.feed != [] && r.0 == d.feed[0] && r.1.feed == d.feed[1..]
    ensures !d.isOpen ==> r == (Failed, d)
  {
    if !d.isOpen || d.feed == [] then (Failed, d)
    else (d.feed[0], d.(feed := d.feed[1..]))
  }
}
