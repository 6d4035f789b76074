/** The main window's share of the logic: the mode button's look as a function of
    the view's mode, the Preview/Snapshot toggle, and the zoom slider's range. */
module Window {
  import opened Media
  import opened Capture
  import opened View

  // ---------------------------------------------------------------------------
  // Mode toggle and mode button

  /** The toggle behind the mode button: Preview and Snapshot trade places and
      Error stays as it is. */
  function SwitchMode(m: Mode): (r: Mode)
    ensures r == Error <==> m == Error
    ensures m != Error ==> r != m
  {
    match m
    case Snapshot => Preview
    case Preview => Snapshot
    case Error => Error
  }

  /** Toggling twice gets back to where one started. */
  lemma SwitchModeTwice(m: Mode)
    ensures SwitchMode(SwitchMode(m)) == m
  {
  }

  /** The three tooltips of the mode button (their text is not part of this model). */
  datatype Tooltip = PreviewTooltip | SnapshotTooltip | ErrorTooltip

  /** What the mode button shows and whether it can be pressed. */
  datatype ModeButton = ModeButton(tooltip: Tooltip, icon: string, enabled: bool)

  /** The mode button for a mode: enabled exactly outside Error, with the tooltip
      of that mode, and an icon of what pressing it switches to. */
  function ModeButtonFor(m: Mode): (b: ModeButton)
    ensures b.enabled <==> m != Error
    ensures b.tooltip.PreviewTooltip? <==> m == Preview
    ensures b.tooltip.SnapshotTooltip? <==> m == Snapshot
    ensures b.tooltip.ErrorTooltip? <==> m == Error
  {
    match m
    case Preview => ModeButton(PreviewTooltip, ":/media/icons/image.png", true)
    case Snapshot => ModeButton(SnapshotTooltip, ":/media/icons/videocam.png", true)
    case Error => ModeButton(ErrorTooltip, ":/media/icons/videocam-off.png", false)
  }

  /** The button can be pressed exactly when pressing it changes the mode. */
  lemma EnabledExactlyWhenSwitchable(m: Mode)
    ensures ModeButtonFor(m).enabled <==> SwitchMode(m) != m
  {
  }

  // ---------------------------------------------------------------------------
  // The zoom slider, with QAbstractSlider's range rules

  /** A QSlider's state: its range, value, steps, tick interval and flags. */
  datatype Slider = Slider(minimum: int, maximum: int, value: int, singleStep: int,
                           pageStep: int, tickInterval: int, ticksBothSides: bool,
                           tracking: bool)
  {
    ghost predicate Valid() {
      minimum <= maximum && minimum <= value <= maximum && tickInterval >= 0 &&
      singleStep >= 0 && pageStep >= 0
    }
  }

  function Min(a: int, b: int): int { if a <= b then a else b }
  function Max(a: int, b: int): int { if a <= b then b else a }

  /** A freshly constructed QSlider. */
  function NewSlider(): (s: Slider)
    ensures s.Valid()
  {
    Slider(0, 99, 0, 1, 10, 0, false, true)
  }

  /** QAbstractSlider::setRange: the maximum is raised to the minimum if need be,
      and the value is brought back into the range. */
  function SetRange(s: Slider, lo: int, hi: int): (r: Slider)
    requires s.Valid()
    ensures r.Valid()
    ensures r.minimum == lo && r.maximum == Max(lo, hi)
    ensures s.minimum <= s.value <= s.maximum && r.minimum <= s.value <= r.maximum ==> r.value == s.value
    ensures r.(minimum := s.minimum, maximum := s.maximum, value := s.value) == s
  {
    var top := Max(lo, hi);
    s.(minimum := lo, maximum := top, value := Max(lo, Min(s.value, top)))
  }

  /** QAbstractSlider::setMinimum: the maximum follows when it would fall below. */
  function SetMinimum(s: Slider, lo: int): (r: Slider)
    requires s.Valid()
    ensures r.Valid() && r.minimum == lo && r.maximum == Max(lo, s.maximum)
  {
    SetRange(s, lo, Max(s.maximum, lo))
  }

  /** QAbstractSlider::setMaximum: the minimum follows when it would rise above. */
  function SetMaximum(s: Slider, hi: int): (r: Slider)
    requires s.Valid()
    ensures r.Valid() && r.maximum == hi && r.minimum == Min(s.minimum, hi)
    ensures r.(minimum := s.minimum, maximum := s.maximum, value := s.value) == s
  {
    SetRange(s, Min(s.minimum, hi), hi)
  }

  /** QSlider::setTickInterval, which keeps the interval non-negative. */
  function SetTickInterval(s: Slider, t: int): (r: Slider)
    requires s.Valid()
    ensures r.Valid() && r.tickInterval == Max(0, t)
  {
    s.(tickInterval := Max(0, t))
  }

  /** QAbstractSlider::setSingleStep, which stores the step's magnitude. */
  function SetSingleStep(s: Slider, step: int): (r: Slider)
    requires s.Valid()
    ensures r.Valid() && r.singleStep == (if step < 0 then -step else step)
  {
    s.(singleStep := if step < 0 then -step else step)
  }

  /** QAbstractSlider::setPageStep, which stores the step's magnitude. */
  function SetPageStep(s: Slider, step: int): (r: Slider)
    requires s.Valid()
    ensures r.Valid() && r.pageStep == (if step < 0 then -step else step)
  {
    s.(pageStep := if step < 0 then -step else step)
  }

  /** QAbstractSlider::setSliderPosition with tracking on: the value moves to the
      position, bounded by the range. */
  function SetSliderPosition(s: Slider, p: int): (r: Slider)
    requires s.Valid()
    ensures r.Valid() && (s.minimum <= p <= s.maximum ==> r.value == p)
  {
    s.(value := Max(s.minimum, Min(p, s.maximum)))
  }

  /** The settings key of the stored maximum zoom factor. */
  const MaxZoomKey: string := "image/maxZoom"

  // ---------------------------------------------------------------------------
  // The window

  class MainWindow {
    const view: WebcamView
    var modeButton: ModeButton
    var zoomSlider: Slider

    ghost predicate Valid()
      reads this
    {
      zoomSlider.Valid()
    }

    /** The window over a view in its default mode, with its buttons laid out. */
    constructor (hw: Hardware, placeholder: Image, viewport: Size, settings: map<string, int>)
      ensures Valid() && fresh(view) && fresh(view.player)
      ensures view.mode == DefaultMode && view.viewport == viewport
      ensures modeButton == ModeButtonFor(DefaultMode)
      ensures MaxZoomKey in settings ==> zoomSlider.maximum == 100 * settings[MaxZoomKey]
      ensures MaxZoomKey !in settings ==>
                zoomSlider.minimum == 0 && zoomSlider.maximum == 500 &&
                zoomSlider.tickInterval == zoomSlider.pageStep == 50
      ensures MaxZoomKey in settings && settings[MaxZoomKey] >= 0 ==>
                zoomSlider.minimum == 0 &&
                zoomSlider.tickInterval == zoomSlider.pageStep == 10 * settings[MaxZoomKey]
      ensures zoomSlider.value == zoomSlider.minimum
    {
      view := new WebcamView.WithDefaultMode(hw, placeholder, viewport);
      modeButton := ModeButtonFor(DefaultMode);
      zoomSlider := NewSlider();
      new;
      CreateButtonLayout(settings);
    }

    /** The logic of the button column's construction: the mode button is given the
        look of the current mode, and the zoom slider runs from 0 to a hundred steps
        per stored zoom factor (500 when none is stored), with ticks and page steps
        of a tenth of the range, starting at its minimum. A negative factor pulls the
        minimum down with the maximum and leaves an empty range. */
    method CreateButtonLayout(settings: map<string, int>)
      modifies this`modeButton, this`zoomSlider
      ensures Valid()
      ensures modeButton == ModeButtonFor(view.mode)
      ensures MaxZoomKey in settings ==> zoomSlider.maximum == 100 * settings[MaxZoomKey]
      ensures MaxZoomKey !in settings ==>
                zoomSlider.minimum == 0 && zoomSlider.maximum == 500 &&
                zoomSlider.tickInterval == zoomSlider.pageStep == 50
      ensures MaxZoomKey in settings && settings[MaxZoomKey] >= 0 ==>
                zoomSlider.minimum == 0 &&
                zoomSlider.tickInterval == zoomSlider.pageStep == 10 * settings[MaxZoomKey]
      ensures MaxZoomKey in settings && settings[MaxZoomKey] < 0 ==>
                zoomSlider.minimum == zoomSlider.maximum &&
                zoomSlider.tickInterval == zoomSlider.pageStep == 0
      ensures zoomSlider.value == zoomSlider.minimum
      ensures zoomSlider.singleStep == 1 && zoomSlider.ticksBothSides && zoomSlider.tracking
    {
      zoomSlider := NewSlider();
      UpdateWebcamMode();
      zoomSlider := zoomSlider.(ticksBothSides := true);
      zoomSlider := SetMinimum(zoomSlider, 0);
      var maxZoom := if MaxZoomKey in settings then settings[MaxZoomKey] * 100 else 500;
      zoomSlider := SetMaximum(zoomSlider, maxZoom);
      // The range is never negative, so C++'s truncating division agrees with Dafny's.
      zoomSlider := SetTickInterval(zoomSlider, (zoomSlider.maximum - zoomSlider.minimum) / 10);
      zoomSlider := SetSingleStep(zoomSlider, 1);
      zoomSlider := SetPageStep(zoomSlider, (zoomSlider.maximum - zoomSlider.minimum) / 10);
      zoomSlider := SetSliderPosition(zoomSlider, zoomSlider.minimum);
      zoomSlider := zoomSlider.(tracking := true);
    }

    /** Gives the mode button the look of the view's current mode; it is enabled
        exactly when that mode is not Error. */
    method UpdateWebcamMode()
      modifies this`modeButton
      ensures modeButton == ModeButtonFor(view.mode)
      ensures modeButton.enabled <==> view.mode != Error
    {
      modeButton := ModeButtonFor(view.GetMode());
    }

    /** Toggles the view between Preview and Snapshot through its plain mode
        setter; Error is left as it is, and nothing else changes. */
    method SwitchWebcamMode()
      modifies view`mode
      ensures view.mode == SwitchMode(old(view.mode))
    {
      match view.GetMode()
      case Snapshot =>
        view.SetMode(Preview);
      case Preview =>
        view.SetMode(Snapshot);
      case Error =>
    }

    /** Applies accepted settings: a stored zoom factor resets the slider's maximum
        to a hundred steps per factor; without one the slider is left unchanged. */
    method ChangeSettings(settings: map<string, int>)
      requires Valid()
      modifies this`zoomSlider
      ensures Valid()
      ensures MaxZoomKey in settings ==>
                zoomSlider == SetMaximum(old(zoomSlider), 100 * settings[MaxZoomKey]) &&
                zoomSlider.maximum == 100 * settings[MaxZoomKey]
      ensures MaxZoomKey !in settings ==> zoomSlider == old(zoomSlider)
    {
      if MaxZoomKey in settings {
        zoomSlider := SetMaximum(zoomSlider, 100 * settings[MaxZoomKey]);
      }
    }

    /** A window resize: the layout gives the view its new size, then the view
        re-delivers its image. */
    method ResizeEvent(size: Size)
      modifies view`viewport, view`imageItem, view`sceneRect, view`image
      ensures view.viewport == size && view.image == old(view.image)
      ensures !view.image.IsNull() ==>
                view.imageItem == Some(PixmapItem(view.image, size)) &&
                view.sceneRect == Rect(0, 0, view.image.Width(), view.image.Height())
      ensures view.image.IsNull() ==>
                view.imageItem == old(view.imageItem) && view.sceneRect == old(view.sceneRect)
    {
      view.viewport := size;
      view.Resize();
    }
  }
}
