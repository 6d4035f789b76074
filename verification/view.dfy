/** The webcam view: a three-valued display mode coupled to the player it owns,
    and the bookkeeping of the image it shows. */
module View {
  import opened Media
  import opened Capture
  import opened Player

  datatype Mode = Preview | Snapshot | Error

  /** The mode a view starts in when none is given. webcamview.h and
      webcamview.cpp do not define its value, so the model leaves it open. */
  const DefaultMode: Mode

  datatype Rect = Rect(x: int, y: int, width: int, height: int)

  /** A pixmap item in the scene: the image it was made from and the viewport size
      it was scaled to (the scaling itself is not modelled). */
  datatype PixmapItem = PixmapItem(source: Image, scaledTo: Size)

  class WebcamView {
    var mode: Mode
    const player: WebcamPlayer
    /** The last image delivered to the view. */
    var image: Image
    /** The item the scene shows, if one was ever delivered. */
    var imageItem: Option<PixmapItem>
    var sceneRect: Rect
    /** The widget's size, as the layout last set it. */
    var viewport: Size

    /** A view in the given mode over a fresh player: in Snapshot it shows the
        placeholder image, in Preview it starts the player, in Error it does neither. */
    constructor (mode: Mode, hw: Hardware, placeholder: Image, viewport: Size)
      ensures this.mode == mode && this.viewport == viewport
      ensures fresh(player) && player.Valid()
      ensures player.brightness == 0.0 && player.contrast == 1.0 && player.filter == ""
      ensures player.capture == Closed(hw) && player.events == []
      ensures player.running <==> mode == Preview
      ensures player.stopped <==> mode != Preview
      ensures mode == Snapshot ==>
                image == placeholder && imageItem == Some(PixmapItem(placeholder, viewport)) &&
                sceneRect == Rect(0, 0, placeholder.Width(), placeholder.Height())
      ensures mode != Snapshot ==>
                image == NullImage && imageItem == None && sceneRect == Rect(0, 0, 0, 0)
    {
      this.mode := mode;
      player := new WebcamPlayer(hw);
      image := NullImage;
      imageItem := None;
      sceneRect := Rect(0, 0, 0, 0);
      this.viewport := viewport;
      new;
      Start(placeholder);
    }

    /** A view in the default mode. */
    constructor WithDefaultMode(hw: Hardware, placeholder: Image, viewport: Size)
      ensures this.mode == DefaultMode && this.viewport == viewport
      ensures fresh(player) && player.Valid()
      ensures player.brightness == 0.0 && player.contrast == 1.0 && player.filter == ""
      ensures player.capture == Closed(hw) && player.events == []
      ensures player.running <==> DefaultMode == Preview
      ensures player.stopped <==> DefaultMode != Preview
      ensures DefaultMode == Snapshot ==>
                image == placeholder && imageItem == Some(PixmapItem(placeholder, viewport)) &&
                sceneRect == Rect(0, 0, placeholder.Width(), placeholder.Height())
      ensures DefaultMode != Snapshot ==>
                image == NullImage && imageItem == None && sceneRect == Rect(0, 0, 0, 0)
    {
      this.mode := DefaultMode;
      player := new WebcamPlayer(hw);
      image := NullImage;
      imageItem := None;
      sceneRect := Rect(0, 0, 0, 0);
      this.viewport := viewport;
      new;
      Start(placeholder);
    }

    /** The mode-dependent tail of the view's initialisation, on a player that has
        just been constructed. */
    method Start(placeholder: Image)
      requires !player.running
      modifies this`image, this`imageItem, this`sceneRect, player`stopped, player`running, player`capture
      ensures mode == Snapshot ==>
                image == placeholder && imageItem == Some(PixmapItem(placeholder, viewport)) &&
                sceneRect == Rect(0, 0, placeholder.Width(), placeholder.Height())
      ensures mode != Snapshot ==>
                image == old(image) && imageItem == old(imageItem) && sceneRect == old(sceneRect)
      ensures mode == Preview ==>
                player.running && !player.stopped && player.capture == MaxResolution(old(player.capture)).1
      ensures mode != Preview ==>
                player.running == old(player.running) && player.stopped == old(player.stopped) &&
                player.capture == old(player.capture)
    {
      if mode == Snapshot {
        UpdateImage(placeholder);
      } else if mode == Preview {
        player.Play();
      }
    }

    /** Makes the view show an image: it becomes the stored image, the scene item is
        rebuilt from it at the current viewport size, and the scene rectangle is set
        to exactly its size. */
    method UpdateImage(img: Image)
      modifies this`image, this`imageItem, this`sceneRect
      ensures image == img
      ensures imageItem == Some(PixmapItem(img, viewport))
      ensures sceneRect == Rect(0, 0, img.Width(), img.Height())
    {
      image := img;
      imageItem := Some(PixmapItem(img, viewport));
      sceneRect := Rect(0, 0, img.Width(), img.Height());
    }

    /** Re-delivers the stored image at the current viewport size, when there is one. */
    method Resize()
      modifies this`imageItem, this`sceneRect, this`image
      ensures image == old(image)
      ensures old(image).IsNull() ==> imageItem == old(imageItem) && sceneRect == old(sceneRect)
      ensures !old(image).IsNull() ==>
                imageItem == Some(PixmapItem(image, viewport)) && sceneRect == Rect(0, 0, image.Width(), image.Height())
    {
      if !image.IsNull() {
        UpdateImage(image);
      }
    }

    /** Only the mode changes; the player is left alone. */
    method SetMode(m: Mode)
      modifies this`mode
      ensures mode == m && GetMode() == m
    {
      mode := m;
    }

    /** The mode last assigned, by construction or by SetMode. */
    function GetMode(): (m: Mode)
      reads this
      ensures m == mode
    {
      mode
    }

    /** Switches to the live preview and starts the player. */
    method PlayVideo()
      modifies this`mode, player`stopped, player`running, player`capture
      ensures mode == Preview && player.running
      ensures old(player.running) ==> player.stopped == old(player.stopped) && player.capture == old(player.capture)
      ensures !old(player.running) ==> !player.stopped && player.capture == MaxResolution(old(player.capture)).1
    {
      SetMode(Preview);
      player.Play();
    }

    /** Switches to the snapshot and raises the player's stop flag. */
    method StopVideo()
      modifies this`mode, player`stopped
      ensures mode == Snapshot && player.stopped
    {
      SetMode(Snapshot);
      player.Stop();
    }
  }
}
