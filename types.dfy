/**
 * The records of the slideshow: images, galleries and the per-gallery
 * settings, with the two enumerations of transition and easing kinds.
 */
module SlideTypes {

  datatype Option<T> = None | Some(value: T)

  /** The transition kinds a gallery can play with. */
  datatype TransitionType = Slide | Fade | Zoom | Flip | SlideUp

  /** The easing curves of a transition. */
  datatype EaseType = Linear | EaseInOut | CircOut | BackInOut | Spring

  /** How an image is fitted into the viewer. */
  datatype ObjectFit = Contain | Cover

  /** The raw payload of an image, owned by the image; opaque to the model. */
  datatype Blob = Blob(bytes: seq<bv8>)

  /** The display handle (an object URL) derived from a payload; opaque to the model. */
  datatype Handle = Handle(url: string)

  /** One slide. `duration` is in seconds. */
  datatype SlideImage = SlideImage(
    id: string,
    blob: Blob,
    preview: Handle,
    duration: real,
    caption: string,
    filter: string)

  /** The playback and display settings of one gallery. */
  datatype Settings = Settings(
    globalTransitionType: TransitionType,
    globalEase: EaseType,
    objectFit: ObjectFit,
    bgBlur: int,
    loop: bool,
    autoplay: bool)

  /** A named gallery; the order of `images` is the playback order. */
  datatype Gallery = Gallery(
    id: string,
    name: string,
    images: seq<SlideImage>,
    settings: Settings)

  /** The ids of a list of images, in list order. */
  function ImageIds(images: seq<SlideImage>): (ids: seq<string>)
    ensures |ids| == |images|
    ensures forall i :: 0 <= i < |images| ==> ids[i] == images[i].id
  {
    seq(|images|, i requires 0 <= i < |images| => images[i].id)
  }

  /** The ids of a list of galleries, in list order. */
  function GalleryIds(galleries: seq<Gallery>): (ids: seq<string>)
    ensures |ids| == |galleries|
    ensures forall i :: 0 <= i < |galleries| ==> ids[i] == galleries[i].id
  {
    seq(|galleries|, i requires 0 <= i < |galleries| => galleries[i].id)
  }

  /** No id occurs twice in `ids` (what freshly generated ids give). */
  ghost predicate Distinct(ids: seq<string>)
  {
    forall i, j :: 0 <= i < j < |ids| ==> ids[i] != ids[j]
  }
}
