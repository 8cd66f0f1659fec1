/**
 * Which pictures the teaser is built from: the uploaded images in upload order, or,
 * when nothing was uploaded, the bundled placeholder, or a solid brand-colour canvas.
 */
module Sources {
  import opened Wrappers
  import opened Geometry

  /** One source picture of the teaser. */
  datatype SourceImage =
    | Upload(position: nat, size: ImageSize)     // the uploaded file at this position
    | Placeholder(size: ImageSize)               // the bundled placeholder picture
    | SolidFill(color: string, size: ImageSize)  // a picture filled with the brand colour

  /** The sizes of a list of pictures, in order. */
  function Sizes(images: seq<SourceImage>): (sizes: seq<ImageSize>)
    ensures |sizes| == |images|
    ensures forall i :: 0 <= i < |images| ==> sizes[i] == images[i].size
  {
    seq(|images|, i requires 0 <= i < |images| => images[i].size)
  }

  /** The pictures the handler works on. Never empty: uploads win, keeping their order and
      number; without uploads there is exactly one picture, the placeholder when it exists,
      otherwise a canvas-sized picture in the brand colour. */
  function ImageSources(uploads: seq<ImageSize>, placeholder: Option<ImageSize>, brandColor: string)
    : (images: seq<SourceImage>)
    ensures |images| >= 1
    ensures uploads != [] ==> Sizes(images) == uploads
    ensures uploads != [] ==> forall i :: 0 <= i < |images| ==> images[i].Upload? && images[i].position == i
    ensures uploads == [] ==> |images| == 1
    ensures uploads == [] && placeholder.Some? ==> images[0] == Placeholder(placeholder.value)
    ensures uploads == [] && placeholder.None? ==> images[0] == SolidFill(brandColor, Canvas)
  {
    if uploads != [] then
      seq(|uploads|, i requires 0 <= i < |uploads| => Upload(i, uploads[i]))
    else if placeholder.Some? then
      [Placeholder(placeholder.value)]
    else
      [SolidFill(brandColor, Canvas)]
  }

  /** app.py:86-98: builds the picture list by appending, one upload at a time. */
  method CollectImages(uploads: seq<ImageSize>, placeholder: Option<ImageSize>, brandColor: string)
    returns (images: seq<SourceImage>)
    ensures images == ImageSources(uploads, placeholder, brandColor)
  {
    images := [];
    if |uploads| > 0 {
      for i := 0 to |uploads|
        invariant |images| == i
        invariant forall j :: 0 <= j < i ==> images[j] == Upload(j, uploads[j])
      {
        images := images + [Upload(i, uploads[i])];
      }
    } else if placeholder.Some? {
      images := images + [Placeholder(placeholder.value)];
    } else {
      images := images + [SolidFill(brandColor, Canvas)];
    }
  }
}
