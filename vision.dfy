/** The shape of one Cloud Vision annotation result, as far as the service
    reads it, and the outcome of a step that may raise. */
module Vision {

  datatype Option<+T> = None | Some(value: T)

  /** The outcome of a step the service cannot see into (a file read, a remote
      call): either it returned a value, or it raised and control went to the
      operation's `except` branch. */
  datatype Call<+T> = Returned(value: T) | Raised

  /** A label, landmark, logo or text annotation: a description and the
      service's confidence score. */
  datatype Annotation = Annotation(description: string, score: real)

  /** A localized object annotation; its bounding region is never read. */
  datatype LocalizedObject = LocalizedObject(name: string, score: real)

  /** An RGB colour as the service reports it. */
  datatype Rgb = Rgb(red: int, green: int, blue: int)

  /** One of the service's ranked dominant colours. */
  datatype ColorInfo = ColorInfo(color: Rgb, score: real)

  /** The image-properties annotation, holding the ranked dominant colours. */
  datatype ImageProperties = ImageProperties(dominantColors: seq<ColorInfo>)

  /** One annotation response. A category the request did not ask for, or in
      which the service found nothing, is an empty list; the image-properties
      annotation is absent unless it was requested and present. */
  datatype Response = Response(
    labels: seq<Annotation>,
    objects: seq<LocalizedObject>,
    landmarks: seq<Annotation>,
    logos: seq<Annotation>,
    texts: seq<Annotation>,
    imageProperties: Option<ImageProperties>)
}
