/**
 * The records the loader produces and the viewer consumes: one image with
 * its bounding boxes in image-pixel space.
 */
module Records {

  /** One detection, as the loader copies it out of a prediction. */
  datatype BBox = BBox(
    confidence: real,
    labelText: string,
    x: real,
    y: real,
    width: real,
    height: real)

  /**
   * One entry of the image list. `src` is the URL the bundler resolved the
   * image module to; `width` and `height` are 0 when the annotation file
   * does not give them.
   */
  datatype ImageRecord = ImageRecord(
    src: string,
    alt: string,
    bboxes: seq<BBox>,
    width: real,
    height: real)
}
