/**
 * The server-side image adjustment (adjust_image): decode the stored
 * bytes, resize them to the display, fix the orientation recorded in the
 * photo's EXIF data, and encode the result as PNG. The pixel operations
 * belong to an image library and are not modelled: an image is the
 * decoded bitmap together with the list of operations applied to it, in
 * order, and the decoder is a parameter.
 */
module ImageProcessor {
  import opened Wrappers

  type u8 = x: int | 0 <= x < 0x100
  type u16 = x: int | 0 <= x < 0x1_0000
  type u32 = x: int | 0 <= x < 0x1_0000_0000

  /** The orientation of a photo: a rotation of 0, 90, 180 or 270 degrees and a vertical mirror flag. */
  datatype ImageOrientation = ImageOrientation(rotation: u16, mirrorVertically: bool)

  /** What the decoder produced; its pixels are opaque here. */
  datatype Bitmap = Bitmap(pixels: seq<u8>)

  /** The library's pixel operations. */
  datatype Op = Resize(width: u32, height: u32) | Rotate90 | Rotate180 | Rotate270 | FlipVertical

  datatype Image = Image(decoded: Bitmap, ops: seq<Op>)

  /** The PNG encoding of an image. */
  datatype Png = Png(image: Image)

  function Apply(img: Image, op: Op): Image
  {
    Image(img.decoded, img.ops + [op])
  }

  predicate IsRotation(op: Op) {
    op.Rotate90? || op.Rotate180? || op.Rotate270?
  }

  /** The clockwise angle, in degrees, by which a rotation turns the image. */
  function Degrees(op: Op): u16
    requires IsRotation(op)
  {
    match op
    case Rotate90 => 90
    case Rotate180 => 180
    case Rotate270 => 270
  }

  /**
   * The rotation step: a rotation of 90, 180 or 270 degrees turns the image
   * by exactly that angle; any other value leaves the image as it is.
   */
  function Rotate(img: Image, rotation: u16): (r: Image)
    ensures r.decoded == img.decoded
    ensures rotation !in {90, 180, 270} ==> r == img
    ensures rotation in {90, 180, 270} ==>
      |r.ops| == |img.ops| + 1 && r.ops[..|img.ops|] == img.ops &&
      IsRotation(r.ops[|img.ops|]) && Degrees(r.ops[|img.ops|]) == rotation
  {
    match rotation
    case 90 => Apply(img, Rotate90)
    case 180 => Apply(img, Rotate180)
    case 270 => Apply(img, Rotate270)
    case _ => img
  }

  /**
   * The operations adjust_image applies after a successful decode, in order.
   * A rotation can only appear right after the resize, and then it turns by
   * the angle the orientation asks for.
   */
  function AdjustOps(displayWidth: u32, displayHeight: u32, imageOrientation: Option<ImageOrientation>): (r: seq<Op>)
    ensures forall i :: 0 <= i < |r| && IsRotation(r[i]) ==>
      i == 1 && imageOrientation.Some? && Degrees(r[i]) == imageOrientation.value.rotation
  {
    var rotation := if imageOrientation.None? then []
      else if imageOrientation.value.rotation == 90 then [Rotate90]
      else if imageOrientation.value.rotation == 180 then [Rotate180]
      else if imageOrientation.value.rotation == 270 then [Rotate270]
      else [];
    var flip := if imageOrientation.Some? && imageOrientation.value.mirrorVertically then [FlipVertical] else [];
    [Resize(displayWidth, displayHeight)] + rotation + flip
  }

  /**
   * adjust_image: `None` exactly when decoding fails; otherwise the PNG of
   * the decoded bitmap after the operations of AdjustOps. The resource path
   * is only used in the error log.
   */
  function AdjustImage(
    resourcePath: string,
    resourceData: seq<u8>,
    displayWidth: u32,
    displayHeight: u32,
    imageOrientation: Option<ImageOrientation>,
    decode: seq<u8> -> Option<Bitmap>
  ): (r: Option<Png>)
    ensures r.None? <==> decode(resourceData).None?
    ensures r.Some? ==>
      r.value.image == Image(decode(resourceData).value, AdjustOps(displayWidth, displayHeight, imageOrientation))
  {
    match decode(resourceData)
    case None => None
    case Some(bitmap) =>
      var resized := Apply(Image(bitmap, []), Resize(displayWidth, displayHeight));
      var fixedOrientation :=
        match imageOrientation
        case Some(orientation) =>
          var rotated := Rotate(resized, orientation.rotation);
          if orientation.mirrorVertically then Apply(rotated, FlipVertical) else rotated
        case None => resized;
      Some(Png(fixedOrientation))
  }

  /**
   * Every successful decode is resized exactly once, to the display size,
   * before anything else; at most one rotation and one flip follow.
   */
  lemma ResizedOnceFirst(displayWidth: u32, displayHeight: u32, imageOrientation: Option<ImageOrientation>)
    ensures var ops := AdjustOps(displayWidth, displayHeight, imageOrientation);
      1 <= |ops| <= 3 &&
      ops[0] == Resize(displayWidth, displayHeight) &&
      forall i :: 0 < i < |ops| ==> !ops[i].Resize?
  {
  }

  /** Without an orientation the result is only resized. */
  lemma NoOrientationOnlyResized(displayWidth: u32, displayHeight: u32)
    ensures AdjustOps(displayWidth, displayHeight, None) == [Resize(displayWidth, displayHeight)]
  {
  }

  /**
   * 90, 180 and 270 apply exactly the matching rotation, right after the
   * resize; any other value, 0 included, applies none.
   */
  lemma RotationDispatch(displayWidth: u32, displayHeight: u32, orientation: ImageOrientation)
    ensures var ops := AdjustOps(displayWidth, displayHeight, Some(orientation));
      (orientation.rotation == 90 ==> ops[1] == Rotate90) &&
      (orientation.rotation == 180 ==> ops[1] == Rotate180) &&
      (orientation.rotation == 270 ==> ops[1] == Rotate270) &&
      (forall i :: 0 <= i < |ops| && i != 1 ==> !IsRotation(ops[i])) &&
      (orientation.rotation !in {90, 180, 270} <==> forall i :: 0 <= i < |ops| ==> !IsRotation(ops[i]))
  {
  }

  /** The vertical flip happens if and only if the mirror flag is set, and then as the last step. */
  lemma FlipIffMirrored(displayWidth: u32, displayHeight: u32, imageOrientation: Option<ImageOrientation>)
    ensures var ops := AdjustOps(displayWidth, displayHeight, imageOrientation);
      (FlipVertical in ops <==> imageOrientation.Some? && imageOrientation.value.mirrorVertically) &&
      (FlipVertical in ops ==> ops[|ops| - 1] == FlipVertical && forall i :: 0 <= i < |ops| - 1 ==> ops[i] != FlipVertical)
  {
  }
}
