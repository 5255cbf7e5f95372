// The element factories and geometry helpers of src/utils/canvas.ts.  A
// JavaScript default parameter becomes an Option argument (None stands for
// `undefined`), and `Date.now()` in the generated ids becomes the `stamp`
// argument.  Numbers are reals; the IEEE rounding of the original is not
// modelled.

module CanvasUtils {
  import opened MemeTypes
  import LatestCanvas

  const TextIdPrefix := "text-"
  const ImageIdPrefix := "image-"

  /** What a default parameter evaluates to. */
  function OrDefault<T>(arg: Option<T>, default: T): (v: T)
    ensures arg.None? ==> v == default
    ensures arg.Some? ==> v == arg.value
  {
    match arg
    case None => default
    case Some(a) => a
  }

  function CreateImageElement(stamp: string, imageUrl: string, x: Option<real>, y: Option<real>,
                              width: Option<real>, height: Option<real>): (e: ImageElement)
    ensures StartsWith(e.id, ImageIdPrefix) && e.id[|ImageIdPrefix|..] == stamp
    ensures e.imageUrl == imageUrl
    ensures e.x == OrDefault(x, 0.0) && e.y == OrDefault(y, 0.0)
    ensures e.width == OrDefault(width, 200.0) && e.height == OrDefault(height, 200.0)
    ensures e.rotation == 0.0 && e.scaleX == 1.0 && e.scaleY == 1.0 && e.opacity == 1.0
  {
    ImageElement(ImageIdPrefix + stamp, imageUrl, OrDefault(x, 0.0), OrDefault(y, 0.0),
                 OrDefault(width, 200.0), OrDefault(height, 200.0), 0.0, 1.0, 1.0, 1.0)
  }

  function CreateTextElement(stamp: string, text: Option<string>, x: Option<real>, y: Option<real>,
                             fontSize: Option<real>): (e: TextElement)
    ensures StartsWith(e.id, TextIdPrefix) && e.id[|TextIdPrefix|..] == stamp
    ensures e.text == OrDefault(text, "Sample Text")
    ensures e.x == OrDefault(x, 100.0) && e.y == OrDefault(y, 100.0)
    ensures e.fontSize == OrDefault(fontSize, 32.0)
    ensures e.fontFamily == "Impact" && e.color == "#ffffff" && e.strokeColor == "#000000"
    ensures e.strokeWidth == 2.0 && e.rotation == 0.0 && e.scaleX == 1.0 && e.scaleY == 1.0
    ensures e.textAlign == Center && e.fontWeight == Bold && e.fontStyle == NormalStyle
  {
    TextElement(TextIdPrefix + stamp, OrDefault(text, "Sample Text"), OrDefault(x, 100.0),
                OrDefault(y, 100.0), OrDefault(fontSize, 32.0), "Impact", "#ffffff", "#000000",
                2.0, 0.0, 1.0, 1.0, Center, Bold, NormalStyle)
  }

  /** Every factory-made id is classified by the canvas badge as what it is:
      image ids as "Image", text ids as "Text". */
  lemma FactoryIdsClassified(stamp: string, url: string)
    ensures LatestCanvas.SelectionBadge(Some(CreateImageElement(stamp, url, None, None, None, None).id))
         == Some("Image")
    ensures LatestCanvas.SelectionBadge(Some(CreateTextElement(stamp, None, None, None, None).id))
         == Some("Text")
  {
    var imageId := CreateImageElement(stamp, url, None, None, None, None).id;
    var textId := CreateTextElement(stamp, None, None, None, None).id;
    assert imageId[0] == 'i' && textId[0] == 't';
    assert !StartsWith(textId, ImageIdPrefix) by {
      if |ImageIdPrefix| <= |textId| { assert textId[..|ImageIdPrefix|][0] == 't'; }
    }
  }

  function GetCanvasCenter(canvasWidth: real, canvasHeight: real): (p: Point)
    ensures p.x - 0.0 == canvasWidth - p.x
    ensures p.y - 0.0 == canvasHeight - p.y
  {
    Point(canvasWidth / 2.0, canvasHeight / 2.0)
  }

  datatype Fit = Fit(width: real, height: real, scale: real)

  function Min(a: real, b: real): real
  {
    if a <= b then a else b
  }

  /** Scale an image uniformly so that it fits inside the canvas. */
  function FitImageToCanvas(imageWidth: real, imageHeight: real, canvasWidth: real, canvasHeight: real): (f: Fit)
    requires imageWidth > 0.0 && imageHeight > 0.0 && canvasWidth > 0.0 && canvasHeight > 0.0
    ensures f.scale == Min(canvasWidth / imageWidth, canvasHeight / imageHeight) && f.scale > 0.0
    ensures f.width <= canvasWidth && f.height <= canvasHeight
    ensures f.width == canvasWidth || f.height == canvasHeight
    ensures f.width * imageHeight == f.height * imageWidth
  {
    var scaleX := canvasWidth / imageWidth;
    var scaleY := canvasHeight / imageHeight;
    var scale := Min(scaleX, scaleY);
    FitBounds(imageWidth, imageHeight, canvasWidth, canvasHeight, scale);
    Fit(imageWidth * scale, imageHeight * scale, scale)
  }

  lemma FitBounds(iw: real, ih: real, cw: real, ch: real, scale: real)
    requires iw > 0.0 && ih > 0.0 && cw > 0.0 && ch > 0.0
    requires scale == Min(cw / iw, ch / ih)
    ensures scale > 0.0
    ensures iw * scale <= cw && ih * scale <= ch
    ensures iw * scale == cw || ih * scale == ch
    ensures (iw * scale) * ih == (ih * scale) * iw
  {
    var sx := cw / iw;
    var sy := ch / ih;
    assert iw * sx == cw;
    assert ih * sy == ch;
    if sx <= sy {
      assert ih * sx <= ih * sy;
    } else {
      assert iw * sy <= iw * sx;
    }
  }

  /** The fitted scale is the largest uniform scale that fits. */
  lemma FitIsLargest(imageWidth: real, imageHeight: real, canvasWidth: real, canvasHeight: real, s: real)
    requires imageWidth > 0.0 && imageHeight > 0.0 && canvasWidth > 0.0 && canvasHeight > 0.0
    requires imageWidth * s <= canvasWidth && imageHeight * s <= canvasHeight
    ensures s <= FitImageToCanvas(imageWidth, imageHeight, canvasWidth, canvasHeight).scale
  {
    var sx := canvasWidth / imageWidth;
    var sy := canvasHeight / imageHeight;
    assert imageWidth * sx == canvasWidth;
    assert imageHeight * sy == canvasHeight;
    assert s <= sx;
    assert s <= sy;
  }
}
