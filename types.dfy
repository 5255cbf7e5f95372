// The editor's value types: the records of src/types/index.ts (sparkify
// revision) plus the inline layer records both Canvas components keep in
// their own state.  All numbers are JavaScript numbers, modelled as `real`.

module MemeTypes {

  datatype Option<T> = None | Some(value: T)

  datatype MemeTemplate = MemeTemplate(
    id: string,
    name: string,
    imageUrl: string,
    thumbnail: string,
    category: string,
    width: real,
    height: real)

  datatype SparkyCharacter = SparkyCharacter(
    id: string,
    name: string,
    imageUrl: string,
    thumbnail: string,
    poses: seq<string>,
    expressions: seq<string>)

  datatype TextAlign = Left | Center | Right
  datatype FontWeight = NormalWeight | Bold
  datatype FontStyle = NormalStyle | Italic

  datatype TextElement = TextElement(
    id: string,
    text: string,
    x: real,
    y: real,
    fontSize: real,
    fontFamily: string,
    color: string,
    strokeColor: string,
    strokeWidth: real,
    rotation: real,
    scaleX: real,
    scaleY: real,
    textAlign: TextAlign,
    fontWeight: FontWeight,
    fontStyle: FontStyle)

  datatype ImageElement = ImageElement(
    id: string,
    imageUrl: string,
    x: real,
    y: real,
    width: real,
    height: real,
    rotation: real,
    scaleX: real,
    scaleY: real,
    opacity: real)

  /** The union `TextElement | ImageElement` of a canvas's element list. */
  datatype Element = TextEl(text: TextElement) | ImageEl(image: ImageElement)

  datatype CanvasState = CanvasState(
    width: real,
    height: real,
    backgroundColor: string,
    backgroundImage: Option<string>,
    elements: seq<Element>)

  datatype CanvasMode = Select | Text | Image | Draw

  /** A decoded browser image; only the URL it was loaded from is observable here. */
  datatype ImageHandle = ImageHandle(src: string)

  /** The text-layer record both Canvas components keep in state. */
  datatype TextLayer = TextLayer(
    id: string,
    text: string,
    x: real,
    y: real,
    fontSize: real,
    fill: string,
    stroke: string,
    strokeWidth: real)

  /** An uploaded image layer of the latest Canvas component. */
  datatype UploadedImage = UploadedImage(
    id: string,
    image: ImageHandle,
    x: real,
    y: real,
    width: real,
    height: real)

  datatype Point = Point(x: real, y: real)

  predicate StartsWith(s: string, prefix: string)
  {
    |prefix| <= |s| && s[..|prefix|] == prefix
  }

  /** JavaScript truthiness of a `string | null` selection: null and "" are falsy. */
  predicate IsSet(sel: Option<string>)
  {
    sel.Some? && sel.value != ""
  }
}
