/** The shared record shapes of shared/schema.ts: the presentation table,
    its JSON columns (slides, settings), uploaded documents and slide images. */
module Schema {
  import opened Wrappers

  /** The closed set of slide layouts. */
  datatype Layout = TitleBullets | ImageText | FullImage

  /** The closed set of slide ratios. */
  datatype Ratio = Widescreen /* 16:9 */ | Standard /* 4:3 */ | Square /* 1:1 */

  /** Font sizes, in their display order small < medium < large. */
  datatype FontSize = Small | Medium | Large

  /** One slide as stored inside a presentation's `slides` array. */
  datatype Slide = Slide(
    id: string,
    title: string,
    bullets: seq<string>,
    layout: Layout,
    images: seq<string>,
    notes: Option<string>)

  datatype PresentationSettings = PresentationSettings(
    ratio: Ratio,
    fontSize: FontSize,
    animations: bool)

  /** A stored presentation row; `createdAt` is a clock reading in milliseconds. */
  datatype Presentation = Presentation(
    id: int,
    title: string,
    prompt: string,
    slides: seq<Slide>,
    theme: string,
    settings: PresentationSettings,
    createdAt: int)

  /** The insert shape: everything but `id` and `createdAt`, which the store assigns. */
  datatype InsertPresentation = InsertPresentation(
    title: string,
    prompt: string,
    slides: seq<Slide>,
    theme: string,
    settings: PresentationSettings)

  /** `Partial<InsertPresentation>`: each field may be left out. */
  datatype PresentationUpdate = PresentationUpdate(
    title: Option<string>,
    prompt: Option<string>,
    slides: Option<seq<Slide>>,
    theme: Option<string>,
    settings: Option<PresentationSettings>)

  /** An uploaded source document; `presentationId` is a nullable weak reference. */
  datatype Document = Document(
    id: int,
    filename: string,
    content: string,
    docType: string,
    presentationId: Option<int>)

  datatype InsertDocument = InsertDocument(
    filename: string,
    content: string,
    docType: string,
    presentationId: Option<int>)

  /** An uploaded image; `slideIndex` is the slide position at upload time. */
  datatype SlideImageRecord = SlideImageRecord(
    id: int,
    filename: string,
    url: string,
    slideIndex: int,
    presentationId: Option<int>)

  datatype InsertSlideImage = InsertSlideImage(
    filename: string,
    url: string,
    slideIndex: int,
    presentationId: Option<int>)

  /** The column default of `theme`, also the theme every generated outline gets. */
  const DefaultTheme: string := "professional"

  /** The settings literal 16:9 / medium / animations on, used for new
      outlines and by the theme panel when nothing is loaded. */
  const DefaultSettings: PresentationSettings := PresentationSettings(Widescreen, Medium, true)

  /** An update that supplies no field. */
  const NoChanges: PresentationUpdate := PresentationUpdate(None, None, None, None, None)

  /** An update that supplies only `slides`. */
  function SlidesOnly(slides: seq<Slide>): (u: PresentationUpdate)
    ensures u.slides == Some(slides)
    ensures u.title.None? && u.prompt.None? && u.theme.None? && u.settings.None?
  {
    NoChanges.(slides := Some(slides))
  }

  /** The row an insert produces once the store has chosen its id and time. */
  function WithIdentity(data: InsertPresentation, id: int, createdAt: int): (p: Presentation)
    ensures p.id == id && p.createdAt == createdAt
    ensures p.title == data.title && p.prompt == data.prompt && p.slides == data.slides
    ensures p.theme == data.theme && p.settings == data.settings
  {
    Presentation(id, data.title, data.prompt, data.slides, data.theme, data.settings, createdAt)
  }
}
