/** The route handlers of server/routes.ts, reduced to what they decide and
    what they do to the store, and the mocked generation calls they make. */
module Routes {
  import opened Wrappers
  import opened Schema
  import opened Storage
  import Text

  /** An uploaded document file: its original name and its bytes already
      decoded as UTF-8 text. */
  datatype UploadedDocument = UploadedDocument(originalname: string, text: string)

  /** An uploaded image file: its original name, its MIME type and its bytes
      already encoded as base64 text. */
  datatype UploadedImage = UploadedImage(originalname: string, mimetype: string, base64: string)

  /** The three configuration variables that may hold a generation key. */
  datatype Environment = Environment(groqKey: Option<string>, togetherKey: Option<string>, openRouterKey: Option<string>)

  /** What outline generation produces: a title and the slides. */
  datatype Outline = Outline(title: string, slides: seq<Slide>)

  /** The export stub's answer. */
  datatype ExportTicket = ExportTicket(message: string, downloadUrl: string)

  const DefaultModel: string := "groq-mixtral"
  const UntitledTitle: string := "Untitled Presentation"

  /** A JavaScript truthiness test on an optional string field: exactly a
      missing value and the empty string are falsy. */
  predicate Truthy(o: Option<string>): (t: bool)
    ensures t <==> o != None && o != Some("")
  {
    o.Some? && o.value != ""
  }

  /** `const { aiModel = "groq-mixtral" } = req.body`: the default applies
      only when the field is missing, not when it is empty. */
  function ModelOrDefault(aiModel: Option<string>): (m: string)
    ensures aiModel.Some? ==> m == aiModel.value
    ensures aiModel.None? ==> m == DefaultModel
  {
    aiModel.GetOr(DefaultModel)
  }

  /** `GROQ_API_KEY || TOGETHER_API_KEY || OPENROUTER_API_KEY`: the first
      non-empty key in that order, or none. */
  function ApiKey(env: Environment): (r: Option<string>)
    ensures r.None? <==> !Truthy(env.groqKey) && !Truthy(env.togetherKey) && !Truthy(env.openRouterKey)
    ensures r.Some? ==> r.value != ""
    ensures Truthy(env.groqKey) ==> r == env.groqKey
    ensures !Truthy(env.groqKey) && Truthy(env.togetherKey) ==> r == env.togetherKey
    ensures !Truthy(env.groqKey) && !Truthy(env.togetherKey) && Truthy(env.openRouterKey) ==> r == env.openRouterKey
  {
    if Truthy(env.groqKey) then env.groqKey
    else if Truthy(env.togetherKey) then env.togetherKey
    else if Truthy(env.openRouterKey) then env.openRouterKey
    else None
  }

  const DocumentHeader: string := "\n\nDocument: "
  const ContentHeader: string := "\nContent: "
  const EntryEnd: string := "\n"

  /** The header-and-content block one uploaded document contributes: the
      file name and the text can be read back off it at fixed offsets. */
  function DocumentEntry(f: UploadedDocument): (e: string)
    ensures var n := |DocumentHeader| + |f.originalname|;
            var t := n + |ContentHeader|;
            && |e| == t + |f.text| + |EntryEnd|
            && e[..|DocumentHeader|] == DocumentHeader
            && e[|DocumentHeader|..n] == f.originalname
            && e[n..t] == ContentHeader
            && e[t..t + |f.text|] == f.text
            && e[t + |f.text|..] == EntryEnd
  {
    DocumentHeader + f.originalname + ContentHeader + f.text + EntryEnd
  }

  /** The document context: the blocks of all files, in file order. It is
      empty exactly when no file was uploaded, and otherwise ends with the
      newline that closes the last block. */
  function DocumentContext(files: seq<UploadedDocument>): (r: string)
    ensures r == "" <==> |files| == 0
    ensures |files| > 0 ==> r[|r| - 1] == '\n'
  {
    Seqs.Concat(files, DocumentEntry)
  }

  /** The context of two batches of files is the first batch's followed by the second's. */
  lemma DocumentContextAppend(a: seq<UploadedDocument>, b: seq<UploadedDocument>)
    ensures DocumentContext(a + b) == DocumentContext(a) + DocumentContext(b)
  {
    Seqs.ConcatAppend(a, b, DocumentEntry);
  }

  /** The context of a single file is its block. */
  lemma DocumentContextSingle(f: UploadedDocument)
    ensures DocumentContext([f]) == DocumentEntry(f)
  {
    assert [f][..0] == [];
    assert Seqs.Concat([f], DocumentEntry) == Seqs.Concat([], DocumentEntry) + DocumentEntry(f);
  }

  /** The `for ... of req.files` loop with `documentContext +=`. */
  method BuildDocumentContext(files: seq<UploadedDocument>) returns (documentContext: string)
    ensures documentContext == DocumentContext(files)
  {
    documentContext := "";
    for i := 0 to |files|
      invariant documentContext == DocumentContext(files[..i])
    {
      assert files[..i + 1][..i] == files[..i];
      documentContext := documentContext + DocumentEntry(files[i]);
    }
    assert files[..|files|] == files;
  }

  function CannedSlide(id: string, title: string, bullets: seq<string>, notes: string): (s: Slide)
    ensures s.id == id && s.layout == TitleBullets && s.images == []
  {
    Slide(id, title, bullets, TitleBullets, [], Some(notes))
  }

  /** The fixed outline the mocked generator answers with: its title and three slides. */
  const CannedTitle: string := "AI in Healthcare: Transforming Patient Care"

  const IntroSlide: Slide :=
    CannedSlide("slide-1", "AI in Healthcare: Transforming Patient Care",
                [ "Revolutionary impact on diagnosis and treatment",
                  "Improving patient outcomes through precision medicine",
                  "Enhancing efficiency and reducing costs" ],
                "Introduction slide setting the stage for the presentation")

  const ApplicationsSlide: Slide :=
    CannedSlide("slide-2", "Current AI Applications in Healthcare",
                [ "Diagnostic imaging and radiology analysis",
                  "Drug discovery and development acceleration",
                  "Personalized treatment recommendations",
                  "Predictive analytics for patient risk assessment" ],
                "Overview of existing AI implementations")

  const BenefitsSlide: Slide :=
    CannedSlide("slide-3", "Benefits and Impact",
                [ "Faster and more accurate diagnoses",
                  "Reduced medical errors and improved safety",
                  "Cost reduction through automation",
                  "Better resource allocation and planning" ],
                "Quantifiable benefits of AI adoption")

  function CannedOutline(): (o: Outline)
    ensures o.title != "" && |o.slides| == 3
    ensures forall i :: 0 <= i < |o.slides| ==> o.slides[i].images == [] && o.slides[i].layout == TitleBullets
    ensures forall i, j :: 0 <= i < j < |o.slides| ==> o.slides[i].id != o.slides[j].id
  {
    Outline(CannedTitle, [IntroSlide, ApplicationsSlide, BenefitsSlide])
  }

  /** The mocked outline generator: it throws (None) when no key is
      configured, and otherwise ignores its inputs and answers the canned outline. */
  function GenerateOutlineWithLLM(prompt: string, documentContext: string, aiModel: string, env: Environment): (r: Option<Outline>)
    ensures r.None? <==> ApiKey(env).None?
    ensures r.Some? ==> forall i :: 0 <= i < |r.value.slides| ==> r.value.slides[i].images == []
  {
    if ApiKey(env).None? then None else Some(CannedOutline())
  }

  /** The insert data generate-outline builds from the prompt and the outline. */
  function NewPresentationData(prompt: string, outline: Outline): (d: InsertPresentation)
    ensures d.prompt == prompt && d.slides == outline.slides
    ensures d.title == (if outline.title != "" then outline.title else UntitledTitle)
    ensures d.title != ""
    ensures d.theme == DefaultTheme && d.settings == DefaultSettings
  {
    InsertPresentation(if outline.title != "" then outline.title else UntitledTitle,
                       prompt, outline.slides, DefaultTheme, DefaultSettings)
  }

  /** `bullets.map(bullet => bullet + " - Enhanced")`. */
  function EnhanceBullets(bullets: seq<string>): (r: seq<string>)
    ensures |r| == |bullets|
    ensures forall i :: 0 <= i < |bullets| ==> r[i] == bullets[i] + " - Enhanced"
  {
    if |bullets| == 0 then [] else EnhanceBullets(bullets[..|bullets| - 1]) + [bullets[|bullets| - 1] + " - Enhanced"]
  }

  /** The mocked slide regeneration: same id, layout and images; marked
      title and bullets; notes that quote the instruction. */
  function RepromptSlideWithLLM(current: Slide, reprompt: string, aiModel: string): (r: Slide)
    ensures r.id == current.id && r.layout == current.layout && r.images == current.images
    ensures r.title == current.title + " (Updated)"
    ensures |r.bullets| == |current.bullets|
    ensures forall i :: 0 <= i < |current.bullets| ==> r.bullets[i] == current.bullets[i] + " - Enhanced"
    ensures r.notes == Some("Updated based on prompt: " + reprompt)
  {
    current.(title := current.title + " (Updated)",
             bullets := EnhanceBullets(current.bullets),
             notes := Some("Updated based on prompt: " + reprompt))
  }

  /** `const copy = [...slides]; copy[i] = s`: a fresh copy with one position overwritten. */
  method CopyAndReplace(slides: seq<Slide>, i: nat, s: Slide) returns (r: seq<Slide>)
    requires i < |slides|
    ensures |r| == |slides| && r[i] == s
    ensures forall j :: 0 <= j < |slides| && j != i ==> r[j] == slides[j]
  {
    var copy := new Slide[|slides|](j requires 0 <= j < |slides| => slides[j]);
    copy[i] := s;
    r := copy[..];
  }

  /** POST generate-outline. */
  method GenerateOutline(store: MemStorage, prompt: Option<string>, aiModel: Option<string>,
                         files: seq<UploadedDocument>, env: Environment, now: int)
    returns (resp: Reply<Presentation>)
    requires store.Valid()
    modifies store
    ensures store.Valid()
    ensures !Truthy(prompt) ==> resp == Fail(400, "Prompt is required") && unchanged(store)
    ensures Truthy(prompt) && ApiKey(env).None? ==> resp == Fail(500, "Failed to generate outline") && unchanged(store)
    ensures Truthy(prompt) && ApiKey(env).Some? ==>
              && resp == Ok(WithIdentity(NewPresentationData(prompt.value, CannedOutline()),
                                         old(store.currentPresentationId), now))
              && store.presentations == old(store.presentations)[resp.body.id := resp.body]
              && store.currentPresentationId == old(store.currentPresentationId) + 1
    ensures store.DocumentState() == old(store.DocumentState())
    ensures store.SlideImageState() == old(store.SlideImageState())
  {
    if !Truthy(prompt) {
      return Fail(400, "Prompt is required");
    }
    var model := ModelOrDefault(aiModel);
    var documentContext := BuildDocumentContext(files);
    var outline := GenerateOutlineWithLLM(prompt.value, documentContext, model, env);
    if outline.None? {
      return Fail(500, "Failed to generate outline");
    }
    var presentation := store.CreatePresentation(NewPresentationData(prompt.value, outline.value), now);
    resp := Ok(presentation);
  }

  /** POST reprompt of slide `slideIndex`. A negative index passes the bounds
      check and fails when the mock reads the missing slide. */
  method RepromptSlide(store: MemStorage, id: int, slideIndex: int, reprompt: Option<string>, aiModel: Option<string>)
    returns (resp: Reply<Presentation>)
    requires store.Valid()
    modifies store
    ensures store.Valid()
    ensures id !in old(store.presentations) ==> resp == Fail(404, "Presentation not found") && unchanged(store)
    ensures id in old(store.presentations) && slideIndex >= |old(store.presentations[id]).slides| ==>
              resp == Fail(400, "Invalid slide index") && unchanged(store)
    ensures id in old(store.presentations) && slideIndex < 0 ==>
              resp == Fail(500, "Failed to re-prompt slide") && unchanged(store)
    ensures id in old(store.presentations) && 0 <= slideIndex < |old(store.presentations[id]).slides| ==>
              var p := old(store.presentations[id]);
              var s := RepromptSlideWithLLM(p.slides[slideIndex], Text.Interpolate(reprompt), ModelOrDefault(aiModel));
              && resp == Ok(p.(slides := p.slides[slideIndex := s]))
              && store.presentations == old(store.presentations)[id := resp.body]
    ensures store.currentPresentationId == old(store.currentPresentationId)
    ensures store.DocumentState() == old(store.DocumentState())
    ensures store.SlideImageState() == old(store.SlideImageState())
  {
    var model := ModelOrDefault(aiModel);
    var presentation := store.GetPresentation(id);
    if presentation.None? {
      return Fail(404, "Presentation not found");
    }
    var slides := presentation.value.slides;
    if slideIndex >= |slides| {
      return Fail(400, "Invalid slide index");
    }
    if slideIndex < 0 {
      return Fail(500, "Failed to re-prompt slide");
    }
    var updatedSlide := RepromptSlideWithLLM(slides[slideIndex], Text.Interpolate(reprompt), model);
    var updatedSlides := CopyAndReplace(slides, slideIndex, updatedSlide);
    assert updatedSlides == slides[slideIndex := updatedSlide];
    var updated := store.UpdatePresentation(id, SlidesOnly(updatedSlides));
    ApplySlidesOnly(presentation.value, updatedSlides);
    resp := Ok(updated.value);
  }

  /** PATCH a presentation with a partial update. */
  method PatchPresentation(store: MemStorage, id: int, updates: PresentationUpdate) returns (resp: Reply<Presentation>)
    requires store.Valid()
    modifies store
    ensures store.Valid()
    ensures id !in old(store.presentations) ==> resp == Fail(404, "Presentation not found") && unchanged(store)
    ensures id in old(store.presentations) ==>
              && resp == Ok(ApplyUpdate(old(store.presentations[id]), updates))
              && store.presentations == old(store.presentations)[id := resp.body]
    ensures store.currentPresentationId == old(store.currentPresentationId)
    ensures store.DocumentState() == old(store.DocumentState())
    ensures store.SlideImageState() == old(store.SlideImageState())
  {
    var updated := store.UpdatePresentation(id, updates);
    if updated.None? {
      return Fail(404, "Presentation not found");
    }
    resp := Ok(updated.value);
  }

  const DataScheme: string := "data:"
  const Base64Marker: string := ";base64,"

  /** The data URL the upload handler stores for an image: the scheme, the
      MIME type, the base64 marker and the payload, which can be read back
      off the URL at fixed offsets. */
  function DataUrl(file: UploadedImage): (url: string)
    ensures var m := |DataScheme| + |file.mimetype|;
            && |url| == m + |Base64Marker| + |file.base64|
            && url[..|DataScheme|] == DataScheme
            && url[|DataScheme|..m] == file.mimetype
            && url[m..m + |Base64Marker|] == Base64Marker
            && url[m + |Base64Marker|..] == file.base64
  {
    DataScheme + file.mimetype + Base64Marker + file.base64
  }

  /** POST an image for a slide. It does not check that the presentation
      exists and never touches the presentation records. */
  method UploadImage(store: MemStorage, presentationId: int, slideIndex: int, file: Option<UploadedImage>)
    returns (resp: Reply<SlideImageRecord>)
    requires store.Valid()
    modifies store
    ensures store.Valid()
    ensures file.None? ==> resp == Fail(400, "No image file provided") && unchanged(store)
    ensures file.Some? ==>
              && resp == Ok(SlideImageRecord(old(store.currentSlideImageId), file.value.originalname, DataUrl(file.value),
                                             slideIndex, NormalizeReference(Some(presentationId))))
              && store.slideImages == old(store.slideImages)[resp.body.id := resp.body]
              && store.slideImageOrder == old(store.slideImageOrder) + [resp.body.id]
              && store.currentSlideImageId == old(store.currentSlideImageId) + 1
    ensures store.PresentationState() == old(store.PresentationState())
    ensures store.DocumentState() == old(store.DocumentState())
  {
    if file.None? {
      return Fail(400, "No image file provided");
    }
    var f := file.value;
    var slideImage := store.CreateSlideImage(InsertSlideImage(f.originalname, DataUrl(f), slideIndex, Some(presentationId)));
    resp := Ok(slideImage);
  }

  /** POST export: a stub that only answers where the file would be. A
      missing `format` makes `format.toUpperCase()` throw. */
  method ExportPresentation(store: MemStorage, id: int, format: Option<string>) returns (resp: Reply<ExportTicket>)
    requires store.Valid()
    ensures id !in store.presentations ==> resp == Fail(404, "Presentation not found")
    ensures id in store.presentations && format.None? ==> resp == Fail(500, "Failed to export presentation")
    ensures id in store.presentations && format.Some? ==>
              && id >= 1
              && resp == Ok(ExportTicket("Export to " + Text.ToUpper(format.value) + " initiated",
                                         "/api/presentations/" + Text.NatToString(id) + "/download/" + format.value))
  {
    var presentation := store.GetPresentation(id);
    if presentation.None? {
      return Fail(404, "Presentation not found");
    }
    if format.None? {
      return Fail(500, "Failed to export presentation");
    }
    resp := Ok(ExportTicket("Export to " + Text.ToUpper(format.value) + " initiated",
                            "/api/presentations/" + Text.NatToString(id) + "/download/" + format.value));
  }

  /** GET a presentation. */
  method GetPresentationRoute(store: MemStorage, id: int) returns (resp: Reply<Presentation>)
    requires store.Valid()
    ensures id !in store.presentations ==> resp == Fail(404, "Presentation not found")
    ensures id in store.presentations ==> resp == Ok(store.presentations[id]) && resp.body.id == id
  {
    var presentation := store.GetPresentation(id);
    if presentation.None? {
      return Fail(404, "Presentation not found");
    }
    resp := Ok(presentation.value);
  }
}
