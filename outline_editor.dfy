/** The slide-list edits of the outline editor
    (client/src/components/OutlineEditor.tsx). Each handler builds the whole
    new `slides` array and submits an update holding only `slides`; with no
    presentation loaded it submits nothing (None). */
module OutlineEditor {
  import opened Wrappers
  import opened Schema
  import Storage
  import Seqs
  import Text
  import SlideCard

  /** `const updated = [...slides]; updated[i] = s`. */
  function ReplaceSlide(slides: seq<Slide>, slideIndex: nat, s: Slide): (r: seq<Slide>)
    requires slideIndex < |slides|
    ensures |r| == |slides| && r[slideIndex] == s
    ensures forall j :: 0 <= j < |slides| && j != slideIndex ==> r[j] == slides[j]
  {
    slides[slideIndex := s]
  }

  /** The slide `handleAddSlide` appends; its id comes from the clock reading `now`. */
  function NewSlide(now: nat): (s: Slide)
    ensures s.id == "slide-" + Text.NatToString(now)
    ensures s.title == "New Slide" && s.bullets == ["Add your content here"]
    ensures s.layout == TitleBullets && s.images == [] && s.notes == Some("")
  {
    Slide("slide-" + Text.NatToString(now), "New Slide", ["Add your content here"], TitleBullets, [], Some(""))
  }

  /** Slide positions come from rendering the list, so they are in range. */
  function HandleSlideUpdate(presentation: Option<Presentation>, slideIndex: nat, updatedSlide: Slide)
    : (u: Option<PresentationUpdate>)
    requires presentation.Some? ==> slideIndex < |presentation.value.slides|
    ensures presentation.None? <==> u.None?
    ensures u.Some? ==>
              var before := presentation.value.slides;
              && u.value.slides.Some? && u.value == SlidesOnly(u.value.slides.value)
              && |u.value.slides.value| == |before| && u.value.slides.value[slideIndex] == updatedSlide
              && forall j :: 0 <= j < |before| && j != slideIndex ==> u.value.slides.value[j] == before[j]
  {
    match presentation
    case None => None
    case Some(p) => Some(SlidesOnly(ReplaceSlide(p.slides, slideIndex, updatedSlide)))
  }

  /** `slides.filter((_, index) => index !== slideIndex)`. */
  function HandleDeleteSlide(presentation: Option<Presentation>, slideIndex: int): (u: Option<PresentationUpdate>)
    ensures presentation.None? <==> u.None?
    ensures u.Some? ==>
              var before := presentation.value.slides;
              && u.value.slides.Some? && u.value == SlidesOnly(u.value.slides.value)
              && u.value.slides.value == if 0 <= slideIndex < |before| then before[..slideIndex] + before[slideIndex + 1..] else before
  {
    match presentation
    case None => None
    case Some(p) =>
      Seqs.RemoveIndexSplices(p.slides, slideIndex);
      Some(SlidesOnly(Seqs.RemoveIndex(p.slides, slideIndex)))
  }

  function HandleAddSlide(presentation: Option<Presentation>, now: nat): (u: Option<PresentationUpdate>)
    ensures presentation.None? <==> u.None?
    ensures u.Some? ==>
              var before := presentation.value.slides;
              && u.value.slides.Some? && u.value == SlidesOnly(u.value.slides.value)
              && |u.value.slides.value| == |before| + 1
              && u.value.slides.value[..|before|] == before && u.value.slides.value[|before|] == NewSlide(now)
  {
    match presentation
    case None => None
    case Some(p) => Some(SlidesOnly(p.slides + [NewSlide(now)]))
  }

  /** Deleting position `k` removes exactly that slide: earlier slides keep
      their positions, later ones move down by one, none is altered. */
  lemma DeleteRemovesExactlyOne(p: Presentation, k: int)
    requires 0 <= k < |p.slides|
    ensures var r := HandleDeleteSlide(Some(p), k).value.slides.value;
            && |r| == |p.slides| - 1
            && (forall j :: 0 <= j < k ==> r[j] == p.slides[j])
            && (forall j :: k <= j < |r| ==> r[j] == p.slides[j + 1])
  {
    Seqs.RemoveIndexAt(p.slides, k);
  }

  /** A position outside the list deletes nothing. */
  lemma DeleteOutOfRangeKeepsAll(p: Presentation, k: int)
    requires k < 0 || k >= |p.slides|
    ensures HandleDeleteSlide(Some(p), k).value.slides.value == p.slides
  {
    Seqs.RemoveIndexSplices(p.slides, k);
  }

  /** Adding a slide grows the list by one, keeps the old slides as the
      prefix, and deleting the new last slide restores the list. */
  lemma AddThenDeleteRestores(p: Presentation, now: nat)
    ensures var r := HandleAddSlide(Some(p), now).value.slides.value;
            && |r| == |p.slides| + 1 && r[..|p.slides|] == p.slides && r[|p.slides|] == NewSlide(now)
            && Seqs.RemoveIndex(r, |p.slides|) == p.slides
  {
    Seqs.RemoveIndexAfterAppend(p.slides, NewSlide(now));
  }

  /** Slides added at different clock readings get different ids. */
  lemma NewSlideIdsDiffer(t1: nat, t2: nat)
    requires t1 != t2
    ensures NewSlide(t1).id != NewSlide(t2).id
  {
    Text.NatToStringInjective(t1, t2);
    if NewSlide(t1).id == NewSlide(t2).id {
      Text.PrefixCancel("slide-", Text.NatToString(t1), Text.NatToString(t2));
    }
  }

  /** The editor's three edits. */
  datatype OutlineEdit = UpdateSlide(slideIndex: nat, slide: Slide) | DeleteSlide(position: int) | AddSlide(now: nat)

  function Handle(presentation: Option<Presentation>, e: OutlineEdit): Option<PresentationUpdate>
    requires e.UpdateSlide? && presentation.Some? ==> e.slideIndex < |presentation.value.slides|
  {
    match e
    case UpdateSlide(i, s) => HandleSlideUpdate(presentation, i, s)
    case DeleteSlide(k) => HandleDeleteSlide(presentation, k)
    case AddSlide(now) => HandleAddSlide(presentation, now)
  }

  /** Every edit of a loaded presentation submits `slides` alone, so once the
      store merges it, no other field of the presentation has changed. */
  lemma EditChangesOnlySlides(p: Presentation, e: OutlineEdit)
    requires e.UpdateSlide? ==> e.slideIndex < |p.slides|
    ensures Handle(Some(p), e).Some?
    ensures var u := Handle(Some(p), e).value;
            u.slides.Some? && Storage.ApplyUpdate(p, u) == p.(slides := u.slides.value)
  {
  }

  /** With nothing loaded, no edit submits an update. */
  lemma NoPresentationNoUpdate(e: OutlineEdit)
    ensures Handle(None, e).None?
  {
  }

  function SlideIds(slides: seq<Slide>): (ids: seq<string>)
    ensures |ids| == |slides| && forall j :: 0 <= j < |slides| ==> ids[j] == slides[j].id
  {
    seq(|slides|, j requires 0 <= j < |slides| => slides[j].id)
  }

  /** A card edit on slide `i` submitted through `onUpdate` keeps every
      slide's id, so the list keeps its slide identities. */
  lemma CardEditKeepsSlideIds(p: Presentation, i: nat, e: SlideCard.SlideEdit)
    requires i < |p.slides| && SlideCard.Applicable(p.slides[i], e)
    ensures var u := HandleSlideUpdate(Some(p), i, SlideCard.Apply(p.slides[i], e)).value;
            SlideIds(u.slides.value) == SlideIds(p.slides)
  {
    SlideCard.EditKeepsIdentity(p.slides[i], e);
  }
}
