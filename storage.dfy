/** The in-memory store of server/storage.ts: three maps keyed by integer
    ids, each with its own counter, as a class whose methods change them. */
module Storage {
  import opened Wrappers
  import opened Schema
  import Seqs

  /** `{ ...existing, ...updates }`: every supplied field replaces the stored
      one whole (slides and settings included); the others are kept. */
  function ApplyUpdate(p: Presentation, u: PresentationUpdate): (r: Presentation)
    ensures r.id == p.id && r.createdAt == p.createdAt
    ensures r.title == (if u.title.Some? then u.title.value else p.title)
    ensures r.prompt == (if u.prompt.Some? then u.prompt.value else p.prompt)
    ensures r.slides == (if u.slides.Some? then u.slides.value else p.slides)
    ensures r.theme == (if u.theme.Some? then u.theme.value else p.theme)
    ensures r.settings == (if u.settings.Some? then u.settings.value else p.settings)
  {
    p.(title := u.title.GetOr(p.title),
       prompt := u.prompt.GetOr(p.prompt),
       slides := u.slides.GetOr(p.slides),
       theme := u.theme.GetOr(p.theme),
       settings := u.settings.GetOr(p.settings))
  }

  /** Two partial updates in a row as one: a field of the later one wins. */
  function Then(u1: PresentationUpdate, u2: PresentationUpdate): PresentationUpdate
  {
    PresentationUpdate(
      if u2.title.Some? then u2.title else u1.title,
      if u2.prompt.Some? then u2.prompt else u1.prompt,
      if u2.slides.Some? then u2.slides else u1.slides,
      if u2.theme.Some? then u2.theme else u1.theme,
      if u2.settings.Some? then u2.settings else u1.settings)
  }

  /** Merging two updates one after the other equals merging their combination. */
  lemma ApplyUpdateThen(p: Presentation, u1: PresentationUpdate, u2: PresentationUpdate)
    ensures ApplyUpdate(ApplyUpdate(p, u1), u2) == ApplyUpdate(p, Then(u1, u2))
  {
  }

  /** Re-sending the same update changes nothing more. */
  lemma ApplyUpdateIdempotent(p: Presentation, u: PresentationUpdate)
    ensures ApplyUpdate(ApplyUpdate(p, u), u) == ApplyUpdate(p, u)
  {
  }

  /** An update that supplies nothing leaves the record as it is. */
  lemma ApplyNoChanges(p: Presentation)
    ensures ApplyUpdate(p, NoChanges) == p
  {
  }

  /** An update that supplies only `slides` changes only `slides`. */
  lemma ApplySlidesOnly(p: Presentation, slides: seq<Slide>)
    ensures ApplyUpdate(p, SlidesOnly(slides)) == p.(slides := slides)
  {
  }

  /** `presentationId || null`: an absent reference and the falsy 0 are both stored as null. */
  function NormalizeReference(o: Option<int>): (r: Option<int>)
    ensures r.None? <==> (o.None? || o == Some(0))
    ensures r.Some? ==> r == o
  {
    match o
    case Some(x) => if x == 0 then None else o
    case None => None
  }

  /** The strict comparison `doc.presentationId === presentationId`: a
      document without a reference never matches. */
  function DocumentOf(presentationId: int): (p: Document -> bool)
    ensures forall d: Document :: p(d) <==> d.presentationId.Some? && d.presentationId.value == presentationId
  {
    (d: Document) => d.presentationId == Some(presentationId)
  }

  /** The strict comparison `image.presentationId === presentationId`: an
      image without a reference never matches. */
  function ImageOf(presentationId: int): (p: SlideImageRecord -> bool)
    ensures forall img: SlideImageRecord :: p(img) <==> img.presentationId.Some? && img.presentationId.value == presentationId
  {
    (img: SlideImageRecord) => img.presentationId == Some(presentationId)
  }

  function DocumentId(d: Document): int { d.id }

  function ImageId(img: SlideImageRecord): int { img.id }

  function Identity(k: int): int { k }

  function OtherThan(id: int): int -> bool
  {
    (k: int) => k != id
  }

  /** `order` lists the keys of a JavaScript Map in insertion order; since
      keys come from a counter and are never re-inserted, that order is ascending. */
  ghost predicate InsertionOrder(order: seq<int>, keys: set<int>)
  {
    && Seqs.IncreasingBy(order, Identity)
    && (forall i :: 0 <= i < |order| ==> order[i] in keys)
    && (forall k :: k in keys ==> k in order)
  }

  /** The values of a map listed in the given key order. */
  function ValuesInOrder<V>(m: map<int, V>, order: seq<int>): (vs: seq<V>)
    requires forall i :: 0 <= i < |order| ==> order[i] in m
    ensures |vs| == |order|
    ensures forall i :: 0 <= i < |vs| ==> vs[i] == m[order[i]]
  {
    seq(|order|, i requires 0 <= i < |order| => m[order[i]])
  }

  class MemStorage {
    var presentations: map<int, Presentation>
    var documents: map<int, Document>
    var slideImages: map<int, SlideImageRecord>
    /** The keys of `documents` and `slideImages` in insertion order: the
        order in which `Map.prototype.values()` visits them. */
    var documentOrder: seq<int>
    var slideImageOrder: seq<int>
    var currentPresentationId: int
    var currentDocumentId: int
    var currentSlideImageId: int

    /** Every key lies below its counter, every record carries its own key
        as `id`, and no stored weak reference is 0. */
    ghost predicate Valid()
      reads this
    {
      && 1 <= currentPresentationId && 1 <= currentDocumentId && 1 <= currentSlideImageId
      && (forall k :: k in presentations ==> 1 <= k < currentPresentationId && presentations[k].id == k)
      && (forall k :: k in documents ==>
            1 <= k < currentDocumentId && documents[k].id == k && documents[k].presentationId != Some(0))
      && (forall k :: k in slideImages ==>
            1 <= k < currentSlideImageId && slideImages[k].id == k && slideImages[k].presentationId != Some(0))
      && InsertionOrder(documentOrder, documents.Keys)
      && InsertionOrder(slideImageOrder, slideImages.Keys)
    }

    /** The parts of the store each entity kind owns, for saying that an
        operation leaves a kind alone. */
    ghost function PresentationState(): (map<int, Presentation>, int)
      reads this
    {
      (presentations, currentPresentationId)
    }

    ghost function DocumentState(): (map<int, Document>, seq<int>, int)
      reads this
    {
      (documents, documentOrder, currentDocumentId)
    }

    ghost function SlideImageState(): (map<int, SlideImageRecord>, seq<int>, int)
      reads this
    {
      (slideImages, slideImageOrder, currentSlideImageId)
    }

    /** `Array.from(this.documents.values())`. */
    function DocumentsInOrder(): (ds: seq<Document>)
      requires Valid()
      reads this
      ensures |ds| == |documentOrder|
      ensures forall i :: 0 <= i < |ds| ==> ds[i] == documents[documentOrder[i]]
    {
      ValuesInOrder(documents, documentOrder)
    }

    /** `Array.from(this.slideImages.values())`. */
    function SlideImagesInOrder(): (imgs: seq<SlideImageRecord>)
      requires Valid()
      reads this
      ensures |imgs| == |slideImageOrder|
      ensures forall i :: 0 <= i < |imgs| ==> imgs[i] == slideImages[slideImageOrder[i]]
    {
      ValuesInOrder(slideImages, slideImageOrder)
    }

    /** The value list holds every stored document, in ascending id. */
    lemma DocumentsInOrderFacts()
      requires Valid()
      ensures forall k :: k in documents ==> documents[k] in DocumentsInOrder()
      ensures forall d :: d in DocumentsInOrder() ==> d.id in documents && documents[d.id] == d
      ensures Seqs.IncreasingBy(DocumentsInOrder(), DocumentId)
    {
      var ds := DocumentsInOrder();
      forall k | k in documents ensures documents[k] in ds {
        var i :| 0 <= i < |documentOrder| && documentOrder[i] == k;
        assert ds[i] == documents[k];
      }
      forall i, j | 0 <= i < j < |ds| ensures DocumentId(ds[i]) < DocumentId(ds[j]) {
        assert Identity(documentOrder[i]) < Identity(documentOrder[j]);
      }
    }

    lemma SlideImagesInOrderFacts()
      requires Valid()
      ensures forall k :: k in slideImages ==> slideImages[k] in SlideImagesInOrder()
      ensures forall img :: img in SlideImagesInOrder() ==> img.id in slideImages && slideImages[img.id] == img
      ensures Seqs.IncreasingBy(SlideImagesInOrder(), ImageId)
    {
      var imgs := SlideImagesInOrder();
      forall k | k in slideImages ensures slideImages[k] in imgs {
        var i :| 0 <= i < |slideImageOrder| && slideImageOrder[i] == k;
        assert imgs[i] == slideImages[k];
      }
      forall i, j | 0 <= i < j < |imgs| ensures ImageId(imgs[i]) < ImageId(imgs[j]) {
        assert Identity(slideImageOrder[i]) < Identity(slideImageOrder[j]);
      }
    }

    /** The documents a filter on `presentationId` keeps are exactly the
        stored documents carrying that reference, in ascending id; none carry 0. */
    lemma DocumentsMatching(presentationId: int)
      requires Valid()
      ensures forall d :: d in Seqs.Filter(DocumentsInOrder(), DocumentOf(presentationId)) ==>
                d.presentationId == Some(presentationId) && d.id in documents && documents[d.id] == d
      ensures forall k :: k in documents && documents[k].presentationId == Some(presentationId) ==>
                documents[k] in Seqs.Filter(DocumentsInOrder(), DocumentOf(presentationId))
      ensures Seqs.IncreasingBy(Seqs.Filter(DocumentsInOrder(), DocumentOf(presentationId)), DocumentId)
      ensures presentationId == 0 ==> Seqs.Filter(DocumentsInOrder(), DocumentOf(presentationId)) == []
    {
      var all := DocumentsInOrder();
      var docs := Seqs.Filter(all, DocumentOf(presentationId));
      DocumentsInOrderFacts();
      Seqs.FilterIncreasing(all, DocumentOf(presentationId), DocumentId);
      if presentationId == 0 {
        forall i | 0 <= i < |all| ensures !DocumentOf(0)(all[i]) {
          assert documentOrder[i] in documents;
        }
        Seqs.FilterNone(all, DocumentOf(0));
      }
    }

    lemma SlideImagesMatching(presentationId: int)
      requires Valid()
      ensures forall img :: img in Seqs.Filter(SlideImagesInOrder(), ImageOf(presentationId)) ==>
                img.presentationId == Some(presentationId) && img.id in slideImages && slideImages[img.id] == img
      ensures forall k :: k in slideImages && slideImages[k].presentationId == Some(presentationId) ==>
                slideImages[k] in Seqs.Filter(SlideImagesInOrder(), ImageOf(presentationId))
      ensures Seqs.IncreasingBy(Seqs.Filter(SlideImagesInOrder(), ImageOf(presentationId)), ImageId)
      ensures presentationId == 0 ==> Seqs.Filter(SlideImagesInOrder(), ImageOf(presentationId)) == []
    {
      var all := SlideImagesInOrder();
      var imgs := Seqs.Filter(all, ImageOf(presentationId));
      SlideImagesInOrderFacts();
      Seqs.FilterIncreasing(all, ImageOf(presentationId), ImageId);
      if presentationId == 0 {
        forall i | 0 <= i < |all| ensures !ImageOf(0)(all[i]) {
          assert slideImageOrder[i] in slideImages;
        }
        Seqs.FilterNone(all, ImageOf(0));
      }
    }

    /** Three empty maps and three counters at 1. */
    constructor ()
      ensures Valid()
      ensures presentations == map[] && documents == map[] && slideImages == map[]
      ensures documentOrder == [] && slideImageOrder == []
      ensures currentPresentationId == 1 && currentDocumentId == 1 && currentSlideImageId == 1
    {
      presentations := map[];
      documents := map[];
      slideImages := map[];
      documentOrder := [];
      slideImageOrder := [];
      currentPresentationId := 1;
      currentDocumentId := 1;
      currentSlideImageId := 1;
    }

    /** Stores the insert data under the next id, stamped with the clock
        reading `now`; the id is larger than every id handed out before. */
    method CreatePresentation(data: InsertPresentation, now: int) returns (p: Presentation)
      requires Valid()
      modifies this
      ensures Valid()
      ensures p == WithIdentity(data, old(currentPresentationId), now)
      ensures p.id !in old(presentations) && forall k :: k in old(presentations) ==> k < p.id
      ensures presentations == old(presentations)[p.id := p]
      ensures currentPresentationId == old(currentPresentationId) + 1
      ensures documents == old(documents) && slideImages == old(slideImages)
      ensures documentOrder == old(documentOrder) && slideImageOrder == old(slideImageOrder)
      ensures currentDocumentId == old(currentDocumentId) && currentSlideImageId == old(currentSlideImageId)
    {
      var id := currentPresentationId;
      currentPresentationId := currentPresentationId + 1;
      p := WithIdentity(data, id, now);
      presentations := presentations[id := p];
    }

    /** `this.presentations.get(id)`. */
    method GetPresentation(id: int) returns (r: Option<Presentation>)
      requires Valid()
      ensures r.Some? <==> id in presentations
      ensures r.Some? ==> r.value == presentations[id] && r.value.id == id
    {
      if id in presentations {
        r := Some(presentations[id]);
      } else {
        r := None;
      }
    }

    /** Read, shallow-merge, write back; an absent id changes nothing. */
    method UpdatePresentation(id: int, updates: PresentationUpdate) returns (r: Option<Presentation>)
      requires Valid()
      modifies this
      ensures Valid()
      ensures id !in old(presentations) ==> r.None? && unchanged(this)
      ensures id in old(presentations) ==>
                && r == Some(ApplyUpdate(old(presentations[id]), updates))
                && presentations == old(presentations)[id := r.value]
      ensures documents == old(documents) && slideImages == old(slideImages)
      ensures documentOrder == old(documentOrder) && slideImageOrder == old(slideImageOrder)
      ensures currentPresentationId == old(currentPresentationId)
      ensures currentDocumentId == old(currentDocumentId) && currentSlideImageId == old(currentSlideImageId)
    {
      if id !in presentations {
        return None;
      }
      var updated := ApplyUpdate(presentations[id], updates);
      presentations := presentations[id := updated];
      r := Some(updated);
    }

    /** `this.presentations.delete(id)`: true iff the key was there; no cascade. */
    method DeletePresentation(id: int) returns (existed: bool)
      requires Valid()
      modifies this
      ensures Valid()
      ensures existed == (id in old(presentations))
      ensures presentations == old(presentations) - {id}
      ensures documents == old(documents) && slideImages == old(slideImages)
      ensures documentOrder == old(documentOrder) && slideImageOrder == old(slideImageOrder)
      ensures currentPresentationId == old(currentPresentationId)
      ensures currentDocumentId == old(currentDocumentId) && currentSlideImageId == old(currentSlideImageId)
    {
      existed := id in presentations;
      presentations := presentations - {id};
    }

    /** Stores a document under the next document id, its reference normalised. */
    method CreateDocument(data: InsertDocument) returns (d: Document)
      requires Valid()
      modifies this
      ensures Valid()
      ensures d == Document(old(currentDocumentId), data.filename, data.content, data.docType,
                            NormalizeReference(data.presentationId))
      ensures d.id !in old(documents)
      ensures documents == old(documents)[d.id := d]
      ensures documentOrder == old(documentOrder) + [d.id]
      ensures currentDocumentId == old(currentDocumentId) + 1
      ensures presentations == old(presentations) && slideImages == old(slideImages)
      ensures slideImageOrder == old(slideImageOrder)
      ensures currentPresentationId == old(currentPresentationId) && currentSlideImageId == old(currentSlideImageId)
    {
      var id := currentDocumentId;
      currentDocumentId := currentDocumentId + 1;
      d := Document(id, data.filename, data.content, data.docType, NormalizeReference(data.presentationId));
      documents := documents[id := d];
      documentOrder := documentOrder + [id];
    }

    /** A linear scan of the documents in insertion order, keeping those
        whose reference is exactly `presentationId`. */
    method GetDocumentsByPresentationId(presentationId: int) returns (docs: seq<Document>)
      requires Valid()
      ensures docs == Seqs.Filter(DocumentsInOrder(), DocumentOf(presentationId))
      ensures forall d :: d in docs ==> d.presentationId == Some(presentationId) && d.id in documents && documents[d.id] == d
      ensures forall k :: k in documents && documents[k].presentationId == Some(presentationId) ==> documents[k] in docs
      ensures Seqs.IncreasingBy(docs, DocumentId)
      ensures presentationId == 0 ==> docs == []
    {
      ghost var all := DocumentsInOrder();
      var p := DocumentOf(presentationId);
      docs := [];
      var i := 0;
      while i < |documentOrder|
        invariant 0 <= i <= |documentOrder|
        invariant docs == Seqs.Filter(all[..i], p)
      {
        var d := documents[documentOrder[i]];
        assert all[..i + 1] == all[..i] + [d];
        Seqs.FilterAppend(all[..i], [d], p);
        if d.presentationId == Some(presentationId) {
          docs := docs + [d];
        }
        i := i + 1;
      }
      assert all[..i] == all;
      DocumentsMatching(presentationId);
    }

    /** Stores an image record under the next image id, its reference normalised. */
    method CreateSlideImage(data: InsertSlideImage) returns (img: SlideImageRecord)
      requires Valid()
      modifies this
      ensures Valid()
      ensures img == SlideImageRecord(old(currentSlideImageId), data.filename, data.url, data.slideIndex,
                                      NormalizeReference(data.presentationId))
      ensures img.id !in old(slideImages)
      ensures slideImages == old(slideImages)[img.id := img]
      ensures slideImageOrder == old(slideImageOrder) + [img.id]
      ensures currentSlideImageId == old(currentSlideImageId) + 1
      ensures presentations == old(presentations) && documents == old(documents)
      ensures documentOrder == old(documentOrder)
      ensures currentPresentationId == old(currentPresentationId) && currentDocumentId == old(currentDocumentId)
    {
      var id := currentSlideImageId;
      currentSlideImageId := currentSlideImageId + 1;
      img := SlideImageRecord(id, data.filename, data.url, data.slideIndex, NormalizeReference(data.presentationId));
      slideImages := slideImages[id := img];
      slideImageOrder := slideImageOrder + [id];
    }

    /** A linear scan of the images in insertion order, keeping those whose
        reference is exactly `presentationId`. */
    method GetSlideImagesByPresentationId(presentationId: int) returns (imgs: seq<SlideImageRecord>)
      requires Valid()
      ensures imgs == Seqs.Filter(SlideImagesInOrder(), ImageOf(presentationId))
      ensures forall img :: img in imgs ==> img.presentationId == Some(presentationId) && img.id in slideImages && slideImages[img.id] == img
      ensures forall k :: k in slideImages && slideImages[k].presentationId == Some(presentationId) ==> slideImages[k] in imgs
      ensures Seqs.IncreasingBy(imgs, ImageId)
      ensures presentationId == 0 ==> imgs == []
    {
      ghost var all := SlideImagesInOrder();
      var p := ImageOf(presentationId);
      imgs := [];
      var i := 0;
      while i < |slideImageOrder|
        invariant 0 <= i <= |slideImageOrder|
        invariant imgs == Seqs.Filter(all[..i], p)
      {
        var img := slideImages[slideImageOrder[i]];
        assert all[..i + 1] == all[..i] + [img];
        Seqs.FilterAppend(all[..i], [img], p);
        if img.presentationId == Some(presentationId) {
          imgs := imgs + [img];
        }
        i := i + 1;
      }
      assert all[..i] == all;
      SlideImagesMatching(presentationId);
    }

    /** `this.slideImages.delete(id)`: true iff the id was there; only that record goes. */
    method DeleteSlideImage(id: int) returns (existed: bool)
      requires Valid()
      modifies this
      ensures Valid()
      ensures existed == (id in old(slideImages))
      ensures slideImages == old(slideImages) - {id}
      ensures slideImageOrder == Seqs.Filter(old(slideImageOrder), OtherThan(id))
      ensures presentations == old(presentations) && documents == old(documents)
      ensures documentOrder == old(documentOrder)
      ensures currentPresentationId == old(currentPresentationId)
      ensures currentDocumentId == old(currentDocumentId) && currentSlideImageId == old(currentSlideImageId)
    {
      existed := id in slideImages;
      Seqs.FilterIncreasing(slideImageOrder, OtherThan(id), Identity);
      slideImages := slideImages - {id};
      slideImageOrder := Seqs.Filter(slideImageOrder, OtherThan(id));
    }
  }

  /** On a fresh store three creations get ids 1, 2 and 3, and a creation
      after deleting 3 gets 4: a deleted id is never handed out again. */
  method FreshStoreIds(data: InsertPresentation, now: int) returns (a: int, b: int, c: int, d: int)
    ensures a == 1 && b == 2 && c == 3 && d == 4
  {
    var store := new MemStorage();
    var p1 := store.CreatePresentation(data, now);
    var p2 := store.CreatePresentation(data, now);
    var p3 := store.CreatePresentation(data, now);
    var _ := store.DeletePresentation(p3.id);
    var p4 := store.CreatePresentation(data, now);
    a, b, c, d := p1.id, p2.id, p3.id, p4.id;
  }

  /** On any store, a presentation created after another was created and
      deleted, with a document, an image and an update in between, gets a
      larger id than every earlier one: a deleted id is never handed out again. */
  method DeletedIdNotReused(store: MemStorage, data: InsertPresentation, doc: InsertDocument,
                            image: InsertSlideImage, updates: PresentationUpdate, now: int)
    returns (first: int, second: int)
    requires store.Valid()
    modifies store
    ensures store.Valid()
    ensures old(store.currentPresentationId) <= first < second
    ensures forall k :: k in old(store.presentations) ==> k < first
    ensures first !in store.presentations && second in store.presentations
  {
    var p := store.CreatePresentation(data, now);
    var _ := store.DeletePresentation(p.id);
    var _ := store.CreateDocument(doc);
    var _ := store.CreateSlideImage(image);
    var _ := store.UpdatePresentation(p.id, updates);
    var q := store.CreatePresentation(data, now);
    first, second := p.id, q.id;
  }
}
