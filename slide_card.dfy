/** The edits one slide card makes to its local copy of a slide
    (client/src/components/SlideCard.tsx). Each returns the whole new slide,
    which the card both keeps and passes to its `onUpdate` callback. */
module SlideCard {
  import opened Schema
  import Seqs

  /** The fields of a slide, for saying which ones an edit touched. */
  datatype Field = Id | Title | Bullets | Layout | Images | Notes

  function ChangedFields(a: Slide, b: Slide): (fs: set<Field>)
    ensures fs == {} <==> a == b
  {
    (if a.id != b.id then {Id} else {}) +
    (if a.title != b.title then {Title} else {}) +
    (if a.bullets != b.bullets then {Bullets} else {}) +
    (if a.layout != b.layout then {Layout} else {}) +
    (if a.images != b.images then {Images} else {}) +
    (if a.notes != b.notes then {Notes} else {})
  }

  const NewBullet: string := "New bullet point"

  function ChangeTitle(s: Slide, title: string): (r: Slide)
    ensures r.title == title && ChangedFields(s, r) <= {Title}
  {
    s.(title := title)
  }

  /** Overwrites the bullet at a position the card renders, so in range. */
  function ChangeBullet(s: Slide, bulletIndex: nat, value: string): (r: Slide)
    requires bulletIndex < |s.bullets|
    ensures |r.bullets| == |s.bullets| && r.bullets[bulletIndex] == value
    ensures forall j :: 0 <= j < |s.bullets| && j != bulletIndex ==> r.bullets[j] == s.bullets[j]
    ensures ChangedFields(s, r) <= {Bullets}
  {
    s.(bullets := s.bullets[bulletIndex := value])
  }

  function AddBullet(s: Slide): (r: Slide)
    ensures |r.bullets| == |s.bullets| + 1
    ensures r.bullets[..|s.bullets|] == s.bullets && r.bullets[|s.bullets|] == NewBullet
    ensures ChangedFields(s, r) == {Bullets}
  {
    s.(bullets := s.bullets + [NewBullet])
  }

  /** `bullets.filter((_, index) => index !== bulletIndex)`. */
  function RemoveBullet(s: Slide, bulletIndex: int): (r: Slide)
    ensures r.bullets == if 0 <= bulletIndex < |s.bullets|
                         then s.bullets[..bulletIndex] + s.bullets[bulletIndex + 1..]
                         else s.bullets
    ensures ChangedFields(s, r) <= {Bullets}
  {
    Seqs.RemoveIndexSplices(s.bullets, bulletIndex);
    s.(bullets := Seqs.RemoveIndex(s.bullets, bulletIndex))
  }

  function ChangeLayout(s: Slide, layout: Layout): (r: Slide)
    ensures r.layout == layout && ChangedFields(s, r) <= {Layout}
  {
    s.(layout := layout)
  }

  /** The upload's success callback: the returned url goes to the end. */
  function AddImage(s: Slide, url: string): (r: Slide)
    ensures |r.images| == |s.images| + 1
    ensures r.images[..|s.images|] == s.images && r.images[|s.images|] == url
    ensures ChangedFields(s, r) == {Images}
  {
    s.(images := s.images + [url])
  }

  /** `images.filter((_, index) => index !== imageIndex)`. */
  function RemoveImage(s: Slide, imageIndex: int): (r: Slide)
    ensures r.images == if 0 <= imageIndex < |s.images|
                        then s.images[..imageIndex] + s.images[imageIndex + 1..]
                        else s.images
    ensures ChangedFields(s, r) <= {Images}
  {
    Seqs.RemoveIndexSplices(s.images, imageIndex);
    s.(images := Seqs.RemoveIndex(s.images, imageIndex))
  }

  /** The card's handlers; a bullet position must be one the card rendered. */
  datatype SlideEdit =
    | TitleChange(title: string)
    | BulletChange(bulletIndex: nat, value: string)
    | BulletAdd
    | BulletRemove(position: int)
    | LayoutChange(layout: Layout)
    | ImageUploaded(url: string)
    | ImageRemove(imageIndex: int)

  predicate Applicable(s: Slide, e: SlideEdit) {
    e.BulletChange? ==> e.bulletIndex < |s.bullets|
  }

  function Apply(s: Slide, e: SlideEdit): Slide
    requires Applicable(s, e)
  {
    match e
    case TitleChange(t) => ChangeTitle(s, t)
    case BulletChange(j, v) => ChangeBullet(s, j, v)
    case BulletAdd => AddBullet(s)
    case BulletRemove(j) => RemoveBullet(s, j)
    case LayoutChange(l) => ChangeLayout(s, l)
    case ImageUploaded(url) => AddImage(s, url)
    case ImageRemove(j) => RemoveImage(s, j)
  }

  /** No handler changes the slide's id, nor its notes. */
  lemma EditKeepsIdentity(s: Slide, e: SlideEdit)
    requires Applicable(s, e)
    ensures Id !in ChangedFields(s, Apply(s, e)) && Notes !in ChangedFields(s, Apply(s, e))
    ensures Apply(s, e).id == s.id && Apply(s, e).notes == s.notes
  {
  }

  /** Removing the bullet just added restores the slide. */
  lemma RemoveBulletUndoesAdd(s: Slide)
    ensures RemoveBullet(AddBullet(s), |s.bullets|) == s
  {
    Seqs.RemoveIndexAfterAppend(s.bullets, NewBullet);
  }

  /** Removing the image just uploaded restores the slide. */
  lemma RemoveImageUndoesUpload(s: Slide, url: string)
    ensures RemoveImage(AddImage(s, url), |s.images|) == s
  {
    Seqs.RemoveIndexAfterAppend(s.images, url);
  }

  /** Writing a bullet's own text back changes nothing. */
  lemma ChangeBulletToSame(s: Slide, bulletIndex: nat)
    requires bulletIndex < |s.bullets|
    ensures ChangeBullet(s, bulletIndex, s.bullets[bulletIndex]) == s
  {
  }
}
