/**
 * `/api/paintings` (app/api/paintings/route.ts): the listing with one thumbnail per
 * painting, creation, and deletion by the `id` query parameter.
 */
module PaintingsRoute {
  import opened Wrappers
  import opened Types
  import opened Tables
  import Decimal
  import opened DataStore

  const THUMBNAIL_PREFIX: string := "https://img.youtube.com/vi/"
  const THUMBNAIL_SUFFIX: string := "/default.jpg"

  /** A painting as listed: its own fields and `main_image`, `None` for JSON `null`. */
  datatype Listing = Listing(painting: Painting, main_image: Option<string>)

  /** `status || undefined`: an empty query value asks for no filter. */
  function StatusFilter(status: Option<string>): (r: Option<string>)
    ensures r.None? <==> status.None? || status == Some("")
    ensures r.Some? ==> r == status
  {
    if status == Some("") then None else status
  }

  const IsMain: PaintingMedia -> bool := (m: PaintingMedia) => m.is_main

  /**
   * `media.find(m => m.is_main) || media[0]`: the first row marked main, else the first
   * row, else nothing.
   */
  function MainMedia(media: seq<PaintingMedia>): (r: Option<PaintingMedia>)
    ensures r.None? <==> media == []
    ensures r.Some? ==> r.value in media
    ensures (exists i :: 0 <= i < |media| && media[i].is_main) ==>
      exists i :: FirstMatch(media, IsMain, i) && r == Some(media[i])
    ensures (forall i :: 0 <= i < |media| ==> !media[i].is_main) && media != [] ==> r == Some(media[0])
  {
    match Find(media, IsMain)
    case Some(m) => Some(m)
    case None => if media == [] then None else Some(media[0])
  }

  /** A nullable text field in a JavaScript condition: present and non-empty. */
  predicate TruthyText(o: Option<string>) {
    o.Some? && o.value != ""
  }

  /** A nullable text field inside a template literal: `null` renders as the word null. */
  function TemplateText(o: Option<string>): string {
    match o
    case None => "null"
    case Some(s) => s
  }

  /**
   * `m?.image_url || m?.video_url ? thumbnail(m.video_url) : null`, with the conditional
   * taking the whole `||` as its test: any truthy url gives a thumbnail, and the
   * thumbnail is always built from `video_url`.
   */
  function MainImage(m: Option<PaintingMedia>): (r: Option<string>)
    ensures r.Some? <==> m.Some? && (TruthyText(m.value.image_url) || TruthyText(m.value.video_url))
    ensures r.Some? ==>
      && |r.value| == |THUMBNAIL_PREFIX| + |TemplateText(m.value.video_url)| + |THUMBNAIL_SUFFIX|
      && r.value[..|THUMBNAIL_PREFIX|] == THUMBNAIL_PREFIX
      && r.value[|THUMBNAIL_PREFIX|..|r.value| - |THUMBNAIL_SUFFIX|] == TemplateText(m.value.video_url)
      && r.value[|r.value| - |THUMBNAIL_SUFFIX|..] == THUMBNAIL_SUFFIX
  {
    if m.Some? && (TruthyText(m.value.image_url) || TruthyText(m.value.video_url)) then
      var t := THUMBNAIL_PREFIX + TemplateText(m.value.video_url) + THUMBNAIL_SUFFIX;
      assert t[|THUMBNAIL_PREFIX|..|t| - |THUMBNAIL_SUFFIX|] == TemplateText(m.value.video_url);
      Some(t)
    else None
  }

  /** A main video gets the thumbnail of its own video id. */
  lemma VideoMainGetsItsThumbnail(m: PaintingMedia, videoId: string)
    requires m.video_url == Some(videoId) && videoId != ""
    ensures MainImage(Some(m)) == Some(THUMBNAIL_PREFIX + videoId + THUMBNAIL_SUFFIX)
  {
  }

  /** A main uploaded image without a video gets the thumbnail of the video id "null". */
  lemma ImageOnlyMainGetsNullThumbnail(m: PaintingMedia)
    requires TruthyText(m.image_url) && m.video_url.None?
    ensures MainImage(Some(m)) == Some(THUMBNAIL_PREFIX + "null" + THUMBNAIL_SUFFIX)
  {
  }

  /** A painting without media, or whose main row has no url, is listed with `null`. */
  lemma NoUrlNoImage(media: seq<PaintingMedia>)
    requires forall i :: 0 <= i < |media| ==> !TruthyText(media[i].image_url) && !TruthyText(media[i].video_url)
    ensures MainImage(MainMedia(media)) == None
  {
  }

  /** The media a lookup returned, none when the painting was not found. */
  function RelatedMedia(relations: Option<PaintingWithRelations>): seq<PaintingMedia> {
    match relations
    case None => []
    case Some(rel) => rel.media
  }

  /**
   * The per-painting step of GET: the painting with the thumbnail of its main media.
   * For a painting of the store, that media is the painting's own sorted media.
   */
  function ListingOf(store: Store, p: Painting): (l: Listing)
    reads store
    ensures l.painting == p
    ensures p in store.paintings ==> l.main_image == MainImage(MainMedia(store.GetPaintingMedia(p.id)))
  {
    var relations := store.GetPaintingWithRelations(p.id);
    assert p in store.paintings ==> relations.Some?;
    Listing(p, MainImage(MainMedia(RelatedMedia(relations))))
  }

  /** `paintings.map(...)`: one listing per painting, in order. */
  function Listings(store: Store, ps: seq<Painting>): (r: seq<Listing>)
    reads store
    ensures |r| == |ps|
    ensures forall i :: 0 <= i < |ps| ==> r[i].painting == ps[i]
    ensures forall i :: 0 <= i < |ps| && ps[i] in store.paintings ==>
      r[i].main_image == MainImage(MainMedia(store.GetPaintingMedia(ps[i].id)))
  {
    seq(|ps|, i requires 0 <= i < |ps| reads store => ListingOf(store, ps[i]))
  }

  /**
   * GET: the paintings `getPaintings` gives for the status query, in that order, each
   * with the thumbnail of its main media.
   */
  function Get(store: Store, status: Option<string>): (r: seq<Listing>)
    reads store
    ensures |r| == |store.GetPaintings(StatusFilter(status))|
    ensures forall i :: 0 <= i < |r| ==> r[i].painting == store.GetPaintings(StatusFilter(status))[i]
    ensures forall i :: 0 <= i < |r| ==>
      r[i].main_image == MainImage(MainMedia(store.GetPaintingMedia(r[i].painting.id)))
    ensures status.None? || status == Some("") ==> |r| == |store.paintings|
  {
    var ps := store.GetPaintings(StatusFilter(status));
    Listings(store, ps)
  }

  /** A listing filtered by a status shows only paintings of that status. */
  lemma FilteredListingHasThatStatus(store: Store, status: string, i: nat)
    requires status != ""
    requires i < |Get(store, Some(status))|
    ensures StatusText(Get(store, Some(status))[i].painting.status) == status
  {
    assert Get(store, Some(status))[i].painting in store.GetPaintings(Some(status));
  }

  /**
   * POST: a body that does not parse answers 500 and writes nothing; otherwise the
   * painting is created and returned with 201.
   */
  method Post(store: Store, body: Option<PaintingDraft>, isoNow: string, millis: nat)
    returns (status: int, created: Option<Painting>)
    modifies store
    ensures body.None? ==> status == 500 && created.None? && store.Snapshot() == old(store.Snapshot())
    ensures body.Some? ==>
      && status == 201
      && created == Some(Painting(Decimal.Tagged("painting-", millis), body.value.title_he,
                                  body.value.subtitle_he, body.value.short_description_he,
                                  body.value.status, isoNow, isoNow))
      && store.Snapshot() == old(store.Snapshot()).(paintings := old(store.paintings) + [created.value])
    ensures old(store.ReferencesHold()) ==> store.ReferencesHold()
  {
    if body.None? {
      return 500, None;
    }
    var p := store.CreatePainting(body.value, isoNow, millis);
    return 201, Some(p);
  }

  /**
   * DELETE: 400 without a non-empty `id`, 404 when no painting has it (nothing written
   * in either case), otherwise 200 after the cascading delete.
   */
  method Delete(store: Store, id: Option<string>) returns (status: int)
    modifies store
    ensures status in {200, 400, 404}
    ensures status == 400 <==> id.None? || id == Some("")
    ensures status == 404 <==>
      && id.Some? && id.value != ""
      && forall i :: 0 <= i < |old(store.paintings)| ==> old(store.paintings)[i].id != id.value
    ensures status != 200 ==> store.Snapshot() == old(store.Snapshot())
    ensures status == 200 ==>
      exists i ::
        && FirstMatch(old(store.paintings), PaintingIdIs(id.value), i)
        && store.paintings == RemoveAt(old(store.paintings), i)
    ensures status == 200 ==>
      && store.paintingMedia == Filter(old(store.paintingMedia), NotChildOf(MediaParent, id.value))
      && store.paintingSizes == Filter(old(store.paintingSizes), NotChildOf(SizeParent, id.value))
      && store.siteSettings == old(store.siteSettings)
    ensures old(store.ReferencesHold()) ==> store.ReferencesHold()
  {
    if id.None? || id.value == "" {
      return 400;
    }
    var found := store.DeletePainting(id.value);
    if !found {
      return 404;
    }
    return 200;
  }
}
