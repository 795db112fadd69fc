/**
 * The JSON-document store (lib/data-store.ts). The document that `readDb` loads and
 * `writeDb` saves is the state of a `Store` object; each exported operation is a
 * member that reads it (the queries) or changes it in place (the mutators).
 */
module DataStore {
  import opened Wrappers
  import opened Types
  import opened Tables
  import Decimal

  // Keys and row predicates the store filters and searches by.

  function PaintingIdIs(id: string): Painting -> bool {
    (p: Painting) => p.id == id
  }

  function StatusIs(status: string): Painting -> bool {
    (p: Painting) => StatusText(p.status) == status
  }

  function MediaIdIs(id: string): PaintingMedia -> bool {
    (m: PaintingMedia) => m.id == id
  }

  function SizeIdIs(id: string): PaintingSize -> bool {
    (s: PaintingSize) => s.id == id
  }

  function MediaParent(m: PaintingMedia): string { m.painting_id }
  function MediaOrder(m: PaintingMedia): int { m.sort_order }
  function SizeParent(s: PaintingSize): string { s.painting_id }
  function SizeOrder(s: PaintingSize): int { s.sort_order }

  // Object spread `{ ...row, ...updates }`: a key present in the patch wins.

  /** `after` is what the spread leaves for one field. */
  predicate Merged<T(==)>(before: T, update: Option<T>, after: T) {
    if update.Some? then after == update.value else after == before
  }

  function MergeSettings(s: SiteSettings, u: SettingsPatch): (r: SiteSettings)
    ensures Merged(s.hero_image_url, u.hero_image_url, r.hero_image_url)
    ensures Merged(s.hero_title_he, u.hero_title_he, r.hero_title_he)
    ensures Merged(s.hero_subtitle_he, u.hero_subtitle_he, r.hero_subtitle_he)
    ensures Merged(s.contact_email, u.contact_email, r.contact_email)
    ensures Merged(s.contact_phone, u.contact_phone, r.contact_phone)
    ensures Merged(s.instagram_url, u.instagram_url, r.instagram_url)
    ensures Merged(s.facebook_url, u.facebook_url, r.facebook_url)
  {
    SiteSettings(
      u.hero_image_url.GetOr(s.hero_image_url),
      u.hero_title_he.GetOr(s.hero_title_he),
      u.hero_subtitle_he.GetOr(s.hero_subtitle_he),
      u.contact_email.GetOr(s.contact_email),
      u.contact_phone.GetOr(s.contact_phone),
      u.instagram_url.GetOr(s.instagram_url),
      u.facebook_url.GetOr(s.facebook_url))
  }

  /** `{ ...a, ...b }` on two patches: what either names, `b` winning where both do. */
  function CombineSettings(a: SettingsPatch, b: SettingsPatch): SettingsPatch {
    SettingsPatch(
      if b.hero_image_url.Some? then b.hero_image_url else a.hero_image_url,
      if b.hero_title_he.Some? then b.hero_title_he else a.hero_title_he,
      if b.hero_subtitle_he.Some? then b.hero_subtitle_he else a.hero_subtitle_he,
      if b.contact_email.Some? then b.contact_email else a.contact_email,
      if b.contact_phone.Some? then b.contact_phone else a.contact_phone,
      if b.instagram_url.Some? then b.instagram_url else a.instagram_url,
      if b.facebook_url.Some? then b.facebook_url else a.facebook_url)
  }

  /** Two successive settings updates are one update with the combined patch. */
  lemma MergeSettingsCompose(s: SiteSettings, a: SettingsPatch, b: SettingsPatch)
    ensures MergeSettings(MergeSettings(s, a), b) == MergeSettings(s, CombineSettings(a, b))
  {
  }

  /** Repeating a settings update changes nothing more. */
  lemma MergeSettingsIdempotent(s: SiteSettings, u: SettingsPatch)
    ensures MergeSettings(MergeSettings(s, u), u) == MergeSettings(s, u)
  {
    MergeSettingsCompose(s, u, u);
    assert CombineSettings(u, u) == u;
  }

  /**
   * `{ ...painting, ...updates, updated_at: now }`: the id and creation time are kept,
   * the patch's fields override, and the update time is the clock's even if the patch names one.
   */
  function MergePainting(p: Painting, u: PaintingPatch, now: string): (r: Painting)
    ensures r.id == p.id && r.created_at == p.created_at && r.updated_at == now
    ensures Merged(p.title_he, u.title_he, r.title_he)
    ensures Merged(p.subtitle_he, u.subtitle_he, r.subtitle_he)
    ensures Merged(p.short_description_he, u.short_description_he, r.short_description_he)
    ensures Merged(p.status, u.status, r.status)
  {
    Painting(
      p.id,
      u.title_he.GetOr(p.title_he),
      u.subtitle_he.GetOr(p.subtitle_he),
      u.short_description_he.GetOr(p.short_description_he),
      u.status.GetOr(p.status),
      p.created_at,
      now)
  }

  /** Repeating a painting update at the same clock reading changes nothing more. */
  lemma MergePaintingIdempotent(p: Painting, u: PaintingPatch, now: string)
    ensures MergePainting(MergePainting(p, u, now), u, now) == MergePainting(p, u, now)
  {
  }

  /** `{ ...media, ...updates }`: the id is kept, the patch's fields override. */
  function MergeMedia(m: PaintingMedia, u: MediaPatch): (r: PaintingMedia)
    ensures r.id == m.id
    ensures Merged(m.painting_id, u.painting_id, r.painting_id)
    ensures Merged(m.media_type, u.media_type, r.media_type)
    ensures Merged(m.image_url, u.image_url, r.image_url)
    ensures Merged(m.video_url, u.video_url, r.video_url)
    ensures Merged(m.sort_order, u.sort_order, r.sort_order)
    ensures Merged(m.is_main, u.is_main, r.is_main)
  {
    PaintingMedia(
      m.id,
      u.painting_id.GetOr(m.painting_id),
      u.media_type.GetOr(m.media_type),
      u.image_url.GetOr(m.image_url),
      u.video_url.GetOr(m.video_url),
      u.sort_order.GetOr(m.sort_order),
      u.is_main.GetOr(m.is_main))
  }

  /** `{ ...size, ...updates }`: the id is kept, the patch's fields override. */
  function MergeSize(s: PaintingSize, u: SizePatch): (r: PaintingSize)
    ensures r.id == s.id
    ensures Merged(s.painting_id, u.painting_id, r.painting_id)
    ensures Merged(s.size_label_he, u.size_label_he, r.size_label_he)
    ensures Merged(s.price_ils, u.price_ils, r.price_ils)
    ensures Merged(s.sort_order, u.sort_order, r.sort_order)
    ensures Merged(s.is_active, u.is_active, r.is_active)
    ensures Merged(s.is_default, u.is_default, r.is_default)
  {
    PaintingSize(
      s.id,
      u.painting_id.GetOr(s.painting_id),
      u.size_label_he.GetOr(s.size_label_he),
      u.price_ils.GetOr(s.price_ils),
      u.sort_order.GetOr(s.sort_order),
      u.is_active.GetOr(s.is_active),
      u.is_default.GetOr(s.is_default))
  }

  /** Every media and size row names a painting that is in the table. */
  ghost predicate ReferencesResolve(ps: seq<Painting>, ms: seq<PaintingMedia>, ss: seq<PaintingSize>) {
    && (forall m :: m in ms ==> exists p :: p in ps && p.id == m.painting_id)
    && (forall s :: s in ss ==> exists p :: p in ps && p.id == s.painting_id)
  }

  /** A painting other than the one at `i` survives its removal. */
  lemma RemoveAtKeeps(ps: seq<Painting>, i: nat, q: Painting)
    requires i < |ps| && q in ps && q != ps[i]
    ensures q in RemoveAt(ps, i)
  {
    var j :| 0 <= j < |ps| && ps[j] == q;
    if j < i {
      assert RemoveAt(ps, i)[j] == q;
    } else {
      assert RemoveAt(ps, i)[j - 1] == q;
    }
  }

  /** Replacing a painting by one with the same id keeps every reference resolvable. */
  lemma ReplaceKeepsReferences(ps: seq<Painting>, ms: seq<PaintingMedia>, ss: seq<PaintingSize>, i: nat, q: Painting)
    requires ReferencesResolve(ps, ms, ss)
    requires i < |ps| && q.id == ps[i].id
    ensures ReferencesResolve(ps[i := q], ms, ss)
  {
    forall m | m in ms ensures exists p :: p in ps[i := q] && p.id == m.painting_id {
      ReplaceKeepsId(ps, i, q, m.painting_id);
    }
    forall s | s in ss ensures exists p :: p in ps[i := q] && p.id == s.painting_id {
      ReplaceKeepsId(ps, i, q, s.painting_id);
    }
  }

  lemma ReplaceKeepsId(ps: seq<Painting>, i: nat, q: Painting, id: string)
    requires i < |ps| && q.id == ps[i].id
    requires exists p :: p in ps && p.id == id
    ensures exists p :: p in ps[i := q] && p.id == id
  {
    var ps' := ps[i := q];
    var p :| p in ps && p.id == id;
    var j :| 0 <= j < |ps| && ps[j] == p;
    if j == i {
      assert ps'[i] == q;
    } else {
      assert ps'[j] == p;
    }
  }

  /**
   * The cascade of deletePainting leaves no dangling row: removing a painting together
   * with every media and size row of its id keeps every remaining reference resolvable.
   */
  lemma DeleteCascadeKeepsReferences(ps: seq<Painting>, ms: seq<PaintingMedia>, ss: seq<PaintingSize>, id: string, i: nat)
    requires ReferencesResolve(ps, ms, ss)
    requires i < |ps| && ps[i].id == id
    ensures ReferencesResolve(RemoveAt(ps, i),
                              Filter(ms, NotChildOf(MediaParent, id)),
                              Filter(ss, NotChildOf(SizeParent, id)))
  {
    var ps' := RemoveAt(ps, i);
    forall m | m in Filter(ms, NotChildOf(MediaParent, id))
      ensures exists p :: p in ps' && p.id == m.painting_id
    {
      var q :| q in ps && q.id == m.painting_id;
      RemoveAtKeeps(ps, i, q);
    }
    forall s | s in Filter(ss, NotChildOf(SizeParent, id))
      ensures exists p :: p in ps' && p.id == s.painting_id
    {
      var q :| q in ps && q.id == s.painting_id;
      RemoveAtKeeps(ps, i, q);
    }
  }

  class Store {
    var siteSettings: SiteSettings
    var paintings: seq<Painting>
    var paintingMedia: seq<PaintingMedia>
    var paintingSizes: seq<PaintingSize>

    /** A store holding the document `db` (what `readDb` would load). */
    constructor (db: Database)
      ensures Snapshot() == db
    {
      siteSettings := db.siteSettings;
      paintings := db.paintings;
      paintingMedia := db.paintingMedia;
      paintingSizes := db.paintingSizes;
    }

    /** The whole document, as `writeDb` would save it. */
    function Snapshot(): Database
      reads this
    {
      Database(siteSettings, paintings, paintingMedia, paintingSizes)
    }

    ghost predicate ReferencesHold()
      reads this
    {
      ReferencesResolve(paintings, paintingMedia, paintingSizes)
    }

    // ---------------- site settings ----------------

    function GetSiteSettings(): SiteSettings
      reads this
    {
      siteSettings
    }

    /** The settings with exactly the fields named in `settings` overwritten; nothing else changes. */
    method UpdateSiteSettings(settings: SettingsPatch) returns (r: SiteSettings)
      modifies this
      ensures r == MergeSettings(old(siteSettings), settings)
      ensures GetSiteSettings() == r
      ensures Snapshot() == old(Snapshot()).(siteSettings := r)
    {
      siteSettings := MergeSettings(siteSettings, settings);
      r := siteSettings;
    }

    // ---------------- paintings ----------------

    /**
     * With a non-empty status, the paintings of that status in store order; with
     * none (or the empty string, which JavaScript treats as false), the whole table.
     */
    function GetPaintings(status: Option<string>): (r: seq<Painting>)
      reads this
      ensures status.None? || status.value == "" ==> r == paintings
      ensures status.Some? && status.value != "" ==>
        && IsSubsequence(r, paintings)
        && (forall p :: p in r <==> p in paintings && StatusText(p.status) == status.value)
        && (forall p: Painting :: StatusText(p.status) == status.value ==> multiset(r)[p] == multiset(paintings)[p])
    {
      if status.Some? && status.value != "" then
        FilterCount(paintings, StatusIs(status.value));
        Filter(paintings, StatusIs(status.value))
      else paintings
    }

    /** The first painting with that id, or `None` (the source's `null`) when there is none. */
    function GetPainting(id: string): (r: Option<Painting>)
      reads this
      ensures r.None? <==> forall i :: 0 <= i < |paintings| ==> paintings[i].id != id
      ensures r.Some? ==> r.value.id == id
      ensures r.Some? ==> exists i :: FirstMatch(paintings, PaintingIdIs(id), i) && paintings[i] == r.value
    {
      Find(paintings, PaintingIdIs(id))
    }

    /**
     * The media of one painting: exactly its rows, each as often as stored, ordered by
     * `sort_order`, rows with equal `sort_order` in store order.
     */
    function GetPaintingMedia(paintingId: string): (r: seq<PaintingMedia>)
      reads this
      ensures forall m :: m in r <==> m in paintingMedia && m.painting_id == paintingId
      ensures forall m :: multiset(r)[m] == if m.painting_id == paintingId then multiset(paintingMedia)[m] else 0
      ensures SortedBy(r, MediaOrder)
      ensures forall k :: WithKey(r, MediaOrder, k)
                       == WithKey(Filter(paintingMedia, ChildOf(MediaParent, paintingId)), MediaOrder, k)
    {
      SortedChildren(paintingMedia, MediaParent, MediaOrder, paintingId)
    }

    /**
     * The sizes of one painting: exactly its rows, each as often as stored, ordered by
     * `sort_order`, rows with equal `sort_order` in store order.
     */
    function GetPaintingSizes(paintingId: string): (r: seq<PaintingSize>)
      reads this
      ensures forall s :: s in r <==> s in paintingSizes && s.painting_id == paintingId
      ensures forall s :: multiset(r)[s] == if s.painting_id == paintingId then multiset(paintingSizes)[s] else 0
      ensures SortedBy(r, SizeOrder)
      ensures forall k :: WithKey(r, SizeOrder, k)
                       == WithKey(Filter(paintingSizes, ChildOf(SizeParent, paintingId)), SizeOrder, k)
    {
      SortedChildren(paintingSizes, SizeParent, SizeOrder, paintingId)
    }

    /**
     * `None` when no painting has that id; otherwise the first such painting with its
     * media and sizes as GetPaintingMedia and GetPaintingSizes give them.
     */
    function GetPaintingWithRelations(id: string): (r: Option<PaintingWithRelations>)
      reads this
      ensures r.None? <==> forall i :: 0 <= i < |paintings| ==> paintings[i].id != id
      ensures r.Some? ==> Some(r.value.painting) == GetPainting(id)
      ensures r.Some? ==> r.value.media == GetPaintingMedia(id) && r.value.sizes == GetPaintingSizes(id)
    {
      match Find(paintings, PaintingIdIs(id))
      case None => None
      case Some(painting) =>
        Some(PaintingWithRelations(
          painting,
          SortedChildren(paintingMedia, MediaParent, MediaOrder, id),
          SortedChildren(paintingSizes, SizeParent, SizeOrder, id)))
    }

    /**
     * Appends one painting with id `painting-<millis>` and both timestamps `isoNow`;
     * nothing else changes. `isoNow` and `millis` are the two clock readings of the source.
     */
    method CreatePainting(painting: PaintingDraft, isoNow: string, millis: nat) returns (p: Painting)
      modifies this
      ensures p == Painting(Decimal.Tagged("painting-", millis), painting.title_he, painting.subtitle_he,
                            painting.short_description_he, painting.status, isoNow, isoNow)
      ensures Snapshot() == old(Snapshot()).(paintings := old(paintings) + [p])
      ensures old(ReferencesHold()) ==> ReferencesHold()
    {
      p := Painting(Decimal.Tagged("painting-", millis), painting.title_he, painting.subtitle_he,
                    painting.short_description_he, painting.status, isoNow, isoNow);
      paintings := paintings + [p];
    }

    /**
     * No painting with that id: `None`, nothing written. Otherwise only the first painting
     * with that id changes, to the merge of it with `updates` stamped `isoNow`.
     */
    method UpdatePainting(id: string, updates: PaintingPatch, isoNow: string) returns (r: Option<Painting>)
      modifies this
      ensures r.None? <==> forall i :: 0 <= i < |old(paintings)| ==> old(paintings)[i].id != id
      ensures r.None? ==> Snapshot() == old(Snapshot())
      ensures r.Some? ==>
        exists i ::
          && FirstMatch(old(paintings), PaintingIdIs(id), i)
          && r.value == MergePainting(old(paintings)[i], updates, isoNow)
          && Snapshot() == old(Snapshot()).(paintings := old(paintings)[i := r.value])
      ensures old(ReferencesHold()) ==> ReferencesHold()
    {
      var index := FindIndex(paintings, PaintingIdIs(id));
      if index.None? {
        return None;
      }
      var i := index.value;
      ghost var before := paintings;
      paintings := paintings[i := MergePainting(paintings[i], updates, isoNow)];
      r := Some(paintings[i]);
      assert FirstMatch(before, PaintingIdIs(id), i);
      if ReferencesResolve(before, paintingMedia, paintingSizes) {
        ReplaceKeepsReferences(before, paintingMedia, paintingSizes, i, r.value);
      }
    }

    /**
     * No painting with that id: `false`, nothing written. Otherwise the first such painting
     * is spliced out and every media and size row of that id is dropped, all other rows
     * keeping their order.
     */
    method DeletePainting(id: string) returns (found: bool)
      modifies this
      ensures !found <==> forall i :: 0 <= i < |old(paintings)| ==> old(paintings)[i].id != id
      ensures !found ==> Snapshot() == old(Snapshot())
      ensures found ==>
        exists i ::
          && FirstMatch(old(paintings), PaintingIdIs(id), i)
          && paintings == RemoveAt(old(paintings), i)
      ensures found ==> paintingMedia == Filter(old(paintingMedia), NotChildOf(MediaParent, id))
      ensures found ==> paintingSizes == Filter(old(paintingSizes), NotChildOf(SizeParent, id))
      ensures found ==> siteSettings == old(siteSettings)
      ensures found ==> GetPaintingMedia(id) == [] && GetPaintingSizes(id) == []
      ensures old(ReferencesHold()) ==> ReferencesHold()
    {
      var index := FindIndex(paintings, PaintingIdIs(id));
      if index.None? {
        return false;
      }
      var i := index.value;
      if ReferencesHold() {
        DeleteCascadeKeepsReferences(paintings, paintingMedia, paintingSizes, id, i);
      }
      paintings := RemoveAt(paintings, i);
      paintingMedia := Filter(paintingMedia, NotChildOf(MediaParent, id));
      paintingSizes := Filter(paintingSizes, NotChildOf(SizeParent, id));
      found := true;
      NoChildrenAfterRemoval(old(paintingMedia), MediaParent, MediaOrder, id);
      NoChildrenAfterRemoval(old(paintingSizes), SizeParent, SizeOrder, id);
    }

    // ---------------- painting media ----------------

    /** Appends one media row with id `media-<millis>`; nothing else changes. */
    method AddPaintingMedia(media: MediaDraft, millis: nat) returns (m: PaintingMedia)
      modifies this
      ensures m == PaintingMedia(Decimal.Tagged("media-", millis), media.painting_id, media.media_type,
                                 media.image_url, media.video_url, media.sort_order, media.is_main)
      ensures Snapshot() == old(Snapshot()).(paintingMedia := old(paintingMedia) + [m])
    {
      m := PaintingMedia(Decimal.Tagged("media-", millis), media.painting_id, media.media_type,
                         media.image_url, media.video_url, media.sort_order, media.is_main);
      paintingMedia := paintingMedia + [m];
    }

    /** Absent id: `None`, nothing written. Otherwise only the first row with that id is merged with `updates`. */
    method UpdatePaintingMedia(id: string, updates: MediaPatch) returns (r: Option<PaintingMedia>)
      modifies this
      ensures r.None? <==> forall i :: 0 <= i < |old(paintingMedia)| ==> old(paintingMedia)[i].id != id
      ensures r.None? ==> Snapshot() == old(Snapshot())
      ensures r.Some? ==>
        exists i ::
          && FirstMatch(old(paintingMedia), MediaIdIs(id), i)
          && r.value == MergeMedia(old(paintingMedia)[i], updates)
          && Snapshot() == old(Snapshot()).(paintingMedia := old(paintingMedia)[i := r.value])
    {
      var index := FindIndex(paintingMedia, MediaIdIs(id));
      if index.None? {
        return None;
      }
      var i := index.value;
      ghost var before := paintingMedia;
      paintingMedia := paintingMedia[i := MergeMedia(paintingMedia[i], updates)];
      r := Some(paintingMedia[i]);
      assert FirstMatch(before, MediaIdIs(id), i);
    }

    /** Absent id: `false`, nothing written. Otherwise exactly the first row with that id is spliced out. */
    method DeletePaintingMedia(id: string) returns (found: bool)
      modifies this
      ensures !found <==> forall i :: 0 <= i < |old(paintingMedia)| ==> old(paintingMedia)[i].id != id
      ensures !found ==> Snapshot() == old(Snapshot())
      ensures found ==>
        exists i ::
          && FirstMatch(old(paintingMedia), MediaIdIs(id), i)
          && Snapshot() == old(Snapshot()).(paintingMedia := RemoveAt(old(paintingMedia), i))
      ensures old(ReferencesHold()) ==> ReferencesHold()
    {
      var index := FindIndex(paintingMedia, MediaIdIs(id));
      if index.None? {
        return false;
      }
      var i := index.value;
      ghost var before := paintingMedia;
      paintingMedia := RemoveAt(paintingMedia, i);
      found := true;
      assert FirstMatch(before, MediaIdIs(id), i);
    }

    // ---------------- painting sizes ----------------

    /** Appends one size row with id `size-<millis>`; nothing else changes. */
    method AddPaintingSize(size: SizeDraft, millis: nat) returns (s: PaintingSize)
      modifies this
      ensures s == PaintingSize(Decimal.Tagged("size-", millis), size.painting_id, size.size_label_he,
                                size.price_ils, size.sort_order, size.is_active, size.is_default)
      ensures Snapshot() == old(Snapshot()).(paintingSizes := old(paintingSizes) + [s])
    {
      s := PaintingSize(Decimal.Tagged("size-", millis), size.painting_id, size.size_label_he,
                        size.price_ils, size.sort_order, size.is_active, size.is_default);
      paintingSizes := paintingSizes + [s];
    }

    /** Absent id: `None`, nothing written. Otherwise only the first row with that id is merged with `updates`. */
    method UpdatePaintingSize(id: string, updates: SizePatch) returns (r: Option<PaintingSize>)
      modifies this
      ensures r.None? <==> forall i :: 0 <= i < |old(paintingSizes)| ==> old(paintingSizes)[i].id != id
      ensures r.None? ==> Snapshot() == old(Snapshot())
      ensures r.Some? ==>
        exists i ::
          && FirstMatch(old(paintingSizes), SizeIdIs(id), i)
          && r.value == MergeSize(old(paintingSizes)[i], updates)
          && Snapshot() == old(Snapshot()).(paintingSizes := old(paintingSizes)[i := r.value])
    {
      var index := FindIndex(paintingSizes, SizeIdIs(id));
      if index.None? {
        return None;
      }
      var i := index.value;
      ghost var before := paintingSizes;
      paintingSizes := paintingSizes[i := MergeSize(paintingSizes[i], updates)];
      r := Some(paintingSizes[i]);
      assert FirstMatch(before, SizeIdIs(id), i);
    }

    /** Absent id: `false`, nothing written. Otherwise exactly the first row with that id is spliced out. */
    method DeletePaintingSize(id: string) returns (found: bool)
      modifies this
      ensures !found <==> forall i :: 0 <= i < |old(paintingSizes)| ==> old(paintingSizes)[i].id != id
      ensures !found ==> Snapshot() == old(Snapshot())
      ensures found ==>
        exists i ::
          && FirstMatch(old(paintingSizes), SizeIdIs(id), i)
          && Snapshot() == old(Snapshot()).(paintingSizes := RemoveAt(old(paintingSizes), i))
      ensures old(ReferencesHold()) ==> ReferencesHold()
    {
      var index := FindIndex(paintingSizes, SizeIdIs(id));
      if index.None? {
        return false;
      }
      var i := index.value;
      ghost var before := paintingSizes;
      paintingSizes := RemoveAt(paintingSizes, i);
      found := true;
      assert FirstMatch(before, SizeIdIs(id), i);
    }
  }
}
