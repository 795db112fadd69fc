/** The record shapes of the gallery's JSON document (lib/types.ts). */
module Types {
  import opened Wrappers

  datatype PaintingStatus = Draft | Active
  datatype MediaType = Image | Video

  /** The literal a status is stored and queried as. */
  function StatusText(s: PaintingStatus): string {
    match s
    case Draft => "draft"
    case Active => "active"
  }

  /** The single site-wide settings record. */
  datatype SiteSettings = SiteSettings(
    hero_image_url: string,
    hero_title_he: string,
    hero_subtitle_he: string,
    contact_email: string,
    contact_phone: string,
    instagram_url: string,
    facebook_url: string)

  datatype Painting = Painting(
    id: string,
    title_he: string,
    subtitle_he: string,
    short_description_he: string,
    status: PaintingStatus,
    created_at: string,
    updated_at: string)

  /** `image_url` and `video_url` are nullable: `None` stands for JSON `null`. */
  datatype PaintingMedia = PaintingMedia(
    id: string,
    painting_id: string,
    media_type: MediaType,
    image_url: Option<string>,
    video_url: Option<string>,
    sort_order: int,
    is_main: bool)

  datatype PaintingSize = PaintingSize(
    id: string,
    painting_id: string,
    size_label_he: string,
    price_ils: int,
    sort_order: int,
    is_active: bool,
    is_default: bool)

  /** A painting with its media and sizes attached. */
  datatype PaintingWithRelations = PaintingWithRelations(
    painting: Painting,
    media: seq<PaintingMedia>,
    sizes: seq<PaintingSize>)

  /** The whole document: the settings record and the three tables. */
  datatype Database = Database(
    siteSettings: SiteSettings,
    paintings: seq<Painting>,
    paintingMedia: seq<PaintingMedia>,
    paintingSizes: seq<PaintingSize>)

  // Inputs of the create operations: a row without the fields the store assigns.

  datatype PaintingDraft = PaintingDraft(
    title_he: string,
    subtitle_he: string,
    short_description_he: string,
    status: PaintingStatus)

  datatype MediaDraft = MediaDraft(
    painting_id: string,
    media_type: MediaType,
    image_url: Option<string>,
    video_url: Option<string>,
    sort_order: int,
    is_main: bool)

  datatype SizeDraft = SizeDraft(
    painting_id: string,
    size_label_he: string,
    price_ils: int,
    sort_order: int,
    is_active: bool,
    is_default: bool)

  // Inputs of the update operations (`Partial<...>`): `None` is a key the patch leaves out.

  datatype SettingsPatch = SettingsPatch(
    hero_image_url: Option<string>,
    hero_title_he: Option<string>,
    hero_subtitle_he: Option<string>,
    contact_email: Option<string>,
    contact_phone: Option<string>,
    instagram_url: Option<string>,
    facebook_url: Option<string>)

  datatype PaintingPatch = PaintingPatch(
    title_he: Option<string>,
    subtitle_he: Option<string>,
    short_description_he: Option<string>,
    status: Option<PaintingStatus>,
    updated_at: Option<string>)

  datatype MediaPatch = MediaPatch(
    painting_id: Option<string>,
    media_type: Option<MediaType>,
    image_url: Option<Option<string>>,
    video_url: Option<Option<string>>,
    sort_order: Option<int>,
    is_main: Option<bool>)

  datatype SizePatch = SizePatch(
    painting_id: Option<string>,
    size_label_he: Option<string>,
    price_ils: Option<int>,
    sort_order: Option<int>,
    is_active: Option<bool>,
    is_default: Option<bool>)
}
