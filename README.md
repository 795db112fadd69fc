# Art gallery back end, modelled in Dafny

This project models the server core of a small Next.js art gallery, an admin-managed catalogue of paintings.

**Table store** (`lib/data-store.ts`). One JSON document holds:
- the site settings;
- three tables: paintings, their media (images and YouTube videos) and their size/price options.

It has read queries (filter, find, sort by `sort_order`) and mutators (append, field-merge update, splice delete, cascading delete of a painting). The model is:
- `Tables`: the array built-ins those operations are written with, as functions on sequences.
- `DataStore.Store`: a class whose four fields the mutators update in place. The document read and written on every call is that object's state.

**Admin gate** (`middleware.ts`, `lib/auth.ts`, `app/api/auth/login/route.ts`):
- The middleware decides on a request path and its cookies.
- The password check compares with the `ADMIN_PASSWORD` environment variable, passed in as an `Option<string>`.
- The session helpers update a cookie jar, modelled as a class holding a map.
- The login handler is an ordered chain of checks that ends in setting the session cookie.

**Upload handler** (`app/api/upload/route.ts`):
- An ordered validator: a file is present, its MIME type is allowed, and it is at most 10 MiB.
- Then a timestamped file name, a write into the uploads directory (a class holding a map from names to bytes), and the public URL.

**Paintings API** (`app/api/paintings/route.ts`):
- GET lists paintings with a `main_image` thumbnail derived from each painting's main media.
- POST creates a painting.
- DELETE maps the store's cascading delete to status codes.

The `main_image` expression is modelled as written. Its conditional tests `image_url || video_url` as a whole, and the thumbnail is always built from `video_url`. So a main row holding only an uploaded image gets the thumbnail of the YouTube id `null`. `PaintingsRoute.ImageOnlyMainGetsNullThumbnail` states this.

The painting editor's size and media list handling lives in the editor page and the per-painting API route, which this model does not cover.

Clock readings, the random file-name suffix and `path.extname` are parameters:
- `isoNow` stands for `new Date().toISOString()`.
- `millis` stands for `Date.now()`.
- `suffix` stands for the base-36 random text.
- `extname` is an uninterpreted function.

Modules:
- `Wrappers` (`Option`, `Result`)
- `Types` (the records of `lib/types.ts`)
- `Tables`
- `Decimal` (how a timestamp reads in a template literal)
- `DataStore`
- `Auth`
- `Middleware`
- `LoginRoute`
- `UploadRoute`
- `PaintingsRoute`

## Model

| member | source | states |
|---|---|---|
| Tables.Filter | lib/data-store.ts:84 | `filter` keeps, in their order, exactly the elements the predicate accepts |
| Tables.FilterCount | lib/data-store.ts:171-172 | each accepted element is kept as many times as it occurs, each rejected one is dropped |
| Tables.FilterAppend | lib/data-store.ts:171-172 | filtering distributes over concatenation, so the kept rows keep their relative order |
| Tables.FilterKeepsAll | lib/data-store.ts:171-172 | a filter that accepts every row gives back the table unchanged |
| Tables.FindIndex | lib/data-store.ts:149-150 | `findIndex` gives none exactly when nothing matches, else the first matching index |
| Tables.Find | lib/data-store.ts:95 | `find` gives none exactly when nothing matches, else the element at the first matching index |
| Tables.RemoveAt | lib/data-store.ts:170 | `splice(i, 1)` drops exactly the element at `i`: one shorter, the prefix kept, the suffix shifted, the multiset less that one element |
| Tables.InsertByKey | lib/data-store.ts:111 | the inserted sequence holds the old elements plus the new one, as a multiset |
| Tables.InsertKeepsSorted | lib/data-store.ts:111 | inserting into a `sort_order`-sorted sequence keeps it sorted |
| Tables.SortByKey | lib/data-store.ts:111 | the sort result is a permutation of its input and non-decreasing in the key |
| Tables.InsertWithKey | lib/data-store.ts:111 | insertion puts the new element before every old element with the same key |
| Tables.SortIsStable | lib/data-store.ts:111 | for every key, the elements with that key appear in input order after the sort |
| Tables.SortedChildren | lib/data-store.ts:109-115 | a parent's rows are exactly its own rows, each as often as stored, sorted by `sort_order`, ties in store order |
| Tables.NoChildrenAfterRemoval | lib/data-store.ts:171-172 | once a parent's rows are filtered out, the children query for that parent is empty |
| Decimal.NatToDecimal | lib/data-store.ts:131 | a timestamp renders as a non-empty run of digits without a leading zero |
| Decimal.DecimalRoundTrip | lib/data-store.ts:131 | parsing the digits back gives the timestamp |
| Decimal.DecimalInjective | app/api/upload/route.ts:41 | different timestamps render differently |
| Decimal.Tagged | lib/data-store.ts:131 | an id `prefix + digits` begins with the prefix, and the timestamp can be read back from the rest |
| Decimal.TaggedInjective | lib/data-store.ts:202 | ids of one prefix made from different timestamps differ |
| DataStore.MergeSettings | lib/data-store.ts:66 | each settings field is the patch's value when the patch names it, the old one otherwise |
| DataStore.MergeSettingsCompose | lib/data-store.ts:62-69 | two successive settings updates equal one update with the later patch winning field by field |
| DataStore.MergeSettingsIdempotent | lib/data-store.ts:62-69 | applying the same settings patch twice is the same as applying it once |
| DataStore.MergePainting | lib/data-store.ts:152-156 | id and `created_at` are kept, `updated_at` is the new time even when the patch names one, other fields are patched or kept |
| DataStore.MergePaintingIdempotent | lib/data-store.ts:152-156 | repeating a painting update at the same time changes nothing more |
| DataStore.MergeMedia | lib/data-store.ts:221 | a media row keeps its id, and each field is patched or kept |
| DataStore.MergeSize | lib/data-store.ts:284 | a size row keeps its id, and each field is patched or kept |
| DataStore.RemoveAtKeeps | lib/data-store.ts:170 | every painting other than the spliced one survives the splice |
| DataStore.ReplaceKeepsReferences | lib/data-store.ts:152-156 | replacing a painting by one with the same id keeps every media and size reference resolvable |
| DataStore.ReplaceKeepsId | lib/data-store.ts:152-156 | an id present before the replacement is present after it |
| DataStore.DeleteCascadeKeepsReferences | lib/data-store.ts:165-175 | removing a painting together with all its media and size rows leaves no dangling reference |
| DataStore.Store.constructor | lib/data-store.ts:22-30 | the store holds the document that was loaded |
| DataStore.Store.UpdateSiteSettings | lib/data-store.ts:62-69 | new settings are the old ones with exactly the patched fields overwritten; it returns them, `getSiteSettings` then gives them, and no table changes |
| DataStore.Store.GetPaintings | lib/data-store.ts:79-87 | with no status or an empty one, the whole table; otherwise exactly the paintings of that status, in store order, each as often as stored |
| DataStore.Store.GetPainting | lib/data-store.ts:93-96 | null exactly when no painting has the id, else the first painting with it |
| DataStore.Store.GetPaintingMedia | lib/data-store.ts:185-190 | exactly the painting's media rows, as a multiset, sorted by `sort_order`, ties in store order |
| DataStore.Store.GetPaintingSizes | lib/data-store.ts:248-253 | exactly the painting's size rows, as a multiset, sorted by `sort_order`, ties in store order |
| DataStore.Store.GetPaintingWithRelations | lib/data-store.ts:102-118 | null exactly when no painting has the id, else the first such painting with its sorted media and sizes |
| DataStore.Store.CreatePainting | lib/data-store.ts:124-138 | one painting appended at the end, id `painting-<millis>`, both timestamps the same `now`, everything else unchanged, references still resolve |
| DataStore.Store.UpdatePainting | lib/data-store.ts:144-159 | unknown id: null and nothing changes; otherwise only the first matching row changes, to its merge with the patch, and references still resolve |
| DataStore.Store.DeletePainting | lib/data-store.ts:165-175 | unknown id: false and nothing changes; otherwise the first match is spliced out and every media and size row of that id is dropped, other rows keeping their order, settings unchanged, references still resolve |
| DataStore.Store.AddPaintingMedia | lib/data-store.ts:196-207 | one media row appended, id `media-<millis>`, everything else unchanged |
| DataStore.Store.UpdatePaintingMedia | lib/data-store.ts:213-224 | unknown id: null and nothing changes; otherwise only the first row with the id is merged |
| DataStore.Store.DeletePaintingMedia | lib/data-store.ts:230-238 | unknown id: false and nothing changes; otherwise exactly the first row with the id is spliced out, references still resolve |
| DataStore.Store.AddPaintingSize | lib/data-store.ts:259-270 | one size row appended, id `size-<millis>`, everything else unchanged |
| DataStore.Store.UpdatePaintingSize | lib/data-store.ts:276-287 | unknown id: null and nothing changes; otherwise only the first row with the id is merged |
| DataStore.Store.DeletePaintingSize | lib/data-store.ts:293-301 | unknown id: false and nothing changes; otherwise exactly the first row with the id is spliced out, references still resolve |
| Auth.VerifyPassword | lib/auth.ts:13-20 | false whenever the configured password is unset or empty; otherwise true exactly when the input equals it |
| Auth.SessionCookie | lib/auth.ts:28-34 | the session cookie carries the token, is http-only, and is secure exactly in production |
| Auth.CookieJar.constructor | lib/auth.ts:27 | the jar holds the cookies it was given |
| Auth.CookieJar.SetAdminSession | lib/auth.ts:26-35 | only the session cookie is written, and the jar is then authenticated |
| Auth.CookieJar.ClearAdminSession | lib/auth.ts:40-43 | only the session cookie is removed, and the jar is then not authenticated |
| Middleware.Decide | middleware.ts:7-32 | a path outside `/admin` and the exact login path pass; any other path passes exactly when the session cookie holds the token, else it redirects to the login page with that path |
| Middleware.DependsOnlyOnSessionCookie | middleware.ts:21-22 | two cookie sets that agree on the session cookie get the same decision |
| Middleware.AdministratorIsProtected | middleware.ts:11 | by the function's prefix test, `/administrator` is guarded too |
| Middleware.LoginWithSlashIsProtected | middleware.ts:16-18 | the login exemption is exact, so `/admin/login/` is guarded |
| Middleware.SameSessionConstants | lib/auth.ts:58-64 | the cookie name and token the auth helpers give are the ones the middleware checks |
| Middleware.SessionPassesGate | middleware.ts:21-31 | a browser holding the cookie `setAdminSession` wrote passes on every path |
| Middleware.GateAgreesWithIsAuthenticated | lib/auth.ts:49-53 | the cookies a jar sends back pass the gate's session test exactly when `isAuthenticated` holds for the jar (the test of middleware.ts:21-22) |
| Middleware.UnauthenticatedIsRedirected | middleware.ts:21-29 | a jar that is not authenticated, whether the session cookie is missing (as after `clearAdminSession`) or holds another value, is redirected to login on every guarded path |
| LoginRoute.Decide | app/api/auth/login/route.ts:5-41 | an unparseable body fails with 500; then an unset password gives 500, a falsy password 400, a password other than the configured string 401, and only the configured string logs in |
| LoginRoute.UnconfiguredNeverChecksPassword | app/api/auth/login/route.ts:9-14 | with the password unset or empty the outcome is 500, never 400, 401 or success |
| LoginRoute.Post | app/api/auth/login/route.ts:5-42 | status as decided; the session cookie is set, with 200, exactly on a successful login, and the jar is untouched otherwise |
| UploadRoute.Validate | app/api/upload/route.ts:7-33 | checks in the order file, then type, then size: no file, a type outside the four allowed ones, or more than 10 MiB is rejected, each condition stated both ways |
| UploadRoute.TenMiBIsAccepted | app/api/upload/route.ts:27-28 | a file of exactly 10 MiB of any allowed type passes |
| UploadRoute.FileName | app/api/upload/route.ts:41 | the file name is the timestamp's digits, then `-`, then the random suffix and the extension, and the timestamp parses back from its digits |
| UploadRoute.UrlCarriesTimestamp | app/api/upload/route.ts:40-50 | the URL is `/uploads/` then the timestamp's digits then `-`, and the timestamp reads back from it |
| UploadRoute.UploadsDirectory.constructor | app/api/upload/route.ts:36-37 | the directory holds the files it was given |
| UploadRoute.UploadsDirectory.WriteFile | app/api/upload/route.ts:46-47 | one file is created or overwritten, nothing else changes |
| UploadRoute.Post | app/api/upload/route.ts:5-60 | a rejected upload answers with its status and writes nothing; an accepted one writes its bytes under the timestamped name and answers with that name's URL |
| PaintingsRoute.StatusFilter | app/api/paintings/route.ts:7-9 | an absent or empty status asks for no filter, any other is passed on |
| PaintingsRoute.MainMedia | app/api/paintings/route.ts:17 | the first media row marked main, else the first row, else none, and always one of the painting's rows |
| PaintingsRoute.MainImage | app/api/paintings/route.ts:20 | a thumbnail exactly when the main row has a truthy image or video url, always built from the video url |
| PaintingsRoute.VideoMainGetsItsThumbnail | app/api/paintings/route.ts:20 | a main video gets the thumbnail of its own id |
| PaintingsRoute.ImageOnlyMainGetsNullThumbnail | app/api/paintings/route.ts:20 | a main image without a video gets the thumbnail of the id `null` |
| PaintingsRoute.NoUrlNoImage | app/api/paintings/route.ts:17-20 | with no media, or no url on any row, `main_image` is null |
| PaintingsRoute.ListingOf | app/api/paintings/route.ts:15-21 | a stored painting is listed with the thumbnail of its own sorted media |
| PaintingsRoute.Listings | app/api/paintings/route.ts:15-22 | one listing per painting, in order, and each stored painting's listing carries the thumbnail of its own sorted media |
| PaintingsRoute.Get | app/api/paintings/route.ts:4-24 | one entry per painting that `getPaintings` gives for the status, in that order, each with its main image; no or an empty status lists the whole table |
| PaintingsRoute.FilteredListingHasThatStatus | app/api/paintings/route.ts:7-9 | a status-filtered listing shows only paintings of that status |
| PaintingsRoute.Post | app/api/paintings/route.ts:34-46 | an unparseable body answers 500 and writes nothing; otherwise the painting is created and returned with 201 |
| PaintingsRoute.Delete | app/api/paintings/route.ts:48-76 | no or an empty id: 400; an unknown id: 404, and in both cases nothing is written; otherwise 200 after the cascading delete |

## Left out

- File I/O of the store (`readDb`/`writeDb`, JSON parsing and printing, and their errors): the document is the `Store` object's state. Read or write failures, and the 500 answers the routes give for them, are not modelled.
- Concurrency: each store call is a whole-document read, modify and write, so concurrent requests can lose updates. The model runs calls one at a time.
- The clock, `Math.random()` and `path.extname`: parameters. No uniqueness of generated ids is claimed, since two creations in the same millisecond collide.
- Extra keys in request bodies: the source spreads untyped JSON into new rows and into patches. The model takes typed drafts and patches, so an `id` or `created_at` sent in an update body is not modelled.
- JSON numbers: integers only (no NaN, no fractions, no floating-point `price_ils`). `Truthy` in `LoginRoute` is defined for those values.
- Next.js glue: `NextResponse`, `cookies()`, `formData()`, `arrayBuffer()`, `Buffer.from` and `path.join`.
- The `config.matcher` of middleware.ts: the model decides every path with the middleware function alone; the matcher is narrower and keeps paths such as `/administrator` from reaching it, so `Middleware.AdministratorIsProtected` is a fact about the function, not about the deployed routing.
- Middleware.Decide: the redirect keeps the path itself; building the login URL and percent-encoding the `redirect` query parameter are not modelled.
- The `mkdir` of the uploads directory: the directory is the `UploadsDirectory` object, which always exists.
- UploadRoute.UploadsDirectory.WriteFile never fails: the 500 the source answers when `mkdir`, `arrayBuffer` or `writeFile` throws after validation is not modelled; `UploadRoute.Post` gives 500 only for a form that does not parse.
- The `formData()` parsing itself: the form's `file` entry is given directly as absent, a text value or a file.
- The `isAuthenticated` server helper is modelled as `Auth.CookieJar.IsAuthenticated`, the definition the session lemmas use; it has no contract of its own.
- `getSessionCookieName` and `getSessionTokenValue` are the constant functions `Auth.GetSessionCookieName` and `Auth.GetSessionTokenValue`, specified by `Middleware.SameSessionConstants`.
- `getSiteSettings` is the plain field read `DataStore.Store.GetSiteSettings`, specified through `UpdateSiteSettings`.
- The range comments of `lib/types.ts` (`1..8`, `1..20`) are not enforced by the code and are not asserted.
- The UI pages and components, the settings API route (a pass-through to the store) and the per-painting API route are not part of this model.
