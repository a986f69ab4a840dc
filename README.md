# Portfolio page populator, modelled in Dafny

This project models the page populator of a personal portfolio site
(`js/data-loader.js`). Once the site's data document has loaded, the
populator rebuilds each page section from it, in a fixed order: header,
home, about, resume, clients, tools and honors, and then the head (title,
meta tags, structured data). Each renderer empties its containers and
appends one fragment per source item. A few rules decide what the
fragments hold:

- badge classes, from keywords in the badge name;
- service icons, chosen by exact title;
- services cut into two-per-column groups;
- the whitespace-free `tel:` link;
- optional fields shown only when present, with the `date || year` and
  `image || default` fallbacks;
- the title and keyword strings of the head.

Modules:

- `Wrappers`: `Option`, for a field the document may leave out.
- `JsStrings`: the JavaScript string semantics the rules use. This covers
  truthiness, `||`, `toLowerCase`, `includes`, `startsWith`,
  `replace(/\s/g, '')` and `join`, plus the token list of a `class`
  attribute.
- `Schema`: the data document as datatypes.
- `Dom`: the page. It has container regions, text slots, the contact
  values, the CVE link and the head. The `Document` class holds them as
  fields. Its `Empty`, `Append` and `Set…` methods do nothing on an element
  the page lacks, as jQuery does on an empty selection.
- `Rules`: the decision and layout rules as functions, and the lemmas
  about them.
- `Populate`: the renderers as methods on a `Document`, and the
  specification `Populate` of the page they produce. It also holds the
  loader state (`Loader`) and the lemmas about re-populating.

Fragments are a `Node` datatype that carries the interpolated values.
The conditional sub-fragments are `Option` fields that are `Some` exactly
when the template emits them: the credential line, the client tag, the
tool description, and the honor description and link. The badges' `alt`
and the honor's date are always emitted. There, `None` stands for a
missing value, which the page shows as `undefined`.

## Model

| member | source | states |
|---|---|---|
| `JsStrings.OrFallback` | js/data-loader.js:396-406 | `a \|\| b` yields `a` when `a` is a non-empty string and `b` otherwise; the literal fallback is used exactly when the field is falsy |
| `JsStrings.Lower` | js/data-loader.js:69-71 | lower-casing keeps the length and leaves no ASCII capital; each capital becomes its small letter (code point + 32) and every other character is unchanged |
| `JsStrings.LowerIdempotent` | js/data-loader.js:69-71 | lower-casing an already lower-cased name changes nothing |
| `JsStrings.ContainsIff` | js/data-loader.js:69-71 | `includes` is true exactly when the keyword occurs at some position of the string |
| `JsStrings.StripRemovesExactlyWhitespace` | js/data-loader.js:142 | `replace(/\s/g, '')` leaves no `\s` character and keeps every other character as often as the input has it |
| `JsStrings.StripConcat` | js/data-loader.js:142 | stripping distributes over concatenation, so the remaining characters keep their order |
| `JsStrings.StripNoWhitespace` | js/data-loader.js:142 | a phone number without whitespace is used unchanged |
| `JsStrings.StripIdempotent` | js/data-loader.js:142 | stripping twice equals stripping once |
| `JsStrings.JoinLength` | js/data-loader.js:430 | the joined string's length is the keywords' total length plus one separator per gap; its content is stated by `JsStrings.SplitJoin` |
| `JsStrings.SplitJoin` | js/data-loader.js:430 | keywords without commas can be split back out of the joined string |
| `Rules.ColumnCount` | js/data-loader.js:152 | the column count is the least `c` with `2c >= n`, which is `Math.ceil(n / 2)` |
| `Rules.ChunkConcat` | js/data-loader.js:151-157 | reading the service columns in order gives back the service list |
| `Rules.ChunkShape` | js/data-loader.js:151-157 | there are ceil(n/2) columns, each with 1 or 2 services, and only the last may have 1 |
| `Rules.ChunkAt` | js/data-loader.js:154-157 | column `k` is exactly `slice(2k, min(2k + 2, n))` |
| `Rules.ColumnsOfSmallLists` | js/data-loader.js:151-157 | 0, 1, 2, 3 and 4 services give 0, 1, 1, 2 and 2 columns |
| `Rules.ServiceIcon` | js/data-loader.js:162-165 | the icon is the one listed for the exact title (Web Servers, Bug Hunting, Technical Consultancy), and `lnr-code` for any other title |
| `Rules.ServiceColumnsKeepOrder` | js/data-loader.js:151-182 | the services row gets ceil(n/2) column fragments; column `k` is built from the `k`th two-service slice; each has 1 or 2 blocks and only the last may have 1; the blocks read column by column are one `ServiceBlockOf` per service, in order |
| `Rules.BadgeClassTokens` | js/data-loader.js:73-76 | the class tokens of a linked badge are `ine-badge` followed by exactly the flagged tokens, in the order guinness, ejpt, icca |
| `Rules.BadgeClassMembership` | js/data-loader.js:69-76 | the first class is `ine-badge`; `guinness-badge`, `ejpt-badge` and `icca-badge` are present exactly when the lower-cased name contains `guinness`, `ejpt` and `icca` |
| `Rules.MentionsIgnoresCase` | js/data-loader.js:69-71 | a name and its lower-cased form match the same keywords |
| `Rules.BadgeRendering` | js/data-loader.js:78-86 | a badge is a link exactly when its URL is truthy, and a bare image otherwise; the link's class is `BadgeClass` of the name's keyword flags (whose tokens `Rules.BadgeClassMembership` states); it opens a new tab exactly when the URL does not start with `#`; a bare image's class is `guinness-badge` or empty |
| `Rules.SocialLinksMatchSameAs` | js/data-loader.js:454-458 | the hrefs of the header's social items equal the Person `sameAs` list: the three URLs with falsy ones removed, in order |
| `Rules.SocialPresence` | js/data-loader.js:45-56 | there are at most three social items, and each network has one exactly when its URL is truthy |
| `Rules.SkillOrdinals` | js/data-loader.js:255-262 | skill `k` (from 0) gets ordinal `k + 1`, in source order, one item per skill |
| `Rules.CredentialLine` | js/data-loader.js:281 | the credential-ID line appears exactly when `credentialId` is truthy, and then shows that ID |
| `Rules.ClientTag` | js/data-loader.js:312 | a client card carries the category tag exactly when `tag` is truthy |
| `Rules.ToolDescription` | js/data-loader.js:364 | a tool card carries the description paragraph exactly when `description` is truthy |
| `Rules.HonorFields` | js/data-loader.js:390-408 | an honor is one honor item showing `image` or else `img/main_photo.png` (never empty), `date` or else `year`, and the honor's own description and link, each present exactly when it is truthy |
| `Rules.RegionCount` | js/data-loader.js:45-414 | each region receives one fragment per source item: per present social URL, per badge, role, testimonial, position, skill, knowledge, certification, client, tool and honor, and per column for services |
| `Rules.PhoneLink` | js/data-loader.js:142 | the phone link's target is `tel:` plus the number without whitespace, and its shown text is the number unchanged |
| `Rules.TitleFormats` | js/data-loader.js:423-441 | the page title is name, ` - `, subtitle; the Open Graph and Twitter title is the same string with `\|` in place of `-` |
| `Rules.KeywordsRoundTrip` | js/data-loader.js:430 | a keyword array joined with `", "` splits back into the same keywords when none contains a comma |
| `Dom.Document.Empty` | js/data-loader.js:46 | `.empty()` leaves the region with no fragments and changes no other region |
| `Dom.Document.Append` | js/data-loader.js:49 | `.append()` adds one fragment at the end of the region and changes no other region |
| `Dom.Document.SetText` | js/data-loader.js:41-42 | `.text()` on a heading or paragraph slot (also lines 95 and 132) replaces that slot's text when the page has it, and changes nothing else |
| `Dom.Document.SetInfo` | js/data-loader.js:137-143 | `.text()`/`.html()` on a contact value replaces the value under that title when the page has it, and changes nothing else |
| `Dom.Document.SetCveLink` | js/data-loader.js:60 | `.attr('href', …)` on the CVE menu link replaces its target when the link is present, and changes nothing else |
| `Dom.Document.SetHead` | js/data-loader.js:424-491 | `document.title`, the meta `attr` writes and the JSON-LD `.text()` writes replace the head, and change nothing else |
| `Populate.PopulateIdempotent` | js/data-loader.js:23-34 | populating an already populated page changes nothing, so re-running duplicates no content |
| `Populate.PopulateCounts` | js/data-loader.js:23-414 | after populating, every region on the page holds exactly as many fragments as its source has items, whatever it held before |
| `Populate.PopulateReplacesContent` | js/data-loader.js:23-34 | the regions, texts and head after populating do not depend on the page's previous content |
| `Populate.NoHonorsNoRows` | js/data-loader.js:382-387 | a missing or empty honors list leaves the honors container empty |
| `Populate.FillSocialLinks` | js/data-loader.js:45-56 | the social list is cleared and then receives the linkedin, twitter and github items that are present |
| `Populate.RenderBadge` | js/data-loader.js:69-86 | the fragment built for one badge is exactly `BadgeNode`, whose link, new-tab and class rules `Rules.BadgeRendering` and `Rules.BadgeClassMembership` state |
| `Populate.FillBadges` | js/data-loader.js:64-87 | the header buttons are cleared and then receive one classified badge per badge, in order |
| `Populate.PopulateHeader` | js/data-loader.js:37-88 | rebuilds the header titles, social links and badges, and rewrites the CVE link only when a CVE URL is present; changes nothing else |
| `Populate.FillRoles` | js/data-loader.js:103-107 | the roles carousel is cleared and then gets one item per role, in order |
| `Populate.PopulateHome` | js/data-loader.js:91-107 | rewrites the home title and rebuilds the roles carousel items |
| `Populate.FillContactInfo` | js/data-loader.js:135-144 | the values titled Residence, Email and Phone become the location, a `mailto:` link and a `tel:` link; other values are left alone |
| `Populate.BuildColumn` | js/data-loader.js:159-180 | one column holds an icon block per service, in order, with the icon `Rules.ServiceIcon` gives for its title |
| `Populate.FillServices` | js/data-loader.js:147-182 | the services row is cleared and then gets the two-per-column fragments, each column's blocks built in order |
| `Populate.FillTestimonials` | js/data-loader.js:185-204 | the testimonials carousel is cleared and then gets one quote per testimonial, in order |
| `Populate.PopulateAbout` | js/data-loader.js:127-204 | rewrites the summary and contact values, and rebuilds the services and testimonials |
| `Populate.FillTimeline` | js/data-loader.js:233-249 | the timeline is cleared and then gets one item per position, in order |
| `Populate.FillSkills` | js/data-loader.js:252-266 | the skills container is cleared and then gets skill `k` with ordinal `k + 1` |
| `Populate.FillKnowledges` | js/data-loader.js:269-274 | the knowledge list is cleared and then gets one item per knowledge, in order |
| `Populate.FillCertificates` | js/data-loader.js:277-303 | the certificates row is cleared and then gets one item per certification, with a credential line only for a truthy ID |
| `Populate.PopulateResume` | js/data-loader.js:231-304 | rebuilds the timeline, skills, knowledges and certificates |
| `Populate.PopulateClients` | js/data-loader.js:307-331 | rebuilds the client cards, one per client |
| `Populate.PopulateTools` | js/data-loader.js:343-369 | rebuilds the tool cards, one per tool |
| `Populate.PopulateHonors` | js/data-loader.js:381-415 | empties the honors row, stops there when there are no honors, and otherwise appends one item per honor |
| `Populate.UpdateMetaTags` | js/data-loader.js:418-492 | the head receives the two title formats, the joined keywords, the description, URL and image, and the Person and WebSite structured data |
| `Populate.PopulateAll` | js/data-loader.js:26-33 | running the renderers in their fixed order produces exactly `Populate` of the previous page |
| `Populate.Loader.PopulatePage` | js/data-loader.js:23-34 | does nothing before the data is loaded; afterwards it produces `Populate` of the previous page |
| `Populate.Loader.Loaded` | js/data-loader.js:13-16 | stores the loaded document, then populates the page from it |
| `Populate.LoadedData` | js/data-loader.js:501-504 | after the success callback has run with a document, `getData` returns exactly that document, and the page is `Populate` of the page before |
| `Populate.Repopulate` | js/data-loader.js:23-34 | loading then populating again leaves the page as the single load left it |

## Left out

- The `$.getJSON` fetch and its failure logging are network I/O. The success callback is modelled as `Loader.Loaded`, which receives the parsed document.
- The Owl Carousel and Masonry teardown and re-initialisation are not modelled. The carousels start after a `setTimeout` and Masonry after an `imagesLoaded` event. The model describes the containers as the synchronous renderers leave them, before that deferred widget setup.
- `Populate.PopulateCounts`: for `TextRotation` and `Testimonials`, the counts hold only until the carousels start. `owlCarousel` then wraps the items in its stage elements, and with `loop: true` (line 112) it also adds clones.
- jQuery selector resolution is not modelled; each selector is a fixed region or slot. The `.info-list` sibling-title lookup is a map from title to value, so two values with the same title are not distinguished.
- `Populate.PopulateHeader`: the CVE rewrite at line 60 selects every `a[href*="CVE"]` on the page, and it runs after the social items are appended. So it also replaces the href of any social item whose URL contains `CVE` (case-sensitive). The model rewrites only the menu link, so the social items it produces, and `Rules.SocialLinksMatchSameAs`, describe the page only when no social URL contains `CVE` or `social.cve` is falsy.
- The `a[href*="CVE"]` link is modelled as present or absent. Whether the rewritten href still matches the selector on a later run is not modelled.
- The HTML markup is not modelled: each fragment is a datatype carrying the values interpolated into it, and nothing is escaped. The skills fragment contains two sibling elements, but it is appended in one call and counted as one fragment.
- `JSON.stringify` formatting of the structured data is not modelled; the Person and WebSite objects are datatypes.
- `Lower`: only ASCII letters are lower-cased. JavaScript's `toLowerCase` also folds non-ASCII letters.
- Values of other JavaScript types are not modelled. Fields are strings, arrays or integers, and falsy non-strings such as `0` or `null` are not modelled.
- The model assumes a well-formed document: every required string, array and object is present. In the page, a missing array or object that a renderer dereferences throws a `TypeError`. Examples are `badges`, `about.roles`, `about.services`, `about.testimonials`, `experience`, `skills.technical`, `skills.knowledges`, `certifications`, `clients`, `projectsAndTools` and `siteMeta.social`, and a missing `contact.phone`. `populatePage` has no handler, so the renderers after the failing one are skipped and their sections keep their static content. That partial population is not modelled.
- The meta tags are assumed to be on the page. `attr` on a missing tag, or with an `undefined` keywords value, is not modelled.
- `populateHome`'s carousel destruction check (`data('owl.carousel')`) concerns the widget only and is not modelled.
