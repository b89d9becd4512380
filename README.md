# Episode renderer of "The Meaningful Shit Show" page, in Dafny

The page script `app.js` loads the episode document (`/episodes.json`) and
turns each episode record into a card in the `episodes-container` element.
Each card has an anchor `ep<number>`, a header (icon, "Episode <number>"
label and title), an optional description and an optional panel of links
to the streaming platforms. Every link is tagged with fixed tracking
(`utm_…`) parameters. Cards are shown newest first. When the page URL
carries a fragment such as `#ep2`, the card with that anchor is the one
marked `highlighted`.

This project models that pipeline as follows:

- the string and URL transforms are functions;
- the card builders are pure functions that return an abstract card tree
  (`Cards.Card`, made of `Header`, `Description` and `Links` sections);
- the render pass is a `Page` class whose `container` field holds the
  mounted elements. Each card element carries its `highlighted` flag.

The modules are:

- `JsText`: the JavaScript string behaviour the page relies on (`trim` and
  its whitespace set, `startsWith`, integer-to-text conversion,
  upper-casing the first letter).
- `Utm`: `addUTMParams`, with its inverse.
- `Episodes`: the episode records and the possible outcomes of loading them.
- `LinkPanel`: `PLATFORM_ICONS` and `createPlatformLinks`.
- `Cards`: `createEpisodeCard`.
- `Ordering`: the display order, which is the engine's stable sort with the
  comparator `b.episode - a.episode`. It is defined as a stable insertion
  sort.
- `Render`: `renderEpisodes`, the deep-link step and `init`, as the class
  `Render.Page`.

Three behaviours of the code are worth stating plainly:

- **Icon test.** An icon becomes an image when its text starts with
  `http`; no URL scheme is checked, so `httpfoo` is an image too.
- **Ties.** Episodes that share a number keep their input order, because
  the engine's sort is stable. `Ordering.SortIsStable` states this, and
  `Render.DeepLinkHit` uses it to say which of them is highlighted.
- **Two notices.** `init` mounts "Unable to load episodes…" whenever
  loading yields no episodes, failed loads included. `renderEpisodes` has
  its own "No episodes available…" notice, reached only when it is called
  with an empty list, which `init` never does.

## Model

| member | source | states |
|---|---|---|
| Utm.AddUtmParams | app.js:12-19 | An empty (falsy) URL comes back unchanged. Any other URL is a prefix of the result, the tracking query is its suffix, and the separator between them is `&` exactly when the URL contains `?` (otherwise `?`). |
| Utm.Separator | app.js:16 | `&` when the URL contains `?`, else `?`; its effect on the result is stated by `Utm.AddUtmParams`. |
| Utm.StripUtmParamsInverse | app.js:12-19 | Annotation is injective and can be undone: `StripUtmParams(r) == Some(u)` exactly when `u` is non-empty and `r == AddUtmParams(u)`. |
| Utm.AnnotateTwice | app.js:16-18 | Annotating an annotated URL appends `&` and the tracking query a second time, so the transform is not idempotent. |
| Utm.UtmQueryText | app.js:5-15 | The tracking query is exactly `utm_source=tms.show&utm_medium=episode-card&utm_campaign=podcast-discovery`. |
| Utm.AnnotateExamples | app.js:16-18 | `https://a.com/p` gets `?` + query, and `https://a.com/p?x=1` gets `&` + query. |
| Episodes.IsOk | app.js:35 | `response.ok`: a status from 200 to 299; `Episodes.FetchedEpisodes` states what a status outside that range yields. |
| Episodes.FetchedEpisodes | app.js:32-44 | A non-empty result comes only from a success-status response whose decoded body has an `episodes` list, and it is that list. Every failure (network, non-2xx status, undecodable body, missing `episodes`) yields the empty list. |
| JsText.TrimStart | app.js:131 | The result is a suffix of the input, every dropped character is ECMAScript whitespace, and the result does not start with whitespace. |
| JsText.TrimEnd | app.js:131 | The result is a prefix of the input, every dropped character is whitespace, and the result does not end with whitespace. |
| JsText.Trim | app.js:131 | `s.trim()`: `TrimEnd` of `TrimStart`; what it removes is stated by `JsText.TrimStart`, `JsText.TrimEnd` and `JsText.TrimEmptyIff`. |
| JsText.TrimEmptyIff | app.js:131 | `s.trim()` is empty exactly when `s` has no non-whitespace character. |
| JsText.StartsWith | app.js:95 | `s.startsWith(p)`: `p` is a prefix of `s`; `Cards.ResolveIcon` states the icon test built on it. |
| JsText.NatToString | app.js:83 | The decimal text of a number is one or more digits with no leading zero. |
| JsText.DigitsValueOfNatToString | app.js:83 | Reading the decimal text back gives the number. |
| JsText.IntToString | app.js:83 | The text of an integral episode number in a template literal (also at app.js:115): a minus sign before the digits of a negative number; its properties are stated by `JsText.NatToString`, `JsText.DigitsValueOfNatToString` and `JsText.IntToStringInjective`. |
| JsText.IntToStringInjective | app.js:83 | Two integers print the same text exactly when they are equal. |
| JsText.Capitalize | app.js:60 | Same length; the first character is upper-cased and the rest is kept. |
| Cards.CardId | app.js:83 | The anchor `ep<number>`; `Cards.CardIdInjective` states that it names one number. |
| Cards.EpisodeLabel | app.js:115 | The header label `Episode <number>`; `Cards.CardLayout` places it in the header. |
| Cards.CardIdInjective | app.js:83 | Two cards have the same anchor `ep<n>` exactly when they show the same episode number. |
| LinkPanel.Qualifies | app.js:57 | The filter: a truthy URL and a platform among the six registry keys; `LinkPanel.PanelLinksEmptyIff`, `LinkPanel.LinkPosition` and `LinkPanel.PanelLinksSound` state how it selects the links. |
| LinkPanel.MakeLink | app.js:58-71 | One link: href `AddUtmParams(url)`, title the capitalised platform, target `_blank`, rel `noopener noreferrer`, icon from the registry; `LinkPanel.PanelLinksSound` states that every panel link is one of these. |
| LinkPanel.LinkOf | app.js:57-72 | One iteration's contribution: at most one link, and one exactly when the entry qualifies. |
| LinkPanel.PanelLinks | app.js:56-73 | The `forEach` filter-and-map: never more links than entries; order and content are stated by `LinkPanel.PanelLinksAppend`, `LinkPanel.LinkPosition` and `LinkPanel.PanelLinksSound`. |
| LinkPanel.PanelLinksStep | app.js:56-73 | One iteration of the `forEach`: the panel of one more entry is the previous panel plus that entry's link when it qualifies. |
| LinkPanel.PanelLinksEmptyIff | app.js:56-76 | The panel's children are empty exactly when no entry has a truthy URL and a registered platform. |
| LinkPanel.PanelLinksAppend | app.js:56-73 | The panel of concatenated entry lists is the concatenation of their panels, so the filter keeps the mapping's order. |
| LinkPanel.LinkPosition | app.js:56-73 | Every qualifying entry yields the link `MakeLink(entry)`, right after the links of the entries before it. |
| LinkPanel.LinkSource | app.js:56-73 | For every link of the panel, names the qualifying entry it was made from, by `MakeLink`. |
| LinkPanel.PanelLinksSound | app.js:56-73 | Every link in the panel comes from a qualifying entry. Its href is `AddUtmParams(url)`, its title is the capitalised platform, its icon comes from the registry, and it opens with target `_blank` and rel `noopener noreferrer`. |
| LinkPanel.PlatformLinks | app.js:47-77 | The result is none exactly when `links` is absent, has no keys, or no entry qualifies. Otherwise it is the non-empty list of panel links, so an empty container is never returned. |
| LinkPanel.RegistryTitles | app.js:22-29 | The six registered platforms get the titles Youtube, Spotify, Apple, Instagram, Tiktok and Substack. |
| LinkPanel.CreatePlatformLinks | app.js:47-77 | The loop that appends one link per qualifying entry and then checks the child count returns `PlatformLinks(links)`. |
| Cards.ResolveIcon | app.js:93-107 | The icon is an image exactly when it is present and starts with `http`, and the image's src is the icon. Any other non-empty icon is shown as its own text. An absent or empty icon shows the default glyph. |
| Cards.ResolveIconExamples | app.js:93-107 | An `https://` icon becomes an image, an emoji becomes text, and an absent or empty icon becomes the default glyph. |
| Cards.HasDescription | app.js:131 | A description is shown exactly when it is present and has a non-whitespace character. |
| Cards.DescriptionPart | app.js:130-136 | There is at most one description section. It is present exactly when the description is shown, and it holds the untrimmed text. |
| Cards.PanelPart | app.js:138-142 | There is at most one panel section. It is present exactly when some entry qualifies, and it holds the panel's non-empty link list. |
| Cards.EpisodeCard | app.js:80-83 | The card's anchor is `ep<number>` and its first child is the header. |
| Cards.CardLayout | app.js:80-145 | The children are, in order: the header (resolved icon, `Episode <number>` label, title), then the description if shown, then the link panel if built. The child count is 1 plus one for each optional section. |
| Cards.SectionKinds | app.js:124-142 | Position decides kind: index 0 is the header, the next indices are the description, and the panel, when present, is last and non-empty. |
| Cards.CardHeaderOnce | app.js:124-128 | No child after the first is a header. |
| Cards.CardDescriptionIff | app.js:130-136 | A card has a description section exactly when the record's description has a non-whitespace character. |
| Cards.CardLinkPanelIff | app.js:138-142 | A card has a link panel exactly when some link entry qualifies. Such a panel is the last child and is non-empty. |
| Cards.CreateEpisodeCard | app.js:80-145 | The successive appends build `EpisodeCard(e)`. |
| Ordering.Insert | app.js:169 | Inserting one episode adds exactly that episode (as a multiset) and puts it or the old head first. |
| Ordering.InsertSorted | app.js:169 | Inserting into a descending sequence keeps it descending. |
| Ordering.SortByEpisodeDesc | app.js:169 | The sorted copy is descending by episode number and is a permutation of the input. |
| Ordering.InsertStable | app.js:169 | An inserted episode goes ahead of every element with its own number. |
| Ordering.SortIsStable | app.js:169 | For every number, the episodes with that number keep their input order. |
| Ordering.SortExample | app.js:169 | Episodes numbered 1, 3, 2 are shown as 3, 2, 1. |
| Render.FirstMatch | app.js:180 | `getElementById` over the cards returns the first card with the id, or none exactly when no card has it. |
| Render.DeepLinked | app.js:177-190 | Length and elements are kept; only the highlight flag can change. With no fragment or no matching card, nothing changes. Otherwise the matching card is highlighted and no other element is. |
| Render.TargetId | app.js:179 | `location.hash.substring(1)`: the fragment without its `#`; `Render.DeepLinkHit` states which card such an id selects. |
| Render.Unmarked | app.js:185-187 | A card with its `highlighted` class removed; `Render.DeepLinked` states that only this flag changes. |
| Render.HighlightAt | app.js:177-190 | When the fragment names a card, that card alone is highlighted and still shows its own card. |
| Render.Mounted | app.js:171-175 | The cards appended for the sorted list, one per episode; the contract states the length, and `Render.RenderedShape` states that element `i` is the card of the `i`-th sorted episode. |
| Render.Rendered | app.js:157-198 | What `renderEpisodes` leaves in the container: the notice for an empty list, else the sorted cards after the deep-link step; `Render.RenderedShape`, `Render.DeepLinkHit` and `Render.DeepLinkMiss` state its properties. |
| Render.RenderedShape | app.js:157-175 | The single notice appears exactly when the list is empty. Otherwise there is one card per episode, in sorted order, and at most one is highlighted. |
| Render.MountedFirstMatch | app.js:179-180 | Looking up `ep<n>` in the mounted cards finds the card of the first episode numbered `n` in display order. |
| Render.DeepLinkHit | app.js:177-190 | With fragment `#ep<n>` and some episode numbered `n`, exactly one card is highlighted: that of the first episode numbered `n` in the input. |
| Render.DeepLinkMiss | app.js:178-181 | With fragment `#ep<n>` and no episode numbered `n`, no card is highlighted. |
| Render.Page.ResolveDeepLink | app.js:177-190 | The loop clears every highlight and then highlights the target. The container becomes `DeepLinked` of its old contents, and a page without a container is untouched. |
| Render.Page.AppendCards | app.js:171-175 | The loop appends `createEpisodeCard` of each sorted episode in turn: the container becomes its old contents followed by `Mounted(sorted)`. |
| Render.Page.RenderEpisodes | app.js:148-199 | The container is cleared and then holds `Rendered(episodes, hash)`: the notice for an empty list, else the sorted cards after the deep-link step. A page without a container is untouched. |
| Render.Page.Init | app.js:202-215 | If loading yields no episodes, the container holds only the unable-to-load notice. Otherwise it holds what `renderEpisodes` produces for the loaded list. |

## Left out

- `fetch`, `await`, `response.json()` and the network are not modelled.
  `Episodes.FetchedEpisodes` gives only their effect on an abstract
  outcome (network failure, or a status with a decoded body).
- The `console.error` diagnostics are not modelled, because they have no
  effect on the page.
- The `setTimeout` delay is not modelled: the highlight is applied at once.
  The scroll with its `-80` offset (app.js:193-195) is layout-dependent
  floating-point geometry and is also not modelled.
- The start-up wiring (app.js:218-222) is not modelled. `Render.Page.Init`
  starts after loading has finished.
- Presentational attributes are not modelled: class names, `alt` texts
  and `img.height`.
  - The icon CDN URLs are kept as opaque constants.
  - The default glyph is kept exactly as the file ships it: the first
    six of the seven UTF-8 bytes of the microphone emoji with its
    variation selector, each read as a Windows-1252 character (the
    seventh byte, 0x8F, has none).
- The `links` object is a sequence of `[platform, url]` entries in
  `Object.entries` order. JavaScript puts integer-like keys first, but
  such keys are never registry keys and are filtered out anyway.
- Episodes.LinkEntry sequences may repeat a platform, which a parsed
  JSON object's `Object.entries` never does. The model does not require
  distinct keys; every lemma holds with or without repeats.
- LinkPanel.Qualifies treats only the six declared keys as registered.
  JavaScript's plain-object lookup `PLATFORM_ICONS[platform]` also accepts
  inherited keys such as `toString` or `constructor`. The model does not
  capture that.
- Render.FirstMatch searches only the mounted cards. `getElementById`
  searches the whole document, so it can also find a non-card element
  with that id.
- The highlight clearing covers only the container's cards.
  `querySelectorAll('.episode-card.highlighted')` covers the whole
  document.
- JsText.IntToString covers only integral episode numbers within
  `Number.MAX_SAFE_INTEGER` (2^53 - 1) in magnitude, where it prints
  every digit as JavaScript does. An `int` beyond that is not a
  JavaScript number: `JSON.parse` rounds such a number, and its text uses
  the shortest round-trip digits padded with zeros (2^64 prints as
  `18446744073709552000`), which the model does not reproduce. Exponent
  notation (|n| ≥ 10^21), fractional numbers, and a missing `episode`
  field (printed as `undefined`) are not modelled either.
- JsText.AsciiUpper upper-cases ASCII letters only, which covers the
  registry keys that reach it.
- Render.TargetId does not URL-decode the fragment, and neither does the
  source.
- A page without an `episodes-container` element is `container == None`.
  Every operation leaves such a page unchanged.
- The input list is a value, so the copy made by `[...episodes]` before
  sorting is implicit: sorting cannot change the caller's list.
