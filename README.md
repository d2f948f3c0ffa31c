# URL platform detection and the URL input's validation state

This project models the only logic of the media-downloader front end that is
more than plumbing:

- `isValidUrl` and `getPlatformFromUrl` from `project/src/lib/utils.ts`: a
  URL is valid when the `URL` constructor accepts it, and a valid URL is
  classified by lower-casing its hostname and scanning a fixed, ordered table
  of six platforms (youtube, facebook, instagram, tiktok, spotify, netflix)
  for the first one with a domain that occurs anywhere in the hostname.
- The validation state of the `UrlInput` component
  (`project/src/components/UrlInput.tsx`): the text cell `url`, the
  tri-state `isValid`, the `platform` badge, the effect that recomputes them
  whenever `url` changes, the submit gate, and the three render conditions
  derived from that state.

Files:

- `wrappers.dfy`: `Option`, standing for JavaScript's `null`-or-value.
- `strings.dfy`: the JavaScript built-ins the classifier uses,
  `String.prototype.includes` (`Includes`, proved equal to the infix
  predicate `Infix`) and `String.prototype.toLowerCase` (`ToLower`).
- `utils.dfy`: the URL constructor as a parameter `parse: string ->
  Option<Url>` (`None` where it throws), `IsValidUrl`, `Hostname`, the
  platform table `Platforms`, the `.some(...)` test `AnyDomainIn`, the
  ordered scan `FirstMatch`/`Classify` over any table, `GetPlatformFromUrl`,
  and the soundness, first-match, completeness, case and overlap lemmas.
- `url_input.dfy`: the class `UrlInput` with the three state cells, its
  invariant `Valid()`, `OnUrlChange`, `Submit`, the render conditions and
  the stale-badge scenario.

`isValidUrl` is `IsValidUrl`: a total predicate, so it never fails, and it is
true exactly when `parse` yields a URL. The WHATWG parser itself stays
abstract; nothing is assumed about it, in particular not that a valid URL has
a non-empty hostname (`mailto:` URLs have none).

Validity is only "the `URL` constructor accepts it"; no host is required. A
URL that no platform claims yields `null` (`None`). The platform table is a
constant. `Classify` is stated for any table, which is how the ordering
lemmas are proved for overlapping entries.

## Model

| member | source | states |
|---|---|---|
| `Strings.LowerChar` | project/src/lib/utils.ts:29 | one character lower-cased: the result is never an upper-case letter, a character that is not upper-case is kept, and an upper-case letter moves to its lower-case counterpart 32 code points on |
| `Strings.Includes` | project/src/lib/utils.ts:32 | `hay.includes(needle)` is true exactly when `needle` occurs in `hay` at some position |
| `Strings.ToLower` | project/src/lib/utils.ts:29 | the lower-cased hostname keeps its length, contains no upper-case letter, and agrees with the input character by character once case is ignored |
| `Strings.ToLowerIdentifiesCase` | project/src/lib/utils.ts:29 | two strings have the same lower-case form exactly when they differ only in letter case |
| `Strings.ToLowerIdempotent` | project/src/lib/utils.ts:29 | lower-casing an already lower-cased hostname changes nothing |
| `Strings.InfixOfConcat` | project/src/lib/utils.ts:32 | a domain is found whatever text precedes and follows it in the hostname |
| `Strings.AbsentFirstChar` | project/src/lib/utils.ts:32 | a domain whose first character does not occur in the hostname is not found in it |
| `Utils.IsValidUrl` | project/src/lib/utils.ts:8-15 | total (it never throws), true exactly when the URL constructor yields a URL and false when it throws |
| `Utils.Hostname` | project/src/lib/utils.ts:29 | for a URL the constructor accepts, the hostname of the URL it yields |
| `Utils.AnyDomainIn` | project/src/lib/utils.ts:32 | `domains.some(d => host.includes(d))` is true exactly when some listed domain occurs in the host |
| `Utils.FirstMatch` | project/src/lib/utils.ts:31-35 | the scan returns an entry whose domains include one found in the host with no earlier entry matching, and returns nothing only when no entry matches |
| `Utils.Classify` | project/src/lib/utils.ts:31-37 | the result is null exactly when no entry matches the host; otherwise it is the name of the first matching entry |
| `Utils.GetPlatformFromUrl` | project/src/lib/utils.ts:8-38 | null for every URL the constructor rejects; otherwise null or one of the six keys, and null exactly when no platform's domain occurs in the lower-cased hostname |
| `Utils.FirstClaimUnique` | project/src/lib/utils.ts:31-35 | at most one entry is the first to match a host |
| `Utils.FirstMatchAt` | project/src/lib/utils.ts:31-35 | the scan returns exactly the first matching entry |
| `Utils.ClassifyNamesFirstClaim` | project/src/lib/utils.ts:31-35 | in a table with distinct names, the returned name's entry matches the host and no earlier entry does |
| `Utils.EarlierEntryWins` | project/src/lib/utils.ts:31-35 | when two entries both match a host, the result is at or before the earlier one and never the later one's name |
| `Utils.PlatformKeysAreNames` | project/src/lib/utils.ts:20-27 | the six platform keys the result is drawn from are exactly the names of the table's entries |
| `Utils.PlatformNamesUnique` | project/src/lib/utils.ts:20-27 | the six keys of the platform table are distinct |
| `Utils.PlatformSound` | project/src/lib/utils.ts:18-35 | a URL classified as a platform is valid, a domain of that platform occurs in its lower-cased hostname, and no earlier platform's domain does |
| `Utils.PlatformComplete` | project/src/lib/utils.ts:29-37 | a valid URL gets null exactly when no domain of any platform occurs in its lower-cased hostname |
| `Utils.CaseInsensitive` | project/src/lib/utils.ts:29 | two valid URLs whose hostnames differ only in letter case classify the same |
| `Utils.YoutubeAnywhere` | project/src/lib/utils.ts:21-33 | any hostname with `youtube.com` or `youtu.be` anywhere inside it classifies as youtube, whatever follows the domain |
| `Utils.TiktokInsideYoutubeHost` | project/src/lib/utils.ts:20-35 | `www.tiktok.com.youtube.com` matches tiktok's domain too but classifies as youtube, which comes first |
| `Utils.NotYoutubeHost` | project/src/lib/utils.ts:21-33 | `notyoutube.com` classifies as youtube: the match is not anchored at a label boundary |
| `Utils.MobileFacebookHost` | project/src/lib/utils.ts:22-33 | `m.facebook.com` classifies as facebook |
| `Utils.UnknownHost` | project/src/lib/utils.ts:29-37 | `example.org` classifies as null |
| `UrlInputComponent.UrlInput.constructor` | project/src/components/UrlInput.tsx:12-14 | the state starts with an empty URL, null validity and no platform |
| `UrlInputComponent.UrlInput.OnUrlChange` | project/src/components/UrlInput.tsx:16-30 | an empty URL clears validity and platform; a non-empty one sets validity to `isValidUrl`, sets the platform to `getPlatformFromUrl` when valid, and leaves the platform unchanged when invalid; the state invariant is kept |
| `UrlInputComponent.UrlInput.Submit` | project/src/components/UrlInput.tsx:32-37 | the URL is forwarded exactly when validity is true and the URL is non-empty, no state changes, and, in a consistent state (`Valid()`), a forwarded URL is accepted by the URL constructor |
| `UrlInputComponent.UrlInput.ValidityRing` | project/src/components/UrlInput.tsx:47-56 | the ring is shown exactly when `isValid` is non-null, green exactly when it is true and red exactly when it is false |
| `UrlInputComponent.UrlInput.Badge` | project/src/components/UrlInput.tsx:76-80 | JavaScript truthiness: the badge shows the platform, hidden for null and for the empty string |
| `UrlInputComponent.UrlInput.ErrorShown` | project/src/components/UrlInput.tsx:84-92 | the "Please enter a valid URL" message shows exactly when `isValid` is false, not when it is null |
| `UrlInputComponent.UrlInput.RenderMeaning` | project/src/components/UrlInput.tsx:47-92 | the ring shows exactly for a non-empty URL and is red exactly when it is invalid; the error message shows exactly for a non-empty invalid URL, never for an empty box; the badge shows exactly when a platform is set |
| `UrlInputComponent.StaleBadge` | project/src/components/UrlInput.tsx:23-29 | after a youtube URL, typing non-empty invalid text shows the error message and still shows the youtube badge |

## Left out

- The WHATWG URL parser behind `new URL(...)`: a foreign library; it is the parameter `parse`, about which nothing is assumed.
- `Strings.ToLower`: only ASCII letters are lower-cased; JavaScript's `toLowerCase` maps all of Unicode, which coincides here because the URL parser's hostnames are ASCII (domain names are IDNA-encoded, other hosts percent-encoded).
- `cn` in `project/src/lib/utils.ts`: a wrapper around CSS class-name libraries, no logic.
- React scheduling: `setUrl` and the effect it triggers are one atomic step (`OnUrlChange`); intermediate renders between them are not modelled.
- `onUrlSubmit` is whatever callback the parent component supplies; `Submit` returns the URL it would pass to it instead of calling it, and `e.preventDefault()` is not modelled.
- Animations, styling and the rest of the rendering of `UrlInput.tsx`.
- `project/src/lib/api.ts`, `project/src/App.tsx`, `project/server.js`, `project/api/video-details.js`: HTTP calls to third-party APIs and proxies.
- `project/src/components/SupportModal.tsx`, `ChatButton.tsx`, `MediaPreview.tsx`: UI, floating-point amount parsing and a third-party payment hook.
