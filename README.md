# fontmanager page controller — a Dafny model

This project models the browser-side controller of fontmanager, a tool for browsing a
directory tree, listing the font files found in a directory (or the fonts installed on
the host), and previewing each font with a sample text. The core is the **lazy preview
scheduler** in `resources/public/main.js`. As the user scrolls, it decides which fonts
of a directory listing are near the viewport. For each of those it asks the server for
the font's display name until that name has arrived, and for a preview image until
an image has loaded since the samples were last marked out of date. The flags are the
only guard, so a request still in flight is issued again by the next pass. It also keeps the per-font flags and the globals `fonts`, `sampleText` and
`fontsDir` up to date as listings load and sample text is submitted.

Files and modules:

- `text.dfy`, module `Text`:
  - whitespace trimming (the page's `$.trim`);
  - `join`/`split` on a one-character separator;
  - the decimal numeral `join` writes for a number.
- `samples.dfy`, module `Samples`:
  - the constants (preview width 380, height 50, default text "Sample text", extent 1);
  - the font record and the rule that picks the sample text;
  - the near-visible predicate and the request paths;
  - `Scheduled` / `PassRequests`: the requests one pass issues, with lemmas about them.
- `controller.dfy`, module `FontManager`: the class `App`. It holds the directory font
  list as an `array<Font>`, plus the globals, the status line, what the font area shows
  and which sample-text handler is bound. Each operation and each network callback is a
  method.

How asynchrony is modelled:

- A network call is split into the call (`ScanFolder`, `ListInstalled`, `BrowseDir`) and
  a method per callback (`FolderListed` / `FolderListingFailed`, `InstalledListed` /
  `InstalledListingFailed`, `SubdirsFailed`).
- A pass (`Pass`) returns the fetches it would issue, as `NameFetch` / `SampleFetch`
  values carrying the request path. It changes nothing.
- The completions are the methods `NameResolved(i)` and `SampleLoaded(i)`. They may be
  called in any order and at any time.
- `encodeURIComponent` is the function parameter `encode`.
- Vertical positions are whole pixels. The page offset of each list item is passed to
  each pass as `offsets`, because the source reads the layout at pass time.

Behaviour of the source worth knowing:

- An empty directory scan only sets the status (main.js:91-95). The global `fonts`, the
  font area and the bound submit handler stay as they were.
- `browseDir` empties the font area as soon as it is called, before its fetch resolves
  (main.js:48). After a failed subdirectory fetch the area stays empty, and later passes
  visit no fonts.
- The installed listing creates no records. Its callback parameter `fonts` shadows the
  global (main.js:179), so the directory font list is untouched.
- The installed submit handler marks nothing dirty and runs no pass. It writes the raw
  trimmed input into the previews, not `sampleText` (main.js:200).

## Model

| member | source | states |
|---|---|---|
| `Text.Trim` | resources/public/main.js:115 | a non-empty trimmed input starts and ends with a non-space character |
| `Text.TrimEmpty` | resources/public/main.js:115-116 | the trimmed input is empty (falsy for `if(newText)`) exactly when the input is all white space |
| `Text.TrimKeeps` | resources/public/main.js:115 | a text that neither starts nor ends with white space is left as it is |
| `Text.TrimIsSlice` | resources/public/main.js:115 | trimming keeps the slice of the input between its leading and trailing white space, and everything dropped is white space |
| `Text.TrimIdempotent` | resources/public/main.js:115 | trimming an already trimmed text changes nothing |
| `Text.NatToString` | resources/public/main.js:168 | the numeral `join` writes for the preview size is non-empty decimal digits with no leading zero |
| `Text.DecimalRoundTrip` | resources/public/main.js:168 | reading the decimal numeral of a number back gives the number |
| `Text.Join` | resources/public/main.js:151 | JavaScript's `join`: no parts give the empty string, otherwise the first part is a prefix of the result; `SplitJoin` characterises it |
| `Text.SplitJoin` | resources/public/main.js:151 | splitting a `/`-join recovers its parts when no part contains `/` |
| `Samples.DefaultIsSampleText` | resources/public/main.js:4 | the default sample text "Sample text" is non-empty and trimmed |
| `Samples.SampleTextFor` | resources/public/main.js:115-119 | the sample text chosen on submit is always non-empty and trimmed |
| `Samples.SampleTextDefault` | resources/public/main.js:115-119 | input that is all white space (or empty) selects the default text "Sample text" |
| `Samples.SampleTextTrimmed` | resources/public/main.js:115-117 | any other input selects its own trimmed, non-empty form |
| `Samples.SampleTextForStable` | resources/public/main.js:115-119 | submitting the current sample text again leaves it unchanged |
| `Samples.NearVisibleBounds` | resources/public/main.js:138-144 | a font qualifies iff `scrollTop - h <= offset <= scrollTop + 2h`; both bounds are inclusive, the next pixel out is excluded, and every on-screen item qualifies |
| `Samples.NearVisible` | resources/public/main.js:138-144 | defines the near-visible window for extent 1; only a viewport of non-negative height has one; `NearVisibleBounds` characterises it |
| `Samples.NameKey` | resources/public/main.js:151 | the name request path, built by `join("/")`, is `"fontname/" + id`; `NameKeyRoundTrip` recovers the id from it |
| `Samples.SizeNumerals` | resources/public/main.js:2-3 | the preview size is written into request paths as "380" and "50" |
| `Samples.SampleKey` | resources/public/main.js:168 | the sample request path, built by `join("/")`, is `"sample/" + id + "/380/50/" + encode(text)`; `SampleKeyRoundTrip` recovers its fields |
| `Samples.FontRequests` | resources/public/main.js:149-171 | one near-visible font's requests: one per flag that is false, all for that font; `FontRequestsInOrder` fixes their order |
| `Samples.Scheduled` | resources/public/main.js:142-172 | the requests of a pass over the first `n` fonts, at most two per font; characterised by `ScheduledName`, `ScheduledSample`, `ScheduledInOrder` and `ScheduledNothing` |
| `Samples.PassRequests` | resources/public/main.js:142-172 | the requests of a whole pass, at most two per font; `App.Pass` is proved to return it |
| `Samples.NameKeyRoundTrip` | resources/public/main.js:151 | splitting the name path on `/` gives back `fontname` and the font id |
| `Samples.SampleKeyRoundTrip` | resources/public/main.js:168 | splitting the sample path on `/` gives back the id, width 380, height 50 and the encoded text |
| `Samples.ScheduledName` | resources/public/main.js:142-160 | a pass issues a name request for font `i` iff `i` is near-visible and has no name, and the request path is `fontname/<id>` |
| `Samples.ScheduledSample` | resources/public/main.js:142-171 | a pass issues a sample request for font `i` iff `i` is near-visible and its sample is out of date, and the path carries the sample text current at pass time |
| `Samples.ScheduledInOrder` | resources/public/main.js:142-172 | requests follow list order, name before sample, and no font gets the same kind of request twice in one pass |
| `Samples.FontRequestsInOrder` | resources/public/main.js:149-171 | one font's requests are its name request before its sample request |
| `Samples.ScheduledNothing` | resources/public/main.js:149-171 | a pass issues nothing iff every near-visible font already has its name and an up-to-date sample |
| `Samples.PassOthersAgree` | resources/public/main.js:145-172 | fonts other than `i` get the same requests whatever font `i`'s flags are |
| `Samples.NameCompletionRetiresRequest` | resources/public/main.js:158 | after a name completion the next pass issues exactly the previous requests minus that font's name request |
| `Samples.SampleCompletionRetiresRequest` | resources/public/main.js:165-167 | after a sample load the next pass issues exactly the previous requests minus that font's sample request |
| `Samples.Listing` | resources/public/main.js:96-109 | a loaded listing keeps each entry's id and file name, with both flags false |
| `Samples.Invalidated` | resources/public/main.js:120-122 | after new sample text every record keeps its id, file name and name flag, and its sample is out of date |
| `Samples.FreshListingFetchesAll` | resources/public/main.js:101-130 | the first pass over a fresh listing requests the name and the sample of exactly the near-visible fonts |
| `Samples.InvalidatedResamples` | resources/public/main.js:120-123 | after a sample-text change every near-visible font is re-fetched with the new text, and name requests are as before |
| `Samples.TwoFontScenario` | resources/public/main.js:96-130 | scanning two near-visible fonts "1" and "2" issues exactly name 1, sample 1, name 2, sample 2 |
| `FontManager.App.constructor` | resources/public/main.js:2-8 | at page load the font list is a fresh, empty array, the sample text is the default and the font directory is "/" |
| `FontManager.App.Pass` | resources/public/main.js:137-172 | a pass returns exactly `PassRequests` of the current records, offsets and sample text when the directory list is shown, nothing otherwise, and modifies nothing |
| `FontManager.App.ScrollTwice` | resources/public/main.js:127 | two passes with no completion in between issue identical requests, so any pending fetch is duplicated; they are empty iff all near-visible fonts are settled |
| `FontManager.App.NameResolved` | resources/public/main.js:158 | a name completion sets only that font's `hasName`, and nothing else changes |
| `FontManager.App.SampleLoaded` | resources/public/main.js:165-167 | a sample load sets only that font's `sampleUpToDate`, and nothing else changes |
| `FontManager.App.BrowseDir` | resources/public/main.js:45-48 | browsing sets `fontsDir`, clears the status and empties the font area; fonts, sample text and handler are kept |
| `FontManager.App.SubdirsFailed` | resources/public/main.js:80-82 | a failed subdirectory fetch sets the error status "Unable to determine subdirectories." and changes nothing else |
| `FontManager.App.ScanFolder` | resources/public/main.js:86-89 | scanning sets `fontsDir := dir` and the status "Scanning for fonts in <dir>..." |
| `FontManager.App.FolderListed` | resources/public/main.js:90-130 | an empty result reports "No fonts found in <dir>" and leaves everything else untouched with no request; a non-empty one replaces `fonts` by a fresh array of the listing with both flags false, shows it, binds the directory handler and returns the first pass over it |
| `FontManager.App.FolderListingFailed` | resources/public/main.js:131-133 | a failed scan sets the error status "Could not load font list." and keeps the font list |
| `FontManager.App.ListInstalled` | resources/public/main.js:176-178 | listing installed fonts sets the status "Loading installed fonts..." |
| `FontManager.App.InstalledListed` | resources/public/main.js:179-192 | installed families are shown at once with the current sample text and no fetch; the directory font list and `fontsDir` are untouched |
| `FontManager.App.InstalledListingFailed` | resources/public/main.js:202-204 | a failed installed listing sets the error status "Could not load installed fonts." |
| `FontManager.App.InvalidateSamples` | resources/public/main.js:120-122 | every record's sample becomes out of date and every name flag is kept |
| `FontManager.App.SubmitForFolder` | resources/public/main.js:113-124 | the sample text becomes the trimmed input, or the default when that is empty; all samples are marked dirty, names are kept, and the pass with the new text is returned |
| `FontManager.App.SubmitForInstalled` | resources/public/main.js:193-201 | the sample text follows the same rule, but installed previews show the raw trimmed input, which may be empty |
| `FontManager.App.Submit` | resources/public/main.js:113-124 | a form submission goes to the handler bound last (directory or installed), and with none bound nothing changes |
| `FontManager.InstalledAtStartup` | resources/public/main.js:176-201 | listing installed fonts right after page load shows them with the default text and no fetch; a blank submission then keeps the default text, shows an empty preview and issues no fetch |

## Left out

- DOM and jQuery work is not modelled, because it is presentational: building the list
  items, the `.data("font")` back-reference, swapping the placeholder for the image, the
  hover swap between name and file name, status CSS (only the error flag is kept), and
  the scroll animation.
- The fetched display name is not stored. The source only writes it into the header.
- HTTP is not modelled. Requests are values returned by a pass, and responses are the
  callback methods. `encodeURIComponent` is the parameter `encode`. `$.trim` is modelled
  as ECMAScript `String.prototype.trim` over ECMAScript white space and line terminators.
- The image actually on screen is not tracked, only the `sampleUpToDate` flag. An image
  requested before a submit can load after it (main.js:165-167) and set the flag, so the
  preview of the old text stays on screen marked up to date and is not fetched again.
- The shortcut that fires `load` when the image is already cached (main.js:169-170) is
  folded into `SampleLoaded`.
- Failed name or image fetches have no handler in the source. Nothing happens, the flag
  stays false, and the font is asked for again on later passes. No method is needed.
- The startup chain (main.js:11-37) and the subdirectory list rendering in `browseDir`
  are I/O wiring and are not modelled. Only `BrowseDir`'s state changes and its failure
  status are kept.
- Callbacks from a listing that has since been replaced are not modelled, because they
  write into detached records. `NameResolved` and `SampleLoaded` take an index into the
  current list.
- `Pass` returns nothing while installed fonts are shown. The source's scroll handler
  stays bound in that mode and would fail on list items that carry no font record.
- `Submit` changes nothing when no handler is bound. The form's default browser
  submission is outside the script.
- `fonts` starts `undefined` in the source. The model uses an empty array, which is
  observably the same: nothing reads `fonts` before a non-empty listing is loaded.
- Pixel offsets are integers, so fractional offsets are not captured. Events are
  sequential method calls, because the page has no true concurrency.
