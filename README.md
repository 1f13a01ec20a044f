# Warroom dashboard — a Dafny model

Warroom's browser dashboard (`public/app.js`) is a single-page control panel
for a Discord guild. It talks to two back ends: the Gateway and the Relay.
This project models the dashboard's own logic and proves properties of it:

- **Settings.** `loadCfg` builds the five connection settings from three
  layers: empty defaults, the build-time `window.WARROOM_CONFIG` object and a
  JSON blob in local storage. It cleans the two URLs with `normalizeUrl` and
  trims the other fields. The settings form's save handler refuses a blank
  Relay URL and otherwise stores the cleaned form.
- **The channel tree.** `renderTree` sorts copies of the categories and
  channels by position. It groups the channels by parent in a map, then
  draws the rows: an uncategorised block first, then each category's head,
  followed by its channels unless the category is collapsed. Names are
  escaped with `escapeHtml`.
- **The state object.** Its handlers (`toggleCat`, `selectItem`, the state
  part of `loadGuild`, the settings save) are a class `Dashboard.State` whose
  methods update its fields. Each redraw is proved equal to a functional
  description of the tree.
- **The actions.** Rename, move, delete, create and run-command are each
  modelled up to the request they post to the Relay: the path and the JSON
  body. They can also refuse with the message the action log shows, or do
  nothing when the user cancels.

Modules, one per file:

| file | module | contents |
|---|---|---|
| js.dfy | `Js` | `Option`, `Result`, JSON values, truthiness, `safeJson`, `String.prototype.trim` |
| url.dfy | `Url` | `normalizeUrl` |
| html.dfy | `Html` | `escapeHtml` and the browser's decoding of its entities |
| settings.dfy | `Settings` | `loadCfg` and the save handler's guard |
| tree.dfy | `Tree` | sorting, grouping by parent, the rows of the tree |
| actions.dfy | `Actions` | the requests the actions build |
| dashboard.dfy | `Dashboard` | the `state` object and its handlers, with the loops of `renderTree` |

Some behaviours of the code that the model keeps as written:

- **Invalid URLs.** `normalizeUrl` never rejects non-blank text: it
  prepends `https://`, after which the second scheme test always passes.
  So `"not a url"` becomes `"https://not a url"`
  (`Url.NormalizeUrlAcceptsAnyText`), and only blank input gives `""`
  (`Url.NormalizeUrl`).
- **Empty fields.** The save handler stores all five fields, empty ones
  included.
- **Round trip.** Saving and loading again gives the saved settings back
  when both saved URLs are "settled" (`Settings.SaveThenLoad`). It does not
  for a Relay URL typed as `"x /"`: saving stores `"https://x "`, and
  loading trims it to `"https://x"` (`Settings.SaveThenLoadCanDiffer`).
  `normalizeUrl` is therefore not idempotent.
- **Malformed blob.** A stored blob that does not parse, or that parses to
  a non-object, is ignored (`Settings.LoadCfgIgnoresUnusableBlob`). A field
  holding a truthy non-string value, a number say, makes `.trim()` throw a
  TypeError. This is modelled as an error naming the first such field.
- **Settings fields.** `loadCfg` reads exactly five fields; there is no
  snapshot key among them.

## Model

| member | source | states |
|---|---|---|
| Js.SafeJson | public/app.js:15 | text that does not parse gives `null`; text that parses gives exactly the parsed value |
| Js.Trim | public/app.js:18 | `.trim()` leaves no whitespace at either end; the result is empty exactly when the text is all whitespace; already-trimmed text is unchanged |
| Js.TrimIsSlice | public/app.js:18 | the trimmed text is the input with its leading and trailing whitespace runs cut off |
| Js.TrimIdempotent | public/app.js:33-35 | trimming twice is trimming once |
| Url.HasScheme | public/app.js:21-22 | the regular expression test holds exactly when the text starts with `http://` or `https://`, letters in either case |
| Url.StripTrailingSlashes | public/app.js:20 | the result is a prefix of the input, does not end in `/`, and only slashes were removed |
| Url.NormalizeUrl | public/app.js:17-24 | the result is empty exactly for blank input; otherwise it has an http(s) scheme and ends in `/` only when it is the bare `https://` |
| Url.DefaultSchemeIsScheme | public/app.js:21-22 | `https://` followed by any text passes the scheme test, so the rejection at line 22 never happens |
| Url.NormalizeUrlKeepsText | public/app.js:18-23 | non-blank input is trimmed and loses its trailing slashes; `https://` is prepended exactly when no http(s) scheme is left |
| Url.NormalizeUrlKeepsCleanUrl | public/app.js:17-24 | a URL with a scheme, no surrounding whitespace and no trailing slash is returned unchanged |
| Url.NormalizeUrlAddsScheme | public/app.js:17-23 | a host with no scheme, no surrounding whitespace and no trailing slash becomes `https://` followed by the host |
| Url.NormalizeUrlDropsSlash | public/app.js:20 | a clean URL followed by `/` normalises to the clean URL |
| Url.StripTwoSlashes | public/app.js:20 | both of two trailing slashes are removed |
| Url.NormalizeUrlStable | public/app.js:17-24 | normalising a settled result again changes nothing |
| Url.NormalizeUrlKeepsInnerBlank | public/app.js:18-21 | `"x /"` becomes `"https://x "`: whitespace before a trailing slash survives |
| Url.NormalizeUrlTrimsOnSecondPass | public/app.js:18 | `"https://x "` becomes `"https://x"`, so a second pass changes the first pass's result |
| Url.NormalizeUrlSlashOnly | public/app.js:20-21 | `"/"` becomes the bare `"https://"` |
| Url.NormalizeUrlBareScheme | public/app.js:20-21 | `"https://"` becomes `"https://https:"` |
| Url.NormalizeUrlAddsSchemeExample | public/app.js:21 | `"example.com"` becomes `"https://example.com"` |
| Url.NormalizeUrlStripsSlashExample | public/app.js:20 | `"http://x.com/"` becomes `"http://x.com"` |
| Url.NormalizeUrlAcceptsAnyText | public/app.js:21-23 | `"not a url"` is not rejected; it becomes `"https://not a url"` |
| Html.EscapeHtml | public/app.js:171-173 | the escaped text contains no `<`, `>`, `"` or `'`, is at least as long as the input, and equals text that had no special character |
| Html.EscapeHtmlConcat | public/app.js:171-173 | escaping distributes over concatenation |
| Html.UnescapeEntity | public/app.js:172 | each character's replacement decodes back to that character, whatever follows it |
| Html.EscapeHtmlRoundTrip | public/app.js:171-173 | decoding the escaped text gives back the original |
| Html.EscapeHtmlInjective | public/app.js:171-173 | two different names never render to the same markup |
| Settings.StoredBlob | public/app.js:28-29 | the stored layer is the parsed value when a non-empty stored text parses, and `null` otherwise |
| Settings.Merged | public/app.js:30 | a stored object's own property wins; any merged value is the empty default or a property of the stored or the build-time object |
| Settings.MergedIsAssigned | public/app.js:27-30 | reading a key by layer precedence gives the value of the left-to-right union `defaults + base + stored` that `Object.assign` builds |
| Settings.TextOf | public/app.js:33-35 | `(v \|\| "")` is text for falsy values and strings, and throws exactly for truthy non-strings |
| Settings.MergedTextsFields | public/app.js:30-35 | the raw texts are gathered exactly when every merged field is text; on failure the named field is not text and every field taken before it is |
| Settings.Cleaned | public/app.js:31-35 | a non-empty cleaned URL has an http(s) scheme; the Relay URL is empty exactly when the typed one is blank |
| Settings.CleanedIsClean | public/app.js:31-35 | in cleaned settings each URL is empty or starts with an http(s) scheme, and the keys and guild id have no whitespace at either end |
| Settings.CleanedStable | public/app.js:31-35 | cleaning settings with settled URLs again changes nothing |
| Settings.LoadCfg | public/app.js:26-37 | loading succeeds exactly when every merged field is text, and then yields clean settings in which every field is that field's merged text, normalised or trimmed; otherwise it fails on the first field that is not text |
| Settings.LoadCfgLayers | public/app.js:26-37 | every loaded setting is the cleaned text of the value the `Object.assign` union holds under its key |
| Settings.LoadCfgIgnoresUnusableBlob | public/app.js:28-30 | a missing, empty or unparsable stored blob loads the same settings as no blob |
| Settings.LoadCfgBuildTimeDefaults | public/config.js:7-11 | with only the build-time object, every setting is empty |
| Settings.SaveSettings | public/app.js:297-305 | saving is refused with "Relay URL invalid" exactly when the typed Relay URL is blank; otherwise the stored record is exactly the cleaned form, which is clean and has a non-empty Relay URL |
| Settings.MergedTextsOfStored | public/app.js:28-35 | a stored blob that parses to a full settings record gives back exactly that record's texts |
| Settings.SaveThenLoad | public/app.js:305-307 | after a save whose URLs are settled, loading again yields exactly the saved settings |
| Settings.SaveThenLoadCanDiffer | public/app.js:298-307 | with a Relay URL typed as `"x /"`, the settings loaded after saving differ from those saved |
| Tree.ParentKey | public/app.js:126 | the group key is never empty; it is the parent id when that is non-empty, and "none" exactly when there is no parent id, it is empty, or it is "none" |
| Tree.InsertPermutes | public/app.js:120-121 | inserting adds exactly the inserted channel |
| Tree.InsertSorted | public/app.js:120-121 | inserting into a list sorted by position keeps it sorted |
| Tree.SortByPosition | public/app.js:120-121 | the sorted list is a permutation of the input, in ascending position |
| Tree.SortIsStable | public/app.js:120-121 | items of equal position keep their relative order (the sort is stable) |
| Tree.BucketCount | public/app.js:124-129 | a parent's group holds each channel with that parent as often as the input does, and no other |
| Tree.BucketMembers | public/app.js:126-128 | a channel is in a group exactly when it is in the input and its parent key is the group's key |
| Tree.BucketSorted | public/app.js:124-129 | grouping a list sorted by position keeps each group sorted |
| Tree.BucketAppend | public/app.js:124-129 | grouping distributes over concatenation |
| Tree.BucketSnoc | public/app.js:125-128 | pushing one more channel extends only its own parent's group |
| Tree.BucketInsert | public/app.js:120-129 | grouping after an insertion is inserting into the channel's own group |
| Tree.BucketOfSorted | public/app.js:120-129 | grouping the sorted channels gives each group sorted: sorting and grouping commute |
| Tree.GroupByParent | public/app.js:124-129 | the map has a key exactly for each parent key some channel has, and each value is that parent's channels in input order |
| Tree.ChannelRowsSnoc | public/app.js:138-144 | drawing one more channel appends one row |
| Tree.Icon | public/app.js:99-102 | the icon is one character, and it is `#` exactly when the channel is not a voice channel (type 2) |
| Tree.ChannelRowsPrefix | public/app.js:138-144 | the rows of one more channel of a list are the rows before it plus its own row |
| Tree.TreeRows | public/app.js:117-169 | the tree has at least one row per category |
| Tree.ShownChannelRows | public/app.js:138-144 | a list of channel rows shows exactly the listed channels and no heads |
| Tree.ShownSection | public/app.js:147-168 | a category block shows one head and its channels, none when it is collapsed |
| Tree.ShownSections | public/app.js:147-168 | the category blocks show each category's head in order, and a channel exactly when it belongs to an expanded category |
| Tree.SortKeepsMembers | public/app.js:120-121 | sorting keeps exactly the same items |
| Tree.TreeRowsShowsChannel | public/app.js:117-169 | a channel is drawn exactly when it has no parent, or its parent is a loaded category that is not collapsed |
| Tree.CollapsedHidesChildren | public/app.js:157-166 | the channels of a collapsed category are not drawn |
| Tree.OrphanHidden | public/app.js:131-168 | a channel whose parent is not a loaded category is not drawn at all |
| Tree.TreeRowsHeadsSorted | public/app.js:147-155 | the category heads are exactly the categories, in ascending position |
| Tree.NestedSections | public/app.js:147-168 | in the category blocks every channel row sits under its own, expanded category's head |
| Tree.TreeRowsNested | public/app.js:131-168 | every channel row sits under the nearest head above it, which is its own |
| Tree.TreeRowsUncategorisedFirst | public/app.js:131-137 | the tree opens with the "TEXT CHANNELS" head exactly when some channel has no parent |
| Tree.ActiveMarksAppend | public/app.js:140 | the highlight rule holds for concatenated rows when it holds for both parts |
| Tree.ActiveMarksChannelRows | public/app.js:138-144 | a channel row is highlighted exactly when it is the selected channel's |
| Tree.ActiveMarksSection | public/app.js:159-165 | the same inside a category block |
| Tree.ActiveMarksSections | public/app.js:147-168 | the same for all the category blocks |
| Tree.TreeRowsActive | public/app.js:138-165 | in the whole tree only the selected channel's rows are highlighted, and a selected category highlights none |
| Actions.GuildPart | public/app.js:248 | `guildId` is sent exactly when the guild id is set, with its value |
| Actions.Rename | public/app.js:213-223 | refused without a selection; nothing happens on a cancelled or empty answer; otherwise the untrimmed name is posted with the selected id |
| Actions.Move | public/app.js:225-231 | refused unless a channel is selected; otherwise the channel id and the answer are posted, with `null` as parent for an empty or cancelled answer |
| Actions.MoveCancelDetaches | public/app.js:227-228 | cancelling the prompt moves the channel out of its category, just as an empty answer does |
| Actions.Delete | public/app.js:233-241 | refused without a selection; posted only when confirmed |
| Actions.Create | public/app.js:243-261 | refused for a blank name; otherwise the trimmed name is posted to the category, role or channel path, with parent and type only for a channel |
| Actions.CreateIgnoresParentUnlessChannel | public/app.js:251-254 | the parent selector does not affect creating a category or a role |
| Actions.ParseOptions | public/app.js:265 | an empty options field gives `null`; a non-empty text that parses gives exactly the parsed value; anything else gives `null` |
| Actions.RunCmd | public/app.js:263-270 | a blank command is refused first, then options that are not a JSON object; otherwise the trimmed name and the options are posted |
| Actions.RunCmdRejectsArrays | public/app.js:267 | options that parse to an array are refused |
| Dashboard.Toggled | public/app.js:113 | toggling flips the id's membership and keeps every other id's |
| Dashboard.ToggledTwice | public/app.js:113 | toggling twice restores the collapsed set |
| Dashboard.FindById | public/app.js:106 | `find` gives nothing exactly when no item has the id, otherwise an item with that id |
| Dashboard.FindByIdFirst | public/app.js:106 | the item found is the first with the id |
| Dashboard.Title | public/app.js:106 | the title is never empty |
| Dashboard.TitleOfFirst | public/app.js:106 | when no item of the kind has the id the title is "Category" / "Channel"; otherwise it is the name of the first item with the id, or that fallback when the name is empty |
| Dashboard.PushChannelRows | public/app.js:138-144 | the row loop appends exactly the rows of the listed channels |
| Dashboard.PushUncategorised | public/app.js:131-145 | the uncategorised block is drawn from the map's "none" group, and only when that group is not empty |
| Dashboard.PushSection | public/app.js:147-167 | one iteration of the category loop extends the blocks of the categories before it with this category's block |
| Dashboard.PushSections | public/app.js:147-168 | the category loop draws every block in order |
| Dashboard.State.constructor | public/app.js:6-13 | the initial state holds no guild data, no selection and no collapsed category |
| Dashboard.State.RenderTree | public/app.js:117-169 | the rows drawn are the tree described by `Tree.TreeRows` for the current state, and the state is unchanged |
| Dashboard.State.ToggleCat | public/app.js:112-115 | the category's collapsed flag flips, nothing else changes, and the tree is redrawn |
| Dashboard.State.SelectItem | public/app.js:104-110 | the selection and its title are set, nothing else changes, and the tree is redrawn |
| Dashboard.State.BeginLoadGuild | public/app.js:176-182 | without a Relay URL the load stops with "Missing Relay URL. Open Settings."; otherwise the log says it has begun |
| Dashboard.State.ApplyGuildState | public/app.js:189-210 | the guild name ("Guild" when absent), the categories sorted by position and the channels are stored, the log says "OK", and the tree is redrawn |
| Dashboard.State.DoRename | public/app.js:213-223 | the outcome is `Actions.Rename` of the current selection; a refusal is written to the action log |
| Dashboard.State.DoMove | public/app.js:225-231 | the outcome is `Actions.Move` of the current selection; a refusal is written to the action log |
| Dashboard.State.DoDelete | public/app.js:233-241 | the outcome is `Actions.Delete`; the selection is cleared and the title reset exactly when the request is posted and the awaited post resolves; otherwise they stay as they were |
| Dashboard.State.DoCreate | public/app.js:243-261 | the outcome is `Actions.Create` with the current settings; a refusal is written to the action log |
| Dashboard.State.RunCommand | public/app.js:263-270 | the outcome is `Actions.RunCmd` with the current settings; a refusal is written to the command log |
| Dashboard.State.Save | public/app.js:297-311 | a refused save leaves the settings as they were; a stored save reloads them, and with settled URLs and a faithful store the state holds exactly what was saved |

## Left out

- Network I/O is not modelled: `fetch`, the Gateway and Relay pings, `relayGet` and `relayPost`, the headers they send, and the responses. An action's model ends at the path and body it posts; the response text written to the log and the `loadGuild` that follows are not modelled. The one exception is `Dashboard.State.DoDelete`, which also models the two statements after its post resolves (clearing the selection and resetting the title); whether the post resolved is its parameter `completed`.
- The `loadGuild` request is not modelled: the `guildId` query string, its `encodeURIComponent`, and the failure message built from the response. Its guard is `Dashboard.State.BeginLoadGuild`; its state update is `Dashboard.State.ApplyGuildState`.
- DOM work is not modelled: element creation, `innerHTML`, click handlers, the parent selector's options, the debug box and the status dots. The tree is modelled as a sequence of rows carrying the data each element shows.
- Each handler is modelled as one atomic step. Interleaving at an `await` is not modelled. For example, a `selectItem` click can run while `doDelete` awaits its post, and the deletion then clears that new selection. Likewise, overlapping `loadGuild` calls race, and the one that finishes last wins.
- Local storage, `prompt` and `confirm` are inputs: the stored text, the prompt's answer (None when cancelled) and the confirmation are parameters.
- `JSON.parse` is the parameter `parse` (None when it throws). `JSON.stringify` is abstracted: the saved text is a parameter, and the round trip assumes it parses back to the saved record.
- Names, ids and texts are always strings. `escapeHtml` calls `String(s)`, which also turns `null`, `undefined` and numbers into text; the model has no such names.
- JavaScript strings are sequences of UTF-16 code units, while a Dafny `char` is a Unicode scalar value. Text holding a lone surrogate cannot be represented, and a character outside the Basic Multilingual Plane counts as one character rather than two code units.
- JSON numbers are integers only. Positions are integers, so the sort comparator's subtraction has no NaN or floating-point cases.
- Dashboard.State.ApplyGuildState: the in-place sort of `state.categories` is modelled by value, as the stable sort `Tree.SortByPosition`. Aliasing of the category array is not modelled.
- Dashboard.State.Save: `closeSettings`, `renderDebug` and the `boot()` that follows the save are not modelled.
- Boot sequencing (the `DOMContentLoaded` handler, `boot`, auto-opening the settings) and the "clear settings" button are not modelled.
- The settings modal's `openSettings` and `showSettingsMsg` display code is not modelled.
- `public/config.js` has no logic: its object is the constant `Settings.BuildTimeConfig`.
- `doRename` checks that the selection's kind is "channel" or "category". That check always holds, because `selectItem` is only ever called with those two kinds, so it has no branch in the model.
- Module management, member filtering and snapshots belong to other parts of the system and are not part of this model.
