# Link-preview plugin block: a Dafny model

This project models the block-data state machine of the editor plugin tool `PluginTool`
in `src/index.js`. A block holds a record `{link, meta}`:

- the `data` setter merges an update into the record field by field;
- pasting a URL starts a metadata fetch and sets the link;
- the fetch's continuation hands the endpoint's reply to `onFetch`, or reports a transport error;
- the cancel button clears `meta`;
- `render` shows a rich preview when `meta` has a key and a bare link otherwise;
- `validate` keeps the block exactly when the link is not blank.

Layout:

- `wrappers.dfy`: `Option`, for fields a JavaScript object may leave undefined.
- `js_string.dfy`: `String.prototype.trim` over ECMAScript whitespace and line terminators.
- `block_data.dfy`: the record, the update argument, and the setter's merge, with explicit
  JavaScript truthiness. A `link` that is missing or `''` is falsy. A `meta` is falsy only
  when it is missing or null, because `{}` is truthy.
- `lifecycle.dfy`: the whole observable state as a value, with one pure step function per
  operation. It also defines `Run` over any sequence of events, and the lemmas:
  - the preloader is never on without an outstanding request;
  - only a paste changes the link;
  - notifications are only appended;
  - what the code does with stale, empty and `meta`-less replies;
  - two end-to-end scenarios.
- `plugin.dfy`: the class `PluginTool`. Its fields are updated in place by methods that
  mirror the source's methods. Each method is proved to move the object exactly as the
  matching step function. A client method drives the failure scenario through the object.

The fetch is split where the source suspends. `FetchLinkData` is the part of
`fetchLinkData` before the `await`. `FetchSettled` is the continuation, and it takes how
the request settled as an input. The ghost multiset `inFlight` records the requests issued
but not yet settled. Notifications are recorded as a ghost list of message keys.

Where the code behaves other than a reader might expect, the model follows the code:

- There is no stale-response guard. One might expect a reply to be discarded when its URL
  no longer matches `data.link`, but `onFetch` never compares the two.
  `StaleResultOverwritesMeta` shows that the reply to an earlier paste installs its
  metadata under the later link and hides the preloader while the later request is still
  pending.
- After a failure, the bare link points at `data.link`, not at the URL that failed.
  `showLinkWithoutPreview` ignores the argument `fetchingFailed` passes it.
- A successful reply with `meta: {}` shows an empty preview, because `{}` is truthy. One
  might expect an empty `meta` to mean the bare-link view, and `render` would indeed show
  the bare link for the same data (`EmptyMetaShowsPreview`).
- A successful reply without `meta` keeps the previous `meta` through the setter's fallback.
- Pasting `''` keeps the previous link, again through the setter's fallback.
- `validate` is modelled by its return expression.
- Read-only mode removes only the cancel button. Pastes are still handled, and so they are
  in the model.

## Model

| member | source | states |
|---|---|---|
| `JsString.TrimStart` | src/index.js:176 | the result is the suffix of the input left after a blank prefix, and starts with a non-whitespace character when non-empty |
| `JsString.TrimEnd` | src/index.js:176 | the result is the prefix of the input left before a blank suffix, and ends with a non-whitespace character when non-empty |
| `JsString.Trim` | src/index.js:176 | `trim()` yields `''` exactly when every character is whitespace; otherwise both ends are non-whitespace |
| `BlockData.Merge` | src/index.js:184-189 | a truthy field of the update replaces the held value; a missing or falsy one (`''` link, absent meta) keeps it |
| `BlockData.Saved` | src/index.js:161-163 | the saved record passed back to a new block carries the same link and the same meta, and its link is truthy exactly when non-empty |
| `BlockData.MergeLinkOnly` | src/index.js:452 | setting `{link: x}` keeps `meta`; a non-empty `x` becomes the link, and `''` changes nothing |
| `BlockData.MergeMetaOnly` | src/index.js:485 | setting `{meta: m}` keeps `link` and installs `m` |
| `BlockData.MergeIdempotent` | src/index.js:184-189 | applying the same update twice equals applying it once |
| `BlockData.SavedRoundTrip` | src/index.js:109-114 | constructing a block from the data `save()` returned gives back exactly that data |
| `Lifecycle.Init` | src/index.js:109-114 | the constructor merges the saved data over `{link: '', meta: {}}`: a missing or empty link is `''` and a missing meta is `{}`; nothing is shown, loading or pending |
| `Lifecycle.ViewOf` | src/index.js:136-142 | `render` picks the preview exactly when `meta` has at least one key, otherwise a bare link; both link to `data.link` |
| `Lifecycle.RenderStep` | src/index.js:126-148 | render leaves data, notifications and pending requests alone, shows `ViewOf(data)`, and starts with an inactive preloader |
| `Lifecycle.PasteStep` | src/index.js:230-238 | on a rendered block, a paste sets the link to the pasted URL (unless it is `''`), keeps `meta`, turns the preloader on and issues one request for that URL |
| `Lifecycle.FailStep` | src/index.js:504-512 | a failure appends its notification and shows a bare link to the current `data.link`, leaving data unchanged |
| `Lifecycle.OnFetchStep` | src/index.js:476-495 | a falsy body or `success` leaves data and the preloader unchanged and reports "Couldn't get..."; success without `meta` keeps the old meta and the preloader and reports "Wrong response format"; success with `meta` installs it, keeps the link and shows the preview |
| `Lifecycle.SettleStep` | src/index.js:450-469 | a settled request always hides the preloader and is no longer pending; a rejected one leaves data unchanged and reports "Couldn't fetch..."; a resolved one then goes exactly through `onFetch` with its body |
| `Lifecycle.CancelStep` | src/index.js:240-245 | cancel sets `meta` to `{}`, keeps the link and shows a bare link |
| `Lifecycle.Validate` | src/index.js:173-177 | `validate()` is false exactly when the link is blank after trimming, true exactly when some character is not whitespace |
| `Lifecycle.InitEstablishes` | src/index.js:109-114 | a new block has no active preloader |
| `Lifecycle.StepPreserves` | src/index.js:428-435 | no event leaves the preloader active while no request is pending |
| `Lifecycle.RunPreserves` | src/index.js:450-469 | over any sequence of events, the preloader is active only while some request is pending |
| `Lifecycle.StepKeepsRendered` | src/index.js:126-148 | once rendered, no event takes a block back to showing nothing |
| `Lifecycle.CancelBeforeRenderIgnored` | src/index.js:372-373 | a cancel before the first render changes nothing, since the cancel button is built only by `render` |
| `Lifecycle.PasteBeforeRenderIgnored` | src/index.js:451 | a paste before the first render changes nothing and issues no request, because `showLoading` throws on the missing preloader |
| `Lifecycle.RunLinkIsLastPasted` | src/index.js:450-452 | on a rendered block, after any sequence of events, the link is the last non-empty pasted URL, or the initial link if there was none |
| `Lifecycle.StepKeepsNotices` | src/index.js:504-508 | one event never removes or reorders notifications |
| `Lifecycle.RunKeepsNotices` | src/index.js:504-508 | over any sequence of events, earlier notifications remain a prefix |
| `Lifecycle.CancelThenRenderIsBare` | src/index.js:240-245 | after cancel, render shows the bare link to the same link |
| `Lifecycle.RenderKeepsSave` | src/index.js:161-163 | render does not change the data `save()` returns, and rendering twice equals rendering once |
| `Lifecycle.StaleResultOverwritesMeta` | src/index.js:476-495 | on a rendered block, after pastes of `a` then `b`, a successful reply for `a` installs its meta under link `b`, shows it, and hides the preloader while `b` is still pending |
| `Lifecycle.EmptyMetaShowsPreview` | src/index.js:483-494 | a successful reply with `meta: {}` shows a preview although `render` would show a bare link |
| `Lifecycle.MissingMetaKeepsPrevious` | src/index.js:483-491 | a successful reply without `meta` keeps data unchanged, reports the wrong format and shows the bare link |
| `Lifecycle.SuccessScenario` | src/index.js:450-495 | from empty saved data, a paste of `https://x.com` and a successful reply end with exactly that link and meta, a preview, no notification, and a block that validates |
| `Lifecycle.FailureScenario` | src/index.js:464-468 | a paste of `https://bad.com` whose request is rejected ends with `{link: 'https://bad.com', meta: {}}`, a bare link and one "Couldn't fetch" notification |
| `Plugin.PluginTool.constructor` | src/index.js:84-115 | the new object's state is `Init` of the saved data |
| `Plugin.PluginTool.SetData` | src/index.js:184-189 | the field-by-field setter stores `Merge` of the old data and the update |
| `Plugin.PluginTool.Save` | src/index.js:161-163 | returns the current data and changes nothing, so two saves with nothing in between agree |
| `Plugin.PluginTool.Validate` | src/index.js:173-177 | true exactly when the held link is not blank |
| `Plugin.PluginTool.Render` | src/index.js:126-148 | moves the object as `RenderStep` and returns the view shown |
| `Plugin.PluginTool.ShowLinkWithoutPreview` | src/index.js:378-389 | shows a bare link whose href and text are `data.link` |
| `Plugin.PluginTool.ShowLinkPreview` | src/index.js:396-426 | shows the preview of the given meta, linking to `data.link` |
| `Plugin.PluginTool.ShowLoading` | src/index.js:428-431 | the preloader becomes active |
| `Plugin.PluginTool.HideLoading` | src/index.js:433-435 | the preloader becomes inactive |
| `Plugin.PluginTool.OnPaste` | src/index.js:230-238 | moves the object as a `Pasted` event: `PasteStep` once rendered, and no change before the first render |
| `Plugin.PluginTool.FetchLinkData` | src/index.js:450-460 | preloader on, link merged from the URL, one more pending request for it |
| `Plugin.PluginTool.FetchSettled` | src/index.js:462-468 | moves the object as `SettleStep` for a pending URL |
| `Plugin.PluginTool.OnFetch` | src/index.js:476-495 | moves the object as `OnFetchStep` |
| `Plugin.PluginTool.FetchingFailed` | src/index.js:504-512 | appends the notification and shows the bare link to `data.link` |
| `Plugin.PluginTool.CancelLinkPreview` | src/index.js:240-245 | moves the object as `CancelStep` |
| `Plugin.FailedPasteLeavesBareLink` | src/index.js:450-469 | driven through the object, a rejected paste saves `{link: 'https://bad.com', meta: {}}` and shows a bare link to it |

## Left out

- DOM construction and styling are not modelled: `make`, `prepareLinkPreview`, `makePreloader`'s elements, the cancel button's event wiring, the `CSS` getter, and the element composition inside `showLinkPreview` (image, title, description, cancel button). A view records only which kind of content was appended, its href, and the meta last passed to `showLinkPreview`. The image, title and description nodes are made once per `render` and each is appended only when its facet is truthy. So a second preview within one render still shows facets of the earlier meta that the new one lacks, and the model does not capture this.
- Plugin.PluginTool.ShowLinkPreview: the label text is not modelled. The source derives it from the link's hostname through the WHATWG URL parser, a foreign component, with the raw link as the fallback.
- The container keeps every anchor appended to it; for example, a failure after a preview appends a bare link beside the preview. The model keeps only the last content shown. `render`'s own DOM subtree is not returned.
- The `ajax.get` call and its asynchronous suspension are not modelled. How a request settles is an input to `FetchSettled`. A promise that resolves to no `body` is the `Resolved(None)` case. A resolved value that cannot be destructured rejects, which is the `Rejected` case.
- Exceptions thrown inside the `try` block after the request resolves are not modelled, for example one thrown while `onFetch` builds the view. Such an exception would send control to the `catch` branch.
- A paste before the first `render` is modelled as changing nothing. `nodes.preloader` is still null, so `showLoading()` at line 451 throws before `data` is set or a request is issued, and `onPaste` then throws at line 237. The exceptions themselves are not modelled.
- `api.i18n.t` and `api.notifier.show` are host calls. They are modelled only as the ghost list of message keys shown.
- The `console.log` at line 174 is not modelled. It reads an undeclared identifier `link`, which throws a `ReferenceError`, so `validate()` as written reaches line 176 only when a global named `link` happens to exist. The model follows the return expression at line 176.
- Static host configuration is not modelled: `pasteConfig`'s pattern (which the host matches), `toolbox`, `isReadOnlySupported` and `enableLineBreaks`. `config` and `api` are not modelled either; only `endpoint` reaches a transition, inside the network call.
- `removeErrorStyle`, `applyErrorStyle` and `rendered` have empty bodies in the source; the code they once held is commented out, and so is the code at lines 277-354.
- The preloader's URL text is not modelled (`showLoading(url)` vs `showLoading()`). Only whether the preloader is active is modelled.
- Lifecycle.CancelStep: `container.innerHTML = ''` (line 242) also detaches the preloader appended at line 144, so nothing of it is visible until the next `render`. The model's `loading` records only the preloader's active class, which a cancel leaves as it was.
- Object identity is not modelled. `save()` returns the very object `_data`, so a later cancel also changes what an earlier `save()` returned. The model returns the record as a value.
- Lifecycle.Step: three events cannot happen in the source, and `Step` treats each as a no-op so that `Run` is total:
  - a settlement for a URL with no pending request;
  - a cancel click on a read-only block;
  - a cancel click before the first render. The button is made only by `render` (lines 130, 372-373), and `cancelLinkPreview` called earlier would throw at line 242.
