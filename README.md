# Popup Blocks shortcode renderers, in Dafny

This project models the part of the Popup Blocks WordPress plugin (`popup-blocks.php`) that
produces markup: its three shortcodes and the one piece of state they share.

- `[popup_modal]` (`shortcode_modal`):
  - merges the caller's attributes over six defaults;
  - takes the dialog id `"popup-modal" + n` from the global counter `$modal_count`, then
    advances it;
  - repairs content that begins with a stray `</p>`;
  - maps size `lg` to `modal-lg`;
  - gives a button with empty classes the classes `btn btn-primary`;
  - writes the trigger's attributes: htmx request attributes and a spinner only when `url` is
    not empty, and the Bootstrap toggle always;
  - emits a `<button>` or `<a>` trigger, followed by the Bootstrap dialog whose `id` the
    trigger targets.

  The dialog's content is expanded by `do_shortcode()`. Any `[popup_modal]` inside it takes
  the next counter values.
- `[dynamic_load]` (`shortcode_dynamic_load`) emits a spinner and a region that htmx loads.
  The spinner's id is the region's id followed by `-ind`.
- `[page_content]` (`shortcode_page_content`) embeds a page's expanded body, or `""` when no
  page is found. It looks the page up by post id when `page` is numeric, and by path
  otherwise.

`$modal_count` is a PHP global. It lives for one page request and starts at 1 in each
request.

Files:

- `php.dfy` (module `Php`): the PHP built-ins the renderers rely on, with PHP's meaning:
  - null;
  - `empty()`, under which null, `""` and `"0"` are empty;
  - `ltrim()`;
  - `str_starts_with()`;
  - the decimal text of an integer;
  - substring containment, used to state what markup holds.
- `html.dfy` (module `Html`): start-tag attributes, written as `name="value" ` in order.
  `Lookup` gives the value of the first attribute of a name in such a list. Nothing is
  escaped, as in the plugin. A value containing `"` therefore makes the written tag read
  differently from the list. The model's statements about attributes are about the list.
- `wordpress.dfy` (module `WordPress`): `shortcode_atts()` as a key merge, plus the services
  the renderers call, as the fields of a `Host` value passed in. The merge is all that
  `shortcode_atts()` does here: every call passes no shortcode name, so WordPress runs no
  `shortcode_atts_{$shortcode}` filter. The services are:
  - `do_shortcode()`;
  - `plugins_url()` for the spinner;
  - PHP's `is_numeric()`;
  - `get_post()`;
  - `get_page_by_path()`.

  `do_shortcode()` is given the counter on entry. It returns its markup together with the
  number of `[popup_modal]` dialogs it rendered, each of which took the next counter value.
  Beyond that it is unconstrained.
- `popup_blocks.dfy` (module `PopupBlocks`): the three renderers.
  - `Renderer` class: it holds `modalCount`, which starts at 1 as `$modal_count` does, and a
    ghost set of the ids issued so far. Its invariant is that those are exactly the ids for
    the counter values below `modalCount`.
  - `shortcode_modal` changes that state, so it is the method `Renderer.ShortcodeModal`.
    Its steps are methods, each proved equal to its own specification function:
    - `NextModalId` to `ModalId`;
    - `RewrittenModalAtts` (the attribute map reassigned key by key) to `NormalizeSize` and
      `DefaultClasses`;
    - `WriteTriggerAttributes` (the appends) to `TriggerAttributes`;
    - `FillModalTemplate` to `ModalViewOf`;
    - `RenderModalAt` to `ModalRender`;
    - `TakeIds` to `IdsBetween`.
  - The lemmas state the properties of those functions.
  - The other two renderers compute values and are functions. The methods
    `Renderer.DynamicLoad` and `Renderer.PageContent` advance the counter by the dialogs their
    expansion rendered.

Markup is modelled as strings, with the layout whitespace of the PHP template collapsed:
- no newlines or indentation between tags;
- a single space between attributes;
- a space after every attribute in a rendered attribute list.

Where the code's behaviour may be unexpected:

- The `[popup_modal]` title defaults to `[title]`, not to `""`.
- Its spinner is emitted only when `url` is not empty.
- It knows no `ajax`, `swap`, `form`, `form_button` or `id` attributes. The dialog id always
  comes from the counter.
- No renderer suppresses its output for data-only (REST) requests.
- There is no `popup_modal_button` shortcode.
- "Empty" follows PHP's `empty()`. So `url="0"` gives a static dialog, and a button with
  `classes="0"` gets `btn btn-primary`.

## Model

| member | source | states |
|---|---|---|
| WordPress.MergeAtts | popup-blocks.php:114 | `shortcode_atts`: the result has exactly the default keys. Each holds the caller's value when the caller gave that key, else the default. Other caller keys are dropped. |
| PopupBlocks.ModalAtts | popup-blocks.php:101-114 | the merged `[popup_modal]` attributes have exactly the keys type, url, classes, text, title, size, with the defaults link, null, "", "[text]", "[title]", "" |
| Php.NatToStringInjective | popup-blocks.php:116 | different counter values have different decimal texts |
| PopupBlocks.ModalIdShape | popup-blocks.php:116 | the id `ModalId(n)` is "popup-modal" followed by at least one decimal digit and nothing else |
| PopupBlocks.ModalIdsDistinct | popup-blocks.php:116 | `"popup-modal" . $modal_count` differs for different counter values |
| PopupBlocks.IdOutside | popup-blocks.php:91-117 | the id for a counter value outside lo .. hi-1 is none of the ids for the values lo .. hi-1 |
| PopupBlocks.IssuedIdsStep | popup-blocks.php:116-117 | advancing the counter from n adds exactly the id for n to the issued ids |
| PopupBlocks.Renderer.constructor | popup-blocks.php:91 | the counter starts at 1 with no id issued |
| PopupBlocks.Renderer.NextModalId | popup-blocks.php:110-117 | returns `"popup-modal" + n` for the counter value n on entry, an id not issued before, and leaves the counter at n + 1 with that id added to the issued ones |
| PopupBlocks.Renderer.Advance | popup-blocks.php:171 | the dialogs rendered inside an expansion advance the counter by their number, and exactly their ids join the issued ones |
| PopupBlocks.Renderer.TakeIds | popup-blocks.php:116-171 | with k nested dialogs the counter goes from n to n + 1 + k. The id for n is none of the ids issued before and none of the k nested ones, and the issued ids grow by exactly these. |
| PopupBlocks.Renderer.ShortcodeModal | popup-blocks.php:100-182 | returns the markup `ModalRender` gives for the counter value n on entry: the dialog `"popup-modal" + n` with its content expanded at n + 1. It leaves the counter at n + 1 + k for the k dialogs the expansion rendered. The dialog's id is fresh: none of the ids issued before and none of the nested ones. |
| PopupBlocks.RenderModalAt | popup-blocks.php:116-181 | the template filled for id `"popup-modal" + n` and written out is exactly `ModalRender`'s markup, and the nested count is what the expansion reported |
| PopupBlocks.FillModalTemplate | popup-blocks.php:114-173 | the step-by-step content repair, attribute rewrites and appends, and content expansion fill the template exactly as `ModalViewOf` specifies, and report the expansion's dialog count |
| PopupBlocks.RewrittenModalAtts | popup-blocks.php:114-126 | the in-place rewrites keep the merged keys: size is `NormalizeSize` of the merged size, classes is `DefaultClasses` of the merged type and classes, and type, url, text and title are as merged |
| PopupBlocks.OverwriteKeepsReadAtts | popup-blocks.php:122-126 | overwriting size or classes leaves the other attributes unchanged |
| Php.LTrim | popup-blocks.php:119 | `ltrim` strips exactly the leading run of " \t\n\r\0\x0B" characters |
| PopupBlocks.FixParagraph | popup-blocks.php:119-120 | content whose left-trimmed form starts with `</p>` becomes `"<p>" + content + "</p>"`. Any other content is unchanged. The result never starts with `</p>` after trimming. |
| PopupBlocks.NormalizeSize | popup-blocks.php:122-123 | "lg" becomes "modal-lg"; every other size is kept exactly |
| PopupBlocks.DefaultClasses | popup-blocks.php:125-126 | classes become "btn btn-primary" only for a button with empty classes; links and non-empty classes are kept |
| PopupBlocks.DefaultClassesOfAtts | popup-blocks.php:114-126 | the merged and defaulted classes equal `TriggerClasses`, which is stated on the caller's attributes |
| PopupBlocks.ModalTriggerClasses | popup-blocks.php:125-128 | the trigger's class attribute is `btn btn-primary` for a button with empty classes, and the caller's classes (or "") otherwise. The markup holds that `class="..."`. |
| PopupBlocks.HxLookups | popup-blocks.php:138-141 | the htmx attributes are hx-get = url, hx-target = `#id .modal-body`, hx-trigger = click, hx-indicator = `#id-ind` |
| PopupBlocks.ToggleLookups | popup-blocks.php:143 | the Bootstrap attributes are data-bs-toggle = modal and data-bs-target = `#id` |
| PopupBlocks.WriteTriggerAttributes | popup-blocks.php:128-143 | the `.=` appends produce the class attribute, then the htmx attributes only when url is non-empty, then the Bootstrap toggle |
| PopupBlocks.TriggerAttributesLookups | popup-blocks.php:128-143 | the trigger has hx-get exactly when url is non-empty, and then has all four htmx values. It always has the class, data-bs-toggle = modal and data-bs-target = `#id`. |
| PopupBlocks.RenderModalTriggerKind | popup-blocks.php:147-159 | the markup starts with `<button type="button"` exactly when the view is a button, and otherwise with `<a href="#id"` |
| PopupBlocks.RenderModalShows | popup-blocks.php:146-180 | the written template holds the trigger's attributes, the dialog start tag, the size tag and the body |
| PopupBlocks.ModalViewKind | popup-blocks.php:125-159 | the template asks for a button exactly when the caller's type is "button", and carries the dialog id it was given |
| PopupBlocks.ModalTriggerKind | popup-blocks.php:146-180 | the `[popup_modal]` markup `ModalMarkup` begins with a `<button type="button">` exactly when type is "button", and otherwise with `<a href="#id">` |
| PopupBlocks.ModalTriggerTargetsDialog | popup-blocks.php:143-161 | the trigger's data-bs-toggle is modal and its data-bs-target is `#id`. The markup holds both and the dialog start tag with `id="id"`, so the trigger opens the dialog. |
| PopupBlocks.ModalBodyAndIndicator | popup-blocks.php:129-173 | the dialog body is the expanded, repaired content, followed by the spinner when url is non-empty and by nothing otherwise. With a url, the markup holds `hx-get="url"`, `hx-indicator="#id-ind"` and the spinner `<img>` with id `id-ind`. |
| PopupBlocks.ModalSizeClass | popup-blocks.php:122-162 | the dialog carries the class `modal-dialog modal-lg` for size "lg", and otherwise the given size (or "") |
| PopupBlocks.DynamicLoadAtts | popup-blocks.php:185-189 | the `[dynamic_load]` attributes have exactly the keys url, id, trigger, with the defaults "", the generated id, "load" |
| PopupBlocks.DynamicLoadHtmlShows | popup-blocks.php:191-193 | the template begins with the spinner whose id is `id-ind`, and right after it comes the region's `<div>` start tag with the region's attributes. It holds the region's id, its hx-indicator naming the spinner, hx-get, hx-trigger and the body. |
| PopupBlocks.RegionAttributesLookups | popup-blocks.php:193 | the region `<div>` has id = the id, hx-get = the url, hx-trigger = the trigger, and hx-indicator = `#id-ind`, naming the spinner |
| PopupBlocks.ShortcodeDynamicLoad | popup-blocks.php:184-194 | the output is the spinner for `id-ind` followed by the region `<div>` around the expanded content. The region's attributes are the caller's id (or the generated one), `hx-indicator="#id-ind"`, and hx-get and hx-trigger set to the caller's url and trigger (or "" and "load"). It reports the dialogs the expansion rendered. |
| PopupBlocks.Renderer.DynamicLoad | popup-blocks.php:184-194 | returns `ShortcodeDynamicLoad`'s markup for the counter on entry, and advances the counter by the dialogs it rendered |
| PopupBlocks.PageLookup | popup-blocks.php:205-212 | a `page` (default "") that `is_numeric` accepts is looked up by post id, anything else by path |
| PopupBlocks.ShortcodePageContent | popup-blocks.php:203-218 | when no page is found the output is "" and no dialog is rendered; when a page is found it is the expansion of its body |
| PopupBlocks.Renderer.PageContent | popup-blocks.php:203-218 | returns `ShortcodePageContent`'s markup for the counter on entry, and advances the counter by the dialogs it rendered |

## Left out

- `setup`, `enqueue_block_editor_assets` and `enqueue_block_styles`: they register hooks and assets with WordPress and the file system, and produce no markup.
- The htmx script enqueue inside `shortcode_modal`: it registers an asset and produces no output.
- `src/index.js`: it only registers the editor UI and has no logic of its own.
- The output buffering (`ob_start`/`ob_get_contents`): the result is plain string concatenation, with the template's whitespace collapsed as described above.
- `do_shortcode`, `plugins_url`, `get_post` and `get_page_by_path` are WordPress code, and `is_numeric` is a PHP built-in whose code is not part of this model. They are fields of `Host`, passed in. `do_shortcode` is only taken to report how many dialogs it rendered, so the counter's advance is as it reports.
- The caller's attributes are a map from strings to strings. WordPress's empty-string stand-in for "no attributes" is the empty map.
- `wp_generate_password(6, false)`: the random default id of `[dynamic_load]` is the parameter `generatedId`, about which nothing is assumed.
- `!empty($page)` on the lookup result: a found post is never empty, so only "found" and "not found" are distinguished.
- Concurrency: `$modal_count` is per request and each request runs alone, so the model is sequential.
- PopupBlocks.Renderer.ShortcodeModal: it writes the markup before it moves the counter, while the source moves the counter first (line 117). The markup depends on the counter only through the value n on entry, and the content is expanded with n + 1 in both orders, so the result and the final state are the same.
- PopupBlocks.ModalTriggerTargetsDialog: it states that the markup contains the toggle, the target and the dialog tag, not where in the markup they stand. That the toggle and the target belong to the trigger is stated on the trigger's attribute list. `RenderModalTriggerKind` states that the markup begins with the trigger.
