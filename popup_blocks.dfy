/** The three shortcode renderers of the Popup Blocks plugin: `[popup_modal]`, which emits a
    trigger (a button or a link) and the Bootstrap dialog it opens, `[dynamic_load]`, which
    emits an htmx-loaded region with its spinner, and `[page_content]`, which embeds the
    body of another page. Markup is modelled as strings with the layout whitespace of the
    PHP templates collapsed to single spaces; nothing is escaped, as in the plugin. */
module PopupBlocks {
  import opened Php
  import opened Html
  import opened WordPress

  // ---------------------------------------------------------------------------
  // [popup_modal]: attributes and the rewrites applied to them
  // ---------------------------------------------------------------------------

  /** The attribute defaults of [popup_modal]. */
  function ModalDefaults(): map<string, Value>
  {
    map["type" := Str("link"), "url" := Null, "classes" := Str(""),
        "text" := Str("[text]"), "title" := Str("[title]"), "size" := Str("")]
  }

  /** The attributes [popup_modal] works with: exactly the six default keys, each holding
      the caller's value when given and its default otherwise. */
  function ModalAtts(atts: map<string, string>): (a: map<string, Value>)
    ensures a.Keys == {"type", "url", "classes", "text", "title", "size"}
    ensures a["type"] == if "type" in atts then Str(atts["type"]) else Str("link")
    ensures a["url"] == if "url" in atts then Str(atts["url"]) else Null
    ensures a["classes"] == if "classes" in atts then Str(atts["classes"]) else Str("")
    ensures a["text"] == if "text" in atts then Str(atts["text"]) else Str("[text]")
    ensures a["title"] == if "title" in atts then Str(atts["title"]) else Str("[title]")
    ensures a["size"] == if "size" in atts then Str(atts["size"]) else Str("")
  {
    MergeAtts(ModalDefaults(), atts)
  }

  /** The DOM id of the dialog rendered when the counter reads n: "popup-modal" followed
      by the decimal digits of n. */
  function ModalId(n: nat): string
  {
    "popup-modal" + NatToString(n)
  }

  /** A dialog id is "popup-modal" followed by at least one decimal digit and nothing else. */
  lemma ModalIdShape(n: nat)
    ensures StartsWith(ModalId(n), "popup-modal") && |ModalId(n)| > |"popup-modal"|
    ensures forall i :: |"popup-modal"| <= i < |ModalId(n)| ==> '0' <= ModalId(n)[i] <= '9'
  {
    StartsWithConcat("popup-modal", NatToString(n));
  }

  /** Different counter values give different dialog ids. */
  lemma ModalIdsDistinct(m: nat, n: nat)
    requires m != n
    ensures ModalId(m) != ModalId(n)
  {
    if ModalId(m) == ModalId(n) {
      var p := "popup-modal";
      assert NatToString(m) == ModalId(m)[|p|..] == ModalId(n)[|p|..] == NatToString(n);
      NatToStringInjective(m, n);
    }
  }

  /** The repair of content that begins, after leading whitespace, with a stray "</p>":
      such content is wrapped in "<p>" ... "</p>"; any other content is kept as it is.
      Afterwards the content never begins with "</p>", so a second repair changes nothing. */
  function FixParagraph(content: string): (r: string)
    ensures r == content || r == "<p>" + content + "</p>"
    ensures r != content <==> StartsWith(LTrim(content), "</p>")
    ensures !StartsWith(LTrim(r), "</p>")
  {
    if StartsWith(LTrim(content), "</p>") then
      var r := "<p>" + content + "</p>";
      assert r[0] == '<' && r[1] == 'p';
      assert LTrim(r) == r;
      assert r[..4][1] != "</p>"[1];
      r
    else
      content
  }

  /** The size attribute as a dialog class: "lg" becomes "modal-lg", every other value is
      passed through untouched. */
  function NormalizeSize(size: Value): (r: Value)
    ensures size == Str("lg") ==> r == Str("modal-lg")
    ensures size != Str("lg") ==> r == size
    ensures r != Str("lg")
  {
    if size == Str("lg") then Str("modal-lg") else size
  }

  /** A trigger of type "button" */
  predicate IsButton(kind: Value)
  {
    kind == Str("button")
  }

  /** The trigger's classes: a button whose classes are empty (in PHP's sense) gets
      "btn btn-primary"; links and buttons with classes keep what the caller gave. */
  function DefaultClasses(kind: Value, classes: Value): (r: Value)
    ensures IsButton(kind) ==> !Empty(r)
    ensures !IsButton(kind) || !Empty(classes) ==> r == classes
    ensures r != classes ==> IsButton(kind) && Empty(classes) && r == Str("btn btn-primary")
  {
    if IsButton(kind) && Empty(classes) then Str("btn btn-primary") else classes
  }

  /** The dialog loads its body over htmx exactly when the url is not empty. */
  predicate IsDynamic(url: Value)
  {
    !Empty(url)
  }

  /** The id of the loading spinner that belongs to the element with the given id. */
  function IndicatorId(id: string): string
  {
    id + "-ind"
  }

  /** The start of the loading spinner of the element with the given id. */
  function IndicatorTag(id: string): string
  {
    "<img class=\"htmx-indicator\" id=\"" + IndicatorId(id) + "\""
  }

  /** The loading spinner of the element with the given id. */
  function IndicatorHtml(id: string, spinnerUrl: string): string
  {
    IndicatorTag(id) + (" src=\"" + spinnerUrl + "\">")
  }

  /** The htmx attributes that fetch `url` into the body of dialog `id` on click. */
  function HxAttributes(url: string, id: string): seq<Attr>
  {
    [Attr("hx-get", url), Attr("hx-target", "#" + id + " .modal-body"),
     Attr("hx-trigger", "click"), Attr("hx-indicator", "#" + IndicatorId(id))]
  }

  /** The Bootstrap attributes that make a trigger open dialog `id`. */
  function BootstrapToggle(id: string): seq<Attr>
  {
    [Attr("data-bs-toggle", "modal"), Attr("data-bs-target", "#" + id)]
  }

  /** Which attributes the htmx attributes hold. */
  lemma HxLookups(url: string, id: string)
    ensures var hx := HxAttributes(url, id);
      && Lookup(hx, "hx-get") == Some(url)
      && Lookup(hx, "hx-target") == Some("#" + id + " .modal-body")
      && Lookup(hx, "hx-trigger") == Some("click")
      && Lookup(hx, "hx-indicator") == Some("#" + IndicatorId(id))
      && Lookup(hx, "class") == None
      && Lookup(hx, "data-bs-toggle") == None
      && Lookup(hx, "data-bs-target") == None
  {
    var hx := HxAttributes(url, id);
    var tail1, tail2, tail3 := hx[1..], hx[2..], hx[3..];
    assert tail1[1..] == tail2 && tail2[1..] == tail3 && tail3[1..] == [];
    assert Lookup(tail3, "hx-indicator") == Some("#" + IndicatorId(id));
    assert Lookup(hx, "hx-indicator") == Lookup(tail1, "hx-indicator") == Lookup(tail2, "hx-indicator");
    assert Lookup(hx, "hx-trigger") == Lookup(tail1, "hx-trigger");
    assert Lookup(tail2, "hx-trigger") == Some("click");
    assert Lookup(tail1, "hx-target") == Some("#" + id + " .modal-body");
    forall n | n in ["class", "data-bs-toggle", "data-bs-target"]
      ensures Lookup(hx, n) == None
    {
      assert Lookup(tail3, n) == None;
      assert Lookup(tail2, n) == None;
      assert Lookup(tail1, n) == None;
    }
  }

  /** Which attributes the Bootstrap toggle holds. */
  lemma ToggleLookups(id: string)
    ensures var toggle := BootstrapToggle(id);
      && Lookup(toggle, "data-bs-toggle") == Some("modal")
      && Lookup(toggle, "data-bs-target") == Some("#" + id)
      && Lookup(toggle, "class") == None
      && Lookup(toggle, "hx-get") == None
      && Lookup(toggle, "hx-target") == None
      && Lookup(toggle, "hx-trigger") == None
      && Lookup(toggle, "hx-indicator") == None
  {
    var toggle := BootstrapToggle(id);
    var tail := toggle[1..];
    assert tail == [Attr("data-bs-target", "#" + id)] && tail[1..] == [];
    assert "data-bs-toggle"[9] != "data-bs-target"[9];
    assert Lookup(tail, "data-bs-target") == Some("#" + id);
    forall n | n in ["class", "hx-get", "hx-target", "hx-trigger", "hx-indicator"]
      ensures Lookup(toggle, n) == None
    {
      assert Lookup(tail, n) == None;
    }
  }

  /** The attributes of the trigger of dialog `id`. It always has the given classes and
      opens dialog `id` through Bootstrap; it has htmx attributes, all four of them,
      exactly when the url is not empty, and then they fetch the url into that dialog's
      body and show that dialog's spinner. */
  function TriggerAttributes(classes: string, url: Value, id: string): seq<Attr>
  {
    [Attr("class", classes)] + (if IsDynamic(url) then HxAttributes(ToStr(url), id) else []) + BootstrapToggle(id)
  }

  /** The trigger's attributes, looked up by name: the class, the Bootstrap toggle aimed at
      the dialog, and the htmx request exactly when there is a url. */
  lemma TriggerAttributesLookups(classes: string, url: Value, id: string)
    ensures var r := TriggerAttributes(classes, url, id);
      && Lookup(r, "class") == Some(classes)
      && Lookup(r, "data-bs-toggle") == Some("modal")
      && Lookup(r, "data-bs-target") == Some("#" + id)
      && (Lookup(r, "hx-get").Some? <==> IsDynamic(url))
      && (IsDynamic(url) ==>
        && Lookup(r, "hx-get") == Some(ToStr(url))
        && Lookup(r, "hx-target") == Some("#" + id + " .modal-body")
        && Lookup(r, "hx-trigger") == Some("click")
        && Lookup(r, "hx-indicator") == Some("#" + IndicatorId(id)))
      && (!IsDynamic(url) ==>
        && Lookup(r, "hx-target") == None
        && Lookup(r, "hx-trigger") == None
        && Lookup(r, "hx-indicator") == None)
  {
    var hx := if IsDynamic(url) then HxAttributes(ToStr(url), id) else [];
    var toggle := BootstrapToggle(id);
    LookupAppend([Attr("class", classes)] + hx, toggle);
    LookupAppend([Attr("class", classes)], hx);
    HxLookups(ToStr(url), id);
    ToggleLookups(id);
  }

  // ---------------------------------------------------------------------------
  // [popup_modal]: the markup template
  // ---------------------------------------------------------------------------

  /** What the template of [popup_modal] is filled with. */
  datatype ModalView = ModalView(
    isButton: bool,          // a <button> trigger, or else an <a> trigger
    id: string,              // the dialog's DOM id
    attributes: seq<Attr>,   // the trigger's attributes
    text: string,            // the trigger's text
    size: string,            // the dialog's size class
    title: string,           // the dialog's title
    body: string,            // the expanded content
    indicator: string)       // the spinner, or ""

  const ButtonOpen := "<button type=\"button\" "

  /** The start of the link that opens dialog `id`. */
  function LinkOpen(id: string): string
  {
    "<a href=\"#" + id + "\" "
  }

  /** A link's start tag and a button's differ in their second character. */
  lemma LinkOpenNotButton(id: string)
    ensures 1 < |LinkOpen(id)| && 1 < |ButtonOpen| && LinkOpen(id)[1] != ButtonOpen[1]
  {
    assert LinkOpen(id)[1] == 'a';
  }

  /** The trigger: a button, or a link whose href names the dialog. */
  function TriggerHtml(v: ModalView): string
  {
    if v.isButton then ButtonOpen + (RenderAttrs(v.attributes) + (">" + v.text + "</button>"))
    else LinkOpen(v.id) + (RenderAttrs(v.attributes) + (">" + v.text + "</a>"))
  }

  /** The start tag of dialog `id`. */
  function DialogOpen(id: string): string
  {
    "<div class=\"modal fade\" id=\"" + id + "\" tabindex=\"-1\" role=\"dialog\" aria-labelledby=\""
    + id + "Title\" aria-hidden=\"true\">"
  }

  /** The start tag that carries the dialog's size class. */
  function DialogSizeOpen(size: string): string
  {
    "<div class=\"modal-dialog " + size + "\" role=\"document\">"
  }

  /** The dialog header: its title and a close button. */
  function DialogHeader(title: string): string
  {
    "<div class=\"modal-content\"><div class=\"modal-header sticky-modal-header\">"
    + "<h5 class=\"modal-title\" id=\"\">" + title + "</h5>"
    + "<button type=\"button\" class=\"btn-close\" data-bs-dismiss=\"modal\" aria-label=\"Close\">"
    + "<span aria-hidden=\"true\">&times;</span></button></div>"
  }

  /** The dialog body: the expanded content, then the spinner if there is one. */
  function DialogBody(body: string, indicator: string): string
  {
    "<div class=\"modal-body\">" + (body + (indicator + "</div>"))
  }

  const DialogClose := "</div></div></div>"

  /** The dialog container. */
  function DialogHtml(id: string, size: string, title: string, body: string, indicator: string): string
  {
    DialogOpen(id) + (DialogSizeOpen(size) + (DialogHeader(title) + (DialogBody(body, indicator) + DialogClose)))
  }

  /** The filled-in template: the trigger followed by the dialog. */
  function RenderModal(v: ModalView): string
  {
    TriggerHtml(v) + DialogHtml(v.id, v.size, v.title, v.body, v.indicator)
  }

  /** The rendered modal begins with a `<button type="button">` exactly when the view asks
      for a button, and otherwise with a link to the dialog's id. */
  lemma RenderModalTriggerKind(v: ModalView)
    ensures StartsWith(RenderModal(v), ButtonOpen) <==> v.isButton
    ensures !v.isButton ==> StartsWith(RenderModal(v), LinkOpen(v.id))
  {
    var attrs := RenderAttrs(v.attributes);
    if v.isButton {
      StartsWithConcat(ButtonOpen, attrs + (">" + v.text + "</button>"));
      StartsWithExtend(TriggerHtml(v), ButtonOpen, DialogHtml(v.id, v.size, v.title, v.body, v.indicator));
    } else {
      StartsWithConcat(LinkOpen(v.id), attrs + (">" + v.text + "</a>"));
      StartsWithExtend(TriggerHtml(v), LinkOpen(v.id), DialogHtml(v.id, v.size, v.title, v.body, v.indicator));
      LinkOpenNotButton(v.id);
      StartsWithClash(RenderModal(v), LinkOpen(v.id), ButtonOpen, 1);
    }
  }

  /** The rendered modal shows the trigger's attributes, the dialog start tag, the size
      tag and the dialog body. */
  lemma RenderModalShows(v: ModalView)
    ensures Contains(RenderModal(v), RenderAttrs(v.attributes))
    ensures Contains(RenderModal(v), DialogOpen(v.id))
    ensures Contains(RenderModal(v), DialogSizeOpen(v.size))
    ensures Contains(RenderModal(v), DialogBody(v.body, v.indicator))
  {
    var html := RenderModal(v);
    var trigger := TriggerHtml(v);
    var attrs := RenderAttrs(v.attributes);
    var open := if v.isButton then ButtonOpen else LinkOpen(v.id);
    var close := if v.isButton then ">" + v.text + "</button>" else ">" + v.text + "</a>";
    ContainsSuffix(open, attrs + close);
    ContainsPrefix(attrs, close);
    ContainsTransitive(trigger, attrs + close, attrs);
    ContainsPrefix(trigger, DialogHtml(v.id, v.size, v.title, v.body, v.indicator));
    ContainsTransitive(html, trigger, attrs);

    var s := DialogSizeOpen(v.size);
    var h := DialogHeader(v.title);
    var b := DialogBody(v.body, v.indicator);
    ContainsSuffix(trigger, DialogHtml(v.id, v.size, v.title, v.body, v.indicator));
    ContainsPrefix(DialogOpen(v.id), s + (h + (b + DialogClose)));
    ContainsTransitive(html, DialogHtml(v.id, v.size, v.title, v.body, v.indicator), DialogOpen(v.id));
    ContainsSuffix(DialogOpen(v.id), s + (h + (b + DialogClose)));
    ContainsTransitive(html, DialogHtml(v.id, v.size, v.title, v.body, v.indicator), s + (h + (b + DialogClose)));
    ContainsPrefix(s, h + (b + DialogClose));
    ContainsTransitive(html, s + (h + (b + DialogClose)), s);
    ContainsSuffix(s, h + (b + DialogClose));
    ContainsTransitive(html, s + (h + (b + DialogClose)), h + (b + DialogClose));
    ContainsSuffix(h, b + DialogClose);
    ContainsTransitive(html, h + (b + DialogClose), b + DialogClose);
    ContainsPrefix(b, DialogClose);
    ContainsTransitive(html, b + DialogClose, b);
  }

  // ---------------------------------------------------------------------------
  // [popup_modal]: from attributes to markup
  // ---------------------------------------------------------------------------

  /** How many further dialogs expanding the (repaired) content renders, when the counter
      reads `counter` on entry to the expansion. */
  function NestedModals(content: string, counter: nat, host: Host): nat
  {
    host.expand(FixParagraph(content), counter).modals
  }

  /** What the template is filled with for the given attributes and content when the
      dialog gets the id `id` and the counter reads `counter` as the content is expanded. */
  function ModalViewOf(atts: map<string, string>, content: string, id: string, counter: nat, host: Host): ModalView
  {
    var a := ModalAtts(atts);
    ModalView(
      IsButton(a["type"]),
      id,
      TriggerAttributes(ToStr(DefaultClasses(a["type"], a["classes"])), a["url"], id),
      ToStr(a["text"]),
      ToStr(NormalizeSize(a["size"])),
      ToStr(a["title"]),
      host.expand(FixParagraph(content), counter).html,
      if IsDynamic(a["url"]) then IndicatorHtml(id, host.spinnerUrl) else "")
  }

  /** The caller asks for a button trigger: its type attribute is "button". */
  predicate ButtonRequested(atts: map<string, string>)
  {
    "type" in atts && atts["type"] == "button"
  }

  /** The view asks for a button exactly when the caller's type attribute is "button",
      and it carries the dialog id it was given. */
  lemma ModalViewKind(atts: map<string, string>, content: string, id: string, counter: nat, host: Host)
    ensures ModalViewOf(atts, content, id, counter, host).isButton <==> ButtonRequested(atts)
    ensures ModalViewOf(atts, content, id, counter, host).id == id
  {
    var a := ModalAtts(atts);
    assert a["type"] == if "type" in atts then Str(atts["type"]) else Str("link");
    assert Str("link") != Str("button");
  }

  /** The rendered view begins with a button exactly when the caller's type is "button",
      and otherwise with a link to the dialog. */
  lemma ModalViewTriggerKind(atts: map<string, string>, content: string, id: string, counter: nat, host: Host)
    ensures StartsWith(RenderModal(ModalViewOf(atts, content, id, counter, host)), ButtonOpen)
      <==> ButtonRequested(atts)
    ensures StartsWith(RenderModal(ModalViewOf(atts, content, id, counter, host)),
      if ButtonRequested(atts) then ButtonOpen else LinkOpen(id))
  {
    ModalViewKind(atts, content, id, counter, host);
    RenderModalTriggerKind(ModalViewOf(atts, content, id, counter, host));
  }

  /** What [popup_modal] renders for the given attributes and content when the dialog
      gets the id `id` and the counter reads `counter` as the content is expanded. */
  function ModalMarkup(atts: map<string, string>, content: string, id: string, counter: nat, host: Host): string
  {
    RenderModal(ModalViewOf(atts, content, id, counter, host))
  }

  /** The markup begins with a `<button type="button">` exactly when the type attribute
      is "button"; otherwise it begins with a link to "#id". */
  lemma ModalTriggerKind(atts: map<string, string>, content: string, id: string, counter: nat, host: Host)
    ensures StartsWith(ModalMarkup(atts, content, id, counter, host), ButtonOpen) <==> ButtonRequested(atts)
    ensures StartsWith(ModalMarkup(atts, content, id, counter, host),
      if ButtonRequested(atts) then ButtonOpen else LinkOpen(id))
  {
    ModalViewTriggerKind(atts, content, id, counter, host);
  }

  /** What shortcode_modal() renders when the counter reads n on entry: the dialog gets the
      id "popup-modal" + n and the content is expanded with the counter at n + 1. The
      dialogs rendered are this one and those the expansion rendered. */
  function ModalRender(atts: map<string, string>, content: string, n: nat, host: Host): Markup
  {
    Markup(ModalMarkup(atts, content, ModalId(n), n + 1, host), 1 + NestedModals(content, n + 1, host))
  }

  /** The trigger opens the dialog the markup contains: the trigger's attributes hold
      `data-bs-toggle="modal"` and `data-bs-target="#id"`, and the markup holds both and
      the dialog start tag carrying `id="id"`. */
  lemma ModalTriggerTargetsDialog(atts: map<string, string>, content: string, id: string, counter: nat, host: Host)
    ensures var attributes := ModalViewOf(atts, content, id, counter, host).attributes;
      && Lookup(attributes, "data-bs-toggle") == Some("modal")
      && Lookup(attributes, "data-bs-target") == Some("#" + id)
    ensures Contains(ModalMarkup(atts, content, id, counter, host), Written("data-bs-toggle", "modal"))
    ensures Contains(ModalMarkup(atts, content, id, counter, host), Written("data-bs-target", "#" + id))
    ensures Contains(ModalMarkup(atts, content, id, counter, host), DialogOpen(id))
  {
    var v := ModalViewOf(atts, content, id, counter, host);
    var a := ModalAtts(atts);
    TriggerAttributesLookups(ToStr(DefaultClasses(a["type"], a["classes"])), a["url"], id);
    RenderModalShows(v);
    LookupShows(v.attributes, "data-bs-toggle", "modal");
    LookupShows(v.attributes, "data-bs-target", "#" + id);
    ContainsTransitive(RenderModal(v), RenderAttrs(v.attributes), Written("data-bs-toggle", "modal"));
    ContainsTransitive(RenderModal(v), RenderAttrs(v.attributes), Written("data-bs-target", "#" + id));
  }

  /** A dialog with a non-empty url is loaded over htmx: the trigger carries
      `hx-get="url"` and an `hx-indicator` naming the spinner image that the dialog body
      shows after the expanded content. Without a url the body holds the expanded
      content alone. */
  lemma ModalBodyAndIndicator(atts: map<string, string>, content: string, id: string, counter: nat, host: Host)
    ensures var url := ModalAtts(atts)["url"];
      Contains(ModalMarkup(atts, content, id, counter, host),
        DialogBody(host.expand(FixParagraph(content), counter).html,
          if IsDynamic(url) then IndicatorHtml(id, host.spinnerUrl) else ""))
    ensures IsDynamic(ModalAtts(atts)["url"]) ==>
      && Contains(ModalMarkup(atts, content, id, counter, host), Written("hx-get", atts["url"]))
      && Contains(ModalMarkup(atts, content, id, counter, host), Written("hx-indicator", "#" + IndicatorId(id)))
      && Contains(ModalMarkup(atts, content, id, counter, host), IndicatorTag(id))
  {
    var v := ModalViewOf(atts, content, id, counter, host);
    var html := RenderModal(v);
    RenderModalShows(v);
    if IsDynamic(ModalAtts(atts)["url"]) {
      var a := ModalAtts(atts);
      TriggerAttributesLookups(ToStr(DefaultClasses(a["type"], a["classes"])), a["url"], id);
      LookupShows(v.attributes, "hx-get", atts["url"]);
      LookupShows(v.attributes, "hx-indicator", "#" + IndicatorId(id));
      ContainsTransitive(html, RenderAttrs(v.attributes), Written("hx-get", atts["url"]));
      ContainsTransitive(html, RenderAttrs(v.attributes), Written("hx-indicator", "#" + IndicatorId(id)));
      var body := DialogBody(v.body, v.indicator);
      var inner := v.body + (v.indicator + "</div>");
      ContainsSuffix("<div class=\"modal-body\">", inner);
      ContainsSuffix(v.body, v.indicator + "</div>");
      ContainsPrefix(v.indicator, "</div>");
      ContainsPrefix(IndicatorTag(id), " src=\"" + host.spinnerUrl + "\">");
      ContainsTransitive(html, body, inner);
      ContainsTransitive(html, inner, v.indicator + "</div>");
      ContainsTransitive(html, v.indicator + "</div>", v.indicator);
      ContainsTransitive(html, v.indicator, IndicatorTag(id));
    }
  }

  /** The dialog carries the size class: "modal-lg" for size "lg", the given size (or ""
      when none is given) otherwise. */
  lemma ModalSizeClass(atts: map<string, string>, content: string, id: string, counter: nat, host: Host)
    ensures var size := if "size" in atts then atts["size"] else "";
      Contains(ModalMarkup(atts, content, id, counter, host),
        DialogSizeOpen(if size == "lg" then "modal-lg" else size))
  {
    RenderModalShows(ModalViewOf(atts, content, id, counter, host));
  }

  /** The classes [popup_modal] gives its trigger, in terms of the caller's attributes:
      "btn btn-primary" for a button given empty classes ("", "0" or none), the caller's
      classes (or "") in every other case. */
  function TriggerClasses(atts: map<string, string>): string
  {
    var classes := if "classes" in atts then atts["classes"] else "";
    if "type" in atts && atts["type"] == "button" && (classes == "" || classes == "0") then "btn btn-primary"
    else classes
  }

  /** The merge-then-default steps give exactly TriggerClasses. */
  lemma DefaultClassesOfAtts(atts: map<string, string>)
    ensures ToStr(DefaultClasses(ModalAtts(atts)["type"], ModalAtts(atts)["classes"])) == TriggerClasses(atts)
  {
    var a := ModalAtts(atts);
    var given := if "classes" in atts then atts["classes"] else "";
    assert a["classes"] == Str(given);
    assert Empty(Str(given)) <==> given == "" || given == "0";
  }

  /** The trigger's class attribute is TriggerClasses: "btn btn-primary" for a button
      given empty classes, the caller's classes (or "") in every other case. */
  lemma ModalTriggerClasses(atts: map<string, string>, content: string, id: string, counter: nat, host: Host)
    ensures Lookup(ModalViewOf(atts, content, id, counter, host).attributes, "class") == Some(TriggerClasses(atts))
    ensures Contains(ModalMarkup(atts, content, id, counter, host), Written("class", TriggerClasses(atts)))
  {
    var v := ModalViewOf(atts, content, id, counter, host);
    var a := ModalAtts(atts);
    var classes := ToStr(DefaultClasses(a["type"], a["classes"]));
    DefaultClassesOfAtts(atts);
    TriggerAttributesLookups(classes, a["url"], id);
    RenderModalShows(v);
    LookupShows(v.attributes, "class", classes);
    ContainsTransitive(RenderModal(v), RenderAttrs(v.attributes), Written("class", classes));
  }

  // ---------------------------------------------------------------------------
  // [popup_modal]: the renderer and its per-request dialog counter
  // ---------------------------------------------------------------------------

  /** The dialog ids handed out while the counter went from lo to hi - 1. */
  ghost function IdsBetween(lo: int, hi: int): set<string>
  {
    set k: nat | lo <= k < hi :: ModalId(k)
  }

  /** The dialog ids handed out while the counter went from 1 to n - 1. */
  ghost function IssuedIds(n: int): set<string>
  {
    IdsBetween(1, n)
  }

  /** The plugin's state for one page request: the global `$modal_count`, which starts at 1
      and gives each rendered dialog its id. */
  class Renderer {
    var modalCount: int
    /** The ids of every dialog rendered so far. */
    ghost var issued: set<string>

    ghost predicate Valid()
      reads this
    {
      modalCount >= 1 && issued == IssuedIds(modalCount)
    }

    /** The counter as the plugin file loads: 1, with no dialog rendered yet. */
    constructor ()
      ensures Valid()
      ensures modalCount == 1 && issued == {}
    {
      modalCount := 1;
      issued := {};
    }

    /** The `$modal_count += 1` of shortcode_modal(): hands out "popup-modal" + the
        counter, an id no earlier call has been given, and advances the counter by one. */
    method NextModalId() returns (modalId: string)
      requires Valid()
      modifies this
      ensures Valid()
      ensures modalId == ModalId(old(modalCount))
      ensures modalId !in old(issued)
      ensures modalCount == old(modalCount) + 1
      ensures issued == old(issued) + {modalId}
    {
      modalId := ModalId(modalCount);
      IdOutside(modalCount, 1, modalCount);
      IssuedIdsStep(modalCount);
      modalCount := modalCount + 1;
      issued := issued + {modalId};
    }

    /** The dialogs that do_shortcode() rendered while expanding some content: each took
        the next counter value, so the counter advances by their number and their ids join
        the issued ones. */
    method Advance(modals: nat)
      requires Valid()
      modifies this
      ensures Valid()
      ensures modalCount == old(modalCount) + modals
      ensures issued == old(issued) + IdsBetween(old(modalCount), modalCount)
    {
      IdsBetweenSplit(1, modalCount, modalCount + modals);
      modalCount := modalCount + modals;
      issued := IssuedIds(modalCount);
    }

    /** The counter's part in shortcode_modal(): the call takes the id for the counter
        value n on entry (`$modal_count += 1`), and the `nested` dialogs rendered while
        its content is expanded take the next values, so the counter ends at
        n + 1 + nested. The call's id is none of the ids issued before, nor any of the
        nested ones. */
    method TakeIds(nested: nat)
      requires Valid()
      modifies this
      ensures Valid()
      ensures modalCount == old(modalCount) + 1 + nested
      ensures ModalId(old(modalCount)) !in old(issued)
      ensures ModalId(old(modalCount)) !in IdsBetween(old(modalCount) + 1, modalCount)
      ensures issued == old(issued) + {ModalId(old(modalCount))} + IdsBetween(old(modalCount) + 1, modalCount)
    {
      var modalId := NextModalId();
      Advance(nested);
      IdOutside(old(modalCount), old(modalCount) + 1, modalCount);
    }

    /** shortcode_modal($atts, $content): renders the dialog under the fresh id
        "popup-modal" + n, n being the counter on entry. Expanding the content happens
        with the counter at n + 1 and may render k further dialogs, which take the next
        k values, so the counter ends at n + 1 + k. The dialog's id is none of the ids
        issued before the call, nor any of the k nested ones. The markup depends on the
        counter only through n, so it is rendered from n before the counter moves. */
    method ShortcodeModal(atts: map<string, string>, content: string, host: Host) returns (html: string)
      requires Valid()
      modifies this
      ensures Valid()
      ensures var r := ModalRender(atts, content, old(modalCount), host);
        html == r.html && modalCount == old(modalCount) + r.modals
      ensures ModalId(old(modalCount)) !in old(issued)
      ensures ModalId(old(modalCount)) !in IdsBetween(old(modalCount) + 1, modalCount)
      ensures issued == old(issued) + {ModalId(old(modalCount))} + IdsBetween(old(modalCount) + 1, modalCount)
    {
      var n := modalCount;
      var nested;
      html, nested := RenderModalAt(atts, content, n, host);
      TakeIds(nested);
    }

    /** shortcode_dynamic_load($atts, $content): the markup ShortcodeDynamicLoad gives for
        the counter on entry; the counter advances by the dialogs the content rendered. */
    method DynamicLoad(atts: map<string, string>, content: string, generatedId: string, host: Host)
      returns (html: string)
      requires Valid()
      modifies this
      ensures Valid()
      ensures var r := ShortcodeDynamicLoad(atts, content, generatedId, old(modalCount), host);
        html == r.html && modalCount == old(modalCount) + r.modals
      ensures issued == old(issued) + IdsBetween(old(modalCount), modalCount)
    {
      var r := ShortcodeDynamicLoad(atts, content, generatedId, modalCount, host);
      Advance(r.modals);
      html := r.html;
    }

    /** shortcode_page_content($atts): the markup ShortcodePageContent gives for the
        counter on entry; the counter advances by the dialogs the page body rendered. */
    method PageContent(atts: map<string, string>, host: Host) returns (html: string)
      requires Valid()
      modifies this
      ensures Valid()
      ensures var r := ShortcodePageContent(atts, old(modalCount), host);
        html == r.html && modalCount == old(modalCount) + r.modals
      ensures issued == old(issued) + IdsBetween(old(modalCount), modalCount)
    {
      var r := ShortcodePageContent(atts, modalCount, host);
      Advance(r.modals);
      html := r.html;
    }
  }

  /** Overwriting one of the attributes shortcode_modal() rewrites, "size" or "classes",
      keeps the four attributes it only reads. */
  lemma OverwriteKeepsReadAtts(a: map<string, Value>, key: string, value: Value)
    requires key == "size" || key == "classes"
    ensures var b := a[key := value];
      && (key == "size" ==> ("classes" in a ==> "classes" in b && b["classes"] == a["classes"]))
      && (key == "classes" ==> ("size" in a ==> "size" in b && b["size"] == a["size"]))
      && ("type" in a ==> "type" in b && b["type"] == a["type"])
      && ("url" in a ==> "url" in b && b["url"] == a["url"])
      && ("text" in a ==> "text" in b && b["text"] == a["text"])
      && ("title" in a ==> "title" in b && b["title"] == a["title"])
  {
    assert "size"[0] != "classes"[0];
    assert "size"[0] != "type"[0] && "size"[0] != "url"[0] && "size"[0] != "text"[0] && "size"[0] != "title"[0];
    assert "classes"[0] != "type"[0] && "classes"[0] != "url"[0] && "classes"[0] != "text"[0] && "classes"[0] != "title"[0];
  }

  /** The `$attributes .= ...` steps of shortcode_modal(): the class attribute, then the
      htmx request when there is a url, then the Bootstrap toggle. */
  method WriteTriggerAttributes(classes: string, url: Value, modalId: string) returns (attributes: seq<Attr>)
    ensures attributes == TriggerAttributes(classes, url, modalId)
  {
    attributes := [Attr("class", classes)];
    if !Empty(url) {
      attributes := attributes + HxAttributes(ToStr(url), modalId);
    }
    attributes := attributes + BootstrapToggle(modalId);
  }

  /** The attribute steps of shortcode_modal(): merges the caller's attributes over the
      defaults, then overwrites size "lg" with "modal-lg" and gives a button with empty
      classes "btn btn-primary". The other four attributes stay as merged. */
  method RewrittenModalAtts(atts: map<string, string>) returns (a: map<string, Value>)
    ensures a.Keys == ModalAtts(atts).Keys
    ensures a["size"] == NormalizeSize(ModalAtts(atts)["size"])
    ensures a["classes"] == DefaultClasses(ModalAtts(atts)["type"], ModalAtts(atts)["classes"])
    ensures a["type"] == ModalAtts(atts)["type"] && a["url"] == ModalAtts(atts)["url"]
    ensures a["text"] == ModalAtts(atts)["text"] && a["title"] == ModalAtts(atts)["title"]
  {
    a := ModalAtts(atts);
    ghost var given := a;

    if a["size"] == Str("lg") {
      OverwriteKeepsReadAtts(a, "size", Str("modal-lg"));
      a := a["size" := Str("modal-lg")];
    }
    ghost var sized := a;
    assert sized["size"] == NormalizeSize(given["size"]);

    if a["type"] == Str("button") && Empty(a["classes"]) {
      OverwriteKeepsReadAtts(a, "classes", Str("btn btn-primary"));
      a := a["classes" := Str("btn btn-primary")];
    }
    assert a["size"] == sized["size"];
  }

  /** The steps of shortcode_modal($atts, $content) after choosing the dialog id: merges
      the attributes, repairs the content, maps the size, fills in the button classes,
      appends the trigger attributes one group after another (the htmx group only when
      there is a url), and expands the content with the counter at `counter`: the values
      the template is filled with. Also gives how many dialogs the expansion rendered. */
  method FillModalTemplate(atts: map<string, string>, content: string, modalId: string, counter: nat, host: Host)
    returns (view: ModalView, nested: nat)
    ensures view == ModalViewOf(atts, content, modalId, counter, host)
    ensures nested == NestedModals(content, counter, host)
  {
    var a := RewrittenModalAtts(atts);

    var body := FixParagraph(content);

    var dynamic := !Empty(a["url"]);
    var indicator := "";
    if dynamic {
      indicator := IndicatorHtml(modalId, host.spinnerUrl);
    }
    var attributes := WriteTriggerAttributes(ToStr(a["classes"]), a["url"], modalId);

    var expansion := host.expand(body, counter);
    view := ModalView(a["type"] == Str("button"), modalId, attributes, ToStr(a["text"]), ToStr(a["size"]),
      ToStr(a["title"]), expansion.html, indicator);
    nested := expansion.modals;
  }


  /** shortcode_modal()'s markup when the counter reads n on entry: the template filled
      for the id "popup-modal" + n, with the content expanded at n + 1, and output; also
      the number of dialogs that expansion rendered. */
  method RenderModalAt(atts: map<string, string>, content: string, n: nat, host: Host)
    returns (html: string, nested: nat)
    ensures html == ModalRender(atts, content, n, host).html
    ensures 1 + nested == ModalRender(atts, content, n, host).modals
  {
    var modalId := ModalId(n);
    var view;
    view, nested := FillModalTemplate(atts, content, modalId, n + 1, host);
    html := RenderModal(view);
  }

  /** A counter value outside lo .. hi - 1 gives an id that none of those values gave. */
  lemma IdOutside(n: nat, lo: int, hi: int)
    requires n < lo || hi <= n
    ensures ModalId(n) !in IdsBetween(lo, hi)
  {
    forall k: nat | lo <= k < hi ensures ModalId(k) != ModalId(n) {
      ModalIdsDistinct(k, n);
    }
  }

  /** Advancing the counter from n adds exactly the id of n to the ids handed out. */
  lemma IssuedIdsStep(n: int)
    requires n >= 1
    ensures IssuedIds(n + 1) == IssuedIds(n) + {ModalId(n)}
  {
  }

  /** The ids of two adjacent counter ranges are the ids of the joined range. */
  lemma IdsBetweenSplit(lo: int, mid: int, hi: int)
    requires lo <= mid <= hi
    ensures IdsBetween(lo, hi) == IdsBetween(lo, mid) + IdsBetween(mid, hi)
  {
  }

  // ---------------------------------------------------------------------------
  // [dynamic_load]
  // ---------------------------------------------------------------------------

  /** The attributes [dynamic_load] works with; `generatedId` stands for the random
      six-character default id WordPress generates. */
  function DynamicLoadAtts(atts: map<string, string>, generatedId: string): (a: map<string, Value>)
    ensures a.Keys == {"url", "id", "trigger"}
    ensures a["url"] == if "url" in atts then Str(atts["url"]) else Str("")
    ensures a["id"] == if "id" in atts then Str(atts["id"]) else Str(generatedId)
    ensures a["trigger"] == if "trigger" in atts then Str(atts["trigger"]) else Str("load")
  {
    MergeAtts(map["url" := Str(""), "id" := Str(generatedId), "trigger" := Str("load")], atts)
  }

  /** The attributes of the region [dynamic_load] emits: when htmx loads it, its id, where
      it loads from and the spinner it shows meanwhile. */
  function RegionAttributes(trigger: string, id: string, url: string): seq<Attr>
  {
    [Attr("hx-trigger", trigger), Attr("id", id), Attr("hx-get", url),
     Attr("hx-indicator", "#" + IndicatorId(id))]
  }

  /** The region's own attributes: its id, the url it loads from, the event that triggers
      the load, and an hx-indicator naming the spinner of that id. */
  lemma RegionAttributesLookups(trigger: string, id: string, url: string)
    ensures var attrs := RegionAttributes(trigger, id, url);
      && Lookup(attrs, "id") == Some(id)
      && Lookup(attrs, "hx-get") == Some(url)
      && Lookup(attrs, "hx-trigger") == Some(trigger)
      && Lookup(attrs, "hx-indicator") == Some("#" + IndicatorId(id))
  {
    var attrs := RegionAttributes(trigger, id, url);
    var tail1, tail2, tail3 := attrs[1..], attrs[2..], attrs[3..];
    assert tail1[1..] == tail2 && tail2[1..] == tail3 && tail3[1..] == [];
    assert "id"[0] != "hx-trigger"[0];
    assert "hx-get"[3] != "hx-trigger"[3] && "hx-get"[0] != "id"[0];
    assert "hx-indicator"[3] != "hx-trigger"[3] && "hx-indicator"[0] != "id"[0]
      && "hx-indicator"[3] != "hx-get"[3];
    assert Lookup(tail1, "id") == Some(id);
    assert Lookup(tail2, "hx-get") == Some(url);
    assert Lookup(tail3, "hx-indicator") == Some("#" + IndicatorId(id));
    assert Lookup(attrs, "hx-get") == Lookup(tail1, "hx-get");
    assert Lookup(attrs, "hx-indicator") == Lookup(tail1, "hx-indicator") == Lookup(tail2, "hx-indicator");
  }

  /** The template of [dynamic_load]: the spinner, then the region holding the body. */
  function DynamicLoadHtml(id: string, trigger: string, url: string, spinnerUrl: string, body: string): string
  {
    IndicatorHtml(id, spinnerUrl) + ("<div " + (RenderAttrs(RegionAttributes(trigger, id, url)) + (">" + body + "</div>")))
  }

  /** The template of [dynamic_load] begins with the spinner of element `id`, and right
      after it comes the region's start tag carrying the region's attributes. It holds the
      region's id, its hx-indicator naming that spinner, its hx-get and hx-trigger, and
      the body. */
  lemma DynamicLoadHtmlShows(id: string, trigger: string, url: string, spinnerUrl: string, body: string)
    ensures var html := DynamicLoadHtml(id, trigger, url, spinnerUrl, body);
      && StartsWith(html, IndicatorTag(id))
      && Contains(html, Written("id", id))
      && Contains(html, Written("hx-indicator", "#" + IndicatorId(id)))
      && Contains(html, Written("hx-get", url))
      && Contains(html, Written("hx-trigger", trigger))
      && Contains(html, body)
    ensures OccursAt(DynamicLoadHtml(id, trigger, url, spinnerUrl, body),
      "<div " + RenderAttrs(RegionAttributes(trigger, id, url)) + ">", |IndicatorHtml(id, spinnerUrl)|)
  {
    var html := DynamicLoadHtml(id, trigger, url, spinnerUrl, body);
    var img := IndicatorHtml(id, spinnerUrl);
    var attrs := RegionAttributes(trigger, id, url);
    var tail := ">" + body + "</div>";
    var region := "<div " + (RenderAttrs(attrs) + tail);
    StartsWithConcat(IndicatorTag(id), " src=\"" + spinnerUrl + "\">");
    StartsWithExtend(img, IndicatorTag(id), region);
    ContainsSuffix(img, region);
    ContainsSuffix("<div ", RenderAttrs(attrs) + tail);
    ContainsPrefix(RenderAttrs(attrs), tail);
    ContainsTransitive(html, region, RenderAttrs(attrs) + tail);
    ContainsTransitive(html, RenderAttrs(attrs) + tail, RenderAttrs(attrs));
    forall i | 0 <= i < 4 ensures Contains(html, Written(attrs[i].name, attrs[i].value)) {
      RenderAttrsWritten(attrs, i);
      ContainsTransitive(html, RenderAttrs(attrs), Written(attrs[i].name, attrs[i].value));
    }
    assert attrs[0] == Attr("hx-trigger", trigger);
    assert attrs[1] == Attr("id", id);
    assert attrs[2] == Attr("hx-get", url);
    assert attrs[3] == Attr("hx-indicator", "#" + IndicatorId(id));
    ContainsSuffix(RenderAttrs(attrs), tail);
    ContainsTransitive(html, RenderAttrs(attrs) + tail, tail);
    assert tail == ">" + (body + "</div>");
    ContainsSuffix(">", body + "</div>");
    ContainsPrefix(body, "</div>");
    ContainsTransitive(html, tail, body + "</div>");
    ContainsTransitive(html, body + "</div>", body);
    var start := "<div " + RenderAttrs(attrs) + ">";
    assert region == start + (body + "</div>");
    assert html[|img|..|img| + |start|] == start;
  }

  /** shortcode_dynamic_load($atts, $content), with the counter reading `counter` as the
      content is expanded: a spinner followed by a region that htmx loads from the url when
      the trigger fires. The spinner's id is the region's id followed by "-ind" and the
      region's hx-indicator names it. The region's id is the caller's, or the generated one
      when the caller gave none; it loads from the caller's url (or "") when the caller's
      trigger (or "load") fires; it holds the expanded content, and the counter advances
      by the dialogs that expansion rendered. The output is the spinner followed by the
      region `<div>` with exactly those attributes around the expanded content. */
  function ShortcodeDynamicLoad(atts: map<string, string>, content: string, generatedId: string, counter: nat, host: Host)
    : (r: Markup)
    ensures var id := if "id" in atts then atts["id"] else generatedId;
      && StartsWith(r.html, IndicatorTag(id))
      && Contains(r.html, Written("id", id))
      && Contains(r.html, Written("hx-indicator", "#" + IndicatorId(id)))
      && Contains(r.html, Written("hx-get", if "url" in atts then atts["url"] else ""))
      && Contains(r.html, Written("hx-trigger", if "trigger" in atts then atts["trigger"] else "load"))
      && Contains(r.html, host.expand(content, counter).html)
      && r.modals == host.expand(content, counter).modals
    ensures var id := if "id" in atts then atts["id"] else generatedId;
      var url := if "url" in atts then atts["url"] else "";
      var trigger := if "trigger" in atts then atts["trigger"] else "load";
      r.html == IndicatorHtml(id, host.spinnerUrl)
        + ("<div " + (RenderAttrs(RegionAttributes(trigger, id, url)) + (">" + host.expand(content, counter).html + "</div>")))
  {
    var a := DynamicLoadAtts(atts, generatedId);
    var id := ToStr(a["id"]);
    var expansion := host.expand(content, counter);
    DynamicLoadHtmlShows(id, ToStr(a["trigger"]), ToStr(a["url"]), host.spinnerUrl, expansion.html);
    Markup(DynamicLoadHtml(id, ToStr(a["trigger"]), ToStr(a["url"]), host.spinnerUrl, expansion.html), expansion.modals)
  }

  // ---------------------------------------------------------------------------
  // [page_content]
  // ---------------------------------------------------------------------------

  /** The page [page_content] embeds: a `page` value (the caller's, or "") that is_numeric()
      accepts is looked up as a post id, any other value as a page path. */
  function PageLookup(atts: map<string, string>, host: Host): (found: Option<Post>)
    ensures var page := if "page" in atts then atts["page"] else "";
      found == if host.isNumeric(page) then host.postById(page) else host.pageByPath(page)
  {
    var a := MergeAtts(map["page" := Str("")], atts);
    var page := ToStr(a["page"]);
    if host.isNumeric(page) then host.postById(page) else host.pageByPath(page)
  }

  /** shortcode_page_content($atts), with the counter reading `counter` as the page body is
      expanded: the expanded body of the page found, or "" with no dialog rendered when no
      page is found. */
  function ShortcodePageContent(atts: map<string, string>, counter: nat, host: Host): (r: Markup)
    ensures PageLookup(atts, host).None? ==> r == Markup("", 0)
    ensures PageLookup(atts, host).Some? ==> r == host.expand(PageLookup(atts, host).value.postContent, counter)
  {
    match PageLookup(atts, host)
    case None => Markup("", 0)
    case Some(page) => host.expand(page.postContent, counter)
  }
}
