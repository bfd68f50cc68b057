/** What the renderers take from WordPress: the attribute merge of shortcode_atts(), and
    the host services they call but whose code is not part of this model. */
module WordPress {
  import opened Php

  /** A post or page as get_post() and get_page_by_path() return it. */
  datatype Post = Post(postContent: string)

  /** Markup together with the number of [popup_modal] dialogs rendered while producing it.
      Each such dialog took the next value of the dialog counter, so the counter has
      advanced by `modals` once the markup is done. */
  datatype Markup = Markup(html: string, modals: nat)

  /** The host services, passed in rather than modelled:
      `expand` is do_shortcode(), given the dialog counter on entry, since the shortcodes it
      expands may include further [popup_modal] dialogs; `spinnerUrl` is
      plugins_url('/src/spinner.svg', ...); `isNumeric` is PHP's is_numeric(); `postById`
      is get_post() and `pageByPath` is get_page_by_path(); the last two give None where
      WordPress gives null. */
  datatype Host = Host(
    expand: (string, nat) -> Markup,
    spinnerUrl: string,
    isNumeric: string -> bool,
    postById: string -> Option<Post>,
    pageByPath: string -> Option<Post>)

  /** shortcode_atts($defaults, $atts): exactly the default keys, each holding the
      caller's value when the caller gave that key and the default otherwise. Keys the
      caller gave that have no default are dropped. */
  function MergeAtts(defaults: map<string, Value>, atts: map<string, string>): (r: map<string, Value>)
    ensures r.Keys == defaults.Keys
    ensures forall k :: k in atts && k in defaults ==> r[k] == Str(atts[k])
    ensures forall k :: k !in atts && k in defaults ==> r[k] == defaults[k]
  {
    map k | k in defaults :: if k in atts then Str(atts[k]) else defaults[k]
  }
}
