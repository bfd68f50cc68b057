/** HTML attributes as the renderers write them: `name="value" `, one after another,
    with no escaping of the value. */
module Html {
  import opened Php

  datatype Attr = Attr(name: string, value: string)

  /** An attribute as written into a start tag: `name="value"`. */
  function Written(name: string, value: string): string
  {
    name + "=\"" + value + "\""
  }

  /** One attribute as written into a start tag, followed by its separating space. */
  function RenderAttr(a: Attr): string
  {
    Written(a.name, a.value) + " "
  }

  /** A list of attributes written out in order. */
  function RenderAttrs(attrs: seq<Attr>): string
  {
    if attrs == [] then "" else RenderAttr(attrs[0]) + RenderAttrs(attrs[1..])
  }

  /** The value of the first attribute called `name` in the list. A browser reading the
      written tag finds the same only when no value contains a double quote, since
      nothing is escaped. */
  function Lookup(attrs: seq<Attr>, name: string): Option<string>
  {
    if attrs == [] then None
    else if attrs[0].name == name then Some(attrs[0].value)
    else Lookup(attrs[1..], name)
  }

  /** The lookup finds an attribute exactly when one of that name is present, and what it
      finds is an attribute of the list. */
  lemma {:induction false} LookupFinds(attrs: seq<Attr>, name: string)
    ensures Lookup(attrs, name).None? <==> forall i :: 0 <= i < |attrs| ==> attrs[i].name != name
    ensures Lookup(attrs, name).Some? ==>
      exists i :: 0 <= i < |attrs| && attrs[i] == Attr(name, Lookup(attrs, name).value)
  {
    if attrs != [] && attrs[0].name != name {
      LookupFinds(attrs[1..], name);
      if Lookup(attrs, name).Some? {
        var i :| 0 <= i < |attrs[1..]| && attrs[1..][i] == Attr(name, Lookup(attrs, name).value);
        assert attrs[i + 1] == Attr(name, Lookup(attrs, name).value);
      }
      forall i | 0 < i < |attrs| && Lookup(attrs, name).None? ensures attrs[i].name != name {
        assert attrs[i] == attrs[1..][i - 1];
      }
    }
  }

  /** Looking up in two lists one after the other finds the first list's attribute, if any. */
  lemma {:induction false} LookupAppend(a: seq<Attr>, b: seq<Attr>)
    ensures forall name :: Lookup(a + b, name) == if Lookup(a, name).Some? then Lookup(a, name) else Lookup(b, name)
  {
    if a == [] {
      assert a + b == b;
    } else {
      assert (a + b)[1..] == a[1..] + b;
      LookupAppend(a[1..], b);
    }
  }

  /** Every attribute of the list appears, written out, in the rendered list. */
  lemma {:induction false} RenderAttrsShows(attrs: seq<Attr>, i: nat)
    requires i < |attrs|
    ensures Contains(RenderAttrs(attrs), RenderAttr(attrs[i]))
  {
    if i == 0 {
      ContainsPrefix(RenderAttr(attrs[0]), RenderAttrs(attrs[1..]));
    } else {
      RenderAttrsShows(attrs[1..], i - 1);
      ContainsSuffix(RenderAttr(attrs[0]), RenderAttrs(attrs[1..]));
      ContainsTransitive(RenderAttrs(attrs), RenderAttrs(attrs[1..]), RenderAttr(attrs[i]));
    }
  }

  /** Every attribute of the list appears as `name="value"` in the rendered list. */
  lemma RenderAttrsWritten(attrs: seq<Attr>, i: nat)
    requires i < |attrs|
    ensures Contains(RenderAttrs(attrs), Written(attrs[i].name, attrs[i].value))
  {
    RenderAttrsShows(attrs, i);
    ContainsPrefix(Written(attrs[i].name, attrs[i].value), " ");
    ContainsTransitive(RenderAttrs(attrs), RenderAttr(attrs[i]), Written(attrs[i].name, attrs[i].value));
  }

  /** An attribute the lookup finds is written as `name="value"` in the rendered list. */
  lemma LookupShows(attrs: seq<Attr>, name: string, value: string)
    requires Lookup(attrs, name) == Some(value)
    ensures Contains(RenderAttrs(attrs), Written(name, value))
  {
    LookupFinds(attrs, name);
    var i :| 0 <= i < |attrs| && attrs[i] == Attr(name, value);
    RenderAttrsWritten(attrs, i);
  }
}
