/**
  The XML fragments the aggregator feeds print one per line. Each fragment
  renders to exactly the string that the corresponding `sprintf` template in
  the plugin produces, so the line lists can be reasoned about by element
  name and attribute while still denoting the bytes that are echoed.
 */
module Markup {

  datatype Attribute = Attribute(name: string, value: string)

  datatype Fragment =
    | Element(name: string, text: string)              // <name>text</name>
    | EmptyElement(name: string, attrs: seq<Attribute>) // <name a="v" ... />
    | Open(name: string)                               // <name>
    | Close(name: string)                              // </name>
    | Indented(inner: Fragment)                        // a tab, then inner

  /** The element name a fragment opens, closes or consists of. */
  function Name(f: Fragment): string {
    match f
    case Element(n, _) => n
    case EmptyElement(n, _) => n
    case Open(n) => n
    case Close(n) => "/" + n
    case Indented(g) => Name(g)
  }

  function AttributeText(attrs: seq<Attribute>): string {
    if |attrs| == 0 then ""
    else " " + attrs[0].name + "=\"" + attrs[0].value + "\"" + AttributeText(attrs[1..])
  }

  function Render(f: Fragment): string {
    match f
    case Element(n, t) => "<" + n + ">" + t + "</" + n + ">"
    case EmptyElement(n, attrs) => "<" + n + AttributeText(attrs) + " />"
    case Open(n) => "<" + n + ">"
    case Close(n) => "</" + n + ">"
    case Indented(g) => "\t" + Render(g)
  }

  function RenderAll(fs: seq<Fragment>): (lines: seq<string>)
    ensures |lines| == |fs|
  {
    seq(|fs|, i requires 0 <= i < |fs| => Render(fs[i]))
  }

  lemma RenderAllAppend(a: seq<Fragment>, b: seq<Fragment>)
    ensures RenderAll(a + b) == RenderAll(a) + RenderAll(b)
  {
    assert forall i :: 0 <= i < |a| + |b| ==> RenderAll(a + b)[i] == (RenderAll(a) + RenderAll(b))[i];
  }

  lemma RenderAllSingle(f: Fragment)
    ensures RenderAll([f]) == [Render(f)]
  {
  }

  lemma RenderAllFive(a: Fragment, b: Fragment, c: Fragment, d: Fragment, e: Fragment)
    ensures RenderAll([a, b, c, d, e]) == [Render(a), Render(b), Render(c), Render(d), Render(e)]
  {
  }

  lemma RenderAllSnoc(fs: seq<Fragment>, f: Fragment)
    ensures RenderAll(fs + [f]) == RenderAll(fs) + [Render(f)]
  {
    RenderAllAppend(fs, [f]);
    RenderAllSingle(f);
  }

  /** The text between a fixed opening and closing can be read back. */
  lemma Unwrap(open: string, s: string, close: string)
    ensures (open + s + close)[|open|..|open| + |s|] == s
  {
    assert (open + s + close)[..|open| + |s|] == open + s;
  }

  /** An element's rendering determines its text. */
  lemma ElementTextInjective(n: string, t: string, u: string)
    requires Render(Element(n, t)) == Render(Element(n, u))
    ensures t == u
  {
    assert Render(Element(n, t)) == ("<" + n + ">") + t + ("</" + n + ">");
    assert Render(Element(n, u)) == ("<" + n + ">") + u + ("</" + n + ">");
    Unwrap("<" + n + ">", t, "</" + n + ">");
    Unwrap("<" + n + ">", u, "</" + n + ">");
  }

  function AttributeNames(attrs: seq<Attribute>): (names: seq<string>)
    ensures |names| == |attrs|
    ensures forall i :: 0 <= i < |attrs| ==> names[i] == attrs[i].name
  {
    if |attrs| == 0 then [] else [attrs[0].name] + AttributeNames(attrs[1..])
  }

  /** The fragments named `name`, in their original order. */
  function Named(fs: seq<Fragment>, name: string): (r: seq<Fragment>)
    ensures |r| <= |fs|
    ensures forall i :: 0 <= i < |r| ==> Name(r[i]) == name
  {
    if |fs| == 0 then []
    else (if Name(fs[0]) == name then [fs[0]] else []) + Named(fs[1..], name)
  }

  lemma {:induction false} NamedAppend(a: seq<Fragment>, b: seq<Fragment>, name: string)
    ensures Named(a + b, name) == Named(a, name) + Named(b, name)
  {
    if |a| > 0 {
      assert (a + b)[1..] == a[1..] + b;
      NamedAppend(a[1..], b, name);
    } else {
      assert a + b == b;
    }
  }

  lemma NamedSingleton(f: Fragment, name: string)
    ensures Named([f], name) == if Name(f) == name then [f] else []
  {
    assert [f][1..] == [];
  }

  /** Every fragment of a list lacking `name` is absent from `Named`. */
  lemma {:induction false} NamedNone(fs: seq<Fragment>, name: string)
    requires forall i :: 0 <= i < |fs| ==> Name(fs[i]) != name
    ensures Named(fs, name) == []
  {
    if |fs| > 0 {
      NamedNone(fs[1..], name);
    }
  }

  /** A list whose fragments all carry `name` is kept whole. */
  lemma {:induction false} NamedAll(fs: seq<Fragment>, name: string)
    requires forall i :: 0 <= i < |fs| ==> Name(fs[i]) == name
    ensures Named(fs, name) == fs
  {
    if |fs| > 0 {
      NamedAll(fs[1..], name);
      assert fs == [fs[0]] + fs[1..];
    }
  }
}
