/**
 * internal/parse/parser.go: collecting the href values of anchor elements from
 * a parsed HTML tree, and resolving them against the page's own URL.
 */
module Parser {
  import opened Wrappers
  import opened Seqs
  import opened Urls

  /** The node kinds of golang.org/x/net/html. */
  datatype NodeType = ErrorNode | TextNode | DocumentNode | ElementNode | CommentNode | DoctypeNode | RawNode

  datatype Attribute = Attribute(namespace: string, key: string, val: string)

  /** An HTML node with its children in document order (FirstChild … NextSibling). */
  datatype Node = Node(nodeType: NodeType, data: string, attr: seq<Attribute>, children: seq<Node>)

  predicate IsAnchor(n: Node)
  {
    n.nodeType == ElementNode && n.data == "a"
  }

  /** The href values carried by the node itself: every href attribute of an anchor, nothing otherwise. */
  function OwnHrefs(n: Node): set<string>
  {
    if IsAnchor(n) then (set a | a in n.attr && a.key == "href" :: a.val) else {}
  }

  /**
   * ExtractLinks: the node's own hrefs and, recursively, those of all its
   * children, as a map whose values are all false (the map is used as a set).
   */
  function ExtractLinks(n: Node): (links: map<string, bool>)
    ensures forall h :: h in links ==> !links[h]
    decreases n, 1
  {
    map h | h in OwnHrefs(n) + ChildLinks(n) :: false
  }

  /** The links found below `n`, merged from each child in turn. */
  function ChildLinks(n: Node): set<string>
    decreases n, 0
  {
    set i, h | 0 <= i < |n.children| && h in ExtractLinks(n.children[i]) :: h
  }

  /** Every node of the tree rooted at `n`, `n` included. */
  ghost function Nodes(n: Node): set<Node>
    decreases n
  {
    {n} + (set i, m | 0 <= i < |n.children| && m in Nodes(n.children[i]) :: m)
  }

  /** Reference definition: the href values of all anchor nodes among `ns`. */
  ghost function AnchorHrefs(ns: set<Node>): set<string>
  {
    set m, a | m in ns && IsAnchor(m) && a in m.attr && a.key == "href" :: a.val
  }

  /** Every extracted link is the href of some anchor in the tree. */
  lemma {:induction false} ExtractedIsAnchorHref(n: Node, h: string)
    requires h in ExtractLinks(n)
    ensures h in AnchorHrefs(Nodes(n))
    decreases n
  {
    if h in OwnHrefs(n) {
      var a :| a in n.attr && a.key == "href" && a.val == h;
      assert n in Nodes(n);
    } else {
      assert h in ChildLinks(n);
      var i :| 0 <= i < |n.children| && h in ExtractLinks(n.children[i]);
      ExtractedIsAnchorHref(n.children[i], h);
      var m, a :| m in Nodes(n.children[i]) && IsAnchor(m) && a in m.attr && a.key == "href" && a.val == h;
      assert m in Nodes(n);
    }
  }

  /** Every href of every anchor in the tree is extracted. */
  lemma {:induction false} AnchorHrefIsExtracted(n: Node, m: Node, a: Attribute)
    requires m in Nodes(n) && IsAnchor(m) && a in m.attr && a.key == "href"
    ensures a.val in ExtractLinks(n)
    decreases n
  {
    if m != n {
      var i :| 0 <= i < |n.children| && m in Nodes(n.children[i]);
      AnchorHrefIsExtracted(n.children[i], m, a);
      assert a.val in ChildLinks(n);
    }
  }

  /** ExtractLinks collects exactly the hrefs of the anchors found anywhere in the tree. */
  lemma ExtractLinksExact(n: Node)
    ensures ExtractLinks(n).Keys == AnchorHrefs(Nodes(n))
  {
    forall h | h in ExtractLinks(n) ensures h in AnchorHrefs(Nodes(n)) {
      ExtractedIsAnchorHref(n, h);
    }
    forall h | h in AnchorHrefs(Nodes(n)) ensures h in ExtractLinks(n) {
      var m, a :| m in Nodes(n) && IsAnchor(m) && a in m.attr && a.key == "href" && a.val == h;
      AnchorHrefIsExtracted(n, m, a);
    }
  }

  /** Every node below a node of the tree is itself in the tree. */
  lemma {:induction false} NodesClosed(n: Node, m: Node)
    requires m in Nodes(n)
    ensures Nodes(m) <= Nodes(n)
    decreases n
  {
    if m != n {
      var i :| 0 <= i < |n.children| && m in Nodes(n.children[i]);
      NodesClosed(n.children[i], m);
    }
  }

  /** The links of any subtree are among the links of the whole tree. */
  lemma SubtreeLinks(n: Node, m: Node)
    requires m in Nodes(n)
    ensures ExtractLinks(m).Keys <= ExtractLinks(n).Keys
  {
    NodesClosed(n, m);
    ExtractLinksExact(n);
    ExtractLinksExact(m);
  }

  /**
   * An anchor contributes every one of its href attributes, and attributes
   * with other keys contribute nothing of their own; a node that is not an
   * anchor contributes exactly its children's links.
   */
  lemma OwnContribution(n: Node)
    ensures IsAnchor(n) ==> forall a <- n.attr :: a.key == "href" ==> a.val in ExtractLinks(n)
    ensures !IsAnchor(n) ==> ExtractLinks(n).Keys == ChildLinks(n)
  {
    if !IsAnchor(n) {
      assert OwnHrefs(n) == {};
    }
  }

  /** The absolute form of a parsed href: resolved against the base, then printed. */
  function Resolve(lib: UrlLib, base: Url, ref: Url): string
  {
    lib.str(lib.resolveReference(base, ref))
  }

  /** The hrefs that url.Parse accepts. */
  function Parsable(lib: UrlLib, hrefs: set<string>): set<string>
  {
    set h | h in hrefs && lib.parse(h).Some?
  }

  /**
   * `links` is what ResolveLinks returns for `link` and `originalURL`, the
   * map's keys having been visited in the order `order`: nothing when the base
   * URL does not parse; otherwise one resolved entry per parsable href, in
   * visiting order, unparsable hrefs dropped.
   */
  ghost predicate IsResolution(lib: UrlLib, link: map<string, bool>, originalURL: string,
                               links: seq<string>, order: seq<string>)
  {
    match lib.parse(originalURL)
    case None => links == [] && order == []
    case Some(base) =>
      && NoDup(order)
      && Elems(order) == Parsable(lib, link.Keys)
      && |links| == |order|
      && forall i :: 0 <= i < |order| ==>
           lib.parse(order[i]).Some? && links[i] == Resolve(lib, base, lib.parse(order[i]).value)
  }

  /** Go visits a map's keys in an unspecified order: the order is chosen here by `:|`. */
  method ResolveLinks(lib: UrlLib, link: map<string, bool>, originalURL: string)
    returns (absoluteLinks: seq<string>, ghost order: seq<string>)
    ensures IsResolution(lib, link, originalURL, absoluteLinks, order)
    ensures |absoluteLinks| <= |link|
  {
    absoluteLinks, order := [], [];
    var baseURL := lib.parse(originalURL);
    if baseURL.None? {
      return;
    }
    var base := baseURL.value;
    var remaining := link.Keys;
    while remaining != {}
      invariant remaining <= link.Keys
      invariant NoDup(order) && Elems(order) == Parsable(lib, link.Keys - remaining)
      invariant |absoluteLinks| == |order|
      invariant forall i :: 0 <= i < |order| ==>
                  lib.parse(order[i]).Some? && absoluteLinks[i] == Resolve(lib, base, lib.parse(order[i]).value)
      decreases remaining
    {
      var l :| l in remaining;
      ghost var old_remaining := remaining;
      remaining := remaining - {l};
      var parsedURL := lib.parse(l);
      if parsedURL.Some? {
        assert l !in Elems(order);
        absoluteLinks := absoluteLinks + [Resolve(lib, base, parsedURL.value)];
        order := order + [l];
      }
      assert Parsable(lib, link.Keys - remaining) == Parsable(lib, link.Keys - old_remaining) + (if parsedURL.Some? then {l} else {});
    }
    NoDupBounded(order, link.Keys);
  }

  /** A resolution never has more entries than there are parsable hrefs, and none when the base is unparsable. */
  lemma ResolutionLength(lib: UrlLib, link: map<string, bool>, originalURL: string,
                         links: seq<string>, order: seq<string>)
    requires IsResolution(lib, link, originalURL, links, order)
    ensures |links| <= |Parsable(lib, link.Keys)| <= |link|
    ensures lib.parse(originalURL).Some? ==> |links| == |Parsable(lib, link.Keys)|
  {
    SubsetCardinality(Parsable(lib, link.Keys), link.Keys);
    if lib.parse(originalURL).Some? {
      NoDupCardinality(order);
    }
  }
}
