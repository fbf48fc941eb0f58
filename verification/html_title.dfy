/** The fallback title search over a parsed HTML document (isTitleElement,
    traverse and getHtmlTitle). The tree is what golang.org/x/net/html's
    Parse yields; a node's FirstChild/NextSibling chain is its `children`. */
module HtmlTitle {
  import opened Base

  datatype NodeType = ErrorNode | TextNode | DocumentNode | ElementNode | CommentNode | DoctypeNode | RawNode

  /** An html.Node reduced to what the title search reads. Namespace and
      attributes are not kept: isTitleElement does not look at them. */
  datatype Node = Node(nodeType: NodeType, data: string, children: seq<Node>)

  predicate IsTitleElement(n: Node) {
    n.nodeType == ElementNode && n.data == "title"
  }

  /** What traverse yields: (text, true), ("", false), or the run-time panic
      of reading n.FirstChild.Data on a title element that has no child. */
  datatype Search = Found(text: string) | NotFound | NilDereference

  /** What traverse returns once it stands on a title element. */
  function TitleText(n: Node): Search
    requires IsTitleElement(n)
  {
    if n.children == [] then NilDereference else Found(n.children[0].data)
  }

  /** traverse: the node itself if it is a title, otherwise its children in
      order, stopping at the first child whose search does not come back empty. */
  function Traverse(n: Node): Search
    decreases n, 1
  {
    if IsTitleElement(n) then TitleText(n) else TraverseChildren(n.children)
  }

  /** The sibling walk of traverse, from the given child on. */
  function TraverseChildren(cs: seq<Node>): Search
    decreases cs, 0
  {
    if cs == [] then NotFound
    else
      var r := Traverse(cs[0]);
      if r.NotFound? then TraverseChildren(cs[1..]) else r
  }

  /** The depth-first pre-order listing of a tree: the reference order in
      which the first title is looked for. */
  function PreOrder(n: Node): seq<Node>
    decreases n, 1
  {
    [n] + PreOrderAll(n.children)
  }

  function PreOrderAll(cs: seq<Node>): seq<Node>
    decreases cs, 0
  {
    if cs == [] then [] else PreOrder(cs[0]) + PreOrderAll(cs[1..])
  }

  predicate NoTitle(ns: seq<Node>) {
    forall i :: 0 <= i < |ns| ==> !IsTitleElement(ns[i])
  }

  /** Position i holds the first title element of ns. */
  predicate FirstTitleAt(ns: seq<Node>, i: int) {
    0 <= i < |ns| && IsTitleElement(ns[i]) && NoTitle(ns[..i])
  }

  /** traverse finds the first title element in depth-first pre-order, and
      comes back empty exactly when the tree holds no title element. */
  lemma {:induction false} TraverseFindsFirstTitle(n: Node)
    ensures Traverse(n).NotFound? <==> NoTitle(PreOrder(n))
    ensures forall i :: FirstTitleAt(PreOrder(n), i) ==> Traverse(n) == TitleText(PreOrder(n)[i])
    decreases n, 1
  {
    var p := PreOrder(n);
    if IsTitleElement(n) {
      assert p[0] == n;
    } else {
      ChildrenFindFirstTitle(n.children);
      var q := PreOrderAll(n.children);
      assert p == [n] + q;
      assert NoTitle(p) <==> NoTitle(q) by {
        if NoTitle(q) {
          forall i | 0 <= i < |p| ensures !IsTitleElement(p[i]) {
            if i > 0 { assert p[i] == q[i - 1]; }
          }
        }
        if NoTitle(p) {
          forall i | 0 <= i < |q| ensures !IsTitleElement(q[i]) { assert q[i] == p[i + 1]; }
        }
      }
      forall i | FirstTitleAt(p, i) ensures Traverse(n) == TitleText(p[i]) {
        assert i > 0;
        assert p[i] == q[i - 1];
        var before := q[..i - 1];
        assert NoTitle(before) by {
          forall j | 0 <= j < |before| ensures !IsTitleElement(before[j]) {
            assert before[j] == p[..i][j + 1];
          }
        }
        assert FirstTitleAt(q, i - 1);
      }
    }
  }

  lemma {:induction false} ChildrenFindFirstTitle(cs: seq<Node>)
    ensures TraverseChildren(cs).NotFound? <==> NoTitle(PreOrderAll(cs))
    ensures forall i :: FirstTitleAt(PreOrderAll(cs), i) ==> TraverseChildren(cs) == TitleText(PreOrderAll(cs)[i])
    decreases cs, 0
  {
    if cs != [] {
      TraverseFindsFirstTitle(cs[0]);
      ChildrenFindFirstTitle(cs[1..]);
      var a := PreOrder(cs[0]);
      var b := PreOrderAll(cs[1..]);
      var p := PreOrderAll(cs);
      assert p == a + b;
      assert NoTitle(p) <==> NoTitle(a) && NoTitle(b) by {
        if NoTitle(a) && NoTitle(b) {
          forall i | 0 <= i < |p| ensures !IsTitleElement(p[i]) {
            if i < |a| { assert p[i] == a[i]; } else { assert p[i] == b[i - |a|]; }
          }
        }
        if NoTitle(p) {
          forall i | 0 <= i < |a| ensures !IsTitleElement(a[i]) { assert a[i] == p[i]; }
          forall i | 0 <= i < |b| ensures !IsTitleElement(b[i]) { assert b[i] == p[|a| + i]; }
        }
      }
      forall i | FirstTitleAt(p, i) ensures TraverseChildren(cs) == TitleText(p[i]) {
        if i < |a| {
          assert p[i] == a[i];
          assert a[..i] == p[..i];
          assert FirstTitleAt(a, i);
        } else {
          assert NoTitle(a) by {
            forall j | 0 <= j < |a| ensures !IsTitleElement(a[j]) { assert a[j] == p[..i][j]; }
          }
          assert p[i] == b[i - |a|];
          var before := b[..i - |a|];
          assert NoTitle(before) by {
            forall j | 0 <= j < |before| ensures !IsTitleElement(before[j]) {
              assert before[j] == p[..i][|a| + j];
            }
          }
          assert FirstTitleAt(b, i - |a|);
        }
      }
    }
  }

  /** The result of getHtmlTitle: the title, an error, or the panic that
      traverse raises. */
  datatype TitleLookup = Title(text: string) | TitleError(message: string) | TitlePanic

  const CouldNotParseTitle: string := "Could not parse title."

  /** getHtmlTitle, given what html.Parse made of the body. */
  function GetHtmlTitle(doc: Result<Node, string>): (r: TitleLookup)
    ensures doc.Err? ==> r == TitleError(doc.error)
    ensures doc.Ok? ==> (r == TitleError(CouldNotParseTitle) <==> NoTitle(PreOrder(doc.value)))
    ensures doc.Ok? ==> forall i :: FirstTitleAt(PreOrder(doc.value), i) ==>
      var t := PreOrder(doc.value)[i];
      r == if t.children == [] then TitlePanic else Title(t.children[0].data)
  {
    match doc
    case Err(e) => TitleError(e)
    case Ok(d) =>
      TraverseFindsFirstTitle(d);
      match Traverse(d)
      case Found(t) => Title(t)
      case NotFound => TitleError(CouldNotParseTitle)
      case NilDereference => TitlePanic
  }

  /** A document whose title element is empty makes traverse dereference nil. */
  lemma EmptyTitlePanics()
    ensures var head := Node(ElementNode, "head", [Node(ElementNode, "title", [])]);
            var doc := Node(DocumentNode, "", [Node(ElementNode, "html", [head])]);
            GetHtmlTitle(Ok(doc)) == TitlePanic
  {
  }
}
