/**
 The part of the QML abstract syntax tree that the checking visitor looks at.

 The parser builds this tree before the checker runs; here it is a plain
 datatype. Each node kind that the visitor handles carries the location of its
 name token in the document text and the nodes the traversal descends into.
 Every other node kind is an `OtherNode`: the traversal passes through it
 without opening a scope.
 */
module QmlAst {

  /** Position of a token in the document text: `offset` characters from the
      start, `length` characters long. */
  datatype SourceLocation = SourceLocation(offset: nat, length: nat)

  /** What a `UiSourceElement` wraps. The visitor only handles function
      declarations; it asserts that the element is one. */
  datatype SourceElement =
    | FunctionDeclaration(identifierToken: SourceLocation)
    | OtherStatement

  datatype Node =
      /** `property int a` */
    | UiPublicMember(identifierToken: SourceLocation, children: seq<Node>)
      /** a function member */
    | UiSourceElement(sourceElement: SourceElement, children: seq<Node>)
      /** `height: 200`; the location is that of the first identifier of the qualified id */
    | UiScriptBinding(identifierToken: SourceLocation, children: seq<Node>)
      /** `border: Border { ... }` */
    | UiObjectBinding(identifierToken: SourceLocation, children: seq<Node>)
      /** `Item { ... }`; the location is that of the type name */
    | UiObjectDefinition(typeNameToken: SourceLocation, children: seq<Node>)
      /** any node kind the visitor has no handler for */
    | OtherNode(children: seq<Node>)

  predicate InBounds(code: string, loc: SourceLocation)
  {
    loc.offset + loc.length <= |code|
  }

  /** The node's own header is what the visitor can handle: a source element is
      a function declaration, and the name token lies inside the document. */
  predicate HeaderOk(code: string, n: Node)
  {
    match n
    case UiPublicMember(loc, _) => InBounds(code, loc)
    case UiSourceElement(e, _) => e.FunctionDeclaration? && InBounds(code, e.identifierToken)
    case UiScriptBinding(loc, _) => InBounds(code, loc)
    case UiObjectBinding(loc, _) => InBounds(code, loc)
    case UiObjectDefinition(loc, _) => InBounds(code, loc)
    case OtherNode(_) => true
  }

  /** Every node of the tree has a header the visitor can handle. */
  predicate WellFormed(code: string, n: Node)
    decreases n, 1
  {
    HeaderOk(code, n) && AllWellFormed(code, n.children)
  }

  predicate AllWellFormed(code: string, ns: seq<Node>)
    decreases ns, 0
  {
    forall i :: 0 <= i < |ns| ==> WellFormed(code, ns[i])
  }

  /** The location of the node's name token. */
  function NameLocation(n: Node): SourceLocation
    requires !n.OtherNode?
    requires n.UiSourceElement? ==> n.sourceElement.FunctionDeclaration?
  {
    match n
    case UiPublicMember(loc, _) => loc
    case UiSourceElement(e, _) => e.identifierToken
    case UiScriptBinding(loc, _) => loc
    case UiObjectBinding(loc, _) => loc
    case UiObjectDefinition(loc, _) => loc
  }
}
