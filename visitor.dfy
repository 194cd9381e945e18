/**
 The checking visitor as an object: a stack of contexts, one per open scope,
 and the warnings found so far. Each `visit` handler reads and updates only the
 top context, may append one warning, and pushes a fresh context; `EndVisit`
 pops it. `Accept` plays the part of the tree traversal that calls them.
 */
module Visitor {
  import opened QmlAst
  import opened AstContexts
  import opened Checking

  class CheckingVisitor {
    /** The document text the name tokens are sliced from. */
    const code: string
    /** Warnings in the order they were found; only ever appended to. */
    var warnings: seq<string>
    /** The open scopes; the last element is the top. */
    var stack: seq<AstContext>

    /** Starts with the root context and no warnings. */
    constructor (code: string)
      ensures this.code == code
      ensures stack == [NewContext()] && warnings == []
    {
      this.code := code;
      warnings := [];
      stack := [NewContext()];
    }

    /** The destructor: removes the root context. */
    method Destroy()
      requires |stack| > 0
      modifies this
      ensures stack == old(stack)[..|old(stack)| - 1]
      ensures warnings == old(warnings)
    {
      stack := stack[..|stack| - 1];
    }

    function Top(): AstContext
      reads this
      requires |stack| > 0
    {
      stack[|stack| - 1]
    }

    function HasWarnings(): (b: bool)
      reads this
      ensures b <==> |warnings| > 0
    {
      warnings != []
    }

    /** The warnings found so far, in the order they were appended. */
    function GetWarnings(): (w: seq<string>)
      reads this
      ensures |w| == |warnings| && forall i :: 0 <= i < |w| ==> w[i] == warnings[i]
    {
      warnings
    }

    method VisitPublicMember(n: Node) returns (descend: bool)
      requires n.UiPublicMember? && HeaderOk(code, n) && |stack| > 0
      modifies this
      ensures descend
      ensures var s := PublicMemberStep(old(Top()), GetCode(code, n.identifierToken));
              stack == old(stack)[..|old(stack)| - 1] + [s.ctx, NewContext()]
              && warnings == old(warnings) + s.warnings
    {
      var token := GetCode(code, n.identifierToken);
      var top := stack[|stack| - 1];
      if top.functions != [] {
        var a := ["Functions ("] + top.functions + [") before property (", token, ")"];
        warnings := warnings + [Join(" ", a)];
      }
      top := top.(properties := top.properties + [token]);
      stack := stack[..|stack| - 1] + [top];
      stack := stack + [NewContext()];
      descend := true;
    }

    method VisitSourceElement(n: Node) returns (descend: bool)
      requires n.UiSourceElement? && HeaderOk(code, n) && |stack| > 0
      modifies this
      ensures descend
      ensures var s := SourceElementStep(old(Top()), GetCode(code, n.sourceElement.identifierToken));
              stack == old(stack)[..|old(stack)| - 1] + [s.ctx, NewContext()]
              && warnings == old(warnings) + s.warnings
    {
      var funDecl := n.sourceElement;
      var token := GetCode(code, funDecl.identifierToken);
      var top := stack[|stack| - 1];
      if top.bindings != [] {
        var a := ["Bindings ("] + top.bindings + [") before function (", token, ")"];
        warnings := warnings + [Join(" ", a)];
      }
      top := top.(functions := top.functions + [token]);
      stack := stack[..|stack| - 1] + [top];
      stack := stack + [NewContext()];
      descend := true;
    }

    method VisitScriptBinding(n: Node) returns (descend: bool)
      requires n.UiScriptBinding? && HeaderOk(code, n) && |stack| > 0
      modifies this
      ensures descend
      ensures var s := ScriptBindingStep(old(Top()), GetCode(code, n.identifierToken));
              stack == old(stack)[..|old(stack)| - 1] + [s.ctx, NewContext()]
              && warnings == old(warnings) + s.warnings
    {
      var token := GetCode(code, n.identifierToken);
      var top := stack[|stack| - 1];
      if top.objects != [] {
        var a := ["Objects ("] + top.objects + [") before binding (", token, ")"];
        warnings := warnings + [Join(" ", a)];
      }
      if token != "id" && token != "objectName" {
        top := top.(bindings := top.bindings + [token]);
        stack := stack[..|stack| - 1] + [top];
      }
      stack := stack + [NewContext()];
      descend := true;
    }

    method VisitObjectBinding(n: Node) returns (descend: bool)
      requires n.UiObjectBinding? && HeaderOk(code, n) && |stack| > 0
      modifies this
      ensures descend
      ensures var s := ObjectBindingStep(old(Top()), GetCode(code, n.identifierToken));
              stack == old(stack)[..|old(stack)| - 1] + [s.ctx, NewContext()]
              && warnings == old(warnings) + s.warnings
    {
      var token := GetCode(code, n.identifierToken);
      var top := stack[|stack| - 1];
      if top.objects != [] {
        var a := ["Objects ("] + top.objects + [") before binding (", token, ")"];
        warnings := warnings + [Join(" ", a)];
      }
      top := top.(bindings := top.bindings + [token]);
      stack := stack[..|stack| - 1] + [top];
      stack := stack + [NewContext()];
      descend := true;
    }

    method VisitObjectDefinition(n: Node) returns (descend: bool)
      requires n.UiObjectDefinition? && HeaderOk(code, n) && |stack| > 0
      modifies this
      ensures descend
      ensures var s := ObjectDefinitionStep(old(Top()), GetCode(code, n.typeNameToken));
              stack == old(stack)[..|old(stack)| - 1] + [s.ctx, NewContext()]
              && warnings == old(warnings) + s.warnings
    {
      var token := GetCode(code, n.typeNameToken);
      if token != "anchors" {
        var top := stack[|stack| - 1];
        top := top.(objects := top.objects + [token]);
        stack := stack[..|stack| - 1] + [top];
      }
      stack := stack + [NewContext()];
      descend := true;
    }

    /** Every `endVisit` handler: pops the context its `visit` pushed. */
    method EndVisit()
      requires |stack| > 0
      modifies this
      ensures stack == old(stack)[..|old(stack)| - 1]
      ensures warnings == old(warnings)
    {
      stack := stack[..|stack| - 1];
    }

    /** The call of the `visit` handler that matches the node's kind. */
    method Dispatch(n: Node) returns (descend: bool)
      requires !n.OtherNode? && HeaderOk(code, n) && |stack| > 0
      modifies this
      ensures descend
      ensures var s := Visit(code, old(Top()), n);
              stack == old(stack)[..|old(stack)| - 1] + [s.ctx, NewContext()]
              && warnings == old(warnings) + s.warnings
    {
      match n {
        case UiPublicMember(_, _) =>
          descend := VisitPublicMember(n);
        case UiSourceElement(_, _) =>
          descend := VisitSourceElement(n);
        case UiScriptBinding(_, _) =>
          descend := VisitScriptBinding(n);
        case UiObjectBinding(_, _) =>
          descend := VisitObjectBinding(n);
        case UiObjectDefinition(_, _) =>
          descend := VisitObjectDefinition(n);
      }
    }

    /** The traversal of one node: its `visit` handler, its children when the
        handler asks for them, then its `endVisit` handler. The stack ends as
        deep as it began, every context below the top is untouched, and the top
        context and the warnings are those of the walk. */
    method Accept(n: Node)
      requires |stack| > 0 && WellFormed(code, n)
      modifies this
      ensures |stack| == |old(stack)|
      ensures stack[..|stack| - 1] == old(stack)[..|old(stack)| - 1]
      ensures Top() == WalkNode(code, old(Top()), n).ctx
      ensures warnings == old(warnings) + WalkNode(code, old(Top()), n).warnings
      decreases n, 1
    {
      if n.OtherNode? {
        AcceptAll(n.children);
      } else {
        ghost var v := Visit(code, Top(), n);
        var descend := Dispatch(n);
        assert stack[..|stack| - 1] == old(stack)[..|old(stack)| - 1] + [v.ctx];
        if descend {
          AcceptAll(n.children);
        }
        EndVisit();
      }
    }

    /** The traversal of a list of siblings, left to right. */
    method AcceptAll(ns: seq<Node>)
      requires |stack| > 0 && AllWellFormed(code, ns)
      modifies this
      ensures |stack| == |old(stack)|
      ensures stack[..|stack| - 1] == old(stack)[..|old(stack)| - 1]
      ensures Top() == WalkSeq(code, old(Top()), ns).ctx
      ensures warnings == old(warnings) + WalkSeq(code, old(Top()), ns).warnings
      decreases ns, 0
    {
      var i := 0;
      while i < |ns|
        invariant 0 <= i <= |ns|
        invariant AllWellFormed(code, ns[..i])
        invariant |stack| == |old(stack)|
        invariant stack[..|stack| - 1] == old(stack)[..|old(stack)| - 1]
        invariant Top() == WalkSeq(code, old(Top()), ns[..i]).ctx
        invariant warnings == old(warnings) + WalkSeq(code, old(Top()), ns[..i]).warnings
      {
        assert ns[..i + 1] == ns[..i] + [ns[i]];
        WalkSeqSnoc(code, old(Top()), ns[..i], ns[i]);
        Accept(ns[i]);
        i := i + 1;
      }
      assert ns[..i] == ns;
    }
  }

  /** One check of a document: construct the visitor, walk the tree, read the
      warnings, destroy the visitor. The warnings are those of a walk that
      starts from an empty root context. */
  method CheckDocument(code: string, document: Node) returns (hasWarnings: bool, warnings: seq<string>)
    requires WellFormed(code, document)
    ensures warnings == WalkNode(code, NewContext(), document).warnings
    ensures hasWarnings <==> warnings != []
  {
    var v := new CheckingVisitor(code);
    v.Accept(document);
    assert |v.stack| == 1;
    hasWarnings := v.HasWarnings();
    warnings := v.GetWarnings();
    v.Destroy();
    assert v.stack == [];
  }
}
