# QML declaration-order checker: a Dafny model of `CheckingVisitor`

`CheckingVisitor` walks the abstract syntax tree of a QML document. It warns
when the members of one object are not declared in the conventional order:
properties, then functions, then bindings, then child objects. It keeps a
stack of `AstContext`s, one for each open scope. Each context holds four name
lists: properties, functions, bindings and objects.

Each `visit` handler does four things:
- reads the top context;
- may append one warning of the form `Functions ( foo ) before property ( b )`;
- adds the node's name to one list of the top context, unless the name is
  exempt (`id` and `objectName` for script bindings, `anchors` for object
  definitions);
- pushes a fresh context.

The matching `endVisit` pops that context.

The model has five modules:

- `QmlAst` (ast.dfy) is the part of the Qt syntax tree the visitor looks at.
  It has the five node kinds with handlers, plus a pass-through kind for every
  other node.
- `AstContexts` (context.dfy) models `AstContext` and the four declaration
  categories.
- `Checking` (rules.dfy) gives each handler as a function of the top context.
  It covers the token slice (`getCode`), the warning text, and the
  depth-first walk of a whole tree (`WalkNode`/`WalkSeq`). It also proves
  lemmas about that walk and the rule table:
  - names are recorded in visit order;
  - nested scopes are isolated from each other;
  - each visit adds at most one warning;
  - `anchors` is never recorded;
  - what exactly warns in a scope.
- `Visitor` (visitor.dfy) is `CheckingVisitor` as a class: a `stack` of
  contexts, a `warnings` list, and one method per handler. `Accept` and
  `AcceptAll` stand in for the Qt traversal, which calls `visit`, the
  children and then `endVisit`. Every method is proved against the functions
  of `Checking`.
- `Scenarios` (scenarios.dfy) has small documents, as text plus tree, and the
  exact warnings the checker gives for them.

## Model

| member | source | states |
|---|---|---|
| AstContexts.NewContext | checkingvisitor.h:9-16 | a new context has all four lists empty |
| AstContexts.Append | checkingvisitor.cpp:37 | appending a name adds it at the end of one list and leaves the other three lists as they were |
| AstContexts.SameNamesSameContext | checkingvisitor.h:9-16 | a context is nothing but its four lists |
| Checking.GetCode | checkingvisitor.cpp:173-176 | the token has `length` characters, and character i is the document's character at `offset + i` |
| Checking.JoinConcat | checkingvisitor.cpp:34 | joining two non-empty lists with a separator is the join of each, with one separator between them |
| Checking.MessageLayout | checkingvisitor.cpp:29-34 | a warning reads `<opening> <names joined by spaces> <closing> <token> )` |
| Checking.MessageOneName | checkingvisitor.cpp:29-34 | the layout of a warning that lists one earlier name |
| Checking.RuleOf | checkingvisitor.cpp:27 | each category except objects is checked against exactly the next later category; objects are checked against nothing |
| Checking.OrderWarning | checkingvisitor.cpp:27-35 | there is no warning iff the checked list is empty; otherwise there is exactly one warning, listing that list |
| Checking.PublicMemberStep | checkingvisitor.cpp:22-41 | a property warns iff the functions list is non-empty, whatever the bindings and objects; the property is always recorded |
| Checking.SourceElementStep | checkingvisitor.cpp:53-75 | a function warns iff the bindings list is non-empty; the function is always recorded |
| Checking.ScriptBindingStep | checkingvisitor.cpp:87-109 | a script binding warns iff the objects list is non-empty, `id` and `objectName` included; it is recorded unless it is `id` or `objectName` |
| Checking.ObjectBindingStep | checkingvisitor.cpp:121-139 | an object binding warns iff the objects list is non-empty; it is always recorded, `id` included |
| Checking.ObjectDefinitionStep | checkingvisitor.cpp:151-163 | an object definition never warns; its type name is recorded unless it is `anchors` |
| Checking.Visit | checkingvisitor.cpp:22-163 | every handler follows the rule table: the token goes to the node's own category unless exempt, and the warning depends only on the list the rule checks |
| Checking.WalkSeqSingle | checkingvisitor.cpp:38-45 | walking a list of one sibling is walking that sibling |
| Checking.WalkSeqSnoc | checkingvisitor.cpp:38-45 | walking one more sibling continues from the context and warnings the earlier siblings left |
| Checking.WalkNodeNames | checkingvisitor.cpp:37-38 | walking a node with a handler appends exactly its own recorded name (if any) to the current scope, and nothing from the nested scope it opens; walking a node kind with no handler appends the names its children record, since it opens no scope |
| Checking.WalkSeqNames | checkingvisitor.cpp:37-45 | the lists of a scope only grow, and they grow by the scope's own names in visit order |
| Checking.AnchorsNeverInNodeNames | checkingvisitor.cpp:155-158 | an object definition named `anchors` is never among the names a node records |
| Checking.AnchorsNeverInScopeNames | checkingvisitor.cpp:155-158 | an object definition named `anchors` is never among the names a scope records |
| Checking.AnchorsNeverRecorded | checkingvisitor.cpp:155-158 | if a scope's objects list holds no `anchors`, no walk puts one there |
| Checking.WalkNodeWarningBound | checkingvisitor.cpp:34 | a walk adds at most one warning per property, function or binding, and none per object definition |
| Checking.WalkSeqWarningBound | checkingvisitor.cpp:34 | the same bound for a list of siblings |
| Checking.FreshScopeContext | checkingvisitor.cpp:38 | a fresh scope, after its members are walked, holds exactly their names |
| Checking.ScopeMemberWarning | checkingvisitor.cpp:27-35 | a member of a scope warns iff an earlier member of the same scope recorded a name of the next later category; the warning lists all such names in declaration order, after the earlier members' warnings and before those of its own nested scope |
| Checking.NestedScopeIsolated | checkingvisitor.cpp:38 | the warnings from a node's nested scope do not depend on the enclosing context |
| Visitor.CheckingVisitor.constructor | checkingvisitor.cpp:3-9 | a new visitor has exactly one empty root context and no warnings |
| Visitor.CheckingVisitor.Destroy | checkingvisitor.cpp:11-15 | the destructor pops the root context and leaves the warnings as they were |
| Visitor.CheckingVisitor.HasWarnings | checkingvisitor.h:42 | true iff the warnings list is non-empty; it reads and changes nothing else |
| Visitor.CheckingVisitor.GetWarnings | checkingvisitor.h:43 | the accumulated warnings in append order; it changes nothing |
| Visitor.CheckingVisitor.VisitPublicMember | checkingvisitor.cpp:22-41 | replaces only the top context, with `PublicMemberStep` of it; appends that step's warnings; pushes one fresh context; returns true |
| Visitor.CheckingVisitor.VisitSourceElement | checkingvisitor.cpp:53-75 | the same, with `SourceElementStep`; the element must be a function declaration |
| Visitor.CheckingVisitor.VisitScriptBinding | checkingvisitor.cpp:87-109 | the same, with `ScriptBindingStep` |
| Visitor.CheckingVisitor.VisitObjectBinding | checkingvisitor.cpp:121-139 | the same, with `ObjectBindingStep` |
| Visitor.CheckingVisitor.VisitObjectDefinition | checkingvisitor.cpp:151-163 | the same, with `ObjectDefinitionStep` |
| Visitor.CheckingVisitor.EndVisit | checkingvisitor.cpp:43-46 | pops exactly one context and leaves the warnings as they were |
| Visitor.CheckingVisitor.Dispatch | checkingvisitor.h:26-38 | calls the handler of the node's kind; its effect is `Visit` applied to the top context |
| Visitor.CheckingVisitor.Accept | checkingvisitor.cpp:38-45 | a balanced visit/endVisit walk leaves the stack at the same depth and every context below the top unchanged; the top context and the appended warnings are those of `WalkNode` |
| Visitor.CheckingVisitor.AcceptAll | checkingvisitor.cpp:38-45 | the same for a list of siblings, against `WalkSeq` |
| Visitor.CheckDocument | checkingvisitor.cpp:3-15 | construct, walk, read and destroy: the warnings are those of a walk from an empty root context, and `hasWarnings` holds iff there is at least one |
| Scenarios.DocumentWarnings | checkingvisitor.cpp:151-163 | the root object never warns, so a document's warnings are those of its members in the object's fresh scope |
| Scenarios.ScenarioA | checkingvisitor.cpp:22-41 | `property a; function foo; property b` gives exactly `Functions ( foo ) before property ( b )` |
| Scenarios.ScenarioB | checkingvisitor.cpp:87-109 | `id: ...; Rectangle {}; color: ...` gives exactly `Objects ( Rectangle ) before binding ( color )`; `id` is not listed anywhere |
| Scenarios.ScenarioC | checkingvisitor.cpp:121-139 | an object binding after an object gives exactly one warning; a binding inside its own nested scope gives none |
| Scenarios.ScenarioD | checkingvisitor.cpp:155-158 | after an `anchors` group, a later script binding gives no warning, since the objects list stays empty |
| Scenarios.ScenarioE | checkingvisitor.cpp:3-9 | an object with no members gives no warnings |
| Scenarios.ScenarioF | checkingvisitor.cpp:27 | a property after a binding, with no function in the scope, gives no warning |
| Scenarios.ScenarioG | checkingvisitor.cpp:135 | an object binding named `id` is recorded as a binding, so a later function gives `Bindings ( id ) before function ( f )` |

## Left out

- The QML parser and the Qt syntax tree classes are not part of this model. A tree is a `QmlAst.Node` value, built by hand in the scenarios.
- The `QQmlJS::AST::Visitor` double dispatch and Qt's `accept` traversal are not part of this model. `Dispatch`, `Accept` and `AcceptAll` stand in for them, calling `visit`, then the children (every handler returns true), then `endVisit`.
- Checking.GetCode: requires the token to lie inside the document. `QString::mid` clamps an out-of-range slice instead; the parser only gives in-range token locations.
- Visitor.CheckingVisitor.VisitSourceElement: the `dynamic_cast` to a function declaration and the `Q_ASSERT` on it are a precondition (`HeaderOk`), not a runtime cast that can fail.
- The five `endVisit` overloads have identical bodies, so they are one method, `EndVisit`.
- `indent()` is left out: it is declared in checkingvisitor.h:47 but never defined, and its only use is commented-out debug output.
- The four lists of `AstContext` are named after their use in checkingvisitor.cpp (`m_properties` and so on). The header declares them as `m_nrProperties` and so on.
- Each rule checks only the next later category, as the code does. A "phase latch", where any earlier-category declaration after a later one warns, is not modelled, because the code does not do it. For example, a property after a binding does not warn (`Scenarios.ScenarioF`).
- Reading the document from disk and printing the warnings are not modelled. The document text is a parameter.
- Node kinds the visitor has no handler for (for example an array binding `states: [State {}, State {}]`) open no scope and are recorded nowhere, so the type names of the objects inside an array binding go into the enclosing scope's objects list (an object definition itself never warns), and a later binding in that scope is checked against them.
- `SourceLocation` offsets and lengths count Dafny `char`s (Unicode scalar values), while Qt's token offsets and `QString::mid` count UTF-16 code units; a character outside the Basic Multilingual Plane before a token would put the two out of step. The locations in the scenarios are built by hand in `char`s.
- `QString` is `seq<char>`, with no encoding or normalisation. Equality with `"id"`, `"objectName"` and `"anchors"` is exact sequence equality, as `QString`'s `!=` is.
