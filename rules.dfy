/**
 What the checking visitor does, as functions of the document text and the
 context on top of the stack: the name token of a node, the warning text, the
 effect of each `visit` handler on the top context, and the effect of a whole
 depth-first walk. The class in module Visitor is proved against these.
 */
module Checking {
  import opened QmlAst
  import opened AstContexts

  datatype Option<T> = None | Some(value: T)

  /** The text of a token: `length` characters of the document starting at `offset`. */
  function GetCode(code: string, loc: SourceLocation): (r: string)
    requires InBounds(code, loc)
    ensures |r| == loc.length
    ensures forall i :: 0 <= i < |r| ==> r[i] == code[loc.offset + i]
  {
    code[loc.offset .. loc.offset + loc.length]
  }

  /** The parts separated by `sep`, as a string list's `join` gives them. */
  function Join(sep: string, parts: seq<string>): string
  {
    if parts == [] then ""
    else if |parts| == 1 then parts[0]
    else parts[0] + sep + Join(sep, parts[1..])
  }

  /** Joining two non-empty lists puts one separator between their joins. */
  lemma {:induction false} JoinConcat(sep: string, xs: seq<string>, ys: seq<string>)
    requires xs != [] && ys != []
    ensures Join(sep, xs + ys) == Join(sep, xs) + sep + Join(sep, ys)
    decreases |xs|
  {
    if |xs| == 1 {
      assert (xs + ys)[1..] == ys;
    } else {
      assert (xs + ys)[1..] == xs[1..] + ys;
      JoinConcat(sep, xs[1..], ys);
    }
  }

  /** A warning: the single-space join of the opening label, the names seen
      before, the closing label, the offending token and a closing parenthesis. */
  function Message(opening: string, prior: seq<string>, closing: string, token: string): string
  {
    Join(" ", [opening] + prior + [closing, token, ")"])
  }

  /** Joining a single part gives that part. */
  lemma JoinSingle(sep: string, x: string)
    ensures Join(sep, [x]) == x
  {
  }

  /** The rendered shape of a warning, e.g. "Functions ( foo bar ) before property ( b )". */
  lemma MessageLayout(opening: string, prior: seq<string>, closing: string, token: string)
    requires prior != []
    ensures Message(opening, prior, closing, token)
            == opening + " " + Join(" ", prior) + " " + closing + " " + token + " )"
  {
    var tail := [closing, token, ")"];
    var rest := [token, ")"];
    assert tail[1..] == rest && rest[1..] == [")"];
    JoinSingle(" ", ")");
    assert Join(" ", rest) == token + " " + ")";
    assert Join(" ", tail) == closing + " " + (token + " " + ")");
    JoinSingle(" ", opening);
    JoinConcat(" ", [opening], prior);
    JoinConcat(" ", [opening] + prior, tail);
  }

  /** A warning that lists a single earlier name. */
  lemma MessageOneName(opening: string, name: string, closing: string, token: string)
    ensures Message(opening, [name], closing, token) == opening + " " + name + " " + closing + " " + token + " )"
  {
    MessageLayout(opening, [name], closing, token);
    JoinSingle(" ", name);
  }

  /** One row of the ordering rule table: the list a declaration kind checks,
      and the labels of the warning it gives when that list is not empty. */
  datatype Rule = Rule(checks: Category, opening: string, closing: string)

  /** The rule of each category. Each checks only the next later category;
      objects are never checked against anything. */
  function RuleOf(k: Category): (r: Option<Rule>)
    ensures r.Some? <==> k != Objects
    ensures r.Some? ==> Rank(r.value.checks) == Rank(k) + 1
  {
    match k
    case Properties => Some(Rule(Functions, "Functions (", ") before property ("))
    case Functions => Some(Rule(Bindings, "Bindings (", ") before function ("))
    case Bindings => Some(Rule(Objects, "Objects (", ") before binding ("))
    case Objects => None
  }

  /** The new top context and the warnings appended by one step. */
  datatype Step = Step(ctx: AstContext, warnings: seq<string>)

  /** No warning when the later list is empty; otherwise exactly one, listing it. */
  function OrderWarning(later: seq<string>, opening: string, closing: string, token: string): (w: seq<string>)
    ensures |w| <= 1
    ensures w == [] <==> later == []
    ensures forall m :: m in w ==> m == Message(opening, later, closing, token)
  {
    if later == [] then [] else [Message(opening, later, closing, token)]
  }

  /** `visit(UiPublicMember)`: warns iff a function was already declared in this
      scope, whatever the bindings and objects; always records the property. */
  function PublicMemberStep(ctx: AstContext, token: string): (s: Step)
    ensures s.ctx == Append(ctx, Properties, token)
    ensures |s.warnings| <= 1
    ensures s.warnings != [] <==> ctx.functions != []
  {
    Step(ctx.(properties := ctx.properties + [token]),
         OrderWarning(ctx.functions, "Functions (", ") before property (", token))
  }

  /** `visit(UiSourceElement)`: warns iff a binding was already recorded in this
      scope; always records the function. */
  function SourceElementStep(ctx: AstContext, token: string): (s: Step)
    ensures s.ctx == Append(ctx, Functions, token)
    ensures |s.warnings| <= 1
    ensures s.warnings != [] <==> ctx.bindings != []
  {
    Step(ctx.(functions := ctx.functions + [token]),
         OrderWarning(ctx.bindings, "Bindings (", ") before function (", token))
  }

  /** `visit(UiScriptBinding)`: warns iff an object was already recorded in this
      scope, also for `id` and `objectName`; records the binding unless it is
      `id` or `objectName`. */
  function ScriptBindingStep(ctx: AstContext, token: string): (s: Step)
    ensures s.ctx == if token == "id" || token == "objectName" then ctx else Append(ctx, Bindings, token)
    ensures |s.warnings| <= 1
    ensures s.warnings != [] <==> ctx.objects != []
  {
    var w := OrderWarning(ctx.objects, "Objects (", ") before binding (", token);
    if token != "id" && token != "objectName" then
      Step(ctx.(bindings := ctx.bindings + [token]), w)
    else
      Step(ctx, w)
  }

  /** `visit(UiObjectBinding)`: warns iff an object was already recorded in this
      scope; always records the binding, `id` included. */
  function ObjectBindingStep(ctx: AstContext, token: string): (s: Step)
    ensures s.ctx == Append(ctx, Bindings, token)
    ensures |s.warnings| <= 1
    ensures s.warnings != [] <==> ctx.objects != []
  {
    Step(ctx.(bindings := ctx.bindings + [token]),
         OrderWarning(ctx.objects, "Objects (", ") before binding (", token))
  }

  /** `visit(UiObjectDefinition)`: never warns; records the type name unless it is `anchors`. */
  function ObjectDefinitionStep(ctx: AstContext, token: string): (s: Step)
    ensures s.ctx == if token == "anchors" then ctx else Append(ctx, Objects, token)
    ensures s.warnings == []
  {
    if token != "anchors" then Step(ctx.(objects := ctx.objects + [token]), []) else Step(ctx, [])
  }

  /** The declaration category of a node the visitor handles. */
  function Kind(n: Node): Category
    requires !n.OtherNode?
  {
    match n
    case UiPublicMember(_, _) => Properties
    case UiSourceElement(_, _) => Functions
    case UiScriptBinding(_, _) => Bindings
    case UiObjectBinding(_, _) => Bindings
    case UiObjectDefinition(_, _) => Objects
  }

  /** The reserved names that are never recorded: `id` and `objectName` for a
      script binding, `anchors` for an object definition. */
  predicate Exempt(n: Node, token: string)
  {
    || (n.UiScriptBinding? && (token == "id" || token == "objectName"))
    || (n.UiObjectDefinition? && token == "anchors")
  }

  /** The name token of a node the visitor handles. */
  function Token(code: string, n: Node): string
    requires !n.OtherNode? && HeaderOk(code, n)
  {
    GetCode(code, NameLocation(n))
  }

  /** The `visit` handler of the node's kind, applied to the top context. It
      follows the rule table: the warning depends only on the list of the next
      later category, and the token goes to the node's own category unless exempt. */
  function Visit(code: string, ctx: AstContext, n: Node): (s: Step)
    requires !n.OtherNode? && HeaderOk(code, n)
    ensures s.ctx == if Exempt(n, Token(code, n)) then ctx else Append(ctx, Kind(n), Token(code, n))
    ensures s.warnings == match RuleOf(Kind(n))
                          case None => []
                          case Some(r) => OrderWarning(Names(ctx, r.checks), r.opening, r.closing, Token(code, n))
  {
    var token := Token(code, n);
    match n
    case UiPublicMember(_, _) => PublicMemberStep(ctx, token)
    case UiSourceElement(_, _) => SourceElementStep(ctx, token)
    case UiScriptBinding(_, _) => ScriptBindingStep(ctx, token)
    case UiObjectBinding(_, _) => ObjectBindingStep(ctx, token)
    case UiObjectDefinition(_, _) => ObjectDefinitionStep(ctx, token)
  }

  /** A depth-first walk of `n` starting from top context `ctx`: the node's own
      visit, then its children in the fresh context it pushed, which is popped
      afterwards. An `OtherNode` is walked through without a scope of its own. */
  function WalkNode(code: string, ctx: AstContext, n: Node): Step
    requires WellFormed(code, n)
    decreases n, 1
  {
    if n.OtherNode? then WalkSeq(code, ctx, n.children)
    else
      var v := Visit(code, ctx, n);
      Step(v.ctx, v.warnings + WalkSeq(code, NewContext(), n.children).warnings)
  }

  /** Siblings walked left to right, each against the top context the previous one left. */
  function WalkSeq(code: string, ctx: AstContext, ns: seq<Node>): Step
    requires AllWellFormed(code, ns)
    decreases ns, 0
  {
    if ns == [] then Step(ctx, [])
    else
      var a := WalkNode(code, ctx, ns[0]);
      var b := WalkSeq(code, a.ctx, ns[1..]);
      Step(b.ctx, a.warnings + b.warnings)
  }

  /** Walking a single sibling is walking that node. */
  lemma WalkSeqSingle(code: string, ctx: AstContext, n: Node)
    requires WellFormed(code, n)
    ensures AllWellFormed(code, [n])
    ensures WalkSeq(code, ctx, [n]) == WalkNode(code, ctx, n)
  {
    assert [n][0] == n && [n][1..] == [];
    var a := WalkNode(code, ctx, n);
    assert WalkSeq(code, a.ctx, []) == Step(a.ctx, []);
    assert a.warnings + [] == a.warnings;
  }

  /** Walking one more sibling continues from where the walk of the others left off. */
  lemma {:induction false} WalkSeqSnoc(code: string, ctx: AstContext, ns: seq<Node>, n: Node)
    requires AllWellFormed(code, ns) && WellFormed(code, n)
    ensures AllWellFormed(code, ns + [n])
    ensures var a := WalkSeq(code, ctx, ns);
            var b := WalkNode(code, a.ctx, n);
            WalkSeq(code, ctx, ns + [n]) == Step(b.ctx, a.warnings + b.warnings)
    decreases ns
  {
    assert forall i :: 0 <= i < |ns| ==> (ns + [n])[i] == ns[i];
    if ns == [] {
      assert ns + [n] == [n];
      assert [n][1..] == [];
    } else {
      assert (ns + [n])[0] == ns[0];
      assert (ns + [n])[1..] == ns[1..] + [n];
      var a0 := WalkNode(code, ctx, ns[0]);
      WalkSeqSnoc(code, a0.ctx, ns[1..], n);
    }
  }

  /** The names that walking `n` records into list `c` of the current scope:
      its own name when it is of category `c` and not exempt, nothing from its
      nested scope, and the names of the children of a pass-through node. */
  function NodeNames(code: string, n: Node, c: Category): seq<string>
    requires WellFormed(code, n)
    decreases n, 1
  {
    if n.OtherNode? then ScopeNames(code, n.children, c)
    else if Kind(n) == c && !Exempt(n, Token(code, n)) then [Token(code, n)]
    else []
  }

  function ScopeNames(code: string, ns: seq<Node>, c: Category): seq<string>
    requires AllWellFormed(code, ns)
    decreases ns, 0
  {
    if ns == [] then [] else NodeNames(code, ns[0], c) + ScopeNames(code, ns[1..], c)
  }

  /** Lists are append-only and a walk appends exactly the scope's own names,
      in visit order; nothing declared in a nested scope reaches them. */
  lemma {:induction false} WalkNodeNames(code: string, ctx: AstContext, n: Node, c: Category)
    requires WellFormed(code, n)
    ensures Names(WalkNode(code, ctx, n).ctx, c) == Names(ctx, c) + NodeNames(code, n, c)
    decreases n, 1
  {
    if n.OtherNode? {
      WalkSeqNames(code, ctx, n.children, c);
    }
  }

  lemma {:induction false} WalkSeqNames(code: string, ctx: AstContext, ns: seq<Node>, c: Category)
    requires AllWellFormed(code, ns)
    ensures Names(WalkSeq(code, ctx, ns).ctx, c) == Names(ctx, c) + ScopeNames(code, ns, c)
    decreases ns, 0
  {
    if ns != [] {
      var a := WalkNode(code, ctx, ns[0]);
      WalkNodeNames(code, ctx, ns[0], c);
      WalkSeqNames(code, a.ctx, ns[1..], c);
    }
  }

  /** An object definition named `anchors` is never recorded in a scope. */
  lemma {:induction false} AnchorsNeverInNodeNames(code: string, n: Node)
    requires WellFormed(code, n)
    ensures "anchors" !in NodeNames(code, n, Objects)
    decreases n, 1
  {
    if n.OtherNode? {
      AnchorsNeverInScopeNames(code, n.children);
    }
  }

  lemma {:induction false} AnchorsNeverInScopeNames(code: string, ns: seq<Node>)
    requires AllWellFormed(code, ns)
    ensures "anchors" !in ScopeNames(code, ns, Objects)
    decreases ns, 0
  {
    if ns != [] {
      AnchorsNeverInNodeNames(code, ns[0]);
      AnchorsNeverInScopeNames(code, ns[1..]);
    }
  }

  /** Once the objects list of a scope holds no `anchors`, no walk puts one there. */
  lemma AnchorsNeverRecorded(code: string, ctx: AstContext, ns: seq<Node>)
    requires AllWellFormed(code, ns)
    requires "anchors" !in ctx.objects
    ensures "anchors" !in WalkSeq(code, ctx, ns).ctx.objects
  {
    WalkSeqNames(code, ctx, ns, Objects);
    AnchorsNeverInScopeNames(code, ns);
  }

  /** The number of nodes in the subtree whose kind has an ordering rule. */
  function RuleNodes(n: Node): nat
    decreases n, 1
  {
    (if n.OtherNode? || n.UiObjectDefinition? then 0 else 1) + RuleNodesAll(n.children)
  }

  function RuleNodesAll(ns: seq<Node>): nat
    decreases ns, 0
  {
    if ns == [] then 0 else RuleNodes(ns[0]) + RuleNodesAll(ns[1..])
  }

  /** Each visit adds at most one warning, and object definitions add none. */
  lemma {:induction false} WalkNodeWarningBound(code: string, ctx: AstContext, n: Node)
    requires WellFormed(code, n)
    ensures |WalkNode(code, ctx, n).warnings| <= RuleNodes(n)
    decreases n, 1
  {
    if n.OtherNode? {
      WalkSeqWarningBound(code, ctx, n.children);
    } else {
      WalkSeqWarningBound(code, NewContext(), n.children);
    }
  }

  lemma {:induction false} WalkSeqWarningBound(code: string, ctx: AstContext, ns: seq<Node>)
    requires AllWellFormed(code, ns)
    ensures |WalkSeq(code, ctx, ns).warnings| <= RuleNodesAll(ns)
    decreases ns, 0
  {
    if ns != [] {
      var a := WalkNode(code, ctx, ns[0]);
      WalkNodeWarningBound(code, ctx, ns[0]);
      WalkSeqWarningBound(code, a.ctx, ns[1..]);
    }
  }

  /** The context holding exactly the names the members `ms` record, category by category. */
  function ScopeContext(code: string, ms: seq<Node>): (ctx: AstContext)
    requires AllWellFormed(code, ms)
    ensures forall c :: Names(ctx, c) == ScopeNames(code, ms, c)
  {
    AstContext(ScopeNames(code, ms, Properties), ScopeNames(code, ms, Functions),
               ScopeNames(code, ms, Bindings), ScopeNames(code, ms, Objects))
  }

  /** A fresh scope, after its members `ms` are walked, holds exactly their names. */
  lemma FreshScopeContext(code: string, ms: seq<Node>)
    requires AllWellFormed(code, ms)
    ensures WalkSeq(code, NewContext(), ms).ctx == ScopeContext(code, ms)
  {
    var a := WalkSeq(code, NewContext(), ms).ctx;
    forall c
      ensures Names(a, c) == Names(ScopeContext(code, ms), c)
    {
      WalkSeqNames(code, NewContext(), ms, c);
      assert Names(NewContext(), c) == [];
    }
    SameNamesSameContext(a, ScopeContext(code, ms));
  }

  /** Order within a scope: walking one more member `n` of a fresh scope after
      members `ms` gives the warnings of `ms`, then the warning of `n`, then
      those of the scope `n` opens. `n` warns iff some member of `ms` recorded
      a name of the next later category, and the warning lists all such names
      in the order they were declared. */
  lemma ScopeMemberWarning(code: string, ms: seq<Node>, n: Node)
    requires AllWellFormed(code, ms) && WellFormed(code, n) && !n.OtherNode?
    ensures AllWellFormed(code, ms + [n])
    ensures var own := match RuleOf(Kind(n))
                       case None => []
                       case Some(r) => OrderWarning(ScopeNames(code, ms, r.checks), r.opening, r.closing, Token(code, n));
            WalkSeq(code, NewContext(), ms + [n]).warnings
            == WalkSeq(code, NewContext(), ms).warnings + own + WalkSeq(code, NewContext(), n.children).warnings
  {
    WalkSeqSnoc(code, NewContext(), ms, n);
    FreshScopeContext(code, ms);
    var v := Visit(code, ScopeContext(code, ms), n);
    assert WalkNode(code, ScopeContext(code, ms), n).warnings == v.warnings + WalkSeq(code, NewContext(), n.children).warnings;
  }

  /** A scope-opening node's nested warnings do not depend on the enclosing
      scope: only its own visit reads the enclosing top context. */
  lemma NestedScopeIsolated(code: string, ctx1: AstContext, ctx2: AstContext, n: Node)
    requires WellFormed(code, n) && !n.OtherNode?
    ensures var w1 := WalkNode(code, ctx1, n).warnings;
            var w2 := WalkNode(code, ctx2, n).warnings;
            var k1 := |Visit(code, ctx1, n).warnings|;
            var k2 := |Visit(code, ctx2, n).warnings|;
            k1 <= |w1| && k2 <= |w2| && w1[k1..] == w2[k2..]
  {
  }
}
