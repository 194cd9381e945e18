/**
 The per-scope bookkeeping of the checker (`AstContext`): four lists of the
 names declared so far in one scope, one list per declaration category.
 */
module AstContexts {

  /** The four declaration categories, in the canonical order
      properties, functions, bindings, objects. */
  datatype Category = Properties | Functions | Bindings | Objects

  /** Position of a category in the canonical order. */
  function Rank(c: Category): nat
  {
    match c
    case Properties => 0
    case Functions => 1
    case Bindings => 2
    case Objects => 3
  }

  /** Names recorded in one scope, in the order they were recorded; duplicates kept. */
  datatype AstContext = AstContext(
    properties: seq<string>,
    functions: seq<string>,
    bindings: seq<string>,
    objects: seq<string>)

  /** The list of category `c`. */
  function Names(ctx: AstContext, c: Category): seq<string>
  {
    match c
    case Properties => ctx.properties
    case Functions => ctx.functions
    case Bindings => ctx.bindings
    case Objects => ctx.objects
  }

  /** A default-constructed context: all four lists empty. */
  function NewContext(): (ctx: AstContext)
    ensures forall c :: Names(ctx, c) == []
  {
    AstContext([], [], [], [])
  }

  /** Appends `token` to the list of category `c`; the other three lists are independent of it. */
  function Append(ctx: AstContext, c: Category, token: string): (r: AstContext)
    ensures Names(r, c) == Names(ctx, c) + [token]
    ensures forall d :: d != c ==> Names(r, d) == Names(ctx, d)
  {
    match c
    case Properties => ctx.(properties := ctx.properties + [token])
    case Functions => ctx.(functions := ctx.functions + [token])
    case Bindings => ctx.(bindings := ctx.bindings + [token])
    case Objects => ctx.(objects := ctx.objects + [token])
  }

  /** A context is determined by its four lists. */
  lemma SameNamesSameContext(a: AstContext, b: AstContext)
    requires forall c :: Names(a, c) == Names(b, c)
    ensures a == b
  {
    assert Names(a, Properties) == Names(b, Properties);
    assert Names(a, Functions) == Names(b, Functions);
    assert Names(a, Bindings) == Names(b, Bindings);
    assert Names(a, Objects) == Names(b, Objects);
  }
}
