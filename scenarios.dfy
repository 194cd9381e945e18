/**
 Small documents and the warnings the checker gives for them. Each document
 is one object whose members sit in a pass-through member list, as the parser
 builds them.
 */
module Scenarios {
  import opened QmlAst
  import opened AstContexts
  import opened Checking

  /** A document whose root object has type name `typeName` and the given members. */
  function Document(typeName: SourceLocation, members: seq<Node>): Node
  {
    OtherNode([UiObjectDefinition(typeName, [OtherNode(members)])])
  }

  /** The root object is recorded in the root context without a check, so the
      warnings of a document are those of its members in the object's fresh scope. */
  lemma DocumentWarnings(code: string, typeName: SourceLocation, members: seq<Node>)
    requires InBounds(code, typeName) && AllWellFormed(code, members)
    ensures WellFormed(code, Document(typeName, members))
    ensures WalkNode(code, NewContext(), Document(typeName, members)).warnings
            == WalkSeq(code, NewContext(), members).warnings
  {
    var inner := OtherNode(members);
    var obj := UiObjectDefinition(typeName, [inner]);
    assert WellFormed(code, inner);
    WalkSeqSingle(code, NewContext(), inner);
    assert WellFormed(code, obj);
    WalkSeqSingle(code, NewContext(), obj);
  }

  const CodeA: string :=
    "Item {\n"
    + "    property int a\n"
    + "    function foo() {}\n"
    + "    property int b\n"
    + "}\n"
  const MembersA: seq<Node> := [
      UiPublicMember(SourceLocation(24, 1), []),
      UiSourceElement(FunctionDeclaration(SourceLocation(39, 3)), []),
      UiPublicMember(SourceLocation(65, 1), [])]

  lemma TokensA()
    ensures InBounds(CodeA, SourceLocation(0, 4)) && AllWellFormed(CodeA, MembersA)
    ensures Token(CodeA, MembersA[0]) == "a" && Token(CodeA, MembersA[1]) == "foo" && Token(CodeA, MembersA[2]) == "b"
  {
  }

  lemma MessageA()
    ensures Message("Functions (", ["foo"], ") before property (", "b") == "Functions ( foo ) before property ( b )"
  {
    MessageOneName("Functions (", "foo", ") before property (", "b");
  }

  /** The members of the document's object, walked in its fresh scope. */
  lemma MembersAWarnings()
    ensures AllWellFormed(CodeA, MembersA)
    ensures WalkSeq(CodeA, NewContext(), MembersA).warnings == ["Functions ( foo ) before property ( b )"]
  {
    TokensA();
    var pa, pf, pb := MembersA[0], MembersA[1], MembersA[2];
    assert WellFormed(CodeA, pa) && WellFormed(CodeA, pf) && WellFormed(CodeA, pb);
    WalkSeqSingle(CodeA, NewContext(), pa);
    ScopeMemberWarning(CodeA, [pa], pf);
    assert [pa] + [pf] == [pa, pf];
    ScopeMemberWarning(CodeA, [pa, pf], pb);
    assert [pa, pf] + [pb] == MembersA;
    assert [pa, pf][1..] == [pf] && [pf][1..] == [];
    assert NodeNames(CodeA, pa, Functions) == [];
    assert NodeNames(CodeA, pf, Functions) == ["foo"];
    assert ScopeNames(CodeA, [pf], Functions) == ["foo"];
    assert ScopeNames(CodeA, [pa, pf], Functions) == ["foo"];
    assert NodeNames(CodeA, pa, Bindings) == [] && ScopeNames(CodeA, [pa], Bindings) == [];
    assert WalkSeq(CodeA, NewContext(), [pa]).warnings == [];
    assert WalkSeq(CodeA, NewContext(), [pa, pf]).warnings == [];
    assert Kind(pb) == Properties && pb.children == [];
    assert WalkSeq(CodeA, NewContext(), []).warnings == [];
    MessageA();
  }

  /** Scenario A: two properties around a function give one warning, naming the function. */
  lemma ScenarioA()
    ensures WellFormed(CodeA, Document(SourceLocation(0, 4), MembersA))
    ensures WalkNode(CodeA, NewContext(), Document(SourceLocation(0, 4), MembersA)).warnings == ["Functions ( foo ) before property ( b )"]
  {
    TokensA();
    MembersAWarnings();
    DocumentWarnings(CodeA, SourceLocation(0, 4), MembersA);
  }

  const CodeB: string :=
    "Item {\n"
    + "    id: root\n"
    + "    Rectangle {}\n"
    + "    color: \"red\"\n"
    + "}\n"
  const MembersB: seq<Node> := [
      UiScriptBinding(SourceLocation(11, 2), [OtherNode([])]),
      UiObjectDefinition(SourceLocation(24, 9), []),
      UiScriptBinding(SourceLocation(41, 5), [OtherNode([])])]

  lemma TokensB()
    ensures InBounds(CodeB, SourceLocation(0, 4)) && AllWellFormed(CodeB, MembersB)
    ensures Token(CodeB, MembersB[0]) == "id" && Token(CodeB, MembersB[1]) == "Rectangle" && Token(CodeB, MembersB[2]) == "color"
  {
  }

  lemma MessageB()
    ensures Message("Objects (", ["Rectangle"], ") before binding (", "color") == "Objects ( Rectangle ) before binding ( color )"
  {
    MessageOneName("Objects (", "Rectangle", ") before binding (", "color");
  }

  /** The members of the document's object, walked in its fresh scope. */
  lemma MembersBWarnings()
    ensures AllWellFormed(CodeB, MembersB)
    ensures WalkSeq(CodeB, NewContext(), MembersB).warnings == ["Objects ( Rectangle ) before binding ( color )"]
  {
    TokensB();
    var pi, pr, pc := MembersB[0], MembersB[1], MembersB[2];
    assert WellFormed(CodeB, pi) && WellFormed(CodeB, pr) && WellFormed(CodeB, pc);
    var empty := OtherNode([]);
    assert WellFormed(CodeB, empty);
    WalkSeqSingle(CodeB, NewContext(), empty);
    assert WalkSeq(CodeB, NewContext(), [empty]).warnings == [];
    WalkSeqSingle(CodeB, NewContext(), pi);
    assert pi.children == [empty] && pc.children == [empty];
    assert WalkSeq(CodeB, NewContext(), [pi]).warnings == [];
    ScopeMemberWarning(CodeB, [pi], pr);
    assert [pi] + [pr] == [pi, pr];
    assert WalkSeq(CodeB, NewContext(), [pi, pr]).warnings == [];
    ScopeMemberWarning(CodeB, [pi, pr], pc);
    assert [pi, pr] + [pc] == MembersB;
    assert [pi, pr][1..] == [pr] && [pr][1..] == [];
    assert NodeNames(CodeB, pi, Objects) == [];
    assert NodeNames(CodeB, pr, Objects) == ["Rectangle"];
    assert ScopeNames(CodeB, [pr], Objects) == ["Rectangle"];
    assert ScopeNames(CodeB, [pi, pr], Objects) == ["Rectangle"];
    assert Kind(pc) == Bindings;
    MessageB();
  }

  /** Scenario B: `id` is not recorded; the binding after an object warns, naming the object only. */
  lemma ScenarioB()
    ensures WellFormed(CodeB, Document(SourceLocation(0, 4), MembersB))
    ensures WalkNode(CodeB, NewContext(), Document(SourceLocation(0, 4), MembersB)).warnings == ["Objects ( Rectangle ) before binding ( color )"]
  {
    TokensB();
    MembersBWarnings();
    DocumentWarnings(CodeB, SourceLocation(0, 4), MembersB);
  }

  const CodeC: string :=
    "Item {\n"
    + "    Rectangle {}\n"
    + "    border: Border { width: 2 }\n"
    + "}\n"
  const MembersC: seq<Node> := [
      UiObjectDefinition(SourceLocation(11, 9), []),
      UiObjectBinding(SourceLocation(28, 6), [OtherNode([UiScriptBinding(SourceLocation(45, 5), [OtherNode([])])])])]

  lemma TokensC()
    ensures InBounds(CodeC, SourceLocation(0, 4)) && AllWellFormed(CodeC, MembersC)
    ensures Token(CodeC, MembersC[0]) == "Rectangle" && Token(CodeC, MembersC[1]) == "border"
  {
  }

  lemma MessageC()
    ensures Message("Objects (", ["Rectangle"], ") before binding (", "border") == "Objects ( Rectangle ) before binding ( border )"
  {
    MessageOneName("Objects (", "Rectangle", ") before binding (", "border");
  }

  /** The members of the document's object, walked in its fresh scope. */
  lemma MembersCWarnings()
    ensures AllWellFormed(CodeC, MembersC)
    ensures WalkSeq(CodeC, NewContext(), MembersC).warnings == ["Objects ( Rectangle ) before binding ( border )"]
  {
    TokensC();
    var pr, pb := MembersC[0], MembersC[1];
    assert WellFormed(CodeC, pr) && WellFormed(CodeC, pb);
    var empty := OtherNode([]);
    var pw := UiScriptBinding(SourceLocation(45, 5), [empty]);
    var inner := OtherNode([pw]);
    assert pb.children == [inner];
    assert WellFormed(CodeC, inner) && WellFormed(CodeC, pw) && WellFormed(CodeC, empty);
    WalkSeqSingle(CodeC, NewContext(), empty);
    WalkSeqSingle(CodeC, NewContext(), pw);
    assert WalkSeq(CodeC, NewContext(), [pw]).warnings == [];
    WalkSeqSingle(CodeC, NewContext(), inner);
    assert WalkSeq(CodeC, NewContext(), [inner]).warnings == [];
    WalkSeqSingle(CodeC, NewContext(), pr);
    assert WalkSeq(CodeC, NewContext(), [pr]).warnings == [];
    ScopeMemberWarning(CodeC, [pr], pb);
    assert [pr] + [pb] == MembersC;
    assert [pr][1..] == [];
    assert NodeNames(CodeC, pr, Objects) == ["Rectangle"];
    assert ScopeNames(CodeC, [pr], Objects) == ["Rectangle"];
    assert Kind(pb) == Bindings;
    MessageC();
  }

  /** Scenario C: an object binding after an object warns; the binding in its own fresh scope does not. */
  lemma ScenarioC()
    ensures WellFormed(CodeC, Document(SourceLocation(0, 4), MembersC))
    ensures WalkNode(CodeC, NewContext(), Document(SourceLocation(0, 4), MembersC)).warnings == ["Objects ( Rectangle ) before binding ( border )"]
  {
    TokensC();
    MembersCWarnings();
    DocumentWarnings(CodeC, SourceLocation(0, 4), MembersC);
  }

  const CodeD: string :=
    "Item {\n"
    + "    anchors {}\n"
    + "    width: 2\n"
    + "}\n"
  const MembersD: seq<Node> := [
      UiObjectDefinition(SourceLocation(11, 7), []),
      UiScriptBinding(SourceLocation(26, 5), [OtherNode([])])]

  lemma TokensD()
    ensures InBounds(CodeD, SourceLocation(0, 4)) && AllWellFormed(CodeD, MembersD)
    ensures Token(CodeD, MembersD[0]) == "anchors" && Token(CodeD, MembersD[1]) == "width"
  {
  }

  /** Scenario D: an `anchors` group is never recorded, so the binding after it does not warn. */
  lemma ScenarioD()
    ensures WellFormed(CodeD, Document(SourceLocation(0, 4), MembersD))
    ensures WalkNode(CodeD, NewContext(), Document(SourceLocation(0, 4), MembersD)).warnings == []
  {
    TokensD();
    DocumentWarnings(CodeD, SourceLocation(0, 4), MembersD);
  }

  const CodeE: string :=
    "Item {}\n"
  const MembersE: seq<Node> := []

  /** Scenario E: an object with no members gives no warnings. */
  lemma ScenarioE()
    ensures WellFormed(CodeE, Document(SourceLocation(0, 4), MembersE))
    ensures WalkNode(CodeE, NewContext(), Document(SourceLocation(0, 4), MembersE)).warnings == []
  {
    assert AllWellFormed(CodeE, MembersE);
    DocumentWarnings(CodeE, SourceLocation(0, 4), MembersE);
  }

  const CodeF: string :=
    "Item {\n"
    + "    property int a\n"
    + "    width: 2\n"
    + "    property int b\n"
    + "}\n"
  const MembersF: seq<Node> := [
      UiPublicMember(SourceLocation(24, 1), []),
      UiScriptBinding(SourceLocation(30, 5), [OtherNode([])]),
      UiPublicMember(SourceLocation(56, 1), [])]

  lemma TokensF()
    ensures InBounds(CodeF, SourceLocation(0, 4)) && AllWellFormed(CodeF, MembersF)
    ensures Token(CodeF, MembersF[0]) == "a" && Token(CodeF, MembersF[1]) == "width" && Token(CodeF, MembersF[2]) == "b"
  {
  }

  /** Only the next later category is checked: a property after a binding, with no function in the scope, does not warn. */
  lemma ScenarioF()
    ensures WellFormed(CodeF, Document(SourceLocation(0, 4), MembersF))
    ensures WalkNode(CodeF, NewContext(), Document(SourceLocation(0, 4), MembersF)).warnings == []
  {
    TokensF();
    DocumentWarnings(CodeF, SourceLocation(0, 4), MembersF);
  }

  const CodeG: string :=
    "Item {\n"
    + "    id: Foo {}\n"
    + "    function f() {}\n"
    + "}\n"
  const MembersG: seq<Node> := [
      UiObjectBinding(SourceLocation(11, 2), [OtherNode([])]),
      UiSourceElement(FunctionDeclaration(SourceLocation(35, 1)), [])]

  lemma TokensG()
    ensures InBounds(CodeG, SourceLocation(0, 4)) && AllWellFormed(CodeG, MembersG)
    ensures Token(CodeG, MembersG[0]) == "id" && Token(CodeG, MembersG[1]) == "f"
  {
  }

  lemma MessageG()
    ensures Message("Bindings (", ["id"], ") before function (", "f") == "Bindings ( id ) before function ( f )"
  {
    MessageOneName("Bindings (", "id", ") before function (", "f");
  }

  /** The members of the document's object, walked in its fresh scope. */
  lemma MembersGWarnings()
    ensures AllWellFormed(CodeG, MembersG)
    ensures WalkSeq(CodeG, NewContext(), MembersG).warnings == ["Bindings ( id ) before function ( f )"]
  {
    TokensG();
    var pi, pf := MembersG[0], MembersG[1];
    assert WellFormed(CodeG, pi) && WellFormed(CodeG, pf);
    var empty := OtherNode([]);
    assert WellFormed(CodeG, empty);
    WalkSeqSingle(CodeG, NewContext(), empty);
    assert WalkSeq(CodeG, NewContext(), [empty]).warnings == [];
    assert pi.children == [empty] && pf.children == [];
    WalkSeqSingle(CodeG, NewContext(), pi);
    assert WalkSeq(CodeG, NewContext(), [pi]).warnings == [];
    ScopeMemberWarning(CodeG, [pi], pf);
    assert [pi] + [pf] == MembersG;
    assert [pi][1..] == [];
    assert NodeNames(CodeG, pi, Bindings) == ["id"];
    assert ScopeNames(CodeG, [pi], Bindings) == ["id"];
    assert Kind(pf) == Functions;
    assert WalkSeq(CodeG, NewContext(), []).warnings == [];
    MessageG();
  }

  /** An object binding named `id` is recorded, unlike a script binding named `id`. */
  lemma ScenarioG()
    ensures WellFormed(CodeG, Document(SourceLocation(0, 4), MembersG))
    ensures WalkNode(CodeG, NewContext(), Document(SourceLocation(0, 4), MembersG)).warnings == ["Bindings ( id ) before function ( f )"]
  {
    TokensG();
    MembersGWarnings();
    DocumentWarnings(CodeG, SourceLocation(0, 4), MembersG);
  }
}
