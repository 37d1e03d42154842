/**
 * The text-emitting extensions the generator applies to a StringBuilder. Each one
 * appends a fixed rendering of its arguments; the renderings are the functions here.
 */
module StringBuilderHelper {
  import opened Wrappers
  import opened InterfaceModel

  /** The line terminator AppendLine writes. */
  const NewLine := "\n"

  /** A growing text buffer; every operation appends. */
  class StringBuilder {
    var content: string

    constructor()
      ensures content == ""
    {
      content := "";
    }

    method Append(s: string)
      modifies this
      ensures content == old(content) + s
    {
      content := content + s;
    }

    method AppendLine(s: string)
      modifies this
      ensures content == old(content) + s + NewLine
    {
      content := content + s + NewLine;
    }

    /** `AppendLine()`: a line terminator alone. */
    method AppendEmptyLine()
      modifies this
      ensures content == old(content) + NewLine
    {
      content := content + NewLine;
    }

    /** `Append(c, repeatCount)`: `c` written `count` times. */
    method AppendRepeat(c: char, count: nat)
      modifies this
      ensures content == old(content) + Repeat(c, count)
    {
      var i := 0;
      while i < count
        invariant 0 <= i <= count
        invariant content == old(content) + Repeat(c, i)
      {
        content := content + [c];
        i := i + 1;
      }
    }
  }

  /** `count` copies of `c`. */
  function Repeat(c: char, count: nat): (r: string)
    ensures |r| == count
    ensures forall i :: 0 <= i < count ==> r[i] == c
  {
    if count == 0 then "" else Repeat(c, count - 1) + [c]
  }

  /** The indentation of nesting level `level`: four spaces a level. */
  function Indentation(level: nat): string
  {
    Repeat(' ', level * 4)
  }

  /** Indentation is all spaces, four a level, and adding levels appends their spaces. */
  lemma {:induction false} IndentationAdds(level: nat, more: nat)
    ensures |Indentation(level)| == 4 * level
    ensures forall i :: 0 <= i < |Indentation(level)| ==> Indentation(level)[i] == ' '
    ensures Indentation(level + more) == Indentation(level) + Indentation(more)
  {
    var a, b := Indentation(level), Indentation(more);
    var c := Indentation(level + more);
    assert |c| == |a + b|;
    forall i | 0 <= i < |c|
      ensures c[i] == (a + b)[i]
    {
    }
  }

  /** `Append(string? value)` writes nothing for null. */
  function OrEmpty(s: Option<string>): string
  {
    match s
    case None => ""
    case Some(v) => v
  }

  /** What follows a parameter's name: " = " and its default when it has one, nothing otherwise. */
  function DefaultText(p: ParameterModel): string
  {
    if p.hasExplicitDefaultValue then " = " + OrEmpty(p.explicitDefaultValue) else ""
  }

  /** One parameter as written in a parameter list: type, name, and " = default" if it has one. */
  function ParameterText(p: ParameterModel): string
  {
    p.typeName + " " + p.name + DefaultText(p)
  }

  /** A parameter is written as bare "Type Name" exactly when it has no explicit default. */
  lemma DefaultWrittenIff(p: ParameterModel)
    ensures ParameterText(p) == p.typeName + " " + p.name <==> !p.hasExplicitDefaultValue
    ensures p.hasExplicitDefaultValue ==>
              ParameterText(p) == p.typeName + " " + p.name + " = " + OrEmpty(p.explicitDefaultValue)
  {
    if p.hasExplicitDefaultValue {
      assert |ParameterText(p)| >= |p.typeName + " " + p.name| + 3;
    }
  }

  /** What precedes the parameter at position `i`: nothing for the first, ", " for the others. */
  function Separator(i: nat): string
  {
    if i == 0 then "" else ", "
  }

  /** The parameters in order, each after its separator, as AppendParameters writes them one by one. */
  function ParametersText(ps: seq<ParameterModel>): string
  {
    if |ps| == 0 then ""
    else ParametersText(ps[..|ps| - 1]) + Separator(|ps| - 1) + ParameterText(ps[|ps| - 1])
  }

  // ----- Concatenation plumbing -----
  // AppendNothing, Associative and Prepend4 to Prepend10 regroup a run of appended texts as one
  // text. They have no counterpart in the generator; they keep the proofs about writing order small.

  /** Appending the empty text changes nothing. */
  lemma AppendNothing(s: string)
    ensures s + "" == s
  {
  }

  /** Appending two texts one after the other appends their concatenation. */
  lemma Associative(a: string, b: string, c: string)
    ensures a + b + c == a + (b + c)
  {
  }

  /** Four texts appended one after the other append their concatenation. */
  lemma Prepend4(c: string, a1: string, a2: string, a3: string, a4: string)
    ensures c + a1 + a2 + a3 + a4 == c + (a1 + a2 + a3 + a4)
  {
    Associative(c, a1 + a2 + a3, a4);
    Associative(c, a1 + a2, a3);
    Associative(c, a1, a2);
  }

  /** Six texts appended one after the other append their concatenation. */
  lemma Prepend6(c: string, a1: string, a2: string, a3: string, a4: string, a5: string, a6: string)
    ensures c + a1 + a2 + a3 + a4 + a5 + a6 == c + (a1 + a2 + a3 + a4 + a5 + a6)
  {
    Associative(c, a1 + a2 + a3 + a4 + a5, a6);
    Associative(c, a1 + a2 + a3 + a4, a5);
    Associative(c, a1 + a2 + a3, a4);
    Associative(c, a1 + a2, a3);
    Associative(c, a1, a2);
  }

  /** Seven texts appended one after the other append their concatenation. */
  lemma Prepend7(c: string, a1: string, a2: string, a3: string, a4: string, a5: string, a6: string, a7: string)
    ensures c + a1 + a2 + a3 + a4 + a5 + a6 + a7 == c + (a1 + a2 + a3 + a4 + a5 + a6 + a7)
  {
    Associative(c, a1 + a2 + a3 + a4 + a5 + a6, a7);
    Associative(c, a1 + a2 + a3 + a4 + a5, a6);
    Associative(c, a1 + a2 + a3 + a4, a5);
    Associative(c, a1 + a2 + a3, a4);
    Associative(c, a1 + a2, a3);
    Associative(c, a1, a2);
  }

  /** Eight texts appended one after the other append their concatenation. */
  lemma Prepend8(c: string, a1: string, a2: string, a3: string, a4: string, a5: string, a6: string, a7: string,
                 a8: string)
    ensures c + a1 + a2 + a3 + a4 + a5 + a6 + a7 + a8 == c + (a1 + a2 + a3 + a4 + a5 + a6 + a7 + a8)
  {
    Associative(c, a1 + a2 + a3 + a4 + a5 + a6 + a7, a8);
    Prepend7(c, a1, a2, a3, a4, a5, a6, a7);
  }

  /** Nine texts appended one after the other append their concatenation. */
  lemma Prepend9(c: string, a1: string, a2: string, a3: string, a4: string, a5: string, a6: string, a7: string,
                 a8: string, a9: string)
    ensures c + a1 + a2 + a3 + a4 + a5 + a6 + a7 + a8 + a9 == c + (a1 + a2 + a3 + a4 + a5 + a6 + a7 + a8 + a9)
  {
    Associative(c, a1 + a2 + a3 + a4 + a5 + a6 + a7 + a8, a9);
    Prepend8(c, a1, a2, a3, a4, a5, a6, a7, a8);
  }

  /** Ten texts appended one after the other append their concatenation. */
  lemma Prepend10(c: string, a1: string, a2: string, a3: string, a4: string, a5: string, a6: string, a7: string,
                  a8: string, a9: string, a10: string)
    ensures c + a1 + a2 + a3 + a4 + a5 + a6 + a7 + a8 + a9 + a10
            == c + (a1 + a2 + a3 + a4 + a5 + a6 + a7 + a8 + a9 + a10)
  {
    Associative(c, a1 + a2 + a3 + a4 + a5 + a6 + a7 + a8 + a9, a10);
    Prepend9(c, a1, a2, a3, a4, a5, a6, a7, a8, a9);
  }

  /** Rendering one more parameter appends its separator and its text. */
  lemma ParametersTextSnoc(ps: seq<ParameterModel>, i: nat)
    requires i < |ps|
    ensures ParametersText(ps[..i + 1]) == ParametersText(ps[..i]) + (Separator(i) + ParameterText(ps[i]))
  {
    assert ps[..i + 1][..i] == ps[..i];
  }

  /** The texts joined with `sep` between consecutive ones (an independent reference). */
  function Join(texts: seq<string>, sep: string): (r: string)
    ensures |texts| == 1 ==> r == texts[0]
  {
    if |texts| == 0 then ""
    else if |texts| == 1 then texts[0]
    else texts[0] + sep + Join(texts[1..], sep)
  }

  /** Adding one text at the end of a join adds one separator before it, unless it is the only one. */
  lemma {:induction false} JoinSnoc(texts: seq<string>, t: string, sep: string)
    ensures Join(texts + [t], sep) == Join(texts, sep) + (if |texts| == 0 then "" else sep) + t
    decreases |texts|
  {
    if |texts| == 0 {
      assert texts + [t] == [t];
    } else if |texts| == 1 {
      assert (texts + [t])[1..] == [t];
    } else {
      assert (texts + [t])[1..] == texts[1..] + [t];
      JoinSnoc(texts[1..], t, sep);
    }
  }

  /** The text of each parameter, in order. */
  function ParameterTexts(ps: seq<ParameterModel>): (r: seq<string>)
    ensures |r| == |ps|
    ensures forall i :: 0 <= i < |ps| ==> r[i] == ParameterText(ps[i])
  {
    if |ps| == 0 then [] else ParameterTexts(ps[..|ps| - 1]) + [ParameterText(ps[|ps| - 1])]
  }

  /**
   * A parameter list is the parameter texts joined with ", ": no separator before the
   * first or after the last, and nothing at all for an empty list.
   */
  lemma {:induction false} ParametersTextIsJoin(ps: seq<ParameterModel>)
    ensures ParametersText(ps) == Join(ParameterTexts(ps), ", ")
    decreases |ps|
  {
    if |ps| > 0 {
      var init := ps[..|ps| - 1];
      ParametersTextIsJoin(init);
      assert ParameterTexts(ps) == ParameterTexts(init) + [ParameterText(ps[|ps| - 1])];
      JoinSnoc(ParameterTexts(init), ParameterText(ps[|ps| - 1]), ", ");
    }
  }

  /** One field declaration line. */
  function FieldText(f: FieldModel): string
  {
    Indentation(1) + "private readonly " + f.typeName + " " + f.name + ";" + NewLine
  }

  /** One rendered line per item, in item order. */
  function Lines<T>(items: seq<T>, line: T -> string): string
    decreases |items|, 1
  {
    if |items| == 0 then "" else NonEmptyLines(items, line)
  }

  /** The lines of all items but the last, then the line of the last. */
  function NonEmptyLines<T>(items: seq<T>, line: T -> string): string
    requires |items| > 0
    decreases |items|, 0
  {
    Lines(items[..|items| - 1], line) + line(items[|items| - 1])
  }

  /** The rendering of a list split at any point is the rendering of each part, one after the other. */
  lemma {:induction false} LinesAppend<T>(xs: seq<T>, ys: seq<T>, line: T -> string)
    ensures Lines(xs + ys, line) == Lines(xs, line) + Lines(ys, line)
    decreases |ys|
  {
    if |ys| == 0 {
      assert xs + ys == xs;
    } else {
      assert (xs + ys)[..|xs + ys| - 1] == xs + ys[..|ys| - 1];
      LinesAppend(xs, ys[..|ys| - 1], line);
    }
  }

  /** Rendering one more item appends its line. */
  lemma LinesSnoc<T>(items: seq<T>, i: nat, line: T -> string)
    requires i < |items|
    ensures Lines(items[..i + 1], line) == Lines(items[..i], line) + line(items[i])
  {
    assert items[..i + 1][..i] == items[..i];
  }

  /** The number of line terminators in a text. */
  function LineCount(s: string): nat
  {
    multiset(s)['\n']
  }

  /** When every item renders as exactly one line, the rendering has one line per item. */
  lemma {:induction false} LinesCount<T>(items: seq<T>, line: T -> string)
    requires forall x :: x in items ==> LineCount(line(x)) == 1
    ensures LineCount(Lines(items, line)) == |items|
    decreases |items|
  {
    if |items| > 0 {
      LinesCount(items[..|items| - 1], line);
      assert items[|items| - 1] in items;
    }
  }

  /** One declaration line per field, in field order. */
  function FieldsText(fs: seq<FieldModel>): string
  {
    Lines(fs, FieldText)
  }

  /** Line terminators of a concatenation are those of its parts. */
  lemma LineCountAppend(a: string, b: string)
    ensures LineCount(a + b) == LineCount(a) + LineCount(b)
  {
    assert multiset(a + b) == multiset(a) + multiset(b);
  }

  /** A text followed by a line terminator is one line exactly when the text holds no line terminator. */
  lemma OneLine(body: string)
    ensures LineCount(body + NewLine) == 1 <==> '\n' !in body
  {
    LineCountAppend(body, NewLine);
    assert LineCount(NewLine) == 1;
    assert '\n' in body <==> '\n' in multiset(body);
  }

  /** A field declaration is a single line when the field's name and type hold no line break. */
  lemma FieldTextIsOneLine(f: FieldModel)
    requires '\n' !in f.name && '\n' !in f.typeName
    ensures LineCount(FieldText(f)) == 1
  {
    var body := Indentation(1) + "private readonly " + f.typeName + " " + f.name + ";";
    assert FieldText(f) == body + NewLine;
    assert '\n' !in body by {
      assert '\n' !in "private readonly " && '\n' !in " " && '\n' !in ";";
      assert '\n' !in Indentation(1);
    }
    OneLine(body);
  }

  /** When no field name or type holds a line break, the declarations take exactly one line per field. */
  lemma FieldsTextLines(fs: seq<FieldModel>)
    requires forall f :: f in fs ==> '\n' !in f.name && '\n' !in f.typeName
    ensures LineCount(FieldsText(fs)) == |fs|
  {
    forall f | f in fs
      ensures LineCount(FieldText(f)) == 1
    {
      FieldTextIsOneLine(f);
    }
    LinesCount(fs, FieldText);
  }

  /** One constructor line assigning a parameter to its field, at level 2. */
  function AssignmentText(mapping: (ParameterModel, FieldModel)): string
  {
    Indentation(2) + "this." + mapping.1.name + " = " + mapping.0.name + ";" + NewLine
  }

  /** One assignment line per parameter-field mapping, in order. */
  function AssignmentsText(mappings: seq<(ParameterModel, FieldModel)>): string
  {
    Lines(mappings, AssignmentText)
  }

  /** The constructor's signature and opening brace, at level 1. */
  function ConstructorHeadText(iface: InterfaceModel): string
  {
    Indentation(1) + "public " + iface.className + "(" + ParametersText(iface.classConstructor.parameters) + ")" + NewLine
    + Indentation(1) + "{" + NewLine
  }

  /** The constructor: signature and braces at level 1, one assignment per mapping inside. */
  function ConstructorText(iface: InterfaceModel): string
  {
    ConstructorHeadText(iface) + AssignmentsText(iface.classConstructor.paramFieldMappings) + Indentation(1) + "}" + NewLine
  }

  /** The first line of a generated method: its signature at level 1. */
  function MethodSignatureText(m: MethodModel): string
  {
    Indentation(1) + "public async " + m.returnType + " " + m.name + "(" + ParametersText(m.parameters) + ")" + NewLine
  }

  function NullableContextText(): string
  {
    "#nullable enable" + NewLine
  }

  function NamespaceText(iface: InterfaceModel): string
  {
    "namespace " + iface.namespace + ";" + NewLine
  }

  function ClassDeclarationText(iface: InterfaceModel): string
  {
    "public class " + iface.className + " : " + iface.name + NewLine
  }

  /** The namespace declaration is a single line when the namespace holds no line break. */
  lemma NamespaceIsOneLine(iface: InterfaceModel)
    requires '\n' !in iface.namespace
    ensures NamespaceText(iface) == "namespace " + iface.namespace + ";" + NewLine
    ensures LineCount(NamespaceText(iface)) == 1
  {
    var ns := "namespace " + iface.namespace + ";";
    assert '\n' !in ns by {
      assert '\n' !in "namespace " && '\n' !in ";";
    }
    OneLine(ns);
  }

  /** The class declaration is a single line naming the class and the interface it implements. */
  lemma ClassDeclarationIsOneLine(iface: InterfaceModel)
    requires '\n' !in iface.className && '\n' !in iface.name
    ensures ClassDeclarationText(iface) == "public class " + iface.className + " : " + iface.name + NewLine
    ensures LineCount(ClassDeclarationText(iface)) == 1
  {
    var decl := "public class " + iface.className + " : " + iface.name;
    assert '\n' !in decl by {
      assert '\n' !in "public class " && '\n' !in " : ";
    }
    OneLine(decl);
  }

  // ----- Writing order -----
  // The *Pieces lemmas here restate a sequence of appends as one rendered text; like the
  // plumbing of the concatenation section they only serve the proofs.

  /** The pieces AppendParameters writes for one parameter, in writing order. */
  lemma ParameterPieces(before: string, i: nat, p: ParameterModel)
    ensures before + Separator(i) + p.typeName + " " + p.name + DefaultText(p)
            == before + (Separator(i) + ParameterText(p))
  {
  }

  /** The pieces AppendFieldDeclaration writes for one field, in writing order. */
  lemma FieldPieces(before: string, f: FieldModel)
    ensures before + Indentation(1) + "private readonly " + f.typeName + " " + f.name + ";" + NewLine
            == before + FieldText(f)
  {
  }

  /** The pieces AppendClassConstructor writes for one mapping, in writing order. */
  lemma AssignmentPieces(before: string, mapping: (ParameterModel, FieldModel))
    ensures before + Indentation(2) + "this." + mapping.1.name + " = " + mapping.0.name + ";" + NewLine
            == before + AssignmentText(mapping)
  {
  }

  /** The pieces AppendClassConstructor writes before the assignments, in writing order. */
  lemma ConstructorPieces(before: string, iface: InterfaceModel)
    ensures before + Indentation(1) + "public " + iface.className + "("
            + ParametersText(iface.classConstructor.parameters) + ")" + NewLine + Indentation(1) + "{" + NewLine
            == before + ConstructorHeadText(iface)
  {
    Prepend10(before, Indentation(1), "public ", iface.className, "(", ParametersText(iface.classConstructor.parameters),
              ")", NewLine, Indentation(1), "{", NewLine);
  }

  /** The closing brace after the head and the assignments completes the constructor. */
  lemma ConstructorTailPieces(before: string, iface: InterfaceModel, body: string)
    requires body == before + ConstructorHeadText(iface) + AssignmentsText(iface.classConstructor.paramFieldMappings)
    ensures body + Indentation(1) + "}" + NewLine == before + ConstructorText(iface)
  {
  }

  /** The pieces AppendMethod writes, in writing order. */
  lemma MethodSignaturePieces(before: string, m: MethodModel)
    ensures before + Indentation(1) + "public async " + m.returnType + " " + m.name + "("
            + ParametersText(m.parameters) + ")" + NewLine
            == before + MethodSignatureText(m)
  {
    Prepend9(before, Indentation(1), "public async ", m.returnType, " ", m.name, "(", ParametersText(m.parameters),
             ")", NewLine);
  }

  method AppendNullableContext(sb: StringBuilder)
    modifies sb
    ensures sb.content == old(sb.content) + NullableContextText()
  {
    sb.AppendLine("#nullable enable");
  }

  method AppendNamespace(sb: StringBuilder, iface: InterfaceModel)
    modifies sb
    ensures sb.content == old(sb.content) + NamespaceText(iface)
  {
    assert sb.content + NamespaceText(iface) == sb.content + "namespace " + iface.namespace + ";" + NewLine;
    sb.Append("namespace ");
    sb.Append(iface.namespace);
    sb.AppendLine(";");
  }

  method AppendClassDeclaration(sb: StringBuilder, iface: InterfaceModel)
    modifies sb
    ensures sb.content == old(sb.content) + ClassDeclarationText(iface)
  {
    assert sb.content + ClassDeclarationText(iface)
        == sb.content + "public class " + iface.className + " : " + iface.name + NewLine;
    sb.Append("public class ");
    sb.Append(iface.className);
    sb.Append(" : ");
    sb.AppendLine(iface.name);
  }

  /** `Append(' ', identLevel * 4)`: the level defaults to 1, four spaces. */
  method AppendIdentation(sb: StringBuilder, identLevel: nat := 1)
    modifies sb
    ensures sb.content == old(sb.content) + Indentation(identLevel)
  {
    sb.AppendRepeat(' ', identLevel * 4);
  }

  method AppendFieldDeclaration(sb: StringBuilder, iface: InterfaceModel)
    modifies sb
    ensures sb.content == old(sb.content) + FieldsText(iface.fields)
  {
    var i := 0;
    while i < |iface.fields|
      invariant 0 <= i <= |iface.fields|
      invariant sb.content == old(sb.content) + FieldsText(iface.fields[..i])
    {
      var field := iface.fields[i];
      ghost var before := sb.content;
      AppendIdentation(sb);
      sb.Append("private readonly ");
      sb.Append(field.typeName);
      sb.Append(" ");
      sb.Append(field.name);
      sb.AppendLine(";");
      FieldPieces(before, field);
      LinesSnoc(iface.fields, i, FieldText);
      Associative(old(sb.content), FieldsText(iface.fields[..i]), FieldText(field));
      i := i + 1;
    }
    assert iface.fields[..i] == iface.fields;
  }

  method AppendParameters(sb: StringBuilder, parameters: seq<ParameterModel>)
    modifies sb
    ensures sb.content == old(sb.content) + ParametersText(parameters)
  {
    var firstParam := 0;
    var i := 0;
    while i < |parameters|
      invariant 0 <= i <= |parameters| && firstParam == i
      invariant sb.content == old(sb.content) + ParametersText(parameters[..i])
    {
      var param := parameters[i];
      ghost var before := sb.content;
      sb.Append(if firstParam == 0 then "" else ", ");
      firstParam := firstParam + 1;
      sb.Append(param.typeName);
      sb.Append(" ");
      sb.Append(param.name);
      ghost var named := sb.content;
      if param.hasExplicitDefaultValue {
        sb.Append(" = ");
        sb.Append(OrEmpty(param.explicitDefaultValue));
        Associative(named, " = ", OrEmpty(param.explicitDefaultValue));
      } else {
        assert named + "" == named;
      }
      ParameterPieces(before, i, param);
      ParametersTextSnoc(parameters, i);
      Associative(old(sb.content), ParametersText(parameters[..i]), Separator(i) + ParameterText(param));
      i := i + 1;
    }
    assert parameters[..i] == parameters;
  }

  method AppendClassConstructor(sb: StringBuilder, iface: InterfaceModel)
    modifies sb
    ensures sb.content == old(sb.content) + ConstructorText(iface)
  {
    var mappings := iface.classConstructor.paramFieldMappings;
    ConstructorPieces(sb.content, iface);
    AppendIdentation(sb);
    sb.Append("public ");
    sb.Append(iface.className);
    sb.Append("(");
    AppendParameters(sb, iface.classConstructor.parameters);
    sb.AppendLine(")");
    AppendIdentation(sb);
    sb.AppendLine("{");
    ghost var head := sb.content;
    var i := 0;
    while i < |mappings|
      invariant 0 <= i <= |mappings|
      invariant sb.content == head + AssignmentsText(mappings[..i])
    {
      var (param, field) := mappings[i];
      ghost var before := sb.content;
      AppendIdentation(sb, 2);
      sb.Append("this.");
      sb.Append(field.name);
      sb.Append(" = ");
      sb.Append(param.name);
      sb.AppendLine(";");
      AssignmentPieces(before, mappings[i]);
      LinesSnoc(mappings, i, AssignmentText);
      Associative(head, AssignmentsText(mappings[..i]), AssignmentText(mappings[i]));
      i := i + 1;
    }
    assert mappings[..i] == mappings;
    ghost var body := sb.content;
    AppendIdentation(sb);
    sb.AppendLine("}");
    ConstructorTailPieces(old(sb.content), iface, body);
  }

  method AppendMethod(sb: StringBuilder, m: MethodModel)
    modifies sb
    ensures sb.content == old(sb.content) + MethodSignatureText(m)
  {
    MethodSignaturePieces(sb.content, m);
    AppendIdentation(sb);
    sb.Append("public async ");
    sb.Append(m.returnType);
    sb.Append(" ");
    sb.Append(m.name);
    sb.Append("(");
    AppendParameters(sb, m.parameters);
    sb.AppendLine(")");
  }
}
