/**
 * Emits the source text of the class that implements an [HttpButler] interface:
 * a nesting level tracked across braces, and per interface method a body that
 * declares its route, its query and body arguments, and calls the HTTP client service.
 */
module ClassBuilder {
  import opened Wrappers
  import opened InterfaceModel
  import opened StringBuilderHelper

  // ----- Which parameters go where -----

  /** A parameter travels in the query string when it has no attributes or carries [ToQuery]. */
  predicate IsQueryParameter(p: ParameterModel)
  {
    |p.attributes| == 0 || "ToQueryAttribute" in p.attributes
  }

  /** A parameter travels in the request body when it carries [ToBody]. */
  predicate IsBodyParameter(p: ParameterModel)
  {
    "ToBodyAttribute" in p.attributes
  }

  /** The parameters that satisfy `keep`, in their original order. */
  function Filter(ps: seq<ParameterModel>, keep: ParameterModel -> bool): (r: seq<ParameterModel>)
    ensures |r| <= |ps|
    ensures forall p :: p in r <==> p in ps && keep(p)
  {
    if |ps| == 0 then []
    else Filter(ps[..|ps| - 1], keep) + (if keep(ps[|ps| - 1]) then [ps[|ps| - 1]] else [])
  }

  function QueryParameters(ps: seq<ParameterModel>): seq<ParameterModel>
  {
    Filter(ps, IsQueryParameter)
  }

  function BodyParameters(ps: seq<ParameterModel>): seq<ParameterModel>
  {
    Filter(ps, IsBodyParameter)
  }

  /** The names of the parameters, in order. */
  function Names(ps: seq<ParameterModel>): (r: seq<string>)
    ensures |r| == |ps|
    ensures forall i :: 0 <= i < |ps| ==> r[i] == ps[i].name
  {
    if |ps| == 0 then [] else Names(ps[..|ps| - 1]) + [ps[|ps| - 1].name]
  }

  /** A parameter without attributes goes to the query and never to the body. */
  lemma PlainParameterIsQuery(p: ParameterModel)
    requires |p.attributes| == 0
    ensures IsQueryParameter(p) && !IsBodyParameter(p)
  {
  }

  // ----- Braces -----

  /** What AppendOpenKey writes: an opening brace, and a line break when asked for. */
  function OpenKeyText(appendLine: bool): string
  {
    "{" + (if appendLine then NewLine else "")
  }

  /** What AppendClosedKey writes once the level is `level`: indentation, a closing brace, and a line break when asked for. */
  function ClosedKeyText(level: nat, appendLine: bool): string
  {
    Indentation(level) + "}" + (if appendLine then NewLine else "")
  }

  /** Indentation holds no line break. */
  lemma IndentationIsBlank(level: nat)
    ensures '\n' !in Indentation(level)
  {
  }

  /** An opening brace written with a line break is one line; without it, none. */
  lemma OpenKeyLines(appendLine: bool)
    ensures LineCount(OpenKeyText(appendLine)) == if appendLine then 1 else 0
  {
    if appendLine {
      OneLine("{");
    } else {
      assert OpenKeyText(appendLine) == "{";
    }
  }

  /** A closing brace written with a line break is one line; without it, none. */
  lemma ClosedKeyLines(level: nat, appendLine: bool)
    ensures LineCount(ClosedKeyText(level, appendLine)) == if appendLine then 1 else 0
  {
    var body := Indentation(level) + "}";
    assert '\n' !in body by {
      IndentationIsBlank(level);
    }
    if appendLine {
      OneLine(body);
    } else {
      assert ClosedKeyText(level, appendLine) == body;
      assert '\n' !in multiset(body);
    }
  }

  // ----- Anonymous objects -----

  /** One member line of an anonymous object at nesting level `level`. */
  function AnonymousFieldLine(level: nat): string -> string
  {
    field => Indentation(level) + field + "," + NewLine
  }

  /**
   * `new` and a line break, then at `level` an opening brace, one member line per
   * field one level deeper, and at `level` the closing brace (no line break after it).
   */
  function AnonymousText(level: nat, fields: seq<string>): string
  {
    "new" + NewLine + Indentation(level) + OpenKeyText(true) + Lines(fields, AnonymousFieldLine(level + 1)) + ClosedKeyText(level, false)
  }

  /** A member line is one line when the member holds no line break. */
  lemma AnonymousFieldIsOneLine(level: nat, field: string)
    requires '\n' !in field
    ensures LineCount(AnonymousFieldLine(level)(field)) == 1
  {
    var body := Indentation(level) + field + ",";
    assert '\n' !in body by {
      IndentationIsBlank(level);
      assert '\n' !in ",";
    }
    OneLine(body);
  }

  /** `new`, its line break, the indentation and the opening brace with its line break: two lines. */
  lemma AnonymousHeadLines(level: nat)
    ensures LineCount("new" + NewLine + Indentation(level) + OpenKeyText(true)) == 2
  {
    var a := "new" + NewLine;
    var b := Indentation(level);
    assert LineCount(a) == 1 by {
      OneLine("new");
    }
    assert LineCount(b) == 0 by {
      IndentationIsBlank(level);
      assert '\n' !in multiset(b);
    }
    OpenKeyLines(true);
    LineCountAppend(a, b);
    LineCountAppend(a + b, OpenKeyText(true));
  }

  /** The member lines of an anonymous object: one per field when no field holds a line break. */
  lemma AnonymousFieldsLines(level: nat, fields: seq<string>)
    requires forall f :: f in fields ==> '\n' !in f
    ensures LineCount(Lines(fields, AnonymousFieldLine(level))) == |fields|
  {
    forall f | f in fields
      ensures LineCount(AnonymousFieldLine(level)(f)) == 1
    {
      AnonymousFieldIsOneLine(level, f);
    }
    LinesCount(fields, AnonymousFieldLine(level));
  }

  /** An anonymous object spans one line for `new`, one for the opening brace, and one per field. */
  lemma AnonymousTextLines(level: nat, fields: seq<string>)
    requires forall f :: f in fields ==> '\n' !in f
    ensures LineCount(AnonymousText(level, fields)) == 2 + |fields|
  {
    var head := "new" + NewLine + Indentation(level) + OpenKeyText(true);
    var body := Lines(fields, AnonymousFieldLine(level + 1));
    AnonymousHeadLines(level);
    AnonymousFieldsLines(level + 1, fields);
    ClosedKeyLines(level, false);
    LineCountAppend(head, body);
    LineCountAppend(head + body, ClosedKeyText(level, false));
  }

  // ----- The service call -----

  /** The query argument of the call: the declared `qParams`, or `null` when there are no query parameters. */
  function QueryArgument(m: MethodModel): string
  {
    if |QueryParameters(m.parameters)| > 0 then "qParams" else "null"
  }

  /** The body argument of a POST call: the declared `bParams`, or `null` when there are no body parameters. */
  function BodyArgument(m: MethodModel): string
  {
    if m.httpMethod == Post && |BodyParameters(m.parameters)| > 0 then "bParams" else "null"
  }

  /** The arguments passed to the client service: factory key, route, query, and for POST the body. */
  function CallArguments(className: string, m: MethodModel): seq<string>
  {
    ["\"" + className + "\"", "route", QueryArgument(m)] + (if m.httpMethod == Post then [BodyArgument(m)] else [])
  }

  /** Only POST calls get a fourth argument; every other verb gets exactly three. */
  lemma CallArgumentCount(className: string, m: MethodModel)
    ensures |CallArguments(className, m)| == 4 <==> m.httpMethod == Post
    ensures |CallArguments(className, m)| == 3 <==> m.httpMethod != Post
    ensures CallArguments(className, m)[..2] == ["\"" + className + "\"", "route"]
  {
  }

  /** The query argument is `qParams` exactly when some parameter goes to the query, and `null` otherwise. */
  lemma QueryArgumentIff(className: string, m: MethodModel)
    ensures CallArguments(className, m)[2] == "qParams" <==> exists p :: p in m.parameters && IsQueryParameter(p)
    ensures CallArguments(className, m)[2] == "null" <==> !exists p :: p in m.parameters && IsQueryParameter(p)
  {
    var qs := QueryParameters(m.parameters);
    if |qs| > 0 {
      assert qs[0] in qs;
    }
    if exists p :: p in m.parameters && IsQueryParameter(p) {
      var p :| p in m.parameters && IsQueryParameter(p);
      assert p in qs;
    }
  }

  /** A POST call's fourth argument is `bParams` exactly when some parameter goes to the body. */
  lemma BodyArgumentIff(className: string, m: MethodModel)
    requires m.httpMethod == Post
    ensures CallArguments(className, m)[3] == "bParams" <==> exists p :: p in m.parameters && IsBodyParameter(p)
    ensures CallArguments(className, m)[3] == "null" <==> !exists p :: p in m.parameters && IsBodyParameter(p)
  {
    var bs := BodyParameters(m.parameters);
    if |bs| > 0 {
      assert bs[0] in bs;
    }
    if exists p :: p in m.parameters && IsBodyParameter(p) {
      var p :| p in m.parameters && IsBodyParameter(p);
      assert p in bs;
    }
  }

  /** The check the source performs: the return type's display text ends in '?'. */
  predicate NullableResultAsWritten(m: MethodModel)
    requires |m.returnType| > 0
  {
    m.returnType[|m.returnType| - 1] == '?'
  }

  /** The check the call needs: the awaited result type T of Task<T> ends in '?'. */
  predicate NullableResult(m: MethodModel)
  {
    |m.returnTypeGenericArgument| > 0 && m.returnTypeGenericArgument[|m.returnTypeGenericArgument| - 1] == '?'
  }

  /**
   * A method returning Task<T> has the display text "System.Threading.Tasks.Task<T>", which
   * ends in '>': the check as written never holds for it, whatever T is.
   */
  lemma NullableAsWrittenNeverHolds(m: MethodModel)
    requires m.returnType == "System.Threading.Tasks.Task<" + m.returnTypeGenericArgument + ">"
    ensures !NullableResultAsWritten(m)
  {
  }

  /** GetTodoAsync of the sample API returns Task<Todo?>: the result is nullable, the check as written says no. */
  lemma NullableTodoCounterexample()
    ensures var m := MethodModel("GetTodoAsync", "System.Threading.Tasks.Task<HttpButler.TestApi.Services.Todo?>",
                                 "HttpButler.TestApi.Services.Todo?", true, "todos/{todoId}", Get,
                                 [ParameterModel("todoId", "int", [], false, None)]);
            NullableResult(m) && !NullableResultAsWritten(m)
  {
    var returnType := "System.Threading.Tasks.Task<HttpButler.TestApi.Services.Todo?>";
    var arg := "HttpButler.TestApi.Services.Todo?";
    assert returnType[|returnType| - 1] == '>';
    assert arg[|arg| - 1] == '?';
  }

  /** The client service method called: the verb, with "WithNullableResult" for a nullable Task<T> result. */
  function CalledMethod(m: MethodModel): string
  {
    MethodName(m.httpMethod) + (if m.isGenericTask && NullableResult(m) then "WithNullableResult" else "")
  }

  /**
   * For a Task<T> method the nullable-result variant is called exactly when T ends in '?',
   * and for a plain Task method never; either way the verb is kept.
   */
  lemma CalledMethodIff(m: MethodModel)
    ensures CalledMethod(m) == MethodName(m.httpMethod) + "WithNullableResult" <==> m.isGenericTask && NullableResult(m)
    ensures CalledMethod(m)[..|MethodName(m.httpMethod)|] == MethodName(m.httpMethod)
  {
    var v := MethodName(m.httpMethod);
    if CalledMethod(m) == v + "WithNullableResult" {
      assert |CalledMethod(m)| > |v|;
    }
  }

  /** What follows the verb in a Task<T> call: the nullable-result suffix if any, and the opening angle bracket. */
  function TypeArgumentOpen(m: MethodModel): string
  {
    if NullableResult(m) then "WithNullableResult<" else "<"
  }

  /**
   * The call up to the factory key's opening quote: Task<T> methods return the awaited
   * result of the typed call, plain Task methods only await.
   */
  function CallHead(m: MethodModel): string
  {
    if m.isGenericTask then
      "return await _httpClientService." + MethodName(m.httpMethod) + TypeArgumentOpen(m) + m.returnTypeGenericArgument + ">(\""
    else
      "await _httpClientService." + MethodName(m.httpMethod) + "(\""
  }

  /** The call head as the source writes it: the variant is chosen by the return type's last character. */
  function CallHeadAsWritten(m: MethodModel): (r: string)
    requires |m.returnType| > 0
    ensures var n := |"return await _httpClientService." + MethodName(m.httpMethod)|;
            m.isGenericTask ==> |r| > n && (r[n] == 'W' <==> m.returnType[|m.returnType| - 1] == '?')
    ensures !m.isGenericTask ==>
              |r| > |"await _httpClientService."| && r[..|"await _httpClientService."|] == "await _httpClientService."
              && '<' !in r
  {
    var verb := MethodName(m.httpMethod);
    if m.isGenericTask then
      var head := "return await _httpClientService." + verb;
      var open := if NullableResultAsWritten(m) then "WithNullableResult<" else "<";
      assert (head + open + m.returnTypeGenericArgument + ">(\"")[|head|] == open[0];
      head + open + m.returnTypeGenericArgument + ">(\""
    else
      var head := "await _httpClientService.";
      assert '<' !in head && '<' !in verb && '<' !in "(\"";
      head + verb + "(\""
  }

  /**
   * The builder writes the source's call head except where the two nullable tests disagree
   * on a Task<T> method: there, and only there, it departs from the source.
   */
  lemma CallHeadAsWrittenIff(m: MethodModel)
    requires |m.returnType| > 0
    ensures CallHead(m) == CallHeadAsWritten(m) <==> !m.isGenericTask || NullableResultAsWritten(m) == NullableResult(m)
  {
    if m.isGenericTask && NullableResultAsWritten(m) != NullableResult(m) {
      var n := |"return await _httpClientService." + MethodName(m.httpMethod)|;
      assert CallHead(m)[n] != CallHeadAsWritten(m)[n];
    }
  }

  /** The call head names the called method, with `<T>` exactly for Task<T> methods. */
  lemma CallHeadNamesCalledMethod(m: MethodModel)
    ensures m.isGenericTask ==>
              CallHead(m) == "return await _httpClientService." + CalledMethod(m) + "<" + m.returnTypeGenericArgument + ">(\""
    ensures !m.isGenericTask ==> CallHead(m) == "await _httpClientService." + CalledMethod(m) + "(\""
  {
    var v := MethodName(m.httpMethod);
    if m.isGenericTask && NullableResult(m) {
      assert "WithNullableResult<" == "WithNullableResult" + "<";
      assert v + "WithNullableResult<" == v + "WithNullableResult" + "<";
    } else {
      assert v + "" == v;
    }
  }

  /** What follows the query argument: `, ` and the body argument for POST, nothing otherwise. */
  function BodyArgumentText(m: MethodModel): string
  {
    if m.httpMethod == Post then ", " + BodyArgument(m) else ""
  }

  /** Three texts joined. */
  lemma JoinThree(a: string, b: string, c: string, sep: string)
    ensures Join([a, b, c], sep) == a + sep + b + sep + c
  {
    assert [a, b, c][1..] == [b, c];
    assert [b, c][1..] == [c];
  }

  /** Four texts joined. */
  lemma JoinFour(a: string, b: string, c: string, d: string, sep: string)
    ensures Join([a, b, c, d], sep) == a + sep + b + sep + c + sep + d
  {
    assert [a, b, c, d][1..] == [b, c, d];
    JoinThree(b, c, d, sep);
  }

  /** The arguments as the builder writes them, from the factory key's opening quote on, are the call arguments joined by ", ". */
  lemma ArgumentsWritten(className: string, m: MethodModel)
    ensures "\"" + className + "\", route, " + QueryArgument(m) + BodyArgumentText(m)
            == Join(CallArguments(className, m), ", ")
  {
    var key := "\"" + className + "\"";
    var q := QueryArgument(m);
    assert "\"" + className + "\", route, " == key + ", " + "route" + ", " by {
      assert "\", route, " == "\"" + ", " + "route" + ", ";
    }
    if m.httpMethod == Post {
      assert CallArguments(className, m) == [key, "route", q, BodyArgument(m)];
      JoinFour(key, "route", q, BodyArgument(m), ", ");
    } else {
      assert CallArguments(className, m) == [key, "route", q];
      JoinThree(key, "route", q, ", ");
    }
  }

  // ----- A generated method -----

  /** `const string route = "...";` at `level`, the route copied as it is. */
  function RouteText(level: nat, m: MethodModel): string
  {
    Indentation(level) + "const string route = \"" + m.route + "\";" + NewLine
  }

  /** The `qParams` declaration at `level` when there are query parameters, nothing otherwise. */
  function QueryText(level: nat, m: MethodModel): string
  {
    var qs := QueryParameters(m.parameters);
    if |qs| > 0 then Indentation(level) + "var qParams = " + AnonymousText(level, Names(qs)) + ";" + NewLine else ""
  }

  /** What `bParams` holds: the single body parameter by name, several wrapped in an anonymous object. */
  function BodyValueText(level: nat, bs: seq<ParameterModel>): string
    requires |bs| > 0
  {
    if |bs| == 1 then bs[0].name else AnonymousText(level, Names(bs))
  }

  /** The `bParams` declaration at `level` for a POST with body parameters, nothing otherwise. */
  function BodyText(level: nat, m: MethodModel): string
  {
    var bs := BodyParameters(m.parameters);
    if m.httpMethod == Post && |bs| > 0 then Indentation(level) + "object bParams = " + BodyValueText(level, bs) + ";" + NewLine
    else ""
  }

  /** The call statement at `level`. */
  function CallText(level: nat, className: string, m: MethodModel): string
  {
    Indentation(level) + CallHead(m) + className + "\", route, " + QueryArgument(m) + BodyArgumentText(m) + ");" + NewLine
  }

  /** `qParams` is declared exactly when some parameter goes to the query. */
  lemma QueryDeclaredIff(level: nat, m: MethodModel)
    ensures QueryText(level, m) != "" <==> exists p :: p in m.parameters && IsQueryParameter(p)
  {
    var qs := QueryParameters(m.parameters);
    if |qs| > 0 {
      assert qs[0] in qs;
    }
    if exists p :: p in m.parameters && IsQueryParameter(p) {
      var p :| p in m.parameters && IsQueryParameter(p);
      assert p in qs;
    }
  }

  /** `bParams` is declared exactly for a POST with some parameter going to the body. */
  lemma BodyDeclaredIff(level: nat, m: MethodModel)
    ensures BodyText(level, m) != "" <==> m.httpMethod == Post && exists p :: p in m.parameters && IsBodyParameter(p)
  {
    var bs := BodyParameters(m.parameters);
    if |bs| > 0 {
      assert bs[0] in bs;
    }
    if exists p :: p in m.parameters && IsBodyParameter(p) {
      var p :| p in m.parameters && IsBodyParameter(p);
      assert p in bs;
    }
  }

  /** A lone body parameter is passed as it is; several are wrapped in one anonymous object. */
  lemma BodyValueShape(level: nat, bs: seq<ParameterModel>)
    requires |bs| > 0
    ensures |bs| == 1 ==> BodyValueText(level, bs) == bs[0].name
    ensures |bs| > 1 ==> BodyValueText(level, bs)[..3] == "new"
  {
  }

  /**
   * The generated method: signature, opening brace at `level`, then one level deeper the
   * route, the query and body declarations and the call, then the closing brace and a blank line.
   */
  function MethodText(className: string, m: MethodModel, level: nat): string
  {
    MethodSignatureText(m) + Indentation(level) + OpenKeyText(true)
    + RouteText(level + 1, m) + QueryText(level + 1, m) + BodyText(level + 1, m) + CallText(level + 1, className, m)
    + ClosedKeyText(level, true) + NewLine
  }

  /** The methods of a class, each rendered at `level`. */
  function MethodTextOf(className: string, level: nat): MethodModel -> string
  {
    m => MethodText(className, m, level)
  }

  /** The class up to its members: nullable context, namespace and declaration, each followed by a blank line, and the opening brace. */
  function ClassHeadText(iface: InterfaceModel): string
  {
    NullableContextText() + NewLine + NamespaceText(iface) + NewLine + ClassDeclarationText(iface) + OpenKeyText(true) + NewLine
  }

  /**
   * The generated class: its head, then the fields, the constructor and the methods one
   * level deeper than `level`, and the closing brace at `level`.
   */
  function ClassText(iface: InterfaceModel, level: nat): string
  {
    ClassHeadText(iface) + FieldsText(iface.fields) + NewLine + ConstructorText(iface) + NewLine
    + Lines(iface.methods, MethodTextOf(iface.className, level + 1)) + ClosedKeyText(level, true)
  }

  // ----- Writing order (concatenation plumbing) -----
  // The *Pieces lemmas restate a sequence of appends, with its intermediate texts c1, c2, ...,
  // as one rendered text. They have no counterpart in the generator and only serve the proofs.

  /** The pieces of the route declaration in writing order. */
  lemma RoutePieces(before: string, level: nat, m: MethodModel)
    ensures before + Indentation(level) + "const string route = \"" + m.route + "\";" + NewLine
            == before + RouteText(level, m)
  {
  }

  /** The pieces of a non-empty query declaration in writing order. */
  lemma QueryPieces(before: string, level: nat, m: MethodModel)
    requires |QueryParameters(m.parameters)| > 0
    ensures before + Indentation(level) + "var qParams = " + AnonymousText(level, Names(QueryParameters(m.parameters)))
            + ";" + NewLine == before + QueryText(level, m)
  {
  }

  /** The pieces of a non-empty body declaration in writing order. */
  lemma BodyPieces(before: string, level: nat, m: MethodModel)
    requires m.httpMethod == Post && |BodyParameters(m.parameters)| > 0
    ensures before + Indentation(level) + "object bParams = " + BodyValueText(level, BodyParameters(m.parameters))
            + ";" + NewLine == before + BodyText(level, m)
  {
  }

  /** The pieces of a call statement in writing order. */
  lemma CallPieces(before: string, c1: string, c2: string, c3: string, c4: string, c5: string, c6: string,
                   after: string, level: nat, className: string, m: MethodModel,
                   head: string, queryArgument: string, bodyArgument: string)
    requires head == CallHead(m)
    requires queryArgument == QueryArgument(m)
    requires bodyArgument == BodyArgumentText(m)
    requires c1 == before + Indentation(level)
    requires c2 == c1 + head
    requires c3 == c2 + className
    requires c4 == c3 + "\", route, "
    requires c5 == c4 + queryArgument
    requires c6 == c5 + bodyArgument
    requires after == c6 + ");" + NewLine
    ensures after == before + CallText(level, className, m)
  {
    Prepend8(before, Indentation(level), CallHead(m), className, "\", route, ", QueryArgument(m), BodyArgumentText(m),
             ");", NewLine);
  }

  /** The pieces of an anonymous object in writing order. */
  lemma AnonymousPieces(before: string, afterOpen: string, afterFields: string, after: string,
                        fields: seq<string>, level: nat, inner: nat)
    requires inner == level + 1
    requires afterOpen == before + "new" + NewLine + Indentation(level) + OpenKeyText(true)
    requires afterFields == afterOpen + Lines(fields, AnonymousFieldLine(inner))
    requires after == afterFields + ClosedKeyText(level, false)
    ensures after == before + AnonymousText(level, fields)
  {
    Prepend6(before, "new", NewLine, Indentation(level), OpenKeyText(true),
             Lines(fields, AnonymousFieldLine(level + 1)), ClosedKeyText(level, false));
  }

  /** The sections of a generated method in writing order. */
  lemma MethodPieces(before: string, afterOpen: string, afterCall: string, after: string,
                     className: string, m: MethodModel, level: nat, inner: nat)
    requires inner == level + 1
    requires afterOpen == before + MethodSignatureText(m) + Indentation(level) + OpenKeyText(true)
    requires afterCall == afterOpen + RouteText(inner, m) + QueryText(inner, m) + BodyText(inner, m) + CallText(inner, className, m)
    requires after == afterCall + ClosedKeyText(level, true) + NewLine
    ensures after == before + MethodText(className, m, level)
  {
    Prepend9(before, MethodSignatureText(m), Indentation(level), OpenKeyText(true), RouteText(level + 1, m),
             QueryText(level + 1, m), BodyText(level + 1, m), CallText(level + 1, className, m),
             ClosedKeyText(level, true), NewLine);
  }

  /** The sections of a generated class in writing order. */
  lemma ClassPieces(before: string, afterHead: string, afterMethods: string, after: string,
                    iface: InterfaceModel, level: nat, inner: nat)
    requires inner == level + 1
    requires afterHead == before + ClassHeadText(iface) + FieldsText(iface.fields) + NewLine + ConstructorText(iface) + NewLine
    requires afterMethods == afterHead + Lines(iface.methods, MethodTextOf(iface.className, inner))
    requires after == afterMethods + ClosedKeyText(level, true)
    ensures after == before + ClassText(iface, level)
  {
    Prepend7(before, ClassHeadText(iface), FieldsText(iface.fields), NewLine, ConstructorText(iface), NewLine,
             Lines(iface.methods, MethodTextOf(iface.className, level + 1)), ClosedKeyText(level, true));
  }

  /** The head of a generated class in writing order. */
  lemma ClassHeadPieces(before: string, iface: InterfaceModel)
    ensures before + NullableContextText() + NewLine + NamespaceText(iface) + NewLine + ClassDeclarationText(iface)
            + OpenKeyText(true) + NewLine
            == before + ClassHeadText(iface)
  {
    Prepend7(before, NullableContextText(), NewLine, NamespaceText(iface), NewLine, ClassDeclarationText(iface),
             OpenKeyText(true), NewLine);
  }

  // ----- The builder -----

  /** A class builder: the interface it implements, the text written so far and the current nesting level. */
  class ClassBuilder {
    var identLevel: nat
    const stringBuilder: StringBuilder
    const ifaceModel: InterfaceModel

    constructor(ifaceModel: InterfaceModel)
      ensures this.ifaceModel == ifaceModel && identLevel == 0
      ensures fresh(stringBuilder) && stringBuilder.content == ""
    {
      this.ifaceModel := ifaceModel;
      identLevel := 0;
      stringBuilder := new StringBuilder();
    }

    /** An opening brace, and one level deeper. */
    method AppendOpenKey(appendLine: bool)
      modifies this, stringBuilder
      ensures identLevel == old(identLevel) + 1
      ensures stringBuilder.content == old(stringBuilder.content) + OpenKeyText(appendLine)
    {
      if appendLine {
        stringBuilder.AppendLine("{");
      } else {
        stringBuilder.Append("{");
      }
      identLevel := identLevel + 1;
    }

    /** One level shallower, then a closing brace indented at the new level. */
    method AppendClosedKey(appendLine: bool)
      requires identLevel >= 1
      modifies this, stringBuilder
      ensures identLevel == old(identLevel) - 1
      ensures stringBuilder.content == old(stringBuilder.content) + ClosedKeyText(identLevel, appendLine)
    {
      identLevel := identLevel - 1;
      ghost var before := stringBuilder.content;
      AppendIdentation(stringBuilder, identLevel);
      if appendLine {
        stringBuilder.AppendLine("}");
      } else {
        stringBuilder.Append("}");
      }
      Associative(before, Indentation(identLevel) + "}", if appendLine then NewLine else "");
    }

    /** An anonymous object holding `fields`, written at the current level, which it leaves unchanged. */
    method AppendAnonymous(fields: seq<string>)
      modifies this, stringBuilder
      ensures identLevel == old(identLevel)
      ensures stringBuilder.content == old(stringBuilder.content) + AnonymousText(identLevel, fields)
    {
      ghost var level := identLevel;
      stringBuilder.AppendLine("new");
      AppendIdentation(stringBuilder, identLevel);
      AppendOpenKey(true);
      ghost var head := stringBuilder.content;
      ghost var inner := identLevel;
      var i := 0;
      while i < |fields|
        invariant 0 <= i <= |fields|
        invariant identLevel == inner
        invariant stringBuilder.content == head + Lines(fields[..i], AnonymousFieldLine(inner))
      {
        ghost var before := stringBuilder.content;
        AppendIdentation(stringBuilder, identLevel);
        stringBuilder.Append(fields[i]);
        stringBuilder.AppendLine(",");
        Prepend4(before, Indentation(inner), fields[i], ",", NewLine);
        LinesSnoc(fields, i, AnonymousFieldLine(inner));
        Associative(head, Lines(fields[..i], AnonymousFieldLine(inner)), AnonymousFieldLine(inner)(fields[i]));
        i := i + 1;
      }
      assert fields[..i] == fields;
      ghost var body := stringBuilder.content;
      AppendClosedKey(false);
      AnonymousPieces(old(stringBuilder.content), head, body, stringBuilder.content, fields, level, inner);
    }

    /** The route constant at the current level. */
    method AppendRoute(m: MethodModel)
      modifies stringBuilder
      ensures stringBuilder.content == old(stringBuilder.content) + RouteText(identLevel, m)
    {
      RoutePieces(stringBuilder.content, identLevel, m);
      AppendIdentation(stringBuilder, identLevel);
      stringBuilder.Append("const string route = \"");
      stringBuilder.Append(m.route);
      stringBuilder.AppendLine("\";");
    }

    /** The query declaration section, written only when there are query parameters. */
    method AppendQueryParams(m: MethodModel)
      modifies this, stringBuilder
      ensures identLevel == old(identLevel)
      ensures stringBuilder.content == old(stringBuilder.content) + QueryText(identLevel, m)
    {
      var queryParams := QueryParameters(m.parameters);
      var hasQueryParams := |queryParams| > 0;
      if hasQueryParams {
        QueryPieces(stringBuilder.content, identLevel, m);
        AppendIdentation(stringBuilder, identLevel);
        stringBuilder.Append("var qParams = ");
        AppendAnonymous(Names(queryParams));
        stringBuilder.AppendLine(";");
      } else {
        assert stringBuilder.content + "" == stringBuilder.content;
      }
    }

    /** The body declaration section, written only for a POST with body parameters. */
    method AppendBodyParams(m: MethodModel) returns (hasBodyParams: bool)
      modifies this, stringBuilder
      ensures identLevel == old(identLevel)
      ensures hasBodyParams <==> m.httpMethod == Post && |BodyParameters(m.parameters)| > 0
      ensures stringBuilder.content == old(stringBuilder.content) + BodyText(identLevel, m)
    {
      var acceptBodyParams := m.httpMethod == Post;
      hasBodyParams := false;
      if acceptBodyParams {
        var bodyParams := BodyParameters(m.parameters);
        hasBodyParams := |bodyParams| > 0;
        if hasBodyParams {
          BodyPieces(stringBuilder.content, identLevel, m);
          AppendIdentation(stringBuilder, identLevel);
          stringBuilder.Append("object bParams = ");
          if |bodyParams| == 1 {
            stringBuilder.Append(bodyParams[0].name);
          } else {
            AppendAnonymous(Names(bodyParams));
          }
          stringBuilder.AppendLine(";");
        }
      }
      if !hasBodyParams {
        assert stringBuilder.content + "" == stringBuilder.content;
      }
    }

    /** The call statement at the current level. */
    method AppendCall(m: MethodModel, hasQueryParams: bool, hasBodyParams: bool)
      requires hasQueryParams <==> |QueryParameters(m.parameters)| > 0
      requires hasBodyParams <==> m.httpMethod == Post && |BodyParameters(m.parameters)| > 0
      modifies stringBuilder
      ensures stringBuilder.content == old(stringBuilder.content) + CallText(old(identLevel), ifaceModel.className, m)
    {
      ghost var before := stringBuilder.content;
      ghost var level := identLevel;
      AppendIdentation(stringBuilder, identLevel);
      ghost var c1 := stringBuilder.content;
      var head: string;
      if m.isGenericTask {
        var typeArgumentOpen := if NullableResult(m) then "WithNullableResult<" else "<";
        head := "return await _httpClientService." + MethodName(m.httpMethod) + typeArgumentOpen
                + m.returnTypeGenericArgument + ">(\"";
      } else {
        head := "await _httpClientService." + MethodName(m.httpMethod) + "(\"";
      }
      assert head == CallHead(m);
      stringBuilder.Append(head);
      ghost var c2 := stringBuilder.content;
      stringBuilder.Append(ifaceModel.className);
      ghost var c3 := stringBuilder.content;
      stringBuilder.Append("\", route, ");
      ghost var c4 := stringBuilder.content;
      var queryArgument := if hasQueryParams then "qParams" else "null";
      assert queryArgument == QueryArgument(m);
      stringBuilder.Append(queryArgument);
      ghost var c5 := stringBuilder.content;
      var acceptBodyParams := m.httpMethod == Post;
      var bodyArgument := "";
      if acceptBodyParams {
        bodyArgument := ", " + if hasBodyParams then "bParams" else "null";
        assert bodyArgument == BodyArgumentText(m);
        stringBuilder.Append(bodyArgument);
      } else {
        AppendNothing(c5);
      }
      ghost var c6 := stringBuilder.content;
      stringBuilder.AppendLine(");");
      CallPieces(before, c1, c2, c3, c4, c5, c6, stringBuilder.content, level, ifaceModel.className, m,
                 head, queryArgument, bodyArgument);
    }

    /** One interface method: signature, braced body one level deeper, and a blank line; the level is restored. */
    method BuildMethod(m: MethodModel)
      modifies this, stringBuilder
      ensures identLevel == old(identLevel)
      ensures stringBuilder.content == old(stringBuilder.content) + MethodText(ifaceModel.className, m, identLevel)
    {
      ghost var c0 := stringBuilder.content;
      ghost var level := identLevel;
      AppendMethod(stringBuilder, m);
      AppendIdentation(stringBuilder, identLevel);
      AppendOpenKey(true);
      ghost var c1 := stringBuilder.content;
      ghost var inner := identLevel;

      AppendRoute(m);
      var hasQueryParams := |QueryParameters(m.parameters)| > 0;
      AppendQueryParams(m);
      var hasBodyParams := AppendBodyParams(m);
      AppendCall(m, hasQueryParams, hasBodyParams);
      ghost var c2 := stringBuilder.content;

      AppendClosedKey(true);
      stringBuilder.AppendEmptyLine();
      MethodPieces(c0, c1, c2, stringBuilder.content, ifaceModel.className, m, level, inner);
    }

    /** The class up to its methods: head, fields and constructor, each followed by a blank line; one level deeper. */
    method AppendClassHead()
      modifies this, stringBuilder
      ensures identLevel == old(identLevel) + 1
      ensures stringBuilder.content == old(stringBuilder.content) + ClassHeadText(ifaceModel) + FieldsText(ifaceModel.fields)
                                       + NewLine + ConstructorText(ifaceModel) + NewLine
    {
      ClassHeadPieces(stringBuilder.content, ifaceModel);
      AppendNullableContext(stringBuilder);
      stringBuilder.AppendEmptyLine();
      AppendNamespace(stringBuilder, ifaceModel);
      stringBuilder.AppendEmptyLine();
      AppendClassDeclaration(stringBuilder, ifaceModel);
      AppendOpenKey(true);
      stringBuilder.AppendEmptyLine();
      AppendFieldDeclaration(stringBuilder, ifaceModel);
      stringBuilder.AppendEmptyLine();
      AppendClassConstructor(stringBuilder, ifaceModel);
      stringBuilder.AppendEmptyLine();
    }

    /** Every interface method in order, each at the current level, which is left unchanged. */
    method BuildMethods()
      modifies this, stringBuilder
      ensures identLevel == old(identLevel)
      ensures stringBuilder.content == old(stringBuilder.content) + Lines(ifaceModel.methods, MethodTextOf(ifaceModel.className, identLevel))
    {
      var methods := ifaceModel.methods;
      ghost var methodText := MethodTextOf(ifaceModel.className, identLevel);
      var i := 0;
      while i < |methods|
        invariant 0 <= i <= |methods|
        invariant identLevel == old(identLevel)
        invariant stringBuilder.content == old(stringBuilder.content) + Lines(methods[..i], methodText)
      {
        BuildMethod(methods[i]);
        LinesSnoc(methods, i, methodText);
        Associative(old(stringBuilder.content), Lines(methods[..i], methodText), methodText(methods[i]));
        i := i + 1;
      }
      assert methods[..i] == methods;
    }

    /** The whole class; the nesting level ends where it started. */
    method BuildClass() returns (r: string)
      modifies this, stringBuilder
      ensures identLevel == old(identLevel)
      ensures r == stringBuilder.content
      ensures r == old(stringBuilder.content) + ClassText(ifaceModel, old(identLevel))
    {
      ghost var before := stringBuilder.content;
      ghost var level := identLevel;
      AppendClassHead();
      ghost var afterHead := stringBuilder.content;
      ghost var inner := identLevel;
      BuildMethods();
      ghost var afterMethods := stringBuilder.content;
      AppendClosedKey(true);
      r := stringBuilder.content;
      ClassPieces(before, afterHead, afterMethods, r, ifaceModel, level, inner);
    }
  }

  /** A new builder's class text is the class rendered from nesting level 0. */
  method Generate(ifaceModel: InterfaceModel) returns (source: string)
    ensures source == ClassText(ifaceModel, 0)
  {
    var builder := new ClassBuilder(ifaceModel);
    source := builder.BuildClass();
  }
}
