/**
 * The records the source generator extracts from an interface marked [HttpButler]
 * and hands to the class builder.
 */
module InterfaceModel {
  import opened Wrappers

  /** The HTTP verb of an interface method, taken from its HttpGet/HttpPost/HttpPut/HttpDelete attribute. */
  datatype HttpMethod = Get | Post | Put | Delete

  /** The enum member's name, as `HttpMethod.ToString()` writes it. */
  function MethodName(m: HttpMethod): string
  {
    match m
    case Get => "Get"
    case Post => "Post"
    case Put => "Put"
    case Delete => "Delete"
  }

  /**
   * The verb named by an attribute class name "Http<Verb>Attribute": the text between
   * the first four and the last nine characters, parsed as an enum member name.
   * Shorter names make the substring call throw, so they are excluded.
   */
  function ParseHttpMethod(attributeName: string): (r: Option<HttpMethod>)
    requires |attributeName| >= 13
    ensures r.Some? ==> attributeName[4..|attributeName| - 9] == MethodName(r.value)
    ensures r.None? ==> forall m: HttpMethod :: attributeName[4..|attributeName| - 9] != MethodName(m)
  {
    var verb := attributeName[4..|attributeName| - 9];
    if verb == "Get" then Some(Get)
    else if verb == "Post" then Some(Post)
    else if verb == "Put" then Some(Put)
    else if verb == "Delete" then Some(Delete)
    else None
  }

  /** Each verb attribute class name parses back to its verb. */
  lemma ParseAttributeName(m: HttpMethod)
    ensures ParseHttpMethod("Http" + MethodName(m) + "Attribute") == Some(m)
  {
    var name := "Http" + MethodName(m) + "Attribute";
    assert name[4..|name| - 9] == MethodName(m);
  }

  /**
   * A parameter of an interface method or of the generated constructor: its name,
   * its type as display text, the class names of its attributes and its default.
   */
  datatype ParameterModel = ParameterModel(
    name: string,
    typeName: string,
    attributes: seq<string>,
    hasExplicitDefaultValue: bool,
    explicitDefaultValue: Option<string>)

  /** A private field of the generated class. */
  datatype FieldModel = FieldModel(name: string, typeName: string)

  /** The generated constructor: its parameters and which parameter initialises which field. */
  datatype ClassConstructorModel = ClassConstructorModel(
    parameters: seq<ParameterModel>,
    paramFieldMappings: seq<(ParameterModel, FieldModel)>)

  /**
   * An interface method: its name, its return type as display text, the display text of
   * the argument of Task<T> (empty for a plain Task), whether it returns Task<T>, the route
   * template of its verb attribute, the verb and the parameters.
   */
  datatype MethodModel = MethodModel(
    name: string,
    returnType: string,
    returnTypeGenericArgument: string,
    isGenericTask: bool,
    route: string,
    httpMethod: HttpMethod,
    parameters: seq<ParameterModel>)

  /** An interface to implement: where the class goes, its name, and what it contains. */
  datatype InterfaceModel = InterfaceModel(
    namespace: string,
    name: string,
    className: string,
    methods: seq<MethodModel>,
    fields: seq<FieldModel>,
    classConstructor: ClassConstructorModel)
}
