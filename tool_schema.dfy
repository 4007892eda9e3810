/**
 * The OpenAI function-calling schema generator: a list of user functions is
 * turned into the ordered list of "tool" records that the chat completions
 * API accepts. A function becomes a tool when it carries the OpenAiTool
 * attribute; each of its parameters becomes one entry of a JSON-Schema-shaped
 * `parameters` object.
 *
 * The runtime reflection the program relies on (the list of user functions,
 * their attributes, parameter types and default values, the cases of a backed
 * enum) is replaced by explicit descriptors that the caller supplies.
 */
module ToolSchema {

  datatype Option<T> = None | Some(value: T)

  // ---------------------------------------------------------------------------
  // Input: what reflection reports about a function
  // ---------------------------------------------------------------------------

  /** A PHP value as it appears in a default or as the backing value of an enum
      case. Values that are neither strings, integers nor booleans (floats,
      arrays, constant expressions) are carried as their literal text. */
  datatype Value = Str(s: string) | Int(i: int) | Bool(b: bool) | Other(literal: string)

  /** One case of a backed enum: its name and its backing value. */
  datatype EnumCase = EnumCase(caseName: string, value: Value)

  /** The declared type of a parameter: none at all, a named type (its name as
      reflection reports it), or a backed enum with its cases in declaration order. */
  datatype TypeTag =
    | Untyped
    | Named(name: string)
    | Enum(enumName: string, cases: seq<EnumCase>)

  /** The default of a parameter as reflection sees it: the parameter is not
      optional, or its default value is null, a plain value, or an enum case. */
  datatype Default =
    | Absent
    | Null
    | Given(v: Value)
    | Case(c: EnumCase)

  datatype Parameter = Parameter(name: string, typ: TypeTag, defaultValue: Default)

  /** The OpenAiTool attribute and the description it is constructed with. */
  datatype OpenAiTool = OpenAiTool(description: string)

  /** A user function: its name, the OpenAiTool attribute if it carries one,
      and its parameters in declaration order. */
  datatype FunctionDecl = FunctionDecl(name: string, tool: Option<OpenAiTool>, parameters: seq<Parameter>)

  // ---------------------------------------------------------------------------
  // Output: the tool records
  // ---------------------------------------------------------------------------

  /** The schema of one parameter; `enumValues` and `defaultValue` stand for
      the optional `enum` and `default` keys. */
  datatype PropertySchema = PropertySchema(typeName: string, enumValues: Option<seq<Value>>, defaultValue: Option<Value>)

  /** One entry of the `properties` array, keyed by parameter name. */
  datatype Property = Property(name: string, schema: PropertySchema)

  datatype ParametersSchema = ParametersSchema(schemaType: string, properties: seq<Property>, required: seq<string>)

  datatype FunctionSchema = FunctionSchema(name: string, description: string, parameters: ParametersSchema)

  datatype Tool = Tool(toolType: string, functionSchema: FunctionSchema)

  // ---------------------------------------------------------------------------
  // The `properties` array: a PHP array used as an ordered map
  // ---------------------------------------------------------------------------

  /** The keys of the array, in insertion order. */
  function Keys(m: seq<Property>): (ks: seq<string>)
    ensures |ks| == |m|
  {
    if m == [] then [] else [m[0].name] + Keys(m[1..])
  }

  lemma {:induction false} KeysAt(m: seq<Property>, i: nat)
    requires i < |m|
    ensures Keys(m)[i] == m[i].name
  {
    if i > 0 {
      KeysAt(m[1..], i - 1);
    }
  }

  predicate UniqueKeys(m: seq<Property>) {
    forall i, j :: 0 <= i < j < |m| ==> m[i].name != m[j].name
  }

  /** `$m[$k]` on a PHP array: the value stored under key `k`, if any. */
  function Get(m: seq<Property>, k: string): (r: Option<PropertySchema>)
    ensures r.Some? <==> k in Keys(m)
  {
    if m == [] then None
    else if m[0].name == k then Some(m[0].schema)
    else Get(m[1..], k)
  }

  /** In an array with unique keys, reading an entry's key gives that entry's value. */
  lemma {:induction false} GetAt(m: seq<Property>, i: nat)
    requires UniqueKeys(m) && i < |m|
    ensures Get(m, m[i].name) == Some(m[i].schema)
  {
    if i > 0 {
      assert m[0].name != m[i].name;
      assert UniqueKeys(m[1..]) by {
        forall a, b | 0 <= a < b < |m| - 1 ensures m[1..][a].name != m[1..][b].name {
          assert m[1..][a] == m[a + 1] && m[1..][b] == m[b + 1];
        }
      }
      GetAt(m[1..], i - 1);
    }
  }

  /** `$m[$k] = $v` on a PHP array. A key not yet present is appended at the
      end; see PutKeys, PutKeepsOthers and PutGet for an existing key. */
  function Put(m: seq<Property>, k: string, v: PropertySchema): (r: seq<Property>)
    ensures k !in Keys(m) ==> r == m + [Property(k, v)]
  {
    if m == [] then [Property(k, v)]
    else if m[0].name == k then [Property(k, v)] + m[1..]
    else [m[0]] + Put(m[1..], k, v)
  }

  /** Storing keeps the order of the keys: an existing key stays where it
      was, a new key comes last. */
  lemma {:induction false} PutKeys(m: seq<Property>, k: string, v: PropertySchema)
    ensures Keys(Put(m, k, v)) == if k in Keys(m) then Keys(m) else Keys(m) + [k]
  {
    if m != [] {
      if m[0].name == k {
        assert Put(m, k, v)[1..] == m[1..];
      } else {
        PutKeys(m[1..], k, v);
        assert Put(m, k, v)[1..] == Put(m[1..], k, v);
      }
    }
  }

  /** Storing under `k` leaves every entry with another key in its place. */
  lemma {:induction false} PutKeepsOthers(m: seq<Property>, k: string, v: PropertySchema, i: nat)
    requires i < |m| && m[i].name != k
    ensures i < |Put(m, k, v)| && Put(m, k, v)[i] == m[i]
  {
    if i > 0 && m[0].name != k {
      PutKeepsOthers(m[1..], k, v, i - 1);
    }
  }

  /** After `$m[$k] = $v`, reading `k` gives `v` and reading any other key
      gives what it gave before. */
  lemma {:induction false} PutGet(m: seq<Property>, k: string, v: PropertySchema)
    ensures Get(Put(m, k, v), k) == Some(v)
    ensures forall k' :: k' != k ==> Get(Put(m, k, v), k') == Get(m, k')
  {
    if m != [] && m[0].name != k {
      PutGet(m[1..], k, v);
      assert Put(m, k, v)[1..] == Put(m[1..], k, v);
    }
  }

  /** Storing into an array with unique keys keeps its keys unique. */
  lemma PutUnique(m: seq<Property>, k: string, v: PropertySchema)
    requires UniqueKeys(m)
    ensures UniqueKeys(Put(m, k, v))
  {
    var r := Put(m, k, v);
    PutKeys(m, k, v);
    forall i, j | 0 <= i < j < |r| ensures r[i].name != r[j].name {
      KeysAt(r, i);
      KeysAt(r, j);
      KeysAt(m, i);
      if j < |m| {
        KeysAt(m, j);
      }
    }
  }

  // ---------------------------------------------------------------------------
  // Specification of the generated schema
  // ---------------------------------------------------------------------------

  /** A parameter is listed as required when it has no default or its default is null. */
  predicate IsRequired(p: Parameter) {
    p.defaultValue.Absent? || p.defaultValue.Null?
  }

  /** The parameter names, in declaration order. */
  function Names(ps: seq<Parameter>): (ns: seq<string>)
    ensures |ns| == |ps|
  {
    if ps == [] then [] else Names(ps[..|ps| - 1]) + [ps[|ps| - 1].name]
  }

  lemma {:induction false} NamesAt(ps: seq<Parameter>, i: nat)
    requires i < |ps|
    ensures Names(ps)[i] == ps[i].name
  {
    var n := |ps| - 1;
    if i < n {
      NamesAt(ps[..n], i);
    }
  }

  predicate DistinctNames(ps: seq<Parameter>) {
    forall i, j :: 0 <= i < j < |ps| ==> ps[i].name != ps[j].name
  }

  /** The backing values of an enum's cases, in case order. */
  function CaseValues(cases: seq<EnumCase>): (vs: seq<Value>)
    ensures |vs| == |cases| && forall i :: 0 <= i < |cases| ==> vs[i] == cases[i].value
  {
    seq(|cases|, i requires 0 <= i < |cases| => cases[i].value)
  }

  /** The schema a parameter is given, stated case by case. */
  function PropertyOf(p: Parameter): PropertySchema {
    var typeName := match p.typ
      case Untyped => "string"
      case Named(n) => n
      case Enum(_, _) => "string";
    var enumValues := if p.typ.Enum? then Some(CaseValues(p.typ.cases)) else None;
    var defaultValue := match p.defaultValue
      case Absent => None
      case Null => None
      case Given(v) => Some(v)
      case Case(c) => Some(c.value);
    PropertySchema(typeName, enumValues, defaultValue)
  }

  /** The `properties` array after the parameters `ps` have been stored in turn. */
  function PropertiesOf(ps: seq<Parameter>): seq<Property> {
    if ps == [] then []
    else
      var last := ps[|ps| - 1];
      Put(PropertiesOf(ps[..|ps| - 1]), last.name, PropertyOf(last))
  }

  /** The names of the required parameters among `ps`. */
  function RequiredOf(ps: seq<Parameter>): seq<string> {
    if ps == [] then []
    else
      var last := ps[|ps| - 1];
      RequiredOf(ps[..|ps| - 1]) + (if IsRequired(last) then [last.name] else [])
  }

  function ParametersOf(ps: seq<Parameter>): ParametersSchema {
    ParametersSchema("object", PropertiesOf(ps), RequiredOf(ps))
  }

  /** The tool record of a function that carries the attribute. */
  function ToolOf(f: FunctionDecl): Tool
    requires f.tool.Some?
  {
    Tool("function", FunctionSchema(f.name, f.tool.value.description, ParametersOf(f.parameters)))
  }

  /** What one function contributes to the output. */
  function ToolsFor(f: FunctionDecl): seq<Tool> {
    if f.tool.Some? then [ToolOf(f)] else []
  }

  /** The whole output for the functions `fs`, in order. */
  function Schema(fs: seq<FunctionDecl>): seq<Tool> {
    if fs == [] then [] else Schema(fs[..|fs| - 1]) + ToolsFor(fs[|fs| - 1])
  }

  /** How many of the functions `fs` carry the attribute. */
  function CountTools(fs: seq<FunctionDecl>): nat {
    if fs == [] then 0 else CountTools(fs[..|fs| - 1]) + (if fs[|fs| - 1].tool.Some? then 1 else 0)
  }

  // ---------------------------------------------------------------------------
  // The generator
  // ---------------------------------------------------------------------------

  /** The parameters object of one tool: one pass over the parameters,
      filling `properties` and `required`. */
  method BuildParametersSchema(params: seq<Parameter>) returns (parametersSchema: ParametersSchema)
    ensures parametersSchema == ParametersOf(params)
  {
    var properties: seq<Property> := [];
    var required: seq<string> := [];
    var j := 0;
    while j < |params|
      invariant 0 <= j <= |params|
      invariant properties == PropertiesOf(params[..j])
      invariant required == RequiredOf(params[..j])
    {
      var param := params[j];
      var paramName := param.name;
      var paramType := match param.typ
        case Untyped => "string"
        case Named(n) => n
        case Enum(n, _) => n;
      var paramDefault := if param.defaultValue.Absent? then Null else param.defaultValue;

      var propertySchema := PropertySchema(paramType, None, None);
      if param.typ.Enum? {
        var enumCases := CaseValues(param.typ.cases);
        propertySchema := propertySchema.(typeName := "string", enumValues := Some(enumCases));
      }
      if !paramDefault.Null? {
        var value := if paramDefault.Case? then paramDefault.c.value else paramDefault.v;
        propertySchema := propertySchema.(defaultValue := Some(value));
      } else {
        required := required + [paramName];
      }
      assert propertySchema == PropertyOf(param);
      properties := Put(properties, paramName, propertySchema);

      assert params[..j + 1][..j] == params[..j] && params[..j + 1][j] == param;
      j := j + 1;
    }
    assert params[..j] == params;
    parametersSchema := ParametersSchema("object", properties, required);
  }

  /** generateToolsSchema: one pass over the functions, appending one tool
      for each function that carries the attribute. */
  method GenerateToolsSchema(functions: seq<FunctionDecl>) returns (tools: seq<Tool>)
    ensures tools == Schema(functions)
    ensures |tools| == CountTools(functions)
  {
    tools := [];
    var i := 0;
    while i < |functions|
      invariant 0 <= i <= |functions|
      invariant tools == Schema(functions[..i])
    {
      var decl := functions[i];
      if decl.tool.Some? {
        var instance := decl.tool.value;
        var parametersSchema := BuildParametersSchema(decl.parameters);
        tools := tools + [Tool("function", FunctionSchema(decl.name, instance.description, parametersSchema))];
      }
      assert functions[..i + 1][..i] == functions[..i] && functions[..i + 1][i] == decl;
      i := i + 1;
    }
    assert functions[..i] == functions;
    SchemaLength(functions);
  }

  // ---------------------------------------------------------------------------
  // Properties of the tool list
  // ---------------------------------------------------------------------------

  lemma {:induction false} SchemaLength(fs: seq<FunctionDecl>)
    ensures |Schema(fs)| == CountTools(fs)
  {
    if fs != [] {
      SchemaLength(fs[..|fs| - 1]);
    }
  }

  /** Output order follows input order: the tools of a concatenation are the
      tools of each part, one after the other. */
  lemma {:induction false} SchemaAppend(fs: seq<FunctionDecl>, gs: seq<FunctionDecl>)
    ensures Schema(fs + gs) == Schema(fs) + Schema(gs)
  {
    if gs == [] {
      assert fs + gs == fs;
    } else {
      var gs' := gs[..|gs| - 1];
      assert (fs + gs)[..|fs + gs| - 1] == fs + gs';
      SchemaAppend(fs, gs');
    }
  }

  /** Exactly one tool per attributed function, in input order: the tool of
      the i-th function sits at the position equal to the number of
      attributed functions before it, and there are no other tools. */
  lemma {:induction false} SchemaPositions(fs: seq<FunctionDecl>)
    ensures |Schema(fs)| == CountTools(fs)
    ensures forall i :: 0 <= i < |fs| && fs[i].tool.Some? ==>
      CountTools(fs[..i]) < |Schema(fs)| && Schema(fs)[CountTools(fs[..i])] == ToolOf(fs[i])
  {
    SchemaLength(fs);
    if fs != [] {
      var n := |fs| - 1;
      var prefix := fs[..n];
      SchemaPositions(prefix);
      SchemaLength(prefix);
      forall i | 0 <= i < |fs| && fs[i].tool.Some?
        ensures CountTools(fs[..i]) < |Schema(fs)| && Schema(fs)[CountTools(fs[..i])] == ToolOf(fs[i])
      {
        if i < n {
          assert fs[..i] == prefix[..i];
          assert fs[i] == prefix[i];
        } else {
          assert fs[..i] == prefix;
        }
      }
    }
  }

  /** Every tool in the output is the tool of some attributed input function. */
  lemma {:induction false} SchemaSources(fs: seq<FunctionDecl>, t: Tool)
    requires t in Schema(fs)
    ensures exists i :: 0 <= i < |fs| && fs[i].tool.Some? && t == ToolOf(fs[i])
  {
    var n := |fs| - 1;
    var prefix := fs[..n];
    if t in Schema(prefix) {
      SchemaSources(prefix, t);
      var i :| 0 <= i < |prefix| && prefix[i].tool.Some? && t == ToolOf(prefix[i]);
      assert fs[i] == prefix[i];
    } else {
      assert fs[n].tool.Some? && t == ToolOf(fs[n]);
    }
  }

  /** Functions without the attribute contribute nothing; in particular the
      empty input yields the empty output. */
  lemma {:induction false} UnmarkedContributeNothing(fs: seq<FunctionDecl>)
    requires forall i :: 0 <= i < |fs| ==> fs[i].tool.None?
    ensures Schema(fs) == []
  {
    if fs != [] {
      var prefix := fs[..|fs| - 1];
      assert forall i :: 0 <= i < |prefix| ==> prefix[i] == fs[i];
      UnmarkedContributeNothing(prefix);
    }
  }

  /** The shape of every tool: type "function", the function's own name, the
      attribute's description unchanged, and a parameters object of type
      "object" built from that function's parameters. */
  lemma ToolShape(fs: seq<FunctionDecl>, t: Tool)
    requires t in Schema(fs)
    ensures t.toolType == "function"
    ensures t.functionSchema.parameters.schemaType == "object"
    ensures exists i :: (0 <= i < |fs| && fs[i].tool == Some(OpenAiTool(t.functionSchema.description))
                         && t.functionSchema.name == fs[i].name
                         && t.functionSchema.parameters == ParametersOf(fs[i].parameters))
  {
    SchemaSources(fs, t);
  }

  // ---------------------------------------------------------------------------
  // Properties of one parameters object
  // ---------------------------------------------------------------------------

  /** The rules for one parameter's schema. */
  lemma PropertyRules(p: Parameter)
    ensures p.typ.Enum? ==> (PropertyOf(p).typeName == "string"
                             && PropertyOf(p).enumValues == Some(CaseValues(p.typ.cases)))
    ensures p.typ.Named? ==> PropertyOf(p).typeName == p.typ.name
    ensures p.typ.Untyped? ==> PropertyOf(p).typeName == "string"
    ensures PropertyOf(p).enumValues.Some? <==> p.typ.Enum?
    ensures PropertyOf(p).defaultValue.Some? <==> !IsRequired(p)
    ensures p.defaultValue.Given? ==> PropertyOf(p).defaultValue == Some(p.defaultValue.v)
    ensures p.defaultValue.Case? ==> PropertyOf(p).defaultValue == Some(p.defaultValue.c.value)
  {
  }

  /** `required` grows in declaration order: the required names of a
      concatenation are those of each part, one after the other. */
  lemma {:induction false} RequiredAppend(ps: seq<Parameter>, qs: seq<Parameter>)
    ensures RequiredOf(ps + qs) == RequiredOf(ps) + RequiredOf(qs)
  {
    if qs == [] {
      assert ps + qs == ps;
    } else {
      var qs' := qs[..|qs| - 1];
      assert (ps + qs)[..|ps + qs| - 1] == ps + qs';
      RequiredAppend(ps, qs');
    }
  }

  /** Every name in `required` is the name of a parameter that is required. */
  lemma {:induction false} RequiredSources(ps: seq<Parameter>, x: string)
    requires x in RequiredOf(ps)
    ensures exists i :: 0 <= i < |ps| && ps[i].name == x && IsRequired(ps[i])
  {
    var n := |ps| - 1;
    var prefix := ps[..n];
    if x in RequiredOf(prefix) {
      RequiredSources(prefix, x);
      var i :| 0 <= i < |prefix| && prefix[i].name == x && IsRequired(prefix[i]);
      assert ps[i] == prefix[i];
    } else {
      assert ps[n].name == x && IsRequired(ps[n]);
    }
  }

  /** A parameter's name is in `required` exactly when it has no default or a
      null default. */
  lemma {:induction false} RequiredIff(ps: seq<Parameter>)
    requires DistinctNames(ps)
    ensures forall i :: 0 <= i < |ps| ==> (ps[i].name in RequiredOf(ps) <==> IsRequired(ps[i]))
  {
    if ps != [] {
      var n := |ps| - 1;
      var prefix := ps[..n];
      assert DistinctNames(prefix);
      RequiredIff(prefix);
      forall i | 0 <= i < |ps|
        ensures ps[i].name in RequiredOf(ps) <==> IsRequired(ps[i])
      {
        if i < n {
          assert prefix[i] == ps[i];
          assert ps[i].name != ps[n].name;
        } else if ps[n].name in RequiredOf(prefix) {
          RequiredSources(prefix, ps[n].name);
        }
      }
    }
  }

  /** With distinct names, the last parameter's name is not among the others. */
  lemma FreshLastName(ps: seq<Parameter>)
    requires DistinctNames(ps) && ps != []
    ensures ps[|ps| - 1].name !in Names(ps[..|ps| - 1])
  {
    var n := |ps| - 1;
    if ps[n].name in Names(ps[..n]) {
      var k :| 0 <= k < n && Names(ps[..n])[k] == ps[n].name;
      NamesAt(ps[..n], k);
    }
  }

  /** With distinct names, storing the last parameter appends its entry. */
  lemma PropertiesStep(ps: seq<Parameter>)
    requires DistinctNames(ps) && ps != []
    ensures PropertiesOf(ps) == PropertiesOf(ps[..|ps| - 1]) + [Property(ps[|ps| - 1].name, PropertyOf(ps[|ps| - 1]))]
  {
    PropertiesKeys(ps[..|ps| - 1]);
    FreshLastName(ps);
  }

  /** With distinct parameter names (which PHP enforces), `properties` holds
      exactly one entry per parameter, keyed by its name, in declaration order. */
  lemma {:induction false} PropertiesInOrder(ps: seq<Parameter>)
    requires DistinctNames(ps)
    ensures |PropertiesOf(ps)| == |ps|
    ensures forall i :: 0 <= i < |ps| ==> PropertiesOf(ps)[i] == Property(ps[i].name, PropertyOf(ps[i]))
  {
    if ps != [] {
      var n := |ps| - 1;
      var prefix := ps[..n];
      assert DistinctNames(prefix);
      PropertiesInOrder(prefix);
      PropertiesStep(ps);
      forall i | 0 <= i < n ensures PropertiesOf(ps)[i] == Property(ps[i].name, PropertyOf(ps[i])) {
        assert prefix[i] == ps[i];
      }
    }
  }

  /** Looking a parameter's name up in `properties` gives that parameter's schema. */
  lemma PropertyLookup(ps: seq<Parameter>)
    requires DistinctNames(ps)
    ensures forall i :: 0 <= i < |ps| ==> Get(PropertiesOf(ps), ps[i].name) == Some(PropertyOf(ps[i]))
  {
    PropertiesInOrder(ps);
    PropertiesUnique(ps);
    var m := PropertiesOf(ps);
    forall i | 0 <= i < |ps| ensures Get(m, ps[i].name) == Some(PropertyOf(ps[i])) {
      GetAt(m, i);
    }
  }

  /** Whatever the parameters, `properties` never holds two entries with the
      same key. */
  lemma {:induction false} PropertiesUnique(ps: seq<Parameter>)
    ensures UniqueKeys(PropertiesOf(ps))
  {
    if ps != [] {
      var last := ps[|ps| - 1];
      PropertiesUnique(ps[..|ps| - 1]);
      PutUnique(PropertiesOf(ps[..|ps| - 1]), last.name, PropertyOf(last));
    }
  }

  /** Whatever the parameters, the keys of `properties` are exactly the
      parameter names. */
  lemma {:induction false} PropertiesKeys(ps: seq<Parameter>)
    ensures forall k :: k in Keys(PropertiesOf(ps)) <==> k in Names(ps)
  {
    if ps != [] {
      var n := |ps| - 1;
      PropertiesKeys(ps[..n]);
      PutKeys(PropertiesOf(ps[..n]), ps[n].name, PropertyOf(ps[n]));
    }
  }

  /** Every property either carries a `default` or is listed in `required`,
      never both. */
  lemma DefaultXorRequired(ps: seq<Parameter>)
    requires DistinctNames(ps)
    ensures forall i :: 0 <= i < |PropertiesOf(ps)| ==>
      (PropertiesOf(ps)[i].schema.defaultValue.Some? <==> PropertiesOf(ps)[i].name !in RequiredOf(ps))
  {
    PropertiesInOrder(ps);
    RequiredIff(ps);
  }
}
