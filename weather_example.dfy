/**
 * The sample program: the backed enum TemperatureUnit, the tool function
 * getCurrentWeather, and the generator function itself, which is a user
 * function without the OpenAiTool attribute and so is listed but skipped.
 */
module WeatherExample {
  import opened ToolSchema

  const Celsius := EnumCase("CELSIUS", Str("celsius"))
  const Fahrenheit := EnumCase("FAHRENHEIT", Str("fahrenheit"))

  const TemperatureUnit := Enum("TemperatureUnit", [Celsius, Fahrenheit])

  /** getCurrentWeather: a required string `location` and a `unit` of type
      TemperatureUnit that defaults to the CELSIUS case. */
  const GetCurrentWeather := FunctionDecl(
    "getCurrentWeather",
    Some(OpenAiTool("Get the current weather in a given location")),
    [Parameter("location", Named("string"), Absent),
     Parameter("unit", TemperatureUnit, Case(Celsius))])

  /** generateToolsSchema() itself: no attribute, no parameters. */
  const GenerateToolsSchemaDecl := FunctionDecl("generateToolsSchema", None, [])

  /** The user functions of the sample program, in declaration order. */
  const UserFunctions := [GetCurrentWeather, GenerateToolsSchemaDecl]

  /** The parameters object of getCurrentWeather: `location` is a required
      string, `unit` a string with the two backing values that defaults to
      "celsius". */
  lemma WeatherParameters()
    ensures ParametersOf(GetCurrentWeather.parameters) == ParametersSchema(
      "object",
      [Property("location", PropertySchema("string", None, None)),
       Property("unit", PropertySchema("string", Some([Str("celsius"), Str("fahrenheit")]), Some(Str("celsius"))))],
      ["location"])
  {
    var ps := GetCurrentWeather.parameters;
    PropertiesInOrder(ps);
    assert CaseValues(TemperatureUnit.cases) == [Str("celsius"), Str("fahrenheit")];
    assert PropertyOf(ps[1]) == PropertySchema("string", Some([Str("celsius"), Str("fahrenheit")]), Some(Str("celsius")));
    assert PropertiesOf(ps) == [Property("location", PropertyOf(ps[0])), Property("unit", PropertyOf(ps[1]))];
    assert ps[..1][..0] == [];
    assert RequiredOf(ps[..1]) == ["location"];
  }

  /** The expected output: one tool, for getCurrentWeather only. */
  lemma WeatherSchema()
    ensures Schema(UserFunctions) == [
      Tool("function", FunctionSchema(
        "getCurrentWeather",
        "Get the current weather in a given location",
        ParametersSchema(
          "object",
          [Property("location", PropertySchema("string", None, None)),
           Property("unit", PropertySchema("string", Some([Str("celsius"), Str("fahrenheit")]), Some(Str("celsius"))))],
          ["location"])))]
  {
    WeatherParameters();
    assert UserFunctions[..1][..0] == [];
    assert Schema(UserFunctions[..1]) == [ToolOf(GetCurrentWeather)];
  }

  /** Applied to the sample program, the generator yields exactly that tool. */
  method GenerateForSample() returns (tools: seq<Tool>)
    ensures tools == [
      Tool("function", FunctionSchema(
        "getCurrentWeather",
        "Get the current weather in a given location",
        ParametersSchema(
          "object",
          [Property("location", PropertySchema("string", None, None)),
           Property("unit", PropertySchema("string", Some([Str("celsius"), Str("fahrenheit")]), Some(Str("celsius"))))],
          ["location"])))]
  {
    tools := GenerateToolsSchema(UserFunctions);
    WeatherSchema();
  }
}
