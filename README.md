# OpenAI tool-schema generator, modelled in Dafny

The PHP program in `tool_schema.php` turns the user functions that carry the
`OpenAiTool` attribute into the list of "tool" records that OpenAI's
function-calling API expects. `generateToolsSchema` walks every user-defined
function. For each one that carries the attribute, it walks the parameters and
builds a JSON-Schema-shaped `parameters` object. That object has
`type: "object"`, a `properties` array keyed by parameter name and a `required`
list. It then appends
`{type: "function", function: {name, description, parameters}}` to the output.

The model has two modules:

- `ToolSchema` (`tool_schema.dfy`) holds the input descriptors that stand in for
  PHP reflection and the output records. It has the PHP ordered array used for
  `properties` (`Keys`, `Get`, `Put`) and the specification functions
  (`PropertyOf`, `PropertiesOf`, `RequiredOf`, `ToolOf`, `Schema`). It also holds
  the generator itself. `GenerateToolsSchema` is the loop over the functions,
  proved equal to `Schema`. `BuildParametersSchema` is the inner loop over one
  function's parameters, proved equal to `ParametersOf`. The lemmas state what
  the output promises.
- `WeatherExample` (`weather_example.dfy`) holds the sample program. It has the
  `TemperatureUnit` enum, the `getCurrentWeather` signature and
  `generateToolsSchema` itself, which is a user function without the attribute.
  A lemma gives the exact output for that sample.

Inputs that reflection supplies in PHP are explicit values here:

- `FunctionDecl`: the function's name, `Some(OpenAiTool(description))` when it
  carries the attribute, and its parameters in declaration order. The order of
  the input list is the order in which the runtime lists user functions.
- `Parameter`: the name, a `TypeTag` and a `Default`.
- `TypeTag`: `Untyped`, `Named(name)` (the name reflection reports) or
  `Enum(name, cases)` for a backed enum, with its cases in declaration order.
- `Default`: `Absent` (the parameter is not optional), `Null`, `Given(value)` or
  `Case(enumCase)`.

Three behaviours of the code that a reader might not expect are modelled as
the code has them:

- Nothing is rejected. An enum with no cases gets an empty `enum` list
  (line 48), and the code has no check for duplicate parameter names.
- Type names are copied as reflection reports them (line 42), so a PHP `int`,
  `float` or `bool` parameter gets the type string `int`, `float` or `bool`.
- A default of `null` counts as no default (lines 43, 53). Such a parameter is
  listed in `required` and gets no `default` key.

## Model

| member | source | states |
|---|---|---|
| ToolSchema.GenerateToolsSchema | tool_schema.php:22-74 | The loop over the functions builds exactly `Schema(functions)`, with one tool per attributed function. Its invariant ties `tools` to the processed prefix of the functions. |
| ToolSchema.BuildParametersSchema | tool_schema.php:34-60 | The loop over the parameters builds exactly `ParametersOf(params)`. Its invariants tie `properties` and `required` to the processed prefix of the parameters. |
| ToolSchema.Put | tool_schema.php:59 | `$properties[$name] = …` with a name not yet present appends the new entry at the end. |
| ToolSchema.PutKeys | tool_schema.php:59 | A store keeps the order of the keys. An existing key stays where it was, and a new key comes last. |
| ToolSchema.PutKeepsOthers | tool_schema.php:59 | A store leaves every entry with another key unchanged and in its place. |
| ToolSchema.PutGet | tool_schema.php:59 | After the store, reading the key gives the new schema. Reading any other key gives what it gave before. |
| ToolSchema.PutUnique | tool_schema.php:59 | A store keeps the keys of the array unique. |
| ToolSchema.GetAt | tool_schema.php:59 | In an array with unique keys, looking up an entry's key gives that entry's schema. |
| ToolSchema.CaseValues | tool_schema.php:48 | The `enum` list has the backing values of the cases, one per case, in case order. |
| ToolSchema.PropertyRules | tool_schema.php:42-54 | An enum parameter gets type "string" and the list of its case values. A named type is copied verbatim, and an untyped parameter gets "string". Only enum parameters get an `enum` key. A `default` key is present exactly when the parameter is not required. An enum-case default is emitted as its backing value; any other default is emitted unchanged. |
| ToolSchema.SchemaPositions | tool_schema.php:27-70 | There is exactly one tool per attributed function. The i-th function's tool sits at the position equal to the number of attributed functions before it, so input order is kept. |
| ToolSchema.SchemaAppend | tool_schema.php:24-73 | The output for a concatenation of function lists is the output for each part, in order. |
| ToolSchema.SchemaSources | tool_schema.php:31-69 | Every tool in the output is the tool of some attributed input function. |
| ToolSchema.UnmarkedContributeNothing | tool_schema.php:29-31 | Functions without the attribute produce no tools, and the empty input produces the empty output. |
| ToolSchema.ToolShape | tool_schema.php:62-69 | Every tool has type "function" and parameters of type "object". It has the name of an input function and that function's attribute description unchanged. Its parameters are built from that function's parameters. |
| ToolSchema.RequiredAppend | tool_schema.php:56 | `required` follows declaration order and is never sorted. The required names of a concatenation are those of each part, in order. |
| ToolSchema.RequiredSources | tool_schema.php:53-57 | Every name in `required` belongs to a parameter with no default or a null default. |
| ToolSchema.RequiredIff | tool_schema.php:43-57 | With distinct parameter names, a parameter's name is in `required` exactly when it has no default or a null default. |
| ToolSchema.PropertiesStep | tool_schema.php:59 | With distinct parameter names, storing each parameter's schema appends a new entry; nothing is overwritten. |
| ToolSchema.PropertiesInOrder | tool_schema.php:40-59 | With distinct parameter names, `properties` has exactly one entry per parameter, in declaration order. Each entry is keyed by the parameter's name and holds its schema. |
| ToolSchema.PropertyLookup | tool_schema.php:59 | Looking up a parameter's name in `properties` gives that parameter's schema. |
| ToolSchema.PropertiesUnique | tool_schema.php:59 | `properties` never holds two entries with the same key. |
| ToolSchema.PropertiesKeys | tool_schema.php:40-59 | For any parameters, the keys of `properties` are exactly the parameter names. |
| ToolSchema.DefaultXorRequired | tool_schema.php:53-57 | Every property either carries a `default` or has its name in `required`, never both. |
| WeatherExample.WeatherParameters | tool_schema.php:17 | The parameters object of `getCurrentWeather` has `required == ["location"]`. `location` is `{type: "string"}`, and `unit` is `{type: "string", enum: ["celsius", "fahrenheit"], default: "celsius"}`. |
| WeatherExample.WeatherSchema | tool_schema.php:11-17 | For the sample program, the output is exactly one tool for `getCurrentWeather`. Its `required` is `["location"]`, `location` is `{type: "string"}`, and `unit` is `{type: "string", enum: ["celsius", "fahrenheit"], default: "celsius"}`. |
| WeatherExample.GenerateForSample | tool_schema.php:76 | Applied to the sample's user functions, the generator gives exactly one tool: type "function", name `getCurrentWeather`, the attribute's description, and parameters with `location` as `{type: "string"}`, `unit` as `{type: "string", enum: ["celsius", "fahrenheit"], default: "celsius"}` and `required == ["location"]`. |

## Left out

- Reflection and function discovery (`get_defined_functions`, `ReflectionFunction`, `getAttributes`, `newInstance`, `enum_exists`, `::cases()`): these are PHP runtime calls. The caller supplies their results as `FunctionDecl` values.
- Repeated attributes: `OpenAiTool` is not declared repeatable. On a function that carries it twice, `getAttributes` returns both entries and the first `newInstance()` throws an error, so `generateToolsSchema` fails and returns no tools. The model covers only the runs that return: a function carries at most one attribute, as `Option<OpenAiTool>`, and the inner attribute loop (line 31) becomes an `if`.
- `json_encode` and `print` (lines 76-77) are I/O and the library encoder. Encoding quirks are not modelled, for example an empty `properties` array being encoded as `[]`.
- The body of `getCurrentWeather` (line 19) is a stub with no behaviour.
- PHP's dynamic values: a default or backing value is a tagged `Value` (string, integer, boolean, or the literal text of anything else). Floats, arrays and constant expressions are not interpreted.
- Union and intersection types have no single type name, and `getName()` fails on them. Only named types are modelled.
- Pure (non-backed) enums have no backing value, so they are not modelled. Enum cases always carry a backing value.
- Variadic parameters are optional but have no default value, so `getDefaultValue()` throws on them. They are not modelled.
- Duplicate parameter names: PHP rejects them when it compiles a function. The lemmas RequiredIff, PropertiesStep, PropertiesInOrder, PropertyLookup and DefaultXorRequired therefore require distinct names. PropertiesUnique and PropertiesKeys hold without that requirement.
