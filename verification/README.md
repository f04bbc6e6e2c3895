# tRPC-panel procedure classification and parsing, in Dafny

This project models two parts of tRPC-panel. Together they decide what a node of a tRPC router tree is, and they turn one procedure into the `ParsedProcedure` record that the panel renders.

- **Structural classifier** (`router_type.dfy`, module `RouterType`, with `zod.dfy` and `js_values.dfy`). JavaScript values are the datatype `JsValues.JsValue`: undefined, null, booleans, numbers, strings, arrays, plain objects and functions. Objects and functions carry a map of own keys, and a missing key reads as `undefined`. The zod schemas the source composes (`z.object`, `z.literal(true)`, `z.unknown().array()`, `.optional()`, `.merge`, `.or`) are values of `Zod.Schema`. `Zod.Accepts` gives the result of `safeParse(...).success` for each of them. `isQueryDef`, `isMutationDef`, `isSubscriptionDef`, `isRouter`, `isProcedure`, `isV11Procedure` and `isZodObject` are built from these schemas the way the source builds them. Their contracts state, field by field, which values they accept.
- **Procedure parser** (`parse_procedure.dfy`, module `ProcedureParser`). `nodeAndInputSchemaFromInputs` branches on the number of inputs. The `addDescriptionIfExists` callback fills `parameterDescriptions` through the loop in `CollectDescriptions`, which is specified by the fold `Descriptions`. The procedure kind is resolved by precedence. `ParseProcedure` assembles the record, or returns `None` for the source's `null`.

The JSON-schema projection (`zodToJsonSchema`) and the selector walk (`zodSelectorFunction`) are external collaborators. The parser receives them as the fields of a `SchemaLibrary` value, together with the value of `z.object({})`. The selector returns its input node and the ordered `(path, description)` reports it passes to the callback. `TRPCPanelMetaSchema` is defined in `src/meta.ts`, which is not part of this model. Every predicate that checks `meta` receives it as the parameter `panelMeta`.

Three facts about the code are easy to get wrong:
- Classification is total but NOT mutually exclusive, although the type `RouterOrProcedure = Router | Procedure` (routerType.ts:118) reads like a choice between the two. `isRouter` accepts everything that is not a v11 procedure. So an ordinary query procedure `{ _def: { inputs: [], query: true } }` is both a router and a procedure (`FlaggedDefIsRouterAndProcedure`, `SomeValueIsRouterAndProcedure`).
- A definition schema checks only its own flag. A definition with both `query: true` and `mutation: true` passes both `isQueryDef` and `isMutationDef`. The precedence in `procedureType` then makes it a query.
- With exactly one input, parsing succeeds only when the procedure kind resolves. The input phase itself cannot fail, because `inputType` always answers `"zod"`.

## Model

| member | source | states |
|---|---|---|
| `Zod.Merge` | packages/trpc-panel/src/parse/routerType.ts:17-21 | `.merge` yields an object schema whose keys are the union of both shapes |
| `Zod.MergeShape` | packages/trpc-panel/src/parse/routerType.ts:17-21 | each key of a merged shape carries `b`'s schema when `b` defines it, and `a`'s otherwise |
| `Zod.MergeAccepts` | packages/trpc-panel/src/parse/routerType.ts:17-21 | the merged schema accepts exactly a plain, non-thenable object that satisfies `b`'s shape, and `a`'s shape on the keys `b` does not redefine |
| `Zod.SingleKeyAccepts` | packages/trpc-panel/src/parse/routerType.ts:75-77 | a one-key object schema accepts exactly a plain, non-thenable object whose value at that key the inner schema accepts |
| `Zod.MergeAcceptsBoth` | packages/trpc-panel/src/parse/routerType.ts:17-21 | merging two object schemas with disjoint keys accepts exactly the values both accept |
| `RouterType.IsZodObject` | packages/trpc-panel/src/parse/routerType.ts:4-10 | `z.object({})` accepts exactly plain objects: not arrays, null, functions, primitives, or thenables (objects whose `then` and `catch` are functions, which zod takes for promises) |
| `RouterType.FlaggedDefAccepts` | packages/trpc-panel/src/parse/routerType.ts:12-51 | a definition schema accepts a value iff it is a plain object that is not a thenable, `inputs` is an array, `meta` is undefined or meta-valid, and its flag is exactly `true`; other keys are ignored |
| `RouterType.IsQueryDef` | packages/trpc-panel/src/parse/routerType.ts:17-27 | `isQueryDef` holds iff the value has the shared definition shape with `query` exactly `true` |
| `RouterType.IsMutationDef` | packages/trpc-panel/src/parse/routerType.ts:29-37 | same, with `mutation` exactly `true` |
| `RouterType.IsSubscriptionDef` | packages/trpc-panel/src/parse/routerType.ts:41-51 | same, with `subscription` exactly `true` |
| `RouterType.ProcedureSchemaAccepts` | packages/trpc-panel/src/parse/routerType.ts:53-55 | the procedure schema accepts a plain, non-thenable object whose `_def` is a query, mutation or subscription definition, and nothing else |
| `RouterType.IsV11Procedure` | packages/trpc-panel/src/parse/routerType.ts:108-110 | true iff the value is an object or function whose `_def` is an object or function with a `procedure` key not holding `undefined`; false for null, undefined, booleans, numbers, strings and arrays |
| `RouterType.IsRouter` | packages/trpc-panel/src/parse/routerType.ts:62-90 | true iff the value is a plain, non-thenable object whose `_def` is a plain, non-thenable object with `router: true`, or the value is not a v11 procedure |
| `RouterType.IsProcedure` | packages/trpc-panel/src/parse/routerType.ts:92-106 | true iff the value is a plain, non-thenable object whose `_def` is a definition of one of the three kinds, or it is a v11 procedure; a function is a procedure only as a v11 procedure |
| `RouterType.NotRouterIsV11Procedure` | packages/trpc-panel/src/parse/routerType.ts:79-90 | a value that fails `isRouter` is a v11 procedure |
| `RouterType.V11ProcedureIsProcedure` | packages/trpc-panel/src/parse/routerType.ts:98-106 | every v11 procedure passes `isProcedure` |
| `RouterType.RouterOrProcedure` | packages/trpc-panel/src/parse/routerType.ts:79-110 | every value is a router or a procedure |
| `RouterType.ThenableQueryIsOnlyRouter` | packages/trpc-panel/src/parse/routerType.ts:79-106 | a query definition beside function-valued `then` and `catch` fails the procedure schema, so the value is a router (through the fallback) and not a procedure |
| `RouterType.FlaggedDefIsRouterAndProcedure` | packages/trpc-panel/src/parse/routerType.ts:79-106 | a plain, non-thenable object that is not a v11 procedure and whose `_def` is a query, mutation or subscription definition is both a router and a procedure |
| `RouterType.SomeValueIsRouterAndProcedure` | packages/trpc-panel/src/parse/routerType.ts:79-106 | some value is both a router and a procedure, so classification is not exclusive |
| `ProcedureParser.InputTypeOf` | packages/trpc-panel/src/parse/parseProcedure.ts:44-46 | the dialect test never answers "unsupported" |
| `ProcedureParser.NodeAndInputSchemaFromInputs` | packages/trpc-panel/src/parse/parseProcedure.ts:58-100 | fails iff there are two or more inputs; with none it projects `z.object({})`, with one it projects that input (schema of the input, node and reports of the selector on its `_def`) |
| `ProcedureParser.NoInputIsEmptyObject` | packages/trpc-panel/src/parse/parseProcedure.ts:58-99 | no input gives exactly the result of the single input `z.object({})` |
| `ProcedureParser.KeyOf` | packages/trpc-panel/src/parse/parseProcedure.ts:115 | the key is the path joined with "."; the empty path gives "" and a one-segment path the segment itself |
| `JsValues.JoinAppend` | packages/trpc-panel/src/parse/parseProcedure.ts:115 | joining a non-empty path with one more segment appends the separator and the segment |
| `ProcedureParser.KeyOfAppend` | packages/trpc-panel/src/parse/parseProcedure.ts:115 | the key of a nested path is the parent's key, a dot, and the last segment |
| `ProcedureParser.DescriptionsHas` | packages/trpc-panel/src/parse/parseProcedure.ts:109-118 | a key is in `parameterDescriptions` iff some report with a truthy description has that dotted path |
| `ProcedureParser.DescriptionsLast` | packages/trpc-panel/src/parse/parseProcedure.ts:109-118 | a stored key holds the description of the last report with a truthy description at that path |
| `ProcedureParser.DescriptionsAt` | packages/trpc-panel/src/parse/parseProcedure.ts:109-118 | a key is in `parameterDescriptions` iff some report with a truthy description has that dotted path, and it holds the description of the last such report |
| `ProcedureParser.DescriptionsTruthy` | packages/trpc-panel/src/parse/parseProcedure.ts:113-117 | every stored description is truthy |
| `ProcedureParser.CollectDescriptions` | packages/trpc-panel/src/parse/parseProcedure.ts:109-118 | running the callback over the reports in order, from an empty map, yields `Descriptions(reports)` |
| `ProcedureParser.ProcedureTypeOf` | packages/trpc-panel/src/parse/parseProcedure.ts:124-134 | query beats mutation beats subscription, whatever other flags are set; only when no flag matches is `_def.type` used, any truthy value passing unvalidated; otherwise undetermined; a resolved kind is truthy |
| `ProcedureParser.V11ProcedureKindFromType` | packages/trpc-panel/src/parse/parseProcedure.ts:124-134 | a v11 procedure, plain object or function, whose `_def` sets no flag to `true` is a procedure only through the v11 fallback, and its kind is its truthy `type` value, whatever that is |
| `ProcedureParser.V11MutationScenario` | packages/trpc-panel/src/parse/parseProcedure.ts:124-134 | `{ _def: { procedure, type: "mutation" } }` is a procedure and resolves to "mutation" |
| `ProcedureParser.ExtraDataOf` | packages/trpc-panel/src/parse/parseProcedure.ts:142-147 | `parameterDescriptions` is carried over unchanged; `description` is present iff `meta.description` is truthy, and then equals it |
| `ProcedureParser.ParseProcedure` | packages/trpc-panel/src/parse/parseProcedure.ts:102-149 | two or more inputs give `null` whatever they hold; with at most one input the result is non-null iff the kind resolves; on success `nodeType` is "procedure", `pathFromRootRouter` is the given path, the schema and node come from the effective input, `parameterDescriptions` is the fold of the selector's reports, and the description comes from `meta` |

## Left out

- `zodToJsonSchema` and its options (`errorMessages`, `$refStrategy: "none"`) are not modelled. The projection is the opaque function `SchemaLibrary.toJsonSchema`, and JSON-schema generation is not modelled.
- `zodSelectorFunction` and the recursive zod walk are defined in files that are not part of this model. The selector is the opaque function `SchemaLibrary.select`. It returns a node and the ordered callback reports. `ParsedInputNode` and the JSON schema are represented as `JsValue`.
- `TRPCPanelMetaSchema` comes from `src/meta.ts`, which is not part of this model. It is the opaque predicate `panelMeta`.
- `TrpcPanelExtraOptions` is only forwarded to the selector, so it is an opaque `JsValue`. The unused `_routerPath` parameter is dropped.
- `ProcedureParser.ParseProcedure`: the precondition requires `_def.inputs` to be an array, and the model promises nothing for any other value. The source throws a `TypeError` only when `procedure`, `_def` or `inputs` is `null` or `undefined`. For the other non-array values it does not throw; the precondition excludes these too. A number, a boolean, an empty string, or an object or function without a truthy `length` takes the no-input branch and is parsed as `z.object({})`. An object or function with another `length` (for a function, its number of declared parameters) uses its key `"0"` as the single input when `length` is exactly 1, and gives `null` otherwise. A one-character string is parsed with that character as its single input, and a longer string gives `null`.
- A single input that is `null` or `undefined` makes the source fail. It reaches `zodToJsonSchema` first (parseProcedure.ts:90), and `input._def` (parseProcedure.ts:94) throws if that call returns. The model projects the value like any other input, and it reads its `_def` as `undefined` and hands that to the selector.
- Prototype chains, getters and the `in` operator on inherited keys are not modelled. Neither are the built-in properties of arrays and strings, such as `length`. The only such property the core reads is `inputs.length`, and the model reads it only for arrays.
- Zod's parsed types for Date, Map and Set instances are not represented, and neither are native promises; these values have no counterpart in `JsValue`, and `z.object` rejects all of them. A thenable plain object (function-valued `then` and `catch`) is represented, and `z.object` rejects it as a promise, as zod does.
- Numbers are reals, so `NaN` is not represented, and neither is its falsiness. BigInt and Symbol values are not represented either.
- `CollectDescriptions`: a description reported under the dotted key `"__proto__"` is stored in the model. In the source it is lost: on a plain object, assigning a string to `__proto__` is silently ignored and adds no key.
- The type-only declarations (`Router`, `RouterDef`, `Query`, `ProcedureDefSharedProperties`, `ProcedureType`) have no behaviour. The `procedureType` field is a `JsValue`, because the source does not check that a `type` value is one of the three kinds.
- The router-walking driver (`parseRouter`) is not modelled.
