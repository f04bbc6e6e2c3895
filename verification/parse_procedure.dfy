/**
 * The procedure parser: turns one procedure into a `ParsedProcedure`
 * record, or into `None` (the source's `null`) when it has more than one
 * input or its kind cannot be determined.
 *
 * The zod library's JSON-schema projection and the zod selector walk are
 * external collaborators; they are given to the parser as the
 * `SchemaLibrary` value. The selector hands back, besides its node, the
 * `(path, description)` reports it would have passed to the
 * `addDescriptionIfExists` callback, in the order of the walk.
 */
module ProcedureParser {
  import opened Wrappers
  import opened JsValues
  import opened RouterType

  /** One call of `addDescriptionIfExists`: the path of the sub-schema and its `description`. */
  datatype Report = Report(path: seq<string>, description: JsValue)

  /** What `zodSelectorFunction` gives back: the input node, and the reports made along the way. */
  datatype Selection = Selection(node: JsValue, reports: seq<Report>)

  datatype SchemaLibrary = SchemaLibrary(
    /** `zodToJsonSchema(schema, { errorMessages: true, $refStrategy: "none" })` */
    toJsonSchema: JsValue -> JsValue,
    /** `zodSelectorFunction(def, { path: [], options, addDataFunctions })`, given `def` and `options` */
    select: (JsValue, JsValue) -> Selection,
    /** `z.object({})` */
    emptyZodObject: JsValue)

  datatype InputType = Zod | Unsupported

  /** Which schema dialect an input is written in: only zod is recognised, whatever the input. */
  function InputTypeOf(input: JsValue): (r: InputType)
    ensures r != Unsupported
  {
    Zod
  }

  datatype InputPhase =
    | Failure
    | Success(schema: JsValue, node: JsValue, reports: seq<Report>)

  /** The JSON schema and the input node of one zod schema, from the collaborators. */
  function ProjectInput(input: JsValue, options: JsValue, lib: SchemaLibrary): InputPhase {
    var sel := lib.select(Get(input, "_def"), options);
    Success(lib.toJsonSchema(input), sel.node, sel.reports)
  }

  /**
   * `nodeAndInputSchemaFromInputs`: no input stands for the empty object
   * schema, one input is used as it is, two or more fail. The branch for an
   * unsupported dialect can never be taken.
   */
  function NodeAndInputSchemaFromInputs(inputs: seq<JsValue>, options: JsValue, lib: SchemaLibrary): (r: InputPhase)
    ensures r.Failure? <==> |inputs| >= 2
    ensures |inputs| == 0 ==> r == ProjectInput(lib.emptyZodObject, options, lib)
    ensures |inputs| == 1 ==> r == ProjectInput(inputs[0], options, lib)
  {
    if |inputs| == 0 then
      ProjectInput(lib.emptyZodObject, options, lib)
    else if |inputs| != 1 then
      Failure
    else if InputTypeOf(inputs[0]) == Unsupported then
      Failure
    else
      ProjectInput(inputs[0], options, lib)
  }

  /** A procedure with no input is parsed exactly as if its one input were `z.object({})`. */
  lemma NoInputIsEmptyObject(options: JsValue, lib: SchemaLibrary)
    ensures NodeAndInputSchemaFromInputs([], options, lib) == NodeAndInputSchemaFromInputs([lib.emptyZodObject], options, lib)
  {
  }

  /**
   * The dotted key under which a report's description is stored. Its
   * contract repeats the short cases of `Join` in the parser's own terms,
   * so that the fold's lemmas read without unfolding `Join`.
   */
  function KeyOf(report: Report): (key: string)
    ensures |report.path| == 0 ==> key == ""
    ensures |report.path| == 1 ==> key == report.path[0]
  {
    Join(report.path, ".")
  }

  /** The key of a sub-schema one level below a non-root path is the parent's key, a dot, and the segment. */
  lemma KeyOfAppend(path: seq<string>, segment: string, description: JsValue)
    requires |path| > 0
    ensures KeyOf(Report(path + [segment], description)) == KeyOf(Report(path, description)) + "." + segment
  {
    JoinAppend(path, ".", segment);
  }

  /**
   * The `parameterDescriptions` map after the callback has seen `reports`
   * in order, starting from `{}`: a truthy description is stored under its
   * dotted path, overwriting what was there; a falsy one is ignored.
   */
  function Descriptions(reports: seq<Report>): map<string, JsValue>
    decreases |reports|
  {
    if |reports| == 0 then map[]
    else
      var before := Descriptions(reports[..|reports| - 1]);
      var last := reports[|reports| - 1];
      if Truthy(last.description) then before[KeyOf(last) := last.description] else before
  }

  /** Report `i` carries a truthy description for `key`. */
  ghost predicate Describes(reports: seq<Report>, i: int, key: string) {
    0 <= i < |reports| && Truthy(reports[i].description) && KeyOf(reports[i]) == key
  }

  /** Report `i` is the last one carrying a truthy description for `key`. */
  ghost predicate LastDescribes(reports: seq<Report>, i: int, key: string) {
    Describes(reports, i, key) && forall j :: i < j < |reports| ==> !Describes(reports, j, key)
  }

  /** A key is in the map exactly when some report describes it. */
  lemma {:induction false} DescriptionsHas(reports: seq<Report>, key: string)
    ensures key in Descriptions(reports) <==> exists i :: Describes(reports, i, key)
    decreases |reports|
  {
    if |reports| > 0 {
      var n := |reports| - 1;
      var init := reports[..n];
      DescriptionsHas(init, key);
      if exists i :: Describes(init, i, key) {
        var i :| Describes(init, i, key);
        assert Describes(reports, i, key);
      }
      if !Describes(reports, n, key) && exists i :: Describes(reports, i, key) {
        var i :| Describes(reports, i, key);
        assert Describes(init, i, key);
      }
    }
  }

  /** A key in the map holds the description of the last report that describes it. */
  lemma {:induction false} DescriptionsLast(reports: seq<Report>, key: string)
    requires key in Descriptions(reports)
    ensures exists i :: LastDescribes(reports, i, key) && Descriptions(reports)[key] == reports[i].description
    decreases |reports|
  {
    var n := |reports| - 1;
    var init := reports[..n];
    if Describes(reports, n, key) {
      assert LastDescribes(reports, n, key);
    } else {
      DescriptionsLast(init, key);
      var i :| LastDescribes(init, i, key) && Descriptions(init)[key] == init[i].description;
      assert init[i] == reports[i];
      forall j | i < j < |reports| ensures !Describes(reports, j, key) {
        if j < n {
          assert init[j] == reports[j] && !Describes(init, j, key);
        }
      }
    }
  }

  /**
   * A key is in the map exactly when some report describes it, and then it
   * holds the description of the last such report. This is the whole
   * meaning of the fold in one statement; `DescriptionsHas` and
   * `DescriptionsLast` are its two halves, proved separately to keep each
   * induction small.
   */
  lemma DescriptionsAt(reports: seq<Report>, key: string)
    ensures key in Descriptions(reports) <==> exists i :: Describes(reports, i, key)
    ensures key in Descriptions(reports) ==>
      exists i :: LastDescribes(reports, i, key) && Descriptions(reports)[key] == reports[i].description
  {
    DescriptionsHas(reports, key);
    if key in Descriptions(reports) {
      DescriptionsLast(reports, key);
    }
  }

  /** Every stored description is truthy. */
  lemma {:induction false} DescriptionsTruthy(reports: seq<Report>)
    ensures forall key :: key in Descriptions(reports) ==> Truthy(Descriptions(reports)[key])
    decreases |reports|
  {
    if |reports| > 0 {
      DescriptionsTruthy(reports[..|reports| - 1]);
    }
  }

  /**
   * Runs the `addDescriptionIfExists` callback over the reports in order,
   * writing into a map that starts empty.
   */
  method CollectDescriptions(reports: seq<Report>) returns (parameterDescriptions: map<string, JsValue>)
    ensures parameterDescriptions == Descriptions(reports)
  {
    parameterDescriptions := map[];
    var i := 0;
    while i < |reports|
      invariant 0 <= i <= |reports|
      invariant parameterDescriptions == Descriptions(reports[..i])
    {
      var report := reports[i];
      if Truthy(report.description) {
        parameterDescriptions := parameterDescriptions[KeyOf(report) := report.description];
      }
      assert reports[..i + 1][..i] == reports[..i];
      i := i + 1;
    }
    assert reports[..i] == reports;
  }

  /**
   * The procedure's kind: a query definition gives "query", else a mutation
   * definition "mutation", else a subscription definition "subscription";
   * only when none matches is `_def.type` consulted, and any truthy value
   * there is passed through as it is. Otherwise the kind is undetermined.
   */
  function ProcedureTypeOf(def: JsValue, panelMeta: JsValue -> bool): (r: Option<JsValue>)
    ensures DefShaped(def, panelMeta, "query") ==> r == Some(Str("query"))
    ensures !DefShaped(def, panelMeta, "query") && DefShaped(def, panelMeta, "mutation") ==>
      r == Some(Str("mutation"))
    ensures (!DefShaped(def, panelMeta, "query") && !DefShaped(def, panelMeta, "mutation")
      && DefShaped(def, panelMeta, "subscription")) ==> r == Some(Str("subscription"))
    ensures (!DefShaped(def, panelMeta, "query") && !DefShaped(def, panelMeta, "mutation")
      && !DefShaped(def, panelMeta, "subscription")) ==>
      r == if Truthy(Get(def, "type")) then Some(Get(def, "type")) else None
    ensures r.Some? ==> Truthy(r.value)
  {
    if IsQueryDef(def, panelMeta) then Some(Str("query"))
    else if IsMutationDef(def, panelMeta) then Some(Str("mutation"))
    else if IsSubscriptionDef(def, panelMeta) then Some(Str("subscription"))
    else
      var t := Get(def, "type");
      if Truthy(t) then Some(t) else None
  }

  /**
   * A v11 procedure, a plain object or a callable function, whose `_def`
   * sets none of the three flags to `true` is a procedure only through the
   * v11 fallback, and its kind is whatever truthy value its `type` field
   * holds.
   */
  lemma V11ProcedureKindFromType(v: JsValue, panelMeta: JsValue -> bool)
    requires v.HasProps() && Get(v, "_def").HasProps()
    requires !Get(Get(v, "_def"), "procedure").Undefined?
    requires Truthy(Get(Get(v, "_def"), "type"))
    requires forall flag :: flag in {"query", "mutation", "subscription"} ==> Get(Get(v, "_def"), flag) != Bool(true)
    ensures IsProcedure(v, panelMeta) && IsV11Procedure(v)
    ensures !IsQueryDef(Get(v, "_def"), panelMeta) && !IsMutationDef(Get(v, "_def"), panelMeta)
      && !IsSubscriptionDef(Get(v, "_def"), panelMeta)
    ensures ProcedureTypeOf(Get(v, "_def"), panelMeta) == Some(Get(Get(v, "_def"), "type"))
  {
  }

  /** The newer encoding's mutation: `{ _def: { procedure, type: "mutation" } }` resolves to "mutation". */
  lemma V11MutationScenario(procedure: JsValue, panelMeta: JsValue -> bool)
    requires !procedure.Undefined?
    ensures var v := Obj(map["_def" := Obj(map["procedure" := procedure, "type" := Str("mutation")])]);
      IsProcedure(v, panelMeta) && ProcedureTypeOf(Get(v, "_def"), panelMeta) == Some(Str("mutation"))
  {
    var d := Obj(map["procedure" := procedure, "type" := Str("mutation")]);
    var v := Obj(map["_def" := d]);
    assert Get(v, "_def") == d && Get(d, "type") == Str("mutation");
    V11ProcedureKindFromType(v, panelMeta);
  }

  datatype ExtraData = ExtraData(parameterDescriptions: map<string, JsValue>, description: Option<JsValue>)

  datatype ParsedProcedure = ParsedProcedure(
    inputSchema: JsValue,
    node: JsValue,
    nodeType: string,
    procedureType: JsValue,
    pathFromRootRouter: seq<string>,
    extraData: ExtraData)

  /**
   * `{ ...parseExtraData, ...(meta?.description && { description }) }`:
   * the collected map is carried over, and a `description` is added only
   * when `meta.description` is truthy.
   */
  function ExtraDataOf(parameterDescriptions: map<string, JsValue>, meta: JsValue): (r: ExtraData)
    ensures r.parameterDescriptions == parameterDescriptions
    ensures r.description.Some? <==> Truthy(Get(meta, "description"))
    ensures r.description.Some? ==> r.description.value == Get(meta, "description")
  {
    var d := Get(meta, "description");
    ExtraData(parameterDescriptions, if Truthy(d) then Some(d) else None)
  }

  /** The one input a procedure's definition effectively has: its only input, or `z.object({})`. */
  function EffectiveInput(inputs: seq<JsValue>, lib: SchemaLibrary): JsValue
    requires |inputs| <= 1
  {
    if |inputs| == 0 then lib.emptyZodObject else inputs[0]
  }

  /**
   * `parseProcedure(procedure, path, options)`. The procedure's `_def.inputs`
   * must be an array (otherwise the source throws).
   */
  method ParseProcedure(procedure: JsValue, path: seq<string>, options: JsValue, lib: SchemaLibrary, panelMeta: JsValue -> bool)
    returns (r: Option<ParsedProcedure>)
    requires Get(Get(procedure, "_def"), "inputs").Arr?
    ensures var inputs := Get(Get(procedure, "_def"), "inputs").items;
      |inputs| >= 2 ==> r.None?
    ensures var def := Get(procedure, "_def"); var inputs := Get(def, "inputs").items;
      |inputs| <= 1 ==> (r.Some? <==> ProcedureTypeOf(def, panelMeta).Some?)
    ensures r.Some? ==>
      var def := Get(procedure, "_def");
      var inputs := Get(def, "inputs").items;
      var input := EffectiveInput(inputs, lib);
      var sel := lib.select(Get(input, "_def"), options);
      && |inputs| <= 1
      && r.value.nodeType == "procedure"
      && r.value.pathFromRootRouter == path
      && r.value.procedureType == ProcedureTypeOf(def, panelMeta).value
      && r.value.inputSchema == lib.toJsonSchema(input)
      && r.value.node == sel.node
      && r.value.extraData == ExtraDataOf(Descriptions(sel.reports), Get(def, "meta"))
  {
    var def := Get(procedure, "_def");
    var inputs := Get(def, "inputs").items;
    var nodeAndInput := NodeAndInputSchemaFromInputs(inputs, options, lib);
    if nodeAndInput.Failure? {
      return None;
    }
    var parameterDescriptions := CollectDescriptions(nodeAndInput.reports);
    var t := ProcedureTypeOf(def, panelMeta);
    if t.None? {
      return None;
    }
    r := Some(ParsedProcedure(
      nodeAndInput.schema,
      nodeAndInput.node,
      "procedure",
      t.value,
      path,
      ExtraDataOf(parameterDescriptions, Get(def, "meta"))));
  }
}
