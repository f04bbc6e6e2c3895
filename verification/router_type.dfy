/**
 * The structural classifier: duck-typed predicates that decide, from an
 * untyped value, whether it is a router, a procedure, a procedure
 * definition of a given kind, or a newer (v11) procedure.
 *
 * `TRPCPanelMetaSchema` is defined outside this model; every predicate that
 * checks a `meta` field takes it as the parameter `panelMeta`.
 */
module RouterType {
  import opened JsValues
  import opened Zod

  /** `z.object({})` */
  const ZodObjectSchema: Schema := Object(map[])

  predicate IsZodObject(v: JsValue)
    ensures IsZodObject(v) <==> IsPlainObject(v)
  {
    Accepts(ZodObjectSchema, v)
  }

  /** `z.object({ inputs: z.unknown().array(), meta: TRPCPanelMetaSchema.optional() })` */
  function SharedProcedureDefPropertiesSchema(panelMeta: JsValue -> bool): Schema {
    Object(map["inputs" := ArrayOf(Unknown), "meta" := Optional(External(panelMeta))])
  }

  /** The shared definition schema merged with `z.object({ <flag>: z.literal(true) })`. */
  function FlaggedDefSchema(panelMeta: JsValue -> bool, flag: string): Schema
    requires flag in {"query", "mutation", "subscription"}
  {
    Merge(SharedProcedureDefPropertiesSchema(panelMeta), Object(map[flag := LiteralTrue]))
  }

  /**
   * What a definition of the given kind looks like, field by field: a plain
   * object (not a thenable) whose `inputs` is an array, whose `meta` is missing, undefined or
   * accepted by the meta schema, and whose flag is exactly `true`. Other keys
   * are ignored.
   */
  ghost predicate DefShaped(d: JsValue, panelMeta: JsValue -> bool, flag: string) {
    && IsPlainObject(d)
    && Get(d, "inputs").Arr?
    && (Get(d, "meta").Undefined? || panelMeta(Get(d, "meta")))
    && Get(d, flag) == Bool(true)
  }

  lemma FlaggedDefAccepts(d: JsValue, panelMeta: JsValue -> bool, flag: string)
    requires flag in {"query", "mutation", "subscription"}
    ensures Accepts(FlaggedDefSchema(panelMeta, flag), d) <==> DefShaped(d, panelMeta, flag)
  {
    var shared := SharedProcedureDefPropertiesSchema(panelMeta);
    var own := Object(map[flag := LiteralTrue]);
    MergeAcceptsBoth(shared, own, d);
    if Accepts(shared, d) {
      assert Accepts(shared.shape["inputs"], Get(d, "inputs"));
      assert Accepts(shared.shape["meta"], Get(d, "meta"));
    }
    if Accepts(own, d) {
      assert Accepts(own.shape[flag], Get(d, flag));
    }
    if DefShaped(d, panelMeta, flag) {
      forall k | k in shared.shape ensures Accepts(shared.shape[k], Get(d, k)) {
        if k == "inputs" {
          assert shared.shape[k] == ArrayOf(Unknown);
        } else {
          assert k == "meta" && shared.shape[k] == Optional(External(panelMeta));
        }
      }
      forall k | k in own.shape ensures Accepts(own.shape[k], Get(d, k)) {
        assert k == flag && own.shape[k] == LiteralTrue;
      }
    }
  }

  /** The procedure schema accepts a plain object whose `_def` is a definition of one of the three kinds. */
  lemma ProcedureSchemaAccepts(v: JsValue, panelMeta: JsValue -> bool)
    ensures Accepts(ProcedureSchema(panelMeta), v) <==>
      IsPlainObject(v) && (
        || DefShaped(Get(v, "_def"), panelMeta, "query")
        || DefShaped(Get(v, "_def"), panelMeta, "mutation")
        || DefShaped(Get(v, "_def"), panelMeta, "subscription"))
  {
    var d := Get(v, "_def");
    SingleKeyAccepts("_def", ProcedureDefSchema(panelMeta), v);
    FlaggedDefAccepts(d, panelMeta, "query");
    FlaggedDefAccepts(d, panelMeta, "mutation");
    FlaggedDefAccepts(d, panelMeta, "subscription");
  }

  predicate IsQueryDef(d: JsValue, panelMeta: JsValue -> bool)
    ensures IsQueryDef(d, panelMeta) <==> DefShaped(d, panelMeta, "query")
  {
    FlaggedDefAccepts(d, panelMeta, "query");
    Accepts(FlaggedDefSchema(panelMeta, "query"), d)
  }

  predicate IsMutationDef(d: JsValue, panelMeta: JsValue -> bool)
    ensures IsMutationDef(d, panelMeta) <==> DefShaped(d, panelMeta, "mutation")
  {
    FlaggedDefAccepts(d, panelMeta, "mutation");
    Accepts(FlaggedDefSchema(panelMeta, "mutation"), d)
  }

  predicate IsSubscriptionDef(d: JsValue, panelMeta: JsValue -> bool)
    ensures IsSubscriptionDef(d, panelMeta) <==> DefShaped(d, panelMeta, "subscription")
  {
    FlaggedDefAccepts(d, panelMeta, "subscription");
    Accepts(FlaggedDefSchema(panelMeta, "subscription"), d)
  }

  /** `QueryDefSchema.or(MutationDefSchema).or(SubscriptionDefSchema)` */
  function ProcedureDefSchema(panelMeta: JsValue -> bool): Schema {
    Or(Or(FlaggedDefSchema(panelMeta, "query"), FlaggedDefSchema(panelMeta, "mutation")),
       FlaggedDefSchema(panelMeta, "subscription"))
  }

  /** `z.object({ _def: z.object({ router: z.literal(true) }) })` */
  const RouterSchema: Schema := Object(map["_def" := Object(map["router" := LiteralTrue])])

  /** `z.object({ _def: ProcedureDefSchema })` */
  function ProcedureSchema(panelMeta: JsValue -> bool): Schema {
    Object(map["_def" := ProcedureDefSchema(panelMeta)])
  }

  /**
   * `obj?._def?.procedure !== undefined`: the value is an object or function
   * whose `_def` is an object or function with a `procedure` key holding
   * something other than `undefined`. Never true of null, undefined or a
   * primitive.
   */
  predicate IsV11Procedure(v: JsValue)
    ensures IsV11Procedure(v) <==>
      && v.HasProps() && "_def" in v.props
      && v.props["_def"].HasProps() && "procedure" in v.props["_def"].props
      && !v.props["_def"].props["procedure"].Undefined?
    ensures v.Undefined? || v.Null? || v.Bool? || v.Num? || v.Str? || v.Arr? ==> !IsV11Procedure(v)
  {
    Get(Get(v, "_def"), "procedure") != Undefined
  }

  /**
   * A router is a plain object whose `_def` is a plain object with
   * `router: true`; failing that, anything that is not a v11 procedure is
   * taken for a router too (the source calls this fallback a hack).
   */
  predicate IsRouter(v: JsValue)
    ensures IsRouter(v) <==>
      (IsPlainObject(v) && IsPlainObject(Get(v, "_def")) && Get(Get(v, "_def"), "router") == Bool(true))
      || !IsV11Procedure(v)
  {
    var success := Accepts(RouterSchema, v);
    assert success ==> Accepts(RouterSchema.shape["_def"], Get(v, "_def"));
    assert success ==> Accepts(Object(map["router" := LiteralTrue]).shape["router"], Get(Get(v, "_def"), "router"));
    if !success then !IsV11Procedure(v) else success
  }

  /**
   * A procedure is a plain object whose `_def` is a query, mutation or
   * subscription definition (the extra "not a function carrying `_def`"
   * test can never matter, since a function is not a plain object);
   * failing that, any v11 procedure.
   */
  predicate IsProcedure(v: JsValue, panelMeta: JsValue -> bool)
    ensures IsProcedure(v, panelMeta) <==>
      (IsPlainObject(v) && (
        || DefShaped(Get(v, "_def"), panelMeta, "query")
        || DefShaped(Get(v, "_def"), panelMeta, "mutation")
        || DefShaped(Get(v, "_def"), panelMeta, "subscription")))
      || IsV11Procedure(v)
    ensures v.Func? ==> (IsProcedure(v, panelMeta) <==> IsV11Procedure(v))
  {
    ProcedureSchemaAccepts(v, panelMeta);
    var success := (!v.Func? || !HasKey(v, "_def")) && Accepts(ProcedureSchema(panelMeta), v);
    if !success then IsV11Procedure(v) else success
  }

  /** Whatever fails the router test is a v11 procedure. */
  lemma NotRouterIsV11Procedure(v: JsValue)
    requires !IsRouter(v)
    ensures IsV11Procedure(v)
  {
  }

  /** Every v11 procedure is a procedure. */
  lemma V11ProcedureIsProcedure(v: JsValue, panelMeta: JsValue -> bool)
    requires IsV11Procedure(v)
    ensures IsProcedure(v, panelMeta)
  {
  }

  /** Classification is total: every value is a router or a procedure. */
  lemma RouterOrProcedure(v: JsValue, panelMeta: JsValue -> bool)
    ensures IsRouter(v) || IsProcedure(v, panelMeta)
  {
  }

  /**
   * Classification is not exclusive: a value that is not a v11 procedure
   * but whose `_def` is a query, mutation or subscription definition passes
   * both tests.
   */
  lemma FlaggedDefIsRouterAndProcedure(v: JsValue, panelMeta: JsValue -> bool)
    requires IsPlainObject(v) && !IsV11Procedure(v)
    requires || IsQueryDef(Get(v, "_def"), panelMeta)
             || IsMutationDef(Get(v, "_def"), panelMeta)
             || IsSubscriptionDef(Get(v, "_def"), panelMeta)
    ensures IsRouter(v) && IsProcedure(v, panelMeta)
  {
  }

  /** A plain query procedure `{ _def: { inputs: [], query: true } }` is classified as both. */
  lemma SomeValueIsRouterAndProcedure(panelMeta: JsValue -> bool)
    ensures exists v :: IsRouter(v) && IsProcedure(v, panelMeta)
  {
    var d := Obj(map["inputs" := Arr([]), "query" := Bool(true)]);
    var v := Obj(map["_def" := d]);
    assert Get(v, "_def") == d;
    assert Get(d, "procedure").Undefined? && Get(d, "meta").Undefined?;
    assert DefShaped(d, panelMeta, "query");
    FlaggedDefIsRouterAndProcedure(v, panelMeta);
    assert IsRouter(v) && IsProcedure(v, panelMeta);
  }

  /**
   * A thenable never passes the procedure schema: with function-valued
   * `then` and `catch` beside a query definition, the value is a router
   * (through the fallback) and not a procedure.
   */
  lemma ThenableQueryIsOnlyRouter(panelMeta: JsValue -> bool)
    ensures var v := Obj(map["_def" := Obj(map["inputs" := Arr([]), "query" := Bool(true)]),
                             "then" := Func(map[]), "catch" := Func(map[])]);
      IsRouter(v) && !IsProcedure(v, panelMeta)
  {
  }
}
