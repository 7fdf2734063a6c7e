/** The response schemas sent with each generation request
    (services/geminiService.ts, singlePlanSchema, dayPlanSchema,
    thirtyDayPlanSchema). Field descriptions are prose for the model and are
    left out. */
module Schemas {

  /** The JSON property names the schemas use, one constructor per name
      (`ScriptField` is `script`, `Cta` is `cta`, the others are the name
      with its first letter capitalised). */
  datatype Field =
    | RealBusinessJustification | IdeaTitle | Hook | ScriptField | VisualIdeas
    | EditingTips | Cta | Day | Plan | Conflict | Resolution

  datatype Schema =
    | StringType
    | IntegerType
    | ArrayOf(items: Schema)
    | ObjectOf(properties: map<Field, Schema>, required: seq<Field>)

  /** The names an object schema declares. */
  function Declared(s: Schema): set<Field> {
    if s.ObjectOf? then s.properties.Keys else {}
  }

  /** The names an object schema marks as required. */
  function Required(s: Schema): set<Field> {
    if s.ObjectOf? then set n | n in s.required else {}
  }

  /** Every object inside `s`, `s` included, requires only names it declares. */
  predicate RequiredAreDeclared(s: Schema) {
    match s
    case ObjectOf(props, _) =>
      Required(s) <= Declared(s) && forall f | f in props :: RequiredAreDeclared(props[f])
    case ArrayOf(items) => RequiredAreDeclared(items)
    case _ => true
  }

  const ScriptSchema: Schema := ObjectOf(
    map[Hook := StringType, Conflict := StringType, Resolution := StringType],
    [Hook, Conflict, Resolution])

  /** The six fields every plan shares (`baseContentPlanSchemaProperties`). */
  const BaseProperties: map<Field, Schema> := map[
    IdeaTitle := StringType,
    Hook := StringType,
    ScriptField := ScriptSchema,
    VisualIdeas := ArrayOf(StringType),
    EditingTips := ArrayOf(StringType),
    Cta := StringType]

  const BaseFields: set<Field> := {IdeaTitle, Hook, ScriptField, VisualIdeas, EditingTips, Cta}

  const SinglePlanSchema: Schema := ObjectOf(
    map[RealBusinessJustification := StringType] + BaseProperties,
    [RealBusinessJustification, IdeaTitle, Hook, ScriptField, VisualIdeas, EditingTips, Cta])

  const DayPlanSchema: Schema := ObjectOf(
    map[Day := IntegerType] + BaseProperties,
    [Day, IdeaTitle, Hook, ScriptField, VisualIdeas, EditingTips, Cta])

  const ThirtyDayPlanSchema: Schema := ObjectOf(
    map[RealBusinessJustification := StringType, Plan := ArrayOf(DayPlanSchema)],
    [RealBusinessJustification, Plan])

  /** The script object requires exactly its three parts. */
  lemma ScriptSchemaFields()
    ensures Required(ScriptSchema) == {Hook, Conflict, Resolution} == Declared(ScriptSchema)
  {
  }

  /** The single plan requires the justification and the six shared fields,
      which is everything it declares. */
  lemma SinglePlanSchemaFields()
    ensures Required(SinglePlanSchema) == {RealBusinessJustification} + BaseFields
    ensures Declared(SinglePlanSchema) == {RealBusinessJustification} + BaseFields
  {
  }

  /** A day requires `day` and the six shared fields, which is everything it
      declares (so not the justification). */
  lemma DayPlanSchemaFields()
    ensures Required(DayPlanSchema) == {Day} + BaseFields
    ensures Declared(DayPlanSchema) == {Day} + BaseFields
  {
  }

  /** The 30-day plan requires the justification and `plan`, which is
      everything it declares. */
  lemma ThirtyDayPlanSchemaFields()
    ensures Required(ThirtyDayPlanSchema) == {RealBusinessJustification, Plan} == Declared(ThirtyDayPlanSchema)
  {
  }

  /** The shared fields hold no object that requires an undeclared field. */
  lemma BasePropertiesRequireOnlyDeclared()
    ensures forall f | f in BaseProperties :: RequiredAreDeclared(BaseProperties[f])
  {
    ScriptSchemaFields();
    assert RequiredAreDeclared(ScriptSchema);
  }

  /** No schema requires a field it does not declare, at any depth. */
  lemma SchemasRequireOnlyDeclared()
    ensures RequiredAreDeclared(SinglePlanSchema)
    ensures RequiredAreDeclared(DayPlanSchema)
    ensures RequiredAreDeclared(ThirtyDayPlanSchema)
  {
    SinglePlanRequiresOnlyDeclared();
    DayPlanRequiresOnlyDeclared();
    ThirtyDayPlanSchemaFields();
  }

  /** The single-plan schema requires only declared fields, at any depth. */
  lemma SinglePlanRequiresOnlyDeclared()
    ensures RequiredAreDeclared(SinglePlanSchema)
  {
    BasePropertiesRequireOnlyDeclared();
    SinglePlanSchemaFields();
    var props := SinglePlanSchema.properties;
    forall f | f in props
      ensures RequiredAreDeclared(props[f])
    {
      if f !in BaseProperties {
        assert props[f] == StringType;
      }
    }
  }

  /** The day schema requires only declared fields, at any depth. */
  lemma DayPlanRequiresOnlyDeclared()
    ensures RequiredAreDeclared(DayPlanSchema)
  {
    BasePropertiesRequireOnlyDeclared();
    DayPlanSchemaFields();
    var props := DayPlanSchema.properties;
    forall f | f in props
      ensures RequiredAreDeclared(props[f])
    {
      if f !in BaseProperties {
        assert props[f] == IntegerType;
      }
    }
  }
}
