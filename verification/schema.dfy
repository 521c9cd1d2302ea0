/**
 * The shared input schema `youtubeIdeaSchema`: the page checks its selection against it
 * before submitting, and the server procedure declares it as its input.
 */
module Schema {

  /** What the page submits and the procedure receives. */
  datatype Input = Input(topics: seq<string>, adjectives: seq<string>, demographic: string)

  /** The keys of the schema, which are also the keys of the field-error record. */
  datatype Field = Topics | Adjectives | Demographic

  /** The refinement or length bounds the schema puts on one field, as the schema writes them. */
  predicate FieldOk(input: Input, f: Field) {
    match f
    case Topics => |input.topics| > 0 && |input.topics| < 4
    case Adjectives => |input.adjectives| > 0 && |input.adjectives| < 4
    case Demographic => |input.demographic| >= 1 && |input.demographic| <= 5
  }

  predicate Valid(input: Input) {
    FieldOk(input, Topics) && FieldOk(input, Adjectives) && FieldOk(input, Demographic)
  }

  /** The keys present in the flattened field errors: exactly the offending fields. */
  function ErrorFields(input: Input): (r: set<Field>)
    ensures Topics in r <==> !(1 <= |input.topics| <= 3)
    ensures Adjectives in r <==> !(1 <= |input.adjectives| <= 3)
    ensures Demographic in r <==> !(1 <= |input.demographic| <= 5)
  {
    set f | f in {Topics, Adjectives, Demographic} && !FieldOk(input, f)
  }

  /** Result of `safeParse`: the parsed data, or the field-keyed errors. */
  datatype ParseResult = Success(data: Input) | Failure(fieldErrors: set<Field>)

  /** `youtubeIdeaSchema.safeParse`: checks every field, collecting all failures rather than stopping at the first. */
  function SafeParse(input: Input): (r: ParseResult)
    ensures r.Success? <==>
      && 1 <= |input.topics| <= 3
      && 1 <= |input.adjectives| <= 3
      && 1 <= |input.demographic| <= 5
    ensures r.Success? ==> r.data == input
    ensures r.Failure? ==> r.fieldErrors != {}
    ensures r.Failure? ==> forall f :: f in r.fieldErrors <==> !FieldOk(input, f)
  {
    if Valid(input) then Success(input) else Failure(ErrorFields(input))
  }
}
