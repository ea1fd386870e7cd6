/** The product-creation request schema. */
module ProductSchemas {
  import opened Wrappers
  import opened Text
  import opened Json
  import opened Http
  import opened Zod
  import opened Validate
  import opened Schema
  import opened Products

  const NameField: Field := Field("name", ZString([MinLength(1)]))
  const DescriptionField: Field := Field("description", ZOptional(ZString([])))
  const PriceField: Field := Field("price", ZNumber(true, [AtLeast(0.0)]))
  const StockField: Field := Field("stockQuantity", ZNumber(true, [SafeInteger, AtLeast(0.0)]))
  const CategoryField: Field := Field("categoryId", ZNumber(true, [SafeInteger, AtLeast(1.0)]))

  const CreateProduct: Zod.Schema :=
    ZObject([Field("body", ZObject([NameField, DescriptionField, PriceField, StockField, CategoryField]))])

  /** A coerced property whose number is at least `bound`, and a safe integer when `whole` is set. */
  predicate CoercesTo(v: Option<Value>, bound: real, whole: bool)
  {
    Coerces(v) && ToNumber(v.value).value >= bound && (whole ==> IsSafeInteger(ToNumber(v.value).value))
  }

  /**
   * A non-empty name, an optional string description, a price `Number(...)` reads as at
   * least 0 (a fraction is fine), a whole stock of at least 0 and a whole category id of at least 1.
   */
  lemma CreateProductAccepts(body: Option<Value>, query: map<string, Value>, params: map<string, string>, isEmail: string -> bool)
    ensures Accepts(CreateProduct, Some(RequestValue(body, query, params)), isEmail) <==>
      && body.Some? && body.value.Obj?
      && LongString(Get(body.value, "name"), 1)
      && (Get(body.value, "description").None? || IsString(Get(body.value, "description")))
      && CoercesTo(Get(body.value, "price"), 0.0, false)
      && CoercesTo(Get(body.value, "stockQuantity"), 0.0, true)
      && CoercesTo(Get(body.value, "categoryId"), 1.0, true)
  {
    var request := RequestValue(body, query, params);
    var fields := [NameField, DescriptionField, PriceField, StockField, CategoryField];
    assert [] + ["body"] == ["body"];
    ObjectOfOne(Field("body", ZObject(fields)), Some(request), [], isEmail);
    assert Accepts(CreateProduct, Some(request), isEmail) <==> Issues(ZObject(fields), body, ["body"], isEmail) == [];
    assert fields == [NameField, DescriptionField] + [PriceField, StockField, CategoryField];
    ObjectSplit([NameField, DescriptionField], [PriceField, StockField, CategoryField], body, ["body"], isEmail);
    ObjectOfTwo(NameField, DescriptionField, body, ["body"], isEmail);
    ObjectOfThree(PriceField, StockField, CategoryField, body, ["body"], isEmail);
    if body.Some? && body.value.Obj? {
      FieldsAccept(body.value, isEmail);
    }
  }

  lemma FieldsAccept(b: Value, isEmail: string -> bool)
    ensures Issues(NameField.schema, Get(b, NameField.key), ["body"] + [NameField.key], isEmail) == []
      <==> LongString(Get(b, "name"), 1)
    ensures Issues(DescriptionField.schema, Get(b, DescriptionField.key), ["body"] + [DescriptionField.key], isEmail) == []
      <==> Get(b, "description").None? || IsString(Get(b, "description"))
    ensures Issues(PriceField.schema, Get(b, PriceField.key), ["body"] + [PriceField.key], isEmail) == []
      <==> CoercesTo(Get(b, "price"), 0.0, false)
    ensures Issues(StockField.schema, Get(b, StockField.key), ["body"] + [StockField.key], isEmail) == []
      <==> CoercesTo(Get(b, "stockQuantity"), 0.0, true)
    ensures Issues(CategoryField.schema, Get(b, CategoryField.key), ["body"] + [CategoryField.key], isEmail) == []
      <==> CoercesTo(Get(b, "categoryId"), 1.0, true)
  {
    StringAccepts([MinLength(1)], Get(b, "name"), ["body"] + ["name"], isEmail);
    StringAccepts([], Get(b, "description"), ["body"] + ["description"], isEmail);
    NumberAccepts(true, [AtLeast(0.0)], Get(b, "price"), ["body"] + ["price"], isEmail);
    WholeAtLeast(Get(b, "stockQuantity"), 0.0, ["body"] + ["stockQuantity"], isEmail);
    WholeAtLeast(Get(b, "categoryId"), 1.0, ["body"] + ["categoryId"], isEmail);
  }

  /** `z.coerce.number().int().min(bound)`. */
  lemma WholeAtLeast(v: Option<Value>, bound: real, path: seq<string>, isEmail: string -> bool)
    ensures Issues(ZNumber(true, [SafeInteger, AtLeast(bound)]), v, path, isEmail) == [] <==> CoercesTo(v, bound, true)
  {
    NumberAccepts(true, [SafeInteger, AtLeast(bound)], v, path, isEmail);
    assert [SafeInteger, AtLeast(bound)][0] == SafeInteger && [SafeInteger, AtLeast(bound)][1] == AtLeast(bound);
  }

  /** A JSON body with a fractional price. */
  const FractionalPriceBody: Value :=
    Obj(map["name" := Str("Pen"), "price" := Num(9.5), "stockQuantity" := Num(5.0), "categoryId" := Num(1.0)])

  /** The schema lets a fractional price through: it asks only for a number of at least 0. */
  lemma FractionalPriceValidates(isEmail: string -> bool)
    ensures Accepts(CreateProduct, Some(RequestValue(Some(FractionalPriceBody), map[], map[])), isEmail)
  {
    CreateProductAccepts(Some(FractionalPriceBody), map[], map[], isEmail);
  }

  /** `validate` hands the handler the body as it came, and the `integer` column refuses 9.5 before the row draws an id. */
  lemma FractionalPriceRefused(categories: seq<Category>, next: int)
    ensures InsertProduct(categories, ProductInput("Pen", None, Num(9.5), Num(5.0), Num(1.0)), None, next) == Refused(InvalidInput, false)
  {
  }

  /** A JSON body whose price is `null`. */
  const NullPriceBody: Value :=
    Obj(map["name" := Str("Pen"), "price" := Null, "stockQuantity" := Num(5.0), "categoryId" := Num(1.0)])

  /** `Number(null)` is 0, so the schema lets a null price through. */
  lemma NullPriceValidates(isEmail: string -> bool)
    ensures Accepts(CreateProduct, Some(RequestValue(Some(NullPriceBody), map[], map[])), isEmail)
  {
    CreateProductAccepts(Some(NullPriceBody), map[], map[], isEmail);
  }

  /** The handler then inserts SQL NULL: the row has drawn its id when the not-null check refuses it. */
  lemma NullPriceDrawsId(categories: seq<Category>, next: int)
    ensures InsertProduct(categories, ProductInput("Pen", None, Null, Num(5.0), Num(1.0)), None, next) == Refused(NotNull, true)
  {
  }

  /** A name too long for its column is reported before the null price. */
  lemma LongNameBeforeNull(categories: seq<Category>, next: int, name: string)
    requires |name| > ProductNameLength
    ensures InsertProduct(categories, ProductInput(name, None, Null, Num(5.0), Num(1.0)), None, next) == Refused(ValueTooLong, true)
  {
  }
}
