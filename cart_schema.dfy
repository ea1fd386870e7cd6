/** The cart routes' request schemas. */
module CartSchemas {
  import opened Wrappers
  import opened Text
  import opened Json
  import opened Zod
  import opened Validate

  /** `quantity: z.number().int().min(1)`. */
  const QuantitySchema: Schema := ZNumber(false, [SafeInteger, AtLeast(1.0)])

  /** `itemId: z.coerce.number()`. */
  const ItemIdParams: Schema := ZObject([Field("itemId", ZNumber(true, []))])

  const AddToCartBody: Schema := ZObject([Field("productId", ZNumber(false, [])), Field("quantity", QuantitySchema)])

  const AddToCart: Schema := ZObject([Field("body", AddToCartBody)])

  const UpdateCartItemBody: Schema := ZObject([Field("quantity", QuantitySchema)])

  const UpdateCartItem: Schema := ZObject([Field("body", UpdateCartItemBody), Field("params", ItemIdParams)])

  const DeleteCartItem: Schema := ZObject([Field("params", ItemIdParams)])

  /** A JSON number that is a safe integer of at least 1. */
  predicate IsQuantity(v: Option<Value>)
  {
    IsNumber(v) && IsSafeInteger(v.value.n) && v.value.n >= 1.0
  }

  /** A route parameter `Number(...)` reads as a number. */
  predicate NumericParam(params: map<string, string>, key: string)
  {
    key in params && NumberOf(params[key]).Some?
  }

  lemma QuantityAccepts(v: Option<Value>, path: seq<string>, isEmail: string -> bool)
    ensures Issues(QuantitySchema, v, path, isEmail) == [] <==> IsQuantity(v)
  {
    NumberAccepts(false, [SafeInteger, AtLeast(1.0)], v, path, isEmail);
  }

  lemma ItemIdAccepts(params: map<string, string>, isEmail: string -> bool)
    ensures Issues(ItemIdParams, Some(Obj(map k | k in params :: Str(params[k]))), ["params"], isEmail) == []
      <==> NumericParam(params, "itemId")
  {
    var v := Obj(map k | k in params :: Str(params[k]));
    ObjectOfOne(Field("itemId", ZNumber(true, [])), Some(v), ["params"], isEmail);
    NumberAccepts(true, [], Get(v, "itemId"), ["params"] + ["itemId"], isEmail);
  }

  /** Add: the body's `productId` is any JSON number and its `quantity` a whole number of at least 1. */
  lemma AddToCartAccepts(body: Option<Value>, query: map<string, Value>, params: map<string, string>, isEmail: string -> bool)
    ensures Accepts(AddToCart, Some(RequestValue(body, query, params)), isEmail) <==>
      body.Some? && body.value.Obj? && IsNumber(Get(body.value, "productId")) && IsQuantity(Get(body.value, "quantity"))
  {
    var request := RequestValue(body, query, params);
    assert [] + ["body"] == ["body"];
    ObjectOfOne(Field("body", AddToCartBody), Some(request), [], isEmail);
    ObjectOfTwo(Field("productId", ZNumber(false, [])), Field("quantity", QuantitySchema), body, ["body"], isEmail);
    if body.Some? {
      NumberAccepts(false, [], Get(body.value, "productId"), ["body"] + ["productId"], isEmail);
      QuantityAccepts(Get(body.value, "quantity"), ["body"] + ["quantity"], isEmail);
    }
  }

  /** Update: the body's `quantity` as for add, and an `itemId` parameter that reads as a number. */
  lemma UpdateCartItemAccepts(body: Option<Value>, query: map<string, Value>, params: map<string, string>, isEmail: string -> bool)
    ensures Accepts(UpdateCartItem, Some(RequestValue(body, query, params)), isEmail) <==>
      body.Some? && body.value.Obj? && IsQuantity(Get(body.value, "quantity")) && NumericParam(params, "itemId")
  {
    var request := RequestValue(body, query, params);
    assert [] + ["body"] == ["body"] && [] + ["params"] == ["params"];
    ObjectOfTwo(Field("body", UpdateCartItemBody), Field("params", ItemIdParams), Some(request), [], isEmail);
    ObjectOfOne(Field("quantity", QuantitySchema), body, ["body"], isEmail);
    if body.Some? {
      QuantityAccepts(Get(body.value, "quantity"), ["body"] + ["quantity"], isEmail);
    }
    ItemIdAccepts(params, isEmail);
  }

  /** Delete: only the `itemId` parameter is constrained; any body and query pass. */
  lemma DeleteCartItemAccepts(body: Option<Value>, query: map<string, Value>, params: map<string, string>, isEmail: string -> bool)
    ensures Accepts(DeleteCartItem, Some(RequestValue(body, query, params)), isEmail) <==> NumericParam(params, "itemId")
  {
    assert [] + ["params"] == ["params"];
    ObjectOfOne(Field("params", ItemIdParams), Some(RequestValue(body, query, params)), [], isEmail);
    ItemIdAccepts(params, isEmail);
  }

  /** A numeric string is not a `z.number()`: add refuses `"quantity": "2"`. */
  lemma QuantityIsNotCoerced(isEmail: string -> bool)
    ensures !Accepts(AddToCart, Some(RequestValue(Some(Obj(map["productId" := Num(1.0), "quantity" := Str("2")])), map[], map[])), isEmail)
  {
    AddToCartAccepts(Some(Obj(map["productId" := Num(1.0), "quantity" := Str("2")])), map[], map[], isEmail);
  }
}
