/**
 * The request-body validators of the middleware. A Joi object schema is
 * modelled as a map from key to a check and a required flag; a body passes
 * when it has no unknown key, every present key passes its check and every
 * required key is present. Only a passing body reaches `next()`.
 */
module Validation {
  import opened Common
  import opened Catalog

  /** A JSON value in a request body; booleans, null and objects are all `JOther`. */
  datatype Json = JString(s: string) | JNumber(n: real) | JArray(elems: seq<Json>) | JOther

  type Body = map<string, Json>

  /** The Joi rules the schemas use. Every `Joi.string()` rule refuses the empty string. */
  datatype Check =
    | Text(min: nat, max: Option<nat>)   // Joi.string().min(min).max(max)
    | Email                              // Joi.string().email()
    | Number(atLeast: real)              // Joi.number().min(atLeast)
    | Integer(least: int, most: Option<int>)  // Joi.number().integer().min(least).max(most)
    | OneOf(values: seq<string>)         // Joi.string().valid(...values)
    | Texts                              // Joi.array().items(Joi.string())

  datatype Rule = Rule(check: Check, required: bool)

  type Schema = map<string, Rule>

  /** The outcome of a middleware: call `next()`, or answer 400 and stop. */
  datatype Verdict = Next | BadRequest

  /** `Number.MAX_SAFE_INTEGER`, 2^53 - 1. */
  const MaxSafeInteger: real := 9007199254740991.0

  /** `Joi.number()` refuses by default any number outside the safe range (`number.unsafe`). */
  predicate SafeNumber(x: real)
  {
    -MaxSafeInteger <= x <= MaxSafeInteger
  }

  predicate IsInteger(x: real)
  {
    x.Floor as real == x
  }

  /** One value against one rule; the email syntax check is a parameter. */
  predicate Conforms(check: Check, v: Json, isEmail: string -> bool)
  {
    match check
    case Text(min, max) => v.JString? && v.s != "" && min <= |v.s| && (max.None? || |v.s| <= max.value)
    case Email => v.JString? && v.s != "" && isEmail(v.s)
    case Number(atLeast) => v.JNumber? && SafeNumber(v.n) && v.n >= atLeast
    case Integer(least, most) =>
      v.JNumber? && SafeNumber(v.n) && IsInteger(v.n) && least as real <= v.n && (most.None? || v.n <= most.value as real)
    case OneOf(values) => v.JString? && v.s in values
    case Texts => v.JArray? && forall i :: 0 <= i < |v.elems| ==> v.elems[i].JString? && v.elems[i].s != ""
  }

  /** `schema.validate(body)` reports no error. */
  predicate Accepts(schema: Schema, body: Body, isEmail: string -> bool)
  {
    && (forall k :: k in body ==> k in schema)
    && (forall k :: k in schema && k in body ==> Conforms(schema[k].check, body[k], isEmail))
    && (forall k :: k in schema && k !in body ==> !schema[k].required)
  }

  const RegisterSchema: Schema := map[
    "name" := Rule(Text(2, Some(50)), true),
    "email" := Rule(Email, true),
    "password" := Rule(Text(6, None), true)]

  const ProductSchema: Schema := map[
    "name" := Rule(Text(3, Some(MaxNameLength)), true),
    "description" := Rule(Text(10, Some(MaxDescriptionLength)), true),
    "price" := Rule(Number(0.0), true),
    "category" := Rule(OneOf(Categories), true),
    "stock" := Rule(Number(0.0), true),
    "brand" := Rule(Text(0, None), false),
    "images" := Rule(Texts, false)]

  /** A present string field whose length lies in [min, max]. */
  predicate TextIn(body: Body, key: string, min: nat, max: nat)
  {
    key in body && body[key].JString? && min <= |body[key].s| <= max
  }

  /** `validateRegister`: name of 2..50 characters, an email, a password of at least 6; nothing else. */
  function ValidateRegister(body: Body, isEmail: string -> bool): (v: Verdict)
    ensures v == Next <==>
      && (forall k :: k in body ==> k == "name" || k == "email" || k == "password")
      && TextIn(body, "name", 2, 50)
      && "email" in body && body["email"].JString? && body["email"].s != "" && isEmail(body["email"].s)
      && "password" in body && body["password"].JString? && |body["password"].s| >= 6
  {
    if Accepts(RegisterSchema, body, isEmail) then Next else BadRequest
  }

  /** The product body conditions, key by key. */
  predicate ProductFieldsOk(body: Body)
  {
    && TextIn(body, "name", 3, MaxNameLength)
    && TextIn(body, "description", 10, MaxDescriptionLength)
    && "price" in body && body["price"].JNumber? && 0.0 <= body["price"].n <= MaxSafeInteger
    && "category" in body && body["category"].JString? && body["category"].s in Categories
    && "stock" in body && body["stock"].JNumber? && 0.0 <= body["stock"].n <= MaxSafeInteger
    && ("brand" in body ==> body["brand"].JString? && body["brand"].s != "")
    && ("images" in body ==> ImageList(body["images"]))
  }

  /** `Joi.array().items(Joi.string())`: an array whose every element is a non-empty string. */
  predicate ImageList(v: Json)
  {
    Conforms(Texts, v, NoEmail)
  }

  /** The email check handed to schemas that have no email rule: it is never consulted. */
  predicate NoEmail(s: string)
  {
    false
  }

  lemma ProductSchemaEntries()
    ensures ProductSchema.Keys == {"name", "description", "price", "category", "stock", "brand", "images"}
    ensures ProductSchema["name"] == Rule(Text(3, Some(MaxNameLength)), true)
    ensures ProductSchema["description"] == Rule(Text(10, Some(MaxDescriptionLength)), true)
    ensures ProductSchema["price"] == Rule(Number(0.0), true)
    ensures ProductSchema["category"] == Rule(OneOf(Categories), true)
    ensures ProductSchema["stock"] == Rule(Number(0.0), true)
    ensures ProductSchema["brand"] == Rule(Text(0, None), false)
    ensures ProductSchema["images"] == Rule(Texts, false)
  {
  }

  lemma ProductAcceptsSound(body: Body)
    requires Accepts(ProductSchema, body, NoEmail)
    ensures ProductFieldsOk(body)
  {
    ProductSchemaEntries();
    assert Conforms(Text(3, Some(MaxNameLength)), body["name"], NoEmail);
    assert Conforms(Text(10, Some(MaxDescriptionLength)), body["description"], NoEmail);
    assert Conforms(Number(0.0), body["price"], NoEmail);
    assert Conforms(OneOf(Categories), body["category"], NoEmail);
    assert Conforms(Number(0.0), body["stock"], NoEmail);
    if "brand" in body {
      assert Conforms(Text(0, None), body["brand"], NoEmail);
    }
    if "images" in body {
      assert Conforms(Texts, body["images"], NoEmail);
    }
  }

  lemma ProductAcceptsComplete(body: Body)
    requires forall k :: k in body ==> k in ProductSchema
    requires ProductFieldsOk(body)
    ensures Accepts(ProductSchema, body, NoEmail)
  {
    ProductSchemaEntries();
    forall k | k in ProductSchema && k in body
      ensures Conforms(ProductSchema[k].check, body[k], NoEmail)
    {
      if k == "images" {
        assert Conforms(Texts, body[k], NoEmail);
      }
    }
  }

  /**
   * `validateProduct`: name 3..100, description 10..2000, price and stock
   * numbers in [0, 2^53 - 1], category one of the six, optional non-empty brand and
   * list of non-empty image strings; nothing else.
   */
  function ValidateProduct(body: Body): (v: Verdict)
    ensures v == Next <==> (forall k :: k in body ==> k in ProductSchema) && ProductFieldsOk(body)
  {
    if Accepts(ProductSchema, body, NoEmail) then
      ProductAcceptsSound(body);
      Next
    else
      if (forall k :: k in body ==> k in ProductSchema) && ProductFieldsOk(body) then
        ProductAcceptsComplete(body);
        BadRequest
      else
        BadRequest
  }

  /** A validated body meets the Product schema's price, stock, category and description bounds. */
  lemma ValidatedProductIsCreatable(body: Body)
    requires ValidateProduct(body) == Next
    ensures body["price"].n >= 0.0 && body["stock"].n >= 0.0
    ensures body["category"].s in Categories
    ensures 0 < |body["description"].s| <= MaxDescriptionLength
  {
  }
}
