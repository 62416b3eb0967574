/**
 * The Product schema: its field constraints, the `trim` setter on the name
 * and the defaults that `Product.create` fills in.
 */
module Catalog {
  import opened Common

  /** The `enum` of the category field, shared with the request validator. */
  const Categories: seq<string> := ["Electronics", "Clothing", "Books", "Home", "Sports", "Other"]

  const MaxNameLength := 100
  const MaxDescriptionLength := 2000
  const MaxRating := 5.0

  datatype Product = Product(
    name: string,
    description: string,
    price: real,
    category: string,
    stock: int,
    rating: real,
    numReviews: int,
    featured: bool)

  /** The characters `String.prototype.trim` strips: white space and line terminators. */
  predicate IsWhitespace(c: char)
  {
    || c == ' ' || c == '\t' || c == '\n' || c == '\r'
    || c == '\U{B}' || c == '\U{C}' || c == '\U{A0}' || c == '\U{1680}'
    || ('\U{2000}' <= c <= '\U{200A}')
    || c == '\U{2028}' || c == '\U{2029}' || c == '\U{202F}' || c == '\U{205F}'
    || c == '\U{3000}' || c == '\U{FEFF}'
  }

  /** Length of the run of white space at the start of `s`. */
  function LeadingSpace(s: string): (k: nat)
    ensures k <= |s|
    ensures forall j :: 0 <= j < k ==> IsWhitespace(s[j])
    ensures k < |s| ==> !IsWhitespace(s[k])
  {
    if s == [] || !IsWhitespace(s[0]) then 0 else 1 + LeadingSpace(s[1..])
  }

  /** Length of the run of white space at the end of `s`. */
  function TrailingSpace(s: string): (k: nat)
    ensures k <= |s|
    ensures forall j :: |s| - k <= j < |s| ==> IsWhitespace(s[j])
    ensures k < |s| ==> !IsWhitespace(s[|s| - 1 - k])
  {
    if s == [] || !IsWhitespace(s[|s| - 1]) then 0 else 1 + TrailingSpace(s[..|s| - 1])
  }

  /** The `trim: true` setter of the name field. */
  function Trim(s: string): (r: string)
    ensures |r| <= |s|
    ensures r == [] || (!IsWhitespace(r[0]) && !IsWhitespace(r[|r| - 1]))
  {
    var t := s[LeadingSpace(s)..];
    t[..|t| - TrailingSpace(t)]
  }

  /** Trimming removes white space at the two ends and nothing else. */
  lemma TrimRemovesOnlyEndSpace(s: string)
    ensures exists a, b :: 0 <= a <= b <= |s| && Trim(s) == s[a..b]
                        && (forall j :: 0 <= j < a ==> IsWhitespace(s[j]))
                        && (forall j :: b <= j < |s| ==> IsWhitespace(s[j]))
  {
    var a := LeadingSpace(s);
    var t := s[a..];
    var m := |t| - TrailingSpace(t);
    var b := a + m;
    assert Trim(s) == t[..m];
    assert t[..m] == s[a..b] by {
      forall j | 0 <= j < m ensures t[..m][j] == s[a..b][j] {
        assert t[j] == s[a + j];
      }
    }
    forall j | b <= j < |s| ensures IsWhitespace(s[j]) {
      assert s[j] == t[j - a];
    }
  }

  /** A name without surrounding white space is stored as it is. */
  lemma TrimKeepsTrimmed(s: string)
    requires s == [] || (!IsWhitespace(s[0]) && !IsWhitespace(s[|s| - 1]))
    ensures Trim(s) == s
  {
    var a := LeadingSpace(s);
    assert a == 0;
    assert s[a..] == s;
    var b := TrailingSpace(s);
    assert b == 0;
  }

  /** The setter is idempotent, so a stored name is a trimmed name. */
  lemma TrimIdempotent(s: string)
    ensures Trim(Trim(s)) == Trim(s)
  {
    TrimKeepsTrimmed(Trim(s));
  }

  /** The constraints of the Product schema, for a record as it is stored. */
  predicate ValidProduct(p: Product)
  {
    && 0 < |p.name| <= MaxNameLength && Trim(p.name) == p.name
    && 0 < |p.description| <= MaxDescriptionLength
    && p.price >= 0.0
    && p.category in Categories
    && p.stock >= 0
    && 0.0 <= p.rating <= MaxRating
  }

  /** The fields a client supplies to `Product.create`; absent fields are None. */
  datatype ProductInput = ProductInput(
    name: Option<string>,
    description: Option<string>,
    price: Option<real>,
    category: Option<string>,
    stock: Option<int>,
    featured: Option<bool>)

  /**
   * `Product.create`: trim the name, fill the defaults (stock 0, rating 0,
   * numReviews 0, featured false) and run the schema validators. A required
   * string must be non-empty.
   */
  function CreateProduct(input: ProductInput): (r: Result<Product>)
    ensures r.Ok? <==>
      && input.name.Some? && 0 < |Trim(input.name.value)| <= MaxNameLength
      && input.description.Some? && 0 < |input.description.value| <= MaxDescriptionLength
      && input.price.Some? && input.price.value >= 0.0
      && input.category.Some? && input.category.value in Categories
      && (input.stock.None? || input.stock.value >= 0)
    ensures r.Ok? ==>
      && ValidProduct(r.value)
      && r.value.name == Trim(input.name.value)
      && r.value.description == input.description.value
      && r.value.price == input.price.value
      && r.value.category == input.category.value
      && r.value.stock == (if input.stock.Some? then input.stock.value else 0)
      && r.value.featured == (input.featured.Some? && input.featured.value)
      && r.value.rating == 0.0 && r.value.numReviews == 0
    ensures r.Err? ==> r.error == ValidationError
  {
    if input.name.None? || input.description.None? || input.price.None? || input.category.None? then
      Err(ValidationError)
    else
      var name := Trim(input.name.value);
      TrimIdempotent(input.name.value);
      var p := Product(name, input.description.value, input.price.value, input.category.value,
                       if input.stock.Some? then input.stock.value else 0,
                       0.0, 0,
                       if input.featured.Some? then input.featured.value else false);
      if ValidProduct(p) then Ok(p) else Err(ValidationError)
  }
}
