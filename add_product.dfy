/** The admin "add product" form (src/components/admin/AddProduct.jsx): the
    required-field check, the payload it posts, and the reset after success. */
module AddProduct {
  import opened Wrappers
  import opened Js

  /** The seven text inputs, each holding what was typed. */
  datatype NewProduct = NewProduct(
    name: string, brand: string, category: string, price: string,
    offerPrice: string, stock: string, description: string)

  const Blank := NewProduct("", "", "", "", "", "", "")

  datatype Input = Name | BrandInput | Category | Price | OfferPrice | Stock | Description

  /** `{ ...product, [e.target.name]: e.target.value }`. */
  function WithInput(p: NewProduct, f: Input, value: string): (r: NewProduct)
    ensures Read(r, f) == value
    ensures forall g :: g != f ==> Read(r, g) == Read(p, g)
  {
    match f
    case Name => p.(name := value)
    case BrandInput => p.(brand := value)
    case Category => p.(category := value)
    case Price => p.(price := value)
    case OfferPrice => p.(offerPrice := value)
    case Stock => p.(stock := value)
    case Description => p.(description := value)
  }

  /** The value of one input. */
  function Read(p: NewProduct, f: Input): string {
    match f
    case Name => p.name
    case BrandInput => p.brand
    case Category => p.category
    case Price => p.price
    case OfferPrice => p.offerPrice
    case Stock => p.stock
    case Description => p.description
  }

  /** The required fields are name, brand, category and price. */
  predicate Submittable(p: NewProduct) {
    p.name != "" && p.brand != "" && p.category != "" && p.price != ""
  }

  /** The description lines: split on "\n", empty lines dropped. */
  function DescriptionLines(d: string): (r: seq<string>)
    ensures forall i :: 0 <= i < |r| ==> r[i] != "" && '\n' !in r[i]
  {
    var parts := Split(d, '\n');
    var r := NonEmpty(parts);
    assert forall i :: 0 <= i < |r| ==> r[i] in parts;
    r
  }

  /** The pieces laid end to end. */
  function Flatten(parts: seq<string>): string {
    if parts == [] then [] else parts[0] + Flatten(parts[1..])
  }

  /** `s` with every `c` removed. */
  function Remove(s: string, c: char): (r: string)
    ensures c !in r && |r| <= |s|
  {
    if s == [] then [] else (if s[0] == c then [] else [s[0]]) + Remove(s[1..], c)
  }

  lemma {:induction false} FlattenSplit(s: string, sep: char)
    ensures Flatten(Split(s, sep)) == Remove(s, sep)
  {
    if s != [] {
      var rest := Split(s[1..], sep);
      FlattenSplit(s[1..], sep);
      if s[0] == sep {
        assert Split(s, sep)[1..] == rest;
      } else {
        var r := Split(s, sep);
        assert r[1..] == rest[1..];
        assert Flatten(rest) == rest[0] + Flatten(rest[1..]);
        assert Flatten(r) == [s[0]] + rest[0] + Flatten(rest[1..]);
      }
    }
  }

  lemma {:induction false} FlattenNonEmpty(parts: seq<string>)
    ensures Flatten(NonEmpty(parts)) == Flatten(parts)
  {
    if parts != [] {
      FlattenNonEmpty(parts[1..]);
      var rest := NonEmpty(parts[1..]);
      if parts[0] == [] {
        assert NonEmpty(parts) == rest;
        assert Flatten(parts) == [] + Flatten(parts[1..]);
      } else {
        var r := [parts[0]] + rest;
        assert NonEmpty(parts) == r;
        assert r[0] == parts[0] && r[1..] == rest;
        assert Flatten(r) == parts[0] + Flatten(rest);
      }
    }
  }

  /** Nothing typed in the description is lost but the line breaks: the lines
      sent, laid end to end, are the description without its "\n"s. */
  lemma DescriptionKeepsText(d: string)
    ensures Flatten(DescriptionLines(d)) == Remove(d, '\n')
  {
    FlattenNonEmpty(Split(d, '\n'));
    FlattenSplit(d, '\n');
  }

  /** The body of the POST. */
  datatype Payload = Payload(
    name: string, brand: string, category: string, price: string, offerPrice: string,
    stock: string, description: seq<string>, images: seq<string>)

  /** `productData`: the inputs as typed, but the brand trimmed and lower-cased,
      the description as lines and the uploaded images. */
  function PayloadOf(p: NewProduct, images: seq<string>): (r: Payload)
    ensures r.name == p.name && r.category == p.category && r.price == p.price
    ensures r.offerPrice == p.offerPrice && r.stock == p.stock && r.images == images
    ensures r.brand == ToLower(Trim(p.brand)) && r.description == DescriptionLines(p.description)
  {
    Payload(p.name, ToLower(Trim(p.brand)), p.category, p.price, p.offerPrice, p.stock,
            DescriptionLines(p.description), images)
  }

  /** The brand sent has no surrounding white space and no capital letter, and
      would come out the same if normalised again. */
  lemma PayloadBrandNormal(p: NewProduct, images: seq<string>)
    ensures var b := PayloadOf(p, images).brand;
      Trim(b) == b && ToLower(b) == b &&
      (b == [] || (!IsSpace(b[0]) && !IsSpace(b[|b| - 1]))) &&
      forall i :: 0 <= i < |b| ==> !IsUpper(b[i])
  {
    var t := Trim(p.brand);
    TrimLowerCommute(t);
    TrimIdempotent(p.brand);
    ToLowerIdempotent(t);
    var b := ToLower(t);
    if t != [] {
      LowerKeepsSpace(t[0]);
      LowerKeepsSpace(t[|t| - 1]);
    }
  }

  datatype Notice = FillRequired | ProductAdded | AddFailed

  class AddProductPage {
    var product: NewProduct
    var images: seq<string>
    var loading: bool

    constructor ()
      ensures product == Blank && images == [] && !loading
    {
      product := Blank;
      images := [];
      loading := false;
    }

    /** `handleChange` for the input named `f`. */
    method HandleChange(f: Input, value: string)
      modifies this
      ensures product == WithInput(old(product), f, value)
      ensures images == old(images) && loading == old(loading)
    {
      product := WithInput(product, f, value);
    }

    /** `handleImageUpload`: `urls` are the object URLs made for the chosen
        files; they replace the earlier choice. */
    method HandleImageUpload(urls: seq<string>)
      modifies this
      ensures images == urls && product == old(product) && loading == old(loading)
    {
      images := urls;
    }

    /** `handleSubmit`; `postOk` is the outcome of the POST. Returns what was
        posted, if anything, and the notice shown. */
    method HandleSubmit(postOk: bool) returns (sent: Option<Payload>, notice: Notice)
      modifies this
      ensures !loading
      ensures !Submittable(old(product)) ==>
                sent == None && notice == FillRequired &&
                product == old(product) && images == old(images)
      ensures Submittable(old(product)) ==> sent == Some(PayloadOf(old(product), old(images)))
      ensures Submittable(old(product)) && postOk ==>
                notice == ProductAdded && product == Blank && images == []
      ensures Submittable(old(product)) && !postOk ==>
                notice == AddFailed && product == old(product) && images == old(images)
    {
      loading := true;
      if !Submittable(product) {
        notice := FillRequired;
        loading := false;
        sent := None;
        return;
      }
      var data := PayloadOf(product, images);
      sent := Some(data);
      if postOk {
        notice := ProductAdded;
        product := Blank;
        images := [];
      } else {
        notice := AddFailed;
      }
      loading := false;
    }
  }
}
