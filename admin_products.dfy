/** The admin product table (src/components/admin/productList.jsx): brand
    normalisation of the fetched list, the inline edit buffer, save and
    delete, and the grouping of the table by brand. */
module AdminProducts {
  import opened Wrappers
  import opened Js

  /** The value of an editable cell: absent (`undefined`), the number the
      server sent, or the text typed into the number input (`e.target.value`
      is always a string). */
  datatype Cell = Missing | Num(n: int) | Typed(s: string)

  /** A product row. `brand` is `None` when the server sent none. */
  datatype AdminProduct = AdminProduct(
    id: string, name: string, brand: Option<string>, category: string,
    price: Cell, offerPrice: Cell, stock: Cell)

  /** `p.brand?.trim().toLowerCase() || "unknown"`. */
  function NormalizeBrand(b: Option<string>): (r: string)
    ensures r != ""
    ensures b.Some? && ToLower(Trim(b.value)) != "" ==> r == ToLower(Trim(b.value))
    ensures b.None? || ToLower(Trim(b.value)) == "" ==> r == "unknown"
  {
    if b.None? then "unknown"
    else
      var t := ToLower(Trim(b.value));
      if t == "" then "unknown" else t
  }

  /** The fallback brand is itself a normal brand. */
  lemma UnknownIsNormal()
    ensures Trim("unknown") == "unknown"
    ensures ToLower("unknown") == "unknown"
  {
    var u := "unknown";
    assert !IsSpace(u[0]) && !IsSpace(u[|u| - 1]);
    assert TrimStart(u) == u;
    assert TrimEnd(u) == u;
    assert forall i :: 0 <= i < |u| ==> 'a' <= u[i] <= 'z';
    LowerOfLowercase(u);
  }

  /** Lower-casing a string without capitals changes nothing. */
  lemma LowerOfLowercase(s: string)
    requires forall i :: 0 <= i < |s| ==> 'a' <= s[i] <= 'z'
    ensures ToLower(s) == s
  {
    assert forall i :: 0 <= i < |s| ==> ToLower(s)[i] == s[i];
  }

  /** A normalised brand is already normal: normalising twice changes nothing. */
  lemma NormalizeBrandIdempotent(b: Option<string>)
    ensures NormalizeBrand(Some(NormalizeBrand(b))) == NormalizeBrand(b)
  {
    var r := NormalizeBrand(b);
    if b.Some? && ToLower(Trim(b.value)) != "" {
      var s := Trim(b.value);
      TrimLowerCommute(s);
      TrimIdempotent(b.value);
      ToLowerIdempotent(s);
      assert Trim(ToLower(s)) == ToLower(s);
      assert ToLower(Trim(r)) == r;
    } else {
      UnknownIsNormal();
      assert Trim("unknown") == "unknown";
    }
  }

  /** The fetched list with every brand normalised; nothing else changes. */
  function NormalizeAll(ps: seq<AdminProduct>): (r: seq<AdminProduct>)
    ensures |r| == |ps|
    ensures forall i :: 0 <= i < |ps| ==>
              r[i] == ps[i].(brand := Some(NormalizeBrand(ps[i].brand)))
  {
    if ps == [] then [] else [ps[0].(brand := Some(NormalizeBrand(ps[0].brand)))] + NormalizeAll(ps[1..])
  }

  /** Loading an already loaded list again changes nothing. */
  lemma NormalizeAllIdempotent(ps: seq<AdminProduct>)
    ensures NormalizeAll(NormalizeAll(ps)) == NormalizeAll(ps)
  {
    var r := NormalizeAll(ps);
    forall i | 0 <= i < |ps| ensures NormalizeAll(r)[i] == r[i] {
      NormalizeBrandIdempotent(ps[i].brand);
    }
  }

  /** The edit buffer `editedData`: a key set to `None` is not in the object,
      a key set to `Some(Missing)` is in it with the value `undefined`. */
  datatype Edits = Edits(price: Option<Cell>, offerPrice: Option<Cell>, stock: Option<Cell>)

  const NoEdits := Edits(None, None, None)

  /** The names of the three inputs. */
  datatype EditField = PriceField | OfferPriceField | StockField

  /** `handleEdit`'s buffer: exactly the product's price, offer price and stock. */
  function EditsOf(p: AdminProduct): (e: Edits)
    ensures e.price == Some(p.price) && e.offerPrice == Some(p.offerPrice) && e.stock == Some(p.stock)
  {
    Edits(Some(p.price), Some(p.offerPrice), Some(p.stock))
  }

  /** `{ ...editedData, [name]: value }`. */
  function WithField(e: Edits, f: EditField, value: string): (r: Edits)
    ensures f == PriceField ==> r == e.(price := Some(Typed(value)))
    ensures f == OfferPriceField ==> r == e.(offerPrice := Some(Typed(value)))
    ensures f == StockField ==> r == e.(stock := Some(Typed(value)))
  {
    match f
    case PriceField => e.(price := Some(Typed(value)))
    case OfferPriceField => e.(offerPrice := Some(Typed(value)))
    case StockField => e.(stock := Some(Typed(value)))
  }

  /** `{ ...p, ...editedData }`: every key in the buffer overrides the product's,
      even one whose value is `undefined`. */
  function Merge(p: AdminProduct, e: Edits): (r: AdminProduct)
    ensures r.id == p.id && r.name == p.name && r.brand == p.brand && r.category == p.category
    ensures r.price == e.price.GetOr(p.price)
    ensures r.offerPrice == e.offerPrice.GetOr(p.offerPrice)
    ensures r.stock == e.stock.GetOr(p.stock)
  {
    p.(price := e.price.GetOr(p.price), offerPrice := e.offerPrice.GetOr(p.offerPrice),
       stock := e.stock.GetOr(p.stock))
  }

  /** Saving the buffer that `handleEdit` filled, untouched, gives the product back. */
  lemma MergeOwnEdits(p: AdminProduct)
    ensures Merge(p, EditsOf(p)) == p
  {
  }

  /** Saving the same buffer twice is the same as saving it once. */
  lemma MergeIdempotent(p: AdminProduct, e: Edits)
    ensures Merge(Merge(p, e), e) == Merge(p, e)
  {
  }

  /** The local update after a successful save: the products with that `_id`
      take the edits; every other product is kept as it was, in place. */
  function SaveAll(ps: seq<AdminProduct>, id: string, e: Edits): (r: seq<AdminProduct>)
    ensures |r| == |ps|
    ensures forall i :: 0 <= i < |ps| && ps[i].id == id ==> r[i] == Merge(ps[i], e)
    ensures forall i :: 0 <= i < |ps| && ps[i].id != id ==> r[i] == ps[i]
  {
    if ps == [] then []
    else [if ps[0].id == id then Merge(ps[0], e) else ps[0]] + SaveAll(ps[1..], id, e)
  }

  /** Saving a row's own, untouched buffer leaves the list as it was, when the
      `_id` names only that row. */
  lemma SaveOwnEditsKeepsList(ps: seq<AdminProduct>, p: AdminProduct)
    requires forall q :: q in ps && q.id == p.id ==> q == p
    ensures SaveAll(ps, p.id, EditsOf(p)) == ps
  {
    var r := SaveAll(ps, p.id, EditsOf(p));
    forall i | 0 <= i < |ps| ensures r[i] == ps[i] {
      if ps[i].id == p.id {
        assert ps[i] in ps;
        MergeOwnEdits(p);
      }
    }
  }

  /** `products.filter((p) => p._id !== id)`. */
  function Without(ps: seq<AdminProduct>, id: string): (r: seq<AdminProduct>)
    ensures |r| <= |ps|
    ensures forall p :: p in r ==> p in ps && p.id != id
  {
    if ps == [] then []
    else
      var rest := Without(ps[1..], id);
      if ps[0].id != id then [ps[0]] + rest else rest
  }

  /** The delete keeps every product with another `_id`. */
  lemma {:induction false} WithoutKeepsOthers(ps: seq<AdminProduct>, id: string, p: AdminProduct)
    requires p in ps && p.id != id
    ensures p in Without(ps, id)
  {
    var rest := Without(ps[1..], id);
    if p != ps[0] {
      assert p in ps[1..];
      WithoutKeepsOthers(ps[1..], id, p);
      assert Without(ps, id) == rest || Without(ps, id) == [ps[0]] + rest;
    } else {
      assert Without(ps, id) == [p] + rest;
    }
  }

  /** The delete keeps the remaining products in their order. */
  lemma {:induction false} WithoutAppend(a: seq<AdminProduct>, b: seq<AdminProduct>, id: string)
    ensures Without(a + b, id) == Without(a, id) + Without(b, id)
  {
    if a == [] {
      assert a + b == b;
    } else {
      assert (a + b)[0] == a[0];
      assert (a + b)[1..] == a[1..] + b;
      WithoutAppend(a[1..], b, id);
    }
  }

  /** The brand group a product is listed under: `p.brand || "unknown"`. */
  function GroupKey(p: AdminProduct): (k: string)
    ensures k != ""
  {
    TextOr(p.brand, "unknown")
  }

  /** The products of group `k`, in the order `push` added them. */
  function Members(ps: seq<AdminProduct>, k: string): (r: seq<AdminProduct>)
    ensures |r| <= |ps|
    ensures forall p :: p in r ==> p in ps && GroupKey(p) == k
  {
    if ps == [] then []
    else
      var init := Members(ps[..|ps| - 1], k);
      var last := ps[|ps| - 1];
      assert forall p :: p in ps[..|ps| - 1] ==> p in ps;
      if GroupKey(last) == k then init + [last] else init
  }

  /** The group keys in the order their first product appears, which is the
      order `Object.keys` lists them. */
  function BrandKeys(ps: seq<AdminProduct>): seq<string> {
    if ps == [] then []
    else
      var init := BrandKeys(ps[..|ps| - 1]);
      var k := GroupKey(ps[|ps| - 1]);
      if k in init then init else init + [k]
  }

  predicate Distinct(ks: seq<string>) {
    forall i, j :: 0 <= i < j < |ks| ==> ks[i] != ks[j]
  }

  /** The keys are exactly the groups of the list's products, each listed once. */
  lemma {:induction false} BrandKeysExact(ps: seq<AdminProduct>)
    ensures Distinct(BrandKeys(ps))
    ensures forall k :: k in BrandKeys(ps) <==> exists p :: p in ps && GroupKey(p) == k
  {
    if ps != [] {
      var init := ps[..|ps| - 1];
      var last := ps[|ps| - 1];
      BrandKeysExact(init);
      assert ps == init + [last];
      forall k ensures k in BrandKeys(ps) <==> exists p :: p in ps && GroupKey(p) == k {
        if k in BrandKeys(ps) && k != GroupKey(last) {
          var p :| p in init && GroupKey(p) == k;
          assert p in ps;
        }
        if k == GroupKey(last) {
          assert last in ps;
        }
        if p :| p in ps && GroupKey(p) == k {
          if p != last {
            assert p in init;
          }
        }
      }
    }
  }

  /** No key is listed twice. */
  lemma {:induction false} BrandKeysDistinct(ps: seq<AdminProduct>)
    ensures Distinct(BrandKeys(ps))
  {
    if ps != [] {
      BrandKeysDistinct(ps[..|ps| - 1]);
    }
  }

  /** A group with no key has no products. */
  lemma {:induction false} MembersOfAbsentKey(ps: seq<AdminProduct>, k: string)
    requires k !in BrandKeys(ps)
    ensures Members(ps, k) == []
  {
    if ps != [] {
      MembersOfAbsentKey(ps[..|ps| - 1], k);
    }
  }

  /** Every product is in the group of its own key and in no other. */
  lemma {:induction false} MembersExact(ps: seq<AdminProduct>, k: string, p: AdminProduct)
    ensures p in Members(ps, k) <==> p in ps && GroupKey(p) == k
  {
    if ps != [] {
      var init := ps[..|ps| - 1];
      MembersExact(init, k, p);
      assert ps == init + [ps[|ps| - 1]];
    }
  }

  /** The total of the group sizes over `ks`. */
  function SizeSum(ks: seq<string>, ps: seq<AdminProduct>): (n: nat)
    ensures ks == [] ==> n == 0
  {
    if ks == [] then 0 else SizeSum(ks[..|ks| - 1], ps) + |Members(ps, ks[|ks| - 1])|
  }

  /** One more product adds one to exactly one group among distinct keys. */
  lemma {:induction false} SizeSumSnoc(ks: seq<string>, ps: seq<AdminProduct>, x: AdminProduct)
    requires Distinct(ks)
    ensures SizeSum(ks, ps + [x]) == SizeSum(ks, ps) + (if GroupKey(x) in ks then 1 else 0)
  {
    if ks != [] {
      var init := ks[..|ks| - 1];
      var k := ks[|ks| - 1];
      assert (ps + [x])[..|ps + [x]| - 1] == ps;
      SizeSumSnoc(init, ps, x);
      assert GroupKey(x) in ks <==> GroupKey(x) in init || GroupKey(x) == k;
      assert k !in init;
    }
  }

  /** The group sizes add up to the length of the list. */
  lemma {:induction false} GroupSizesSum(ps: seq<AdminProduct>)
    ensures SizeSum(BrandKeys(ps), ps) == |ps|
  {
    if ps != [] {
      var init, last := ps[..|ps| - 1], ps[|ps| - 1];
      assert ps == init + [last];
      var ks, k := BrandKeys(init), GroupKey(last);
      GroupSizesSum(init);
      BrandKeysDistinct(init);
      BrandKeysSnoc(init, last);
      SizeSumSnoc(ks, init, last);
      if k !in ks {
        MembersOfAbsentKey(init, k);
        MembersSnoc(init, last, k);
        assert (ks + [k])[..|ks|] == ks;
      }
    }
  }

  /** The products of `a + b` in group `k` are those of `a`, then those of `b`. */
  lemma {:induction false} MembersAppend(a: seq<AdminProduct>, b: seq<AdminProduct>, k: string)
    ensures Members(a + b, k) == Members(a, k) + Members(b, k)
  {
    if b == [] {
      assert a + b == a;
    } else {
      var init := b[..|b| - 1];
      assert (a + b)[..|a + b| - 1] == a + init;
      assert (a + b)[|a + b| - 1] == b[|b| - 1];
      MembersAppend(a, init, k);
    }
  }

  /** One more product joins the group of its own key and no other. */
  lemma MembersSnoc(ps: seq<AdminProduct>, x: AdminProduct, k: string)
    ensures Members(ps + [x], k) == if GroupKey(x) == k then Members(ps, k) + [x] else Members(ps, k)
  {
    assert (ps + [x])[..|ps|] == ps;
  }

  /** One more product adds its key at the end, unless it is already there. */
  lemma BrandKeysSnoc(ps: seq<AdminProduct>, x: AdminProduct)
    ensures BrandKeys(ps + [x]) ==
            if GroupKey(x) in BrandKeys(ps) then BrandKeys(ps) else BrandKeys(ps) + [GroupKey(x)]
  {
    assert (ps + [x])[..|ps|] == ps;
  }

  /** `keys` and `groups` are what the reduce has built from `pre`. */
  ghost predicate GroupsOf(pre: seq<AdminProduct>, keys: seq<string>, groups: map<string, seq<AdminProduct>>) {
    keys == BrandKeys(pre) &&
    (forall k :: k in groups <==> k in keys) &&
    (forall k :: k in groups ==> groups[k] == Members(pre, k))
  }

  /** One step of the reduce: `acc` (`keys`, `groups`) becomes `ready` once
      the group of `p` exists, and gets `p` pushed onto that group. */
  lemma GroupPush(pre: seq<AdminProduct>, p: AdminProduct,
                  keys: seq<string>, groups: map<string, seq<AdminProduct>>,
                  readyKeys: seq<string>, ready: map<string, seq<AdminProduct>>)
    requires GroupsOf(pre, keys, groups)
    requires GroupKey(p) in groups ==> readyKeys == keys && ready == groups
    requires GroupKey(p) !in groups ==>
               readyKeys == keys + [GroupKey(p)] && ready == groups[GroupKey(p) := []]
    ensures GroupKey(p) in ready
    ensures GroupsOf(pre + [p], readyKeys, ready[GroupKey(p) := ready[GroupKey(p)] + [p]])
  {
    var k := GroupKey(p);
    var pushed := ready[k := ready[k] + [p]];
    BrandKeysSnoc(pre, p);
    if k !in groups {
      MembersOfAbsentKey(pre, k);
    }
    assert ready[k] == Members(pre, k);
    assert forall j :: j in pushed <==> j in readyKeys;
    forall j | j in pushed
      ensures pushed[j] == Members(pre + [p], j)
    {
      MembersSnoc(pre, p, j);
    }
  }

  /** The property names every object inherits from `Object.prototype`. Each
      of them is truthy on `{}`, and none of their values has a `push` method. */
  const InheritedNames: seq<string> := [
    "constructor", "__proto__", "hasOwnProperty", "isPrototypeOf",
    "propertyIsEnumerable", "toString", "valueOf", "toLocaleString",
    "__defineGetter__", "__defineSetter__", "__lookupGetter__", "__lookupSetter__"]

  /** `k` is one of `names`. */
  predicate Listed(k: string, names: seq<string>) {
    names != [] && (names[0] == k || Listed(k, names[1..]))
  }

  /** `acc[k]` on the accumulator finds an inherited member instead of a group. */
  predicate Inherited(k: string) {
    Listed(k, InheritedNames)
  }

  /** The brand " Constructor " trims to "Constructor". */
  lemma TrimConstructor(b: string, c: string)
    requires b == " Constructor " && c == "Constructor"
    ensures Trim(b) == c
  {
    assert b[1..] == c + " ";
    assert TrimStart(b[1..]) == b[1..];
    assert (c + " ")[..|c|] == c;
    assert TrimEnd(c) == c;
  }

  /** "Constructor" lower-cases to "constructor". */
  lemma LowerConstructor(c: string, d: string)
    requires c == "Constructor" && d == "constructor"
    ensures ToLower(c) == d
  {
    var l := ToLower(c);
    forall i | 0 <= i < |c|
      ensures l[i] == d[i]
    {
      assert l[i] == LowerChar(c[i]);
    }
  }

  /** A brand typed as " Constructor " is loaded as "constructor". */
  lemma NormalizeConstructor(b: string)
    requires b == " Constructor "
    ensures NormalizeBrand(Some(b)) == "constructor"
  {
    TrimConstructor(b, "Constructor");
    LowerConstructor("Constructor", "constructor");
  }

  /** "constructor" is inherited, so a product with the brand " Constructor "
      cannot be grouped. */
  lemma ConstructorIsInherited()
    ensures Inherited("constructor")
  {
    assert InheritedNames[0] == "constructor";
  }

  /** A loaded list holding a product whose brand normalises to an inherited
      name cannot be grouped: the reduce throws. */
  lemma InheritedBrandThrows(ps: seq<AdminProduct>, i: nat)
    requires i < |ps| && Inherited(NormalizeBrand(ps[i].brand))
    ensures exists p :: p in NormalizeAll(ps) && Inherited(GroupKey(p))
  {
    var n := NormalizeAll(ps);
    assert GroupKey(n[i]) == NormalizeBrand(ps[i].brand);
    assert n[i] in n;
  }

  /** The reduce into an accumulator on which the keys `names` are already
      truthy and have no `push`: the keys in first-appearance order and, per
      key, the array the products were pushed onto, unless some product's key
      is one of `names`, in which case the `push` throws (`threw`). */
  method GroupWith(ps: seq<AdminProduct>, names: seq<string>)
    returns (threw: bool, keys: seq<string>, groups: map<string, seq<AdminProduct>>)
    ensures threw <==> exists j :: 0 <= j < |ps| && Listed(GroupKey(ps[j]), names)
    ensures !threw ==> keys == BrandKeys(ps)
    ensures !threw ==> forall k :: k in groups <==> k in keys
    ensures !threw ==> forall k :: k in groups ==> groups[k] == Members(ps, k)
  {
    keys := [];
    groups := map[];
    var i := 0;
    while i < |ps|
      invariant 0 <= i <= |ps|
      invariant GroupsOf(ps[..i], keys, groups)
      invariant forall j :: 0 <= j < i ==> !Listed(GroupKey(ps[j]), names)
    {
      var p := ps[i];
      var k := GroupKey(p);
      if Listed(k, names) {
        threw := true;
        return;
      }
      ghost var keys0, groups0 := keys, groups;
      if k !in groups {
        groups := groups[k := []];
        keys := keys + [k];
      }
      GroupPush(ps[..i], p, keys0, groups0, keys, groups);
      groups := groups[k := groups[k] + [p]];
      assert ps[..i + 1] == ps[..i] + [p];
      i := i + 1;
    }
    threw := false;
    assert ps[..i] == ps;
  }

  /** The `groupedByBrand` reduce into `{}`: a product whose key is an
      inherited name finds that member truthy, so no group is created, and
      the `push` on it throws a `TypeError`, reported as `threw`. */
  method GroupByBrand(ps: seq<AdminProduct>)
    returns (threw: bool, keys: seq<string>, groups: map<string, seq<AdminProduct>>)
    ensures threw <==> exists p :: p in ps && Inherited(GroupKey(p))
    ensures !threw ==> keys == BrandKeys(ps)
    ensures !threw ==> forall k :: k in groups <==> k in keys
    ensures !threw ==> forall k :: k in groups ==> groups[k] == Members(ps, k)
  {
    threw, keys, groups := GroupWith(ps, InheritedNames);
    if !threw {
      forall p | p in ps
        ensures !Inherited(GroupKey(p))
      {
        var j :| 0 <= j < |ps| && ps[j] == p;
      }
    }
  }

  /** The requests the page sends. */
  datatype Call = GetProducts | PutProduct(id: string, edits: Edits) | DeleteProduct(id: string)

  /** What the product fetch returned: `res.data.items`, and `res.data` itself
      when it is an array; or a failure. */
  datatype Fetch = Fetched(items: Option<seq<AdminProduct>>, body: Option<seq<AdminProduct>>) | FetchFailed

  /** The page's state. */
  class ProductManager {
    var products: seq<AdminProduct>
    var loading: bool
    var editMode: Option<string>
    var editedData: Edits
    ghost var calls: seq<Call>

    constructor ()
      ensures products == [] && loading && editMode == None && editedData == Edits(None, None, None)
      ensures calls == []
    {
      products := [];
      loading := true;
      editMode := None;
      editedData := NoEdits;
      calls := [];
    }

    /** `fetchProducts`: `res.data.items || res.data`, brands normalised. When
        neither is a list the `.map` throws and the list stays as it was. */
    method Load(fetch: Fetch)
      modifies this
      ensures !loading && editMode == old(editMode) && editedData == old(editedData)
      ensures calls == old(calls) + [GetProducts]
      ensures fetch.Fetched? && fetch.items.Some? ==> products == NormalizeAll(fetch.items.value)
      ensures fetch.Fetched? && fetch.items.None? && fetch.body.Some? ==>
                products == NormalizeAll(fetch.body.value)
      ensures fetch.FetchFailed? || (fetch.items.None? && fetch.body.None?) ==> products == old(products)
    {
      calls := calls + [GetProducts];
      match fetch {
        case Fetched(items, body) =>
          if items.Some? {
            products := NormalizeAll(items.value);
          } else if body.Some? {
            products := NormalizeAll(body.value);
          }
        case FetchFailed =>
      }
      loading := false;
    }

    /** `handleEdit(product)`. */
    method HandleEdit(p: AdminProduct)
      modifies this
      ensures editMode == Some(p.id) && editedData == EditsOf(p)
      ensures products == old(products) && loading == old(loading) && calls == old(calls)
    {
      editMode := Some(p.id);
      editedData := EditsOf(p);
    }

    /** `handleChange` for the input named `f`. */
    method HandleChange(f: EditField, value: string)
      modifies this
      ensures editedData == WithField(old(editedData), f, value)
      ensures products == old(products) && editMode == old(editMode) && loading == old(loading)
      ensures calls == old(calls)
    {
      editedData := WithField(editedData, f, value);
    }

    /** `handleSave(id)`; `ok` is the outcome of the PUT. On failure the list
        and the edit mode stay as they were. */
    method HandleSave(id: string, ok: bool)
      modifies this
      ensures calls == old(calls) + [PutProduct(id, old(editedData))]
      ensures editedData == old(editedData) && loading == old(loading)
      ensures ok ==> products == SaveAll(old(products), id, editedData) && editMode == None
      ensures !ok ==> products == old(products) && editMode == old(editMode)
    {
      calls := calls + [PutProduct(id, editedData)];
      if ok {
        products := SaveAll(products, id, editedData);
        editMode := None;
      }
    }

    /** `handleDelete(id)`; `confirmed` is the answer to the confirmation
        dialog and `ok` the outcome of the DELETE. */
    method HandleDelete(id: string, confirmed: bool, ok: bool)
      modifies this
      ensures editMode == old(editMode) && editedData == old(editedData) && loading == old(loading)
      ensures !confirmed ==> products == old(products) && calls == old(calls)
      ensures confirmed ==> calls == old(calls) + [DeleteProduct(id)]
      ensures confirmed && ok ==> products == Without(old(products), id)
      ensures confirmed && !ok ==> products == old(products)
    {
      if !confirmed {
        return;
      }
      calls := calls + [DeleteProduct(id)];
      if ok {
        products := Without(products, id);
      }
    }
  }
}
