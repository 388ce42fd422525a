/** The product grid (src/components/ProductCard.jsx): the list it shows
    (search results, or up to two products of each featured brand) and the
    wishlist button's login guard. */
module ProductCard {
  import opened Wrappers
  import opened Js
  import CartEngine

  /** A product's `brand`: absent, a string, or some other kind of value. */
  datatype Brand = NoBrand | Text(s: string) | NotText

  datatype Listing = Listing(id: string, name: string, brand: Brand)

  /** The featured brands, in display order. */
  const FeaturedBrands: seq<string> :=
    ["nike", "puma", "adidas", "skechers", "crocs", "vfcorporation", "deckersbrands"]

  /** `ps.filter(f)`: the elements satisfying `f`, in order. */
  function Filter(ps: seq<Listing>, f: Listing -> bool): (r: seq<Listing>)
    ensures |r| <= |ps|
    ensures forall p :: p in r ==> p in ps && f(p)
  {
    if ps == [] then []
    else
      var rest := Filter(ps[1..], f);
      if f(ps[0]) then [ps[0]] + rest else rest
  }

  /** The filter keeps every element that satisfies `f`. */
  lemma {:induction false} FilterComplete(ps: seq<Listing>, f: Listing -> bool, p: Listing)
    requires p in ps && f(p)
    ensures p in Filter(ps, f)
  {
    var rest := Filter(ps[1..], f);
    if p == ps[0] {
      assert Filter(ps, f) == [p] + rest;
    } else {
      assert p in ps[1..];
      FilterComplete(ps[1..], f, p);
      assert Filter(ps, f) == rest || Filter(ps, f) == [ps[0]] + rest;
    }
  }

  /** The filter keeps nothing exactly when no element satisfies `f`. */
  lemma FilterEmpty(ps: seq<Listing>, f: Listing -> bool)
    ensures Filter(ps, f) == [] <==> forall p :: p in ps ==> !f(p)
  {
    var r := Filter(ps, f);
    if r == [] {
      forall p | p in ps ensures !f(p) {
        if f(p) {
          FilterComplete(ps, f, p);
        }
      }
    } else {
      assert r[0] in r;
    }
  }

  /** The filter works piecewise, so the kept elements stay in their order. */
  lemma {:induction false} FilterAppend(a: seq<Listing>, b: seq<Listing>, f: Listing -> bool)
    ensures Filter(a + b, f) == Filter(a, f) + Filter(b, f)
  {
    if a == [] {
      assert a + b == b;
    } else {
      assert (a + b)[0] == a[0];
      assert (a + b)[1..] == a[1..] + b;
      FilterAppend(a[1..], b, f);
    }
  }

  /** The search filter for the lower-cased query `q`: the name, or a truthy brand, contains it. */
  predicate MatchesQuery(p: Listing, q: string) {
    Includes(ToLower(p.name), q) ||
    (p.brand.Text? && p.brand.s != "" && Includes(ToLower(p.brand.s), q))
  }

  function SearchResults(ps: seq<Listing>, q: string): (r: seq<Listing>)
    ensures forall p :: p in r ==> p in ps && MatchesQuery(p, q)
  {
    Filter(ps, p => MatchesQuery(p, q))
  }

  /** The search shows exactly the matching products. */
  lemma SearchResultsExact(ps: seq<Listing>, q: string, p: Listing)
    ensures p in SearchResults(ps, q) <==> p in ps && MatchesQuery(p, q)
  {
    if p in ps && MatchesQuery(p, q) {
      FilterComplete(ps, p => MatchesQuery(p, q), p);
    }
  }

  /** The search keeps the products in their original order. */
  lemma SearchResultsAppend(a: seq<Listing>, b: seq<Listing>, q: string)
    ensures SearchResults(a + b, q) == SearchResults(a, q) + SearchResults(b, q)
  {
    FilterAppend(a, b, p => MatchesQuery(p, q));
  }

  /** `typeof p.brand === "string" && p.brand.toLowerCase().trim().includes(key)`. */
  predicate CarriesBrand(p: Listing, key: string) {
    p.brand.Text? && Includes(Trim(ToLower(p.brand.s)), key)
  }

  function BrandMatches(ps: seq<Listing>, key: string): (r: seq<Listing>)
    ensures |r| <= |ps|
    ensures forall p :: p in r ==> p in ps && CarriesBrand(p, key)
  {
    Filter(ps, p => CarriesBrand(p, key))
  }

  /** Every string-branded product carrying the key is kept. */
  lemma BrandMatchesComplete(ps: seq<Listing>, key: string, p: Listing)
    requires p in ps && CarriesBrand(p, key)
    ensures p in BrandMatches(ps, key)
  {
    FilterComplete(ps, p => CarriesBrand(p, key), p);
  }

  /** `.slice(0, n)`. */
  function Take<T>(s: seq<T>, n: nat): (r: seq<T>)
    ensures |r| <= n && |r| <= |s| && r == s[..|r|]
    ensures |s| <= n ==> r == s
  {
    if |s| <= n then s else s[..n]
  }

  /** The `flatMap` over the brand keys: at most two products per key. */
  function BrandPicks(ps: seq<Listing>, keys: seq<string>): (r: seq<Listing>)
    ensures keys == [] ==> r == []
    ensures |r| <= 2 * |keys|
  {
    if keys == [] then []
    else Take(BrandMatches(ps, keys[0]), 2) + BrandPicks(ps, keys[1..])
  }

  /** At most two products per brand key, each a product of the list that
      carries one of the keys. */
  lemma {:induction false} BrandPicksBounded(ps: seq<Listing>, keys: seq<string>)
    ensures |BrandPicks(ps, keys)| <= 2 * |keys|
    ensures forall p :: p in BrandPicks(ps, keys) ==>
              p in ps && exists k :: k in keys && CarriesBrand(p, k)
  {
    if keys != [] {
      BrandPicksBounded(ps, keys[1..]);
      var m := BrandMatches(ps, keys[0]);
      var head := Take(m, 2);
      assert BrandPicks(ps, keys) == head + BrandPicks(ps, keys[1..]);
      forall p | p in BrandPicks(ps, keys)
        ensures p in ps && exists k :: k in keys && CarriesBrand(p, k)
      {
        if p in head {
          var i :| 0 <= i < |head| && head[i] == p;
          assert m[i] == p && m[i] in m;
          assert keys[0] in keys && CarriesBrand(p, keys[0]);
        } else {
          assert p in BrandPicks(ps, keys[1..]);
          var k :| k in keys[1..] && CarriesBrand(p, k);
          assert k in keys;
        }
      }
    }
  }

  /** The picks are empty exactly when every key has no match. */
  lemma {:induction false} BrandPicksNone(ps: seq<Listing>, keys: seq<string>)
    ensures BrandPicks(ps, keys) == [] <==> forall k :: k in keys ==> BrandMatches(ps, k) == []
  {
    if keys != [] {
      BrandPicksNone(ps, keys[1..]);
      var m := BrandMatches(ps, keys[0]);
      assert BrandPicks(ps, keys) == Take(m, 2) + BrandPicks(ps, keys[1..]);
      assert Take(m, 2) == [] <==> m == [];
      assert forall k :: k in keys <==> k == keys[0] || k in keys[1..];
    }
  }

  /** The picks are empty exactly when no product of the list carries any of the keys. */
  lemma BrandPicksEmpty(ps: seq<Listing>, keys: seq<string>)
    ensures BrandPicks(ps, keys) == [] <==>
            forall p, k :: p in ps && k in keys ==> !CarriesBrand(p, k)
  {
    BrandPicksNone(ps, keys);
    forall k | k in keys
      ensures BrandMatches(ps, k) == [] <==> forall p :: p in ps ==> !CarriesBrand(p, k)
    {
      FilterEmpty(ps, p => CarriesBrand(p, k));
    }
  }

  /** The picks of one key are its first matches, at most two of them. */
  lemma BrandPicksOne(ps: seq<Listing>, key: string)
    ensures var m, r := BrandMatches(ps, key), BrandPicks(ps, [key]);
            |r| <= 2 && |r| <= |m| && r == m[..|r|] && (|r| == 2 || r == m)
  {
    assert [key][1..] == [];
    assert BrandPicks(ps, [key]) == Take(BrandMatches(ps, key), 2);
  }

  /** The picks of several keys are the picks of each key, in key order. */
  lemma {:induction false} BrandPicksAppend(ps: seq<Listing>, a: seq<string>, b: seq<string>)
    ensures BrandPicks(ps, a + b) == BrandPicks(ps, a) + BrandPicks(ps, b)
  {
    if a == [] {
      assert a + b == b;
    } else {
      assert (a + b)[0] == a[0];
      assert (a + b)[1..] == a[1..] + b;
      BrandPicksAppend(ps, a[1..], b);
    }
  }

  /** `groupedProducts`: `query` is the `search` parameter. */
  function Grouped(ps: seq<Listing>, query: Option<string>): (r: seq<Listing>)
    ensures ps == [] ==> r == []
    ensures forall p :: p in r ==> p in ps
  {
    if ps == [] then []
    else if Present(query) then SearchResults(ps, ToLower(query.value))
    else
      var picked := BrandPicks(ps, FeaturedBrands);
      BrandPicksBounded(ps, FeaturedBrands);
      if picked != [] then picked else ps
  }

  /** What the grid shows. An empty list shows nothing. With a query, exactly
      the matching products. Without one: when some product carries a
      featured brand, the brand picks, at most 14 products each carrying a
      featured brand; when none does, the whole list. */
  lemma GroupedShows(ps: seq<Listing>, query: Option<string>)
    ensures ps == [] ==> Grouped(ps, query) == []
    ensures ps != [] && Present(query) ==>
              forall p :: p in Grouped(ps, query) <==> p in ps && MatchesQuery(p, ToLower(query.value))
    ensures ps != [] && !Present(query) &&
            (forall p, k :: p in ps && k in FeaturedBrands ==> !CarriesBrand(p, k)) ==>
              Grouped(ps, query) == ps
    ensures ps != [] && !Present(query) &&
            (exists p, k :: p in ps && k in FeaturedBrands && CarriesBrand(p, k)) ==>
              Grouped(ps, query) == BrandPicks(ps, FeaturedBrands) &&
              |Grouped(ps, query)| <= 14 &&
              forall p :: p in Grouped(ps, query) ==>
                p in ps && exists k :: k in FeaturedBrands && CarriesBrand(p, k)
  {
    if ps != [] {
      if Present(query) {
        forall p ensures p in Grouped(ps, query) <==> p in ps && MatchesQuery(p, ToLower(query.value)) {
          SearchResultsExact(ps, ToLower(query.value), p);
        }
      } else {
        BrandPicksBounded(ps, FeaturedBrands);
        BrandPicksEmpty(ps, FeaturedBrands);
      }
    }
  }

  /** The wishlist button's effects. */
  datatype WishEffect = LoginFirst | PostWishlist(productId: string, ok: bool) | WishlistAdded | WishlistFailed

  /** `addToWishlist`: without a user only an error is shown and nothing is sent. */
  function AddToWishlist(user: Option<CartEngine.User>, productId: string, ok: bool): (r: seq<WishEffect>)
    ensures user.None? <==> r == [LoginFirst]
    ensures user.Some? ==> |r| == 2 && r[0] == PostWishlist(productId, ok)
    ensures forall i :: 0 <= i < |r| && r[i].PostWishlist? ==> user.Some?
  {
    if user.None? then [LoginFirst]
    else [PostWishlist(productId, ok), if ok then WishlistAdded else WishlistFailed]
  }
}
