/** `get_affected_routes`: the routes whose region key matches a region name,
    narrowed by a product filter. The route table is a parameter; the table the
    tool hard-codes is `SimulatedRoutes`. */
module RouteLookup {
  import opened Text

  datatype Route = Route(id: string, name: string, product: string, currentRisk: int)

  /** One key of the route table with its routes, in the table's insertion order. */
  datatype RegionRoutes = RegionRoutes(region: string, routes: seq<Route>)

  /** The tool's result: the affected routes and their number. */
  datatype AffectedRoutes = AffectedRoutes(region: string, productFilter: string, routes: seq<Route>, count: nat)

  /** The region name matches a table key when its lower-cased form occurs in the lower-cased key. */
  predicate RegionMatches(key: string, region: string)
  {
    Contains(Lower(key), Lower(region))
  }

  /** The product filter: exactly "all", or a case-insensitive substring of the route's product. */
  predicate ProductMatches(productType: string, route: Route)
  {
    productType == "all" || Contains(Lower(route.product), Lower(productType))
  }

  /** The routes of one key that pass the product filter, in order. */
  function KeepProduct(routes: seq<Route>, productType: string): seq<Route>
  {
    if routes == [] then []
    else
      KeepProduct(routes[..|routes| - 1], productType)
      + (if ProductMatches(productType, routes[|routes| - 1]) then [routes[|routes| - 1]] else [])
  }

  /** Every kept route, key by key, in table order. */
  function Affected(db: seq<RegionRoutes>, region: string, productType: string): seq<Route>
  {
    if db == [] then []
    else
      var last := db[|db| - 1];
      Affected(db[..|db| - 1], region, productType)
      + (if RegionMatches(last.region, region) then KeepProduct(last.routes, productType) else [])
  }

  /** The tool itself: a scan over the keys and, for each matching key, over its routes. */
  method GetAffectedRoutes(db: seq<RegionRoutes>, region: string, productType: string := "all")
    returns (result: AffectedRoutes)
    ensures result.routes == Affected(db, region, productType)
    ensures result.count == |result.routes|
    ensures result.region == region && result.productFilter == productType
    ensures forall r :: r in result.routes ==> ProductMatches(productType, r)
  {
    var regionLower := Lower(region);
    var affected: seq<Route> := [];
    for k := 0 to |db|
      invariant affected == Affected(db[..k], region, productType)
    {
      var entry := db[k];
      assert db[..k + 1][..k] == db[..k];
      if Contains(Lower(entry.region), regionLower) {
        var routes := entry.routes;
        for j := 0 to |routes|
          invariant affected == Affected(db[..k], region, productType) + KeepProduct(routes[..j], productType)
        {
          assert routes[..j + 1][..j] == routes[..j];
          if productType == "all" || Contains(Lower(routes[j].product), Lower(productType)) {
            affected := affected + [routes[j]];
          }
        }
        assert routes[..|routes|] == routes;
      }
    }
    assert db[..|db|] == db;
    AffectedPassProductFilter(db, region, productType);
    result := AffectedRoutes(region, productType, affected, |affected|);
  }

  /** A route passes the product filter of one key exactly when it is one of the key's routes and matches. */
  lemma {:induction false} KeepProductMembers(routes: seq<Route>, productType: string, r: Route)
    ensures r in KeepProduct(routes, productType) <==> r in routes && ProductMatches(productType, r)
  {
    if routes != [] {
      KeepProductMembers(routes[..|routes| - 1], productType, r);
      assert routes == routes[..|routes| - 1] + [routes[|routes| - 1]];
    }
  }

  /** A route is reported exactly when some key matching the region lists it and it passes the product filter. */
  lemma AffectedMembers(db: seq<RegionRoutes>, region: string, productType: string, r: Route)
    ensures r in Affected(db, region, productType) <==>
              ProductMatches(productType, r) &&
              exists k :: 0 <= k < |db| && RegionMatches(db[k].region, region) && r in db[k].routes
  {
    if r in Affected(db, region, productType) {
      AffectedSound(db, region, productType, r);
    }
    if ProductMatches(productType, r) &&
       exists k :: 0 <= k < |db| && RegionMatches(db[k].region, region) && r in db[k].routes {
      var k :| 0 <= k < |db| && RegionMatches(db[k].region, region) && r in db[k].routes;
      AffectedComplete(db, region, productType, r, k);
    }
  }

  /** A reported route passes the product filter and is listed under a matching key. */
  lemma {:induction false} AffectedSound(db: seq<RegionRoutes>, region: string, productType: string, r: Route)
    requires r in Affected(db, region, productType)
    ensures ProductMatches(productType, r)
    ensures exists k :: 0 <= k < |db| && RegionMatches(db[k].region, region) && r in db[k].routes
  {
    var init := db[..|db| - 1];
    var last := db[|db| - 1];
    if r in Affected(init, region, productType) {
      AffectedSound(init, region, productType, r);
      var k :| 0 <= k < |init| && RegionMatches(init[k].region, region) && r in init[k].routes;
      assert db[k] == init[k];
    } else {
      KeepProductMembers(last.routes, productType, r);
      assert RegionMatches(db[|db| - 1].region, region) && r in db[|db| - 1].routes;
    }
  }

  /** A route that passes the product filter and is listed under matching key `k` is reported. */
  lemma {:induction false} AffectedComplete(db: seq<RegionRoutes>, region: string, productType: string, r: Route, k: nat)
    requires k < |db| && RegionMatches(db[k].region, region) && r in db[k].routes
    requires ProductMatches(productType, r)
    ensures r in Affected(db, region, productType)
  {
    var init := db[..|db| - 1];
    if k < |init| {
      assert init[k] == db[k];
      AffectedComplete(init, region, productType, r, k);
    } else {
      KeepProductMembers(db[|db| - 1].routes, productType, r);
    }
  }

  /** Every reported route passes the product filter. */
  lemma AffectedPassProductFilter(db: seq<RegionRoutes>, region: string, productType: string)
    ensures forall r :: r in Affected(db, region, productType) ==> ProductMatches(productType, r)
  {
    forall r | r in Affected(db, region, productType) ensures ProductMatches(productType, r) {
      AffectedMembers(db, region, productType, r);
    }
  }

  /** Splitting the table splits the result: keys are visited in table order. */
  lemma {:induction false} AffectedAppend(d1: seq<RegionRoutes>, d2: seq<RegionRoutes>, region: string, productType: string)
    ensures Affected(d1 + d2, region, productType) == Affected(d1, region, productType) + Affected(d2, region, productType)
    decreases |d2|
  {
    if d2 == [] {
      assert d1 + d2 == d1;
    } else {
      var init := d2[..|d2| - 1];
      assert (d1 + d2)[..|d1 + d2| - 1] == d1 + init;
      assert (d1 + d2)[|d1 + d2| - 1] == d2[|d2| - 1];
      AffectedAppend(d1, init, region, productType);
    }
  }

  /** `s` is `t` with some elements dropped, the rest in their original order. */
  predicate IsSubsequence<T(==)>(s: seq<T>, t: seq<T>)
    decreases |t|
  {
    if t == [] then s == []
    else
      IsSubsequence(s, t[..|t| - 1]) ||
      (s != [] && s[|s| - 1] == t[|t| - 1] && IsSubsequence(s[..|s| - 1], t[..|t| - 1]))
  }

  /** Adding elements after the end of `t` keeps `s` a subsequence of it. */
  lemma {:induction false} SubsequenceExtend<T>(s: seq<T>, t: seq<T>, u: seq<T>)
    requires IsSubsequence(s, t)
    ensures IsSubsequence(s, t + u)
    decreases |u|
  {
    if u == [] {
      assert t + u == t;
    } else {
      SubsequenceExtend(s, t, u[..|u| - 1]);
      assert (t + u)[..|t + u| - 1] == t + u[..|u| - 1];
    }
  }

  /** Appending one element to both sides keeps the subsequence relation. */
  lemma SubsequenceAppendBoth<T>(s: seq<T>, t: seq<T>, x: T)
    requires IsSubsequence(s, t)
    ensures IsSubsequence(s + [x], t + [x])
  {
    assert (s + [x])[..|s + [x]| - 1] == s;
    assert (t + [x])[..|t + [x]| - 1] == t;
  }

  /** Subsequences concatenate. */
  lemma {:induction false} SubsequenceConcat<T>(s1: seq<T>, t1: seq<T>, s2: seq<T>, t2: seq<T>)
    requires IsSubsequence(s1, t1) && IsSubsequence(s2, t2)
    ensures IsSubsequence(s1 + s2, t1 + t2)
    decreases |t2|
  {
    if t2 == [] {
      assert s1 + s2 == s1 && t1 + t2 == t1;
    } else {
      var ti := t2[..|t2| - 1];
      var x := t2[|t2| - 1];
      assert t1 + t2 == (t1 + ti) + [x];
      if IsSubsequence(s2, ti) {
        SubsequenceConcat(s1, t1, s2, ti);
        SubsequenceExtend(s1 + s2, t1 + ti, [x]);
      } else {
        var si := s2[..|s2| - 1];
        SubsequenceConcat(s1, t1, si, ti);
        SubsequenceAppendBoth(s1 + si, t1 + ti, x);
        assert s1 + s2 == (s1 + si) + [x];
      }
    }
  }

  /** The routes of a key that are kept stay in the key's order. */
  lemma {:induction false} KeepProductInOrder(routes: seq<Route>, productType: string)
    ensures IsSubsequence(KeepProduct(routes, productType), routes)
  {
    if routes != [] {
      var init := routes[..|routes| - 1];
      var last := routes[|routes| - 1];
      KeepProductInOrder(init, productType);
      assert routes == init + [last];
      if ProductMatches(productType, last) {
        SubsequenceAppendBoth(KeepProduct(init, productType), init, last);
      } else {
        SubsequenceExtend(KeepProduct(init, productType), init, [last]);
        assert KeepProduct(routes, productType) == KeepProduct(init, productType);
      }
    }
  }

  /** All routes of the table, key after key. */
  function AllRoutes(db: seq<RegionRoutes>): seq<Route>
  {
    if db == [] then [] else AllRoutes(db[..|db| - 1]) + db[|db| - 1].routes
  }

  /** The reported routes appear in table order: keys in insertion order, routes in key order. */
  lemma {:induction false} AffectedInTableOrder(db: seq<RegionRoutes>, region: string, productType: string)
    ensures IsSubsequence(Affected(db, region, productType), AllRoutes(db))
  {
    if db != [] {
      var init := db[..|db| - 1];
      var last := db[|db| - 1];
      AffectedInTableOrder(init, region, productType);
      if RegionMatches(last.region, region) {
        KeepProductInOrder(last.routes, productType);
        SubsequenceConcat(Affected(init, region, productType), AllRoutes(init),
                          KeepProduct(last.routes, productType), last.routes);
      } else {
        SubsequenceExtend(Affected(init, region, productType), AllRoutes(init), last.routes);
        assert Affected(db, region, productType) == Affected(init, region, productType);
      }
    }
  }

  /** The route table the tool hard-codes. */
  const SimulatedRoutes: seq<RegionRoutes> := [
    RegionRoutes("Taiwan", [
      Route("tsmc-shenzhen", "TSMC to Shenzhen", "semiconductors", 72),
      Route("taiwan-japan", "Taiwan to Japan", "electronics", 65)
    ]),
    RegionRoutes("Red Sea", [
      Route("shanghai-rotterdam", "Shanghai to Rotterdam", "all", 68),
      Route("singapore-suez", "Singapore to Suez", "all", 70)
    ]),
    RegionRoutes("China", [
      Route("shenzhen-shanghai", "Shenzhen to Shanghai", "electronics", 45),
      Route("shanghai-la", "Shanghai to Los Angeles", "all", 35)
    ])
  ]

  /** An empty region name occurs in every key, and the filter "all" keeps every route:
      the lookup then reports the whole table in order. */
  lemma {:induction false} EmptyRegionReportsAll(db: seq<RegionRoutes>)
    ensures Affected(db, "", "all") == AllRoutes(db)
  {
    if db != [] {
      var last := db[|db| - 1];
      EmptyRegionReportsAll(db[..|db| - 1]);
      EmptyOccursEverywhere(Lower(last.region));
      KeepAllProducts(last.routes);
    }
  }

  lemma {:induction false} KeepAllProducts(routes: seq<Route>)
    ensures KeepProduct(routes, "all") == routes
  {
    if routes != [] {
      KeepAllProducts(routes[..|routes| - 1]);
      assert routes == routes[..|routes| - 1] + [routes[|routes| - 1]];
    }
  }

  /** For the hard-coded table, the unfiltered lookup reports all six routes. */
  lemma SimulatedRoutesUnfiltered()
    ensures |Affected(SimulatedRoutes, "", "all")| == 6
  {
    EmptyRegionReportsAll(SimulatedRoutes);
    var t := SimulatedRoutes;
    assert t[..1][..0] == [] && t[..2][..1] == t[..1] && t[..3] == t;
    assert |AllRoutes(t[..1])| == 2;
    assert |AllRoutes(t[..2])| == 4;
  }
}
