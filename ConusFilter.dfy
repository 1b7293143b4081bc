/**
 * `create_conus_shapefile.py`: normalise every county's GEOID to five characters and keep
 * the counties of the contiguous United States, those whose GEOID starts with none of the
 * state codes of Alaska, Hawaii and the territories. A county is represented by its GEOID;
 * the other columns travel with it unchanged.
 */
module ConusFilter {
  import opened Wrappers
  import opened Text

  /** Lines 33-35: the GEOID column, or the row index when the column is missing, zero-padded to 5. */
  function NormaliseGeoids(column: Option<seq<string>>, rows: nat): (gs: seq<string>)
    requires column.Some? ==> |column.value| == rows
    ensures |gs| == rows
    ensures forall i :: 0 <= i < rows ==>
      gs[i] == ZFill(if column.Some? then column.value[i] else NatToString(i), 5)
    ensures forall i :: 0 <= i < rows ==> |gs[i]| >= 5
    decreases rows
  {
    if rows == 0 then []
    else
      var init := NormaliseGeoids(if column.Some? then Some(column.value[..rows - 1]) else None, rows - 1);
      init + [ZFill(if column.Some? then column.value[rows - 1] else NatToString(rows - 1), 5)]
  }

  /** Line 42: Alaska, Hawaii, American Samoa, Guam, Northern Mariana Islands, Puerto Rico, Virgin Islands. */
  const NonConusStates: seq<string> := ["02", "15", "60", "66", "69", "72", "78"]

  predicate StartsWithAny(s: string, prefixes: seq<string>) {
    exists i :: 0 <= i < |prefixes| && StartsWith(s, prefixes[i])
  }

  /** `~geoid.str.startswith(non_conus_states)`. */
  predicate IsConus(geoid: string) {
    !StartsWithAny(geoid, NonConusStates)
  }

  /** `xs[mask]`: the elements satisfying `p`, in order. */
  function Keep(xs: seq<string>, p: string -> bool): (r: seq<string>)
    ensures |r| <= |xs|
    ensures forall x :: x in r <==> x in xs && p(x)
  {
    if xs == [] then []
    else
      assert forall x :: x in xs <==> x == xs[0] || x in xs[1..];
      (if p(xs[0]) then [xs[0]] else []) + Keep(xs[1..], p)
  }

  /** `sub` is `xs` with some elements removed, the rest in their original order. */
  predicate IsSubsequence(sub: seq<string>, xs: seq<string>)
    decreases |xs|
  {
    if sub == [] then true
    else if xs == [] then false
    else if sub[0] == xs[0] then IsSubsequence(sub[1..], xs[1..])
    else IsSubsequence(sub, xs[1..])
  }

  lemma {:induction false} KeepIsSubsequence(xs: seq<string>, p: string -> bool)
    ensures IsSubsequence(Keep(xs, p), xs)
  {
    if xs != [] {
      KeepIsSubsequence(xs[1..], p);
      if p(xs[0]) {
        var r := Keep(xs, p);
        assert r[0] == xs[0] && r[1..] == Keep(xs[1..], p);
      } else {
        assert Keep(xs, p) == Keep(xs[1..], p);
      }
    }
  }

  /** What is kept and what is filtered out add up to the input. */
  lemma {:induction false} KeepCount(xs: seq<string>, p: string -> bool, q: string -> bool)
    requires forall x :: q(x) == !p(x)
    ensures |Keep(xs, p)| + |Keep(xs, q)| == |xs|
  {
    if xs != [] {
      KeepCount(xs[1..], p, q);
    }
  }

  /** Filtering an already filtered sequence changes nothing. */
  lemma {:induction false} KeepIdempotent(xs: seq<string>, p: string -> bool)
    ensures Keep(Keep(xs, p), p) == Keep(xs, p)
  {
    if xs != [] {
      KeepIdempotent(xs[1..], p);
      var rest := Keep(xs[1..], p);
      if p(xs[0]) {
        var r := [xs[0]] + rest;
        assert Keep(xs, p) == r;
        assert r[0] == xs[0] && r[1..] == rest;
        assert Keep(r, p) == [r[0]] + Keep(r[1..], p);
        assert Keep(r[1..], p) == rest;
        assert Keep(r, p) == r;
      } else {
        assert Keep(xs, p) == rest;
      }
    }
  }

  /** Line 43: the contiguous-US counties, in input order. */
  function ConusCounties(geoids: seq<string>): seq<string> {
    Keep(geoids, IsConus)
  }

  /** The filter as the script promises it: a county is kept exactly when it is in the contiguous US. */
  lemma ConusMembership(geoids: seq<string>, g: string)
    ensures g in ConusCounties(geoids) <==> g in geoids && IsConus(g)
  {
  }

  /** Lines 43-46: the output is an order-preserving part of the input, and kept plus filtered is the total. */
  lemma ConusCounts(geoids: seq<string>)
    ensures IsSubsequence(ConusCounties(geoids), geoids)
    ensures |ConusCounties(geoids)| + |Keep(geoids, (g: string) => !IsConus(g))| == |geoids|
  {
    KeepIsSubsequence(geoids, IsConus);
    KeepCount(geoids, IsConus, (g: string) => !IsConus(g));
  }

  /** Running the filter on its own output changes nothing. */
  lemma ConusIdempotent(geoids: seq<string>)
    ensures ConusCounties(ConusCounties(geoids)) == ConusCounties(geoids)
  {
    KeepIdempotent(geoids, IsConus);
  }

  /** A GEOID is outside the contiguous US exactly when its first two characters are one of the seven codes. */
  lemma IsConusByStateCode(g: string)
    requires |g| >= 2
    ensures !IsConus(g) <==> g[..2] in NonConusStates
  {
    if g[..2] in NonConusStates {
      var i :| 0 <= i < |NonConusStates| && NonConusStates[i] == g[..2];
      assert StartsWith(g, NonConusStates[i]);
    }
  }

  /** `create_projected_shapefiles.py`, line 69: the five territory codes, the last five of line 42. */
  const TerritoryStates: seq<string> := ["60", "66", "69", "72", "78"]

  /** `visualize_shapefile.py`, line 45: Alaska and Hawaii, the first two of line 42. */
  const AlaskaHawaii: seq<string> := ["02", "15"]

  /** A county of a state or of the District of Columbia, not of a territory. */
  predicate IsStateCounty(geoid: string) {
    !StartsWithAny(geoid, TerritoryStates)
  }

  /** A county outside Alaska and Hawaii. */
  predicate IsOutsideAlaskaHawaii(geoid: string) {
    !StartsWithAny(geoid, AlaskaHawaii)
  }

  /** `create_projected_shapefiles.py`, line 69: the counties of the fifty states and DC. */
  function StateCounties(geoids: seq<string>): seq<string> {
    Keep(geoids, IsStateCounty)
  }

  /** `visualize_shapefile.py`, line 45: the counties outside Alaska and Hawaii. */
  function CountiesOutsideAlaskaHawaii(geoids: seq<string>): seq<string> {
    Keep(geoids, IsOutsideAlaskaHawaii)
  }

  lemma StartsWithAnyConcat(s: string, a: seq<string>, b: seq<string>)
    ensures StartsWithAny(s, a + b) <==> StartsWithAny(s, a) || StartsWithAny(s, b)
  {
    if StartsWithAny(s, a + b) {
      var i :| 0 <= i < |a + b| && StartsWith(s, (a + b)[i]);
      if i >= |a| {
        assert (a + b)[i] == b[i - |a|];
      }
    }
    if StartsWithAny(s, a) {
      var i :| 0 <= i < |a| && StartsWith(s, a[i]);
      assert (a + b)[i] == a[i];
    }
    if StartsWithAny(s, b) {
      var i :| 0 <= i < |b| && StartsWith(s, b[i]);
      assert (a + b)[|a| + i] == b[i];
    }
  }

  /** Filtering by `p` and then by `q` is filtering by both at once. */
  lemma {:induction false} KeepThenKeep(xs: seq<string>, p: string -> bool, q: string -> bool, pq: string -> bool)
    requires forall x :: pq(x) == (p(x) && q(x))
    ensures Keep(Keep(xs, p), q) == Keep(xs, pq)
  {
    if xs != [] {
      KeepThenKeep(xs[1..], p, q, pq);
      var rest := Keep(xs[1..], p);
      if p(xs[0]) {
        var r := [xs[0]] + rest;
        assert Keep(xs, p) == r;
        assert r[0] == xs[0] && r[1..] == rest;
      } else {
        assert Keep(xs, p) == rest;
      }
    }
  }

  /**
   * The three scripts' filters agree: the contiguous-US counties of line 42 are exactly the
   * state counties of `create_projected_shapefiles.py` with Alaska and Hawaii then removed as in
   * `visualize_shapefile.py`, in the same order.
   */
  lemma ConusInStages(geoids: seq<string>)
    ensures ConusCounties(geoids) == CountiesOutsideAlaskaHawaii(StateCounties(geoids))
  {
    assert NonConusStates == AlaskaHawaii + TerritoryStates;
    forall g: string
      ensures IsConus(g) == (IsStateCounty(g) && IsOutsideAlaskaHawaii(g))
    {
      StartsWithAnyConcat(g, AlaskaHawaii, TerritoryStates);
    }
    KeepThenKeep(geoids, IsStateCounty, IsOutsideAlaskaHawaii, IsConus);
  }

  /** Example: Puerto Rico's Adjuntas (72001) is dropped at line 69 and kept at line 45; Alaska's 02013 the other way. */
  lemma StageExamples()
    ensures !IsStateCounty("72001") && IsOutsideAlaskaHawaii("72001")
    ensures IsStateCounty("02013") && !IsOutsideAlaskaHawaii("02013")
  {
    assert StartsWith("72001", TerritoryStates[3]);
    assert StartsWith("02013", AlaskaHawaii[0]);
    assert !StartsWithAny("72001", AlaskaHawaii) by {
      assert "72001"[..2] == "72";
    }
    assert !StartsWithAny("02013", TerritoryStates) by {
      assert "02013"[..2] == "02";
    }
  }

  /** Florida's Alachua County (12001) is kept; Alaska's Aleutians East Borough (02013) is not. */
  lemma ConusExamples()
    ensures IsConus("12001")
    ensures !IsConus("02013")
  {
    IsConusByStateCode("12001");
    assert "12001"[..2] == "12";
    IsConusByStateCode("02013");
    assert "02013"[..2] == "02";
  }
}
