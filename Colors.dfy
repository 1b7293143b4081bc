/** Colours as the backend handles them: `[r, g, b]` lists of Python ints. */
module Colors {
  import opened Wrappers

  datatype Rgb = Rgb(r: int, g: int, b: int)

  /** Channel 0, 1 or 2 of a colour: `rgb[ch]`. */
  function Channel(c: Rgb, ch: nat): int
    requires ch < 3
  {
    if ch == 0 then c.r else if ch == 1 then c.g else c.b
  }

  predicate IsByte(v: int) { 0 <= v < 256 }

  /** A colour read from a decoded RGB image: every channel is a byte. */
  predicate IsByteColor(c: Rgb) { IsByte(c.r) && IsByte(c.g) && IsByte(c.b) }

  /** Squared Euclidean distance between two colours, computed on unbounded integers. */
  function SqDist(a: Rgb, b: Rgb): (d: nat)
    ensures d == 0 <==> a == b
  {
    var dr, dg, db := a.r - b.r, a.g - b.g, a.b - b.b;
    assert dr * dr >= 0 && dg * dg >= 0 && db * db >= 0;
    assert dr * dr == 0 ==> dr == 0;
    assert dg * dg == 0 ==> dg == 0;
    assert db * db == 0 ==> db == 0;
    dr * dr + dg * dg + db * db
  }

  /** The sampled colours that are not null (`rgb[0] is not None`), in order. */
  function ValidColours(rgbs: seq<Option<Rgb>>): (vs: seq<Rgb>)
    ensures |vs| <= |rgbs|
    ensures forall c :: c in vs <==> Some(c) in rgbs
  {
    if rgbs == [] then []
    else
      var init := rgbs[..|rgbs| - 1];
      var last := rgbs[|rgbs| - 1];
      assert forall o :: o in rgbs <==> o == last || o in init;
      ValidColours(init) + (if last.Some? then [last.value] else [])
  }

  lemma {:induction false} ValidColoursAppend(a: seq<Option<Rgb>>, b: seq<Option<Rgb>>)
    ensures ValidColours(a + b) == ValidColours(a) + ValidColours(b)
    decreases |b|
  {
    if b == [] {
      assert a + b == a;
    } else {
      var ab := a + b;
      assert ab[..|ab| - 1] == a + b[..|b| - 1];
      assert ab[|ab| - 1] == b[|b| - 1];
      ValidColoursAppend(a, b[..|b| - 1]);
    }
  }

  /** Column `ch` of a colour array, `rgb_array[:, ch]`. */
  function Column(cs: seq<Rgb>, ch: nat): (col: seq<int>)
    requires ch < 3
    ensures |col| == |cs| && forall k :: 0 <= k < |cs| ==> col[k] == Channel(cs[k], ch)
  {
    if cs == [] then [] else [Channel(cs[0], ch)] + Column(cs[1..], ch)
  }
}
