/** scripts/index.js: one animation frame (`render`), the recursive tree (`renderTree`), the info
    overlay (`renderInfo`), the once-a-second structure mutator (`timeLoop`), `hexToRgb` and `setup`.
    Canvas drawing is reduced to the one thing the tree's counter decides: which branches are
    stroked, in what order. Coordinates, trigonometry and the canvas context are left out. */
module Render {
  import opened Wrappers
  import opened Text
  import opened Data
  import opened Audio
  import Utils
  import Gui

  // ---------------------------------------------------------------- hexToRgb

  /** A character of the class `[a-f\d]` under the `i` flag. */
  predicate IsHexDigit(c: char) { '0' <= c <= '9' || 'a' <= c <= 'f' || 'A' <= c <= 'F' }

  function HexValue(c: char): (v: nat)
    requires IsHexDigit(c)
    ensures v < 16
  {
    if '0' <= c <= '9' then c as int - '0' as int
    else if 'a' <= c <= 'f' then c as int - 'a' as int + 10
    else c as int - 'A' as int + 10
  }

  predicate AllHex(s: string) { forall i | 0 <= i < |s| :: IsHexDigit(s[i]) }

  /** `parseInt(s, 16)` on a non-empty run of hex digits. */
  function ParseHex(s: string): (v: nat)
    requires AllHex(s)
    ensures |s| == 1 ==> v < 16
    ensures |s| == 2 ==> v < 256
  {
    if s == [] then 0 else 16 * ParseHex(s[..|s| - 1]) + HexValue(s[|s| - 1])
  }

  /** What follows the optional leading `#`. */
  function HexDigits(hex: string): string {
    if |hex| > 0 && hex[0] == '#' then hex[1..] else hex
  }

  /** `hexToRgb(hex)`: after an optional `#`, three to six hex digits split greedily into three groups
      of one or two digits (widths 1,1,1 / 2,1,1 / 2,2,1 / 2,2,2). Anything else leaves the regular
      expression without a match and the indexing throws, modelled as `None`. */
  function HexToRgb(hex: string): (rgb: Option<seq<int>>)
    ensures rgb.Some? <==> 3 <= |HexDigits(hex)| <= 6 && AllHex(HexDigits(hex))
    ensures rgb.Some? ==> |rgb.value| == 3 && forall i | 0 <= i < 3 :: 0 <= rgb.value[i] < 256
  {
    var d := HexDigits(hex);
    if 3 <= |d| <= 6 && AllHex(d) then
      var w1 := if |d| >= 4 then 2 else 1;
      var w2 := if |d| >= 5 then 2 else 1;
      assert AllHex(d[..w1]) && AllHex(d[w1..w1 + w2]) && AllHex(d[w1 + w2..]);
      Some([ParseHex(d[..w1]), ParseHex(d[w1..w1 + w2]), ParseHex(d[w1 + w2..])])
    else None
  }

  function HexChar(v: nat): (c: char)
    requires v < 16
    ensures IsHexDigit(c) && HexValue(c) == v
  {
    if v < 10 then ('0' as int + v) as char else ('a' as int + v - 10) as char
  }

  /** A channel as two lower-case hex digits, as in `#e1e1e1`. */
  function Hex2(v: nat): (s: string)
    requires v < 256
    ensures |s| == 2 && AllHex(s)
  {
    [HexChar(v / 16), HexChar(v % 16)]
  }

  lemma ParseHex2(v: nat)
    requires v < 256
    ensures ParseHex(Hex2(v)) == v
  {
    var s := Hex2(v);
    assert s[..1] == [s[0]];
    assert [s[0]][..0] == [];
  }

  /** Any six hex digits, in either letter case and with or without the `#`, split into three pairs,
      each read as a base-16 number. */
  lemma HexToRgbSixDigits(x: string, y: string, z: string)
    requires |x| == 2 && |y| == 2 && |z| == 2 && AllHex(x) && AllHex(y) && AllHex(z)
    ensures var s := x + y + z;
      HexToRgb("#" + s) == Some([ParseHex(x), ParseHex(y), ParseHex(z)]) &&
      HexToRgb(s) == Some([ParseHex(x), ParseHex(y), ParseHex(z)])
  {
    var s := x + y + z;
    assert s[..2] == x && s[2..4] == y && s[4..] == z;
    assert ("#" + s)[1..] == s;
    assert HexDigits(s) == s;
  }

  /** A channel as two upper-case hex digits, as in `#E1E1E1`. */
  function Hex2Upper(v: nat): (s: string)
    requires v < 256
    ensures |s| == 2 && AllHex(s)
  {
    [UpperChar(HexChar(v / 16)), UpperChar(HexChar(v % 16))]
  }

  lemma ParseHex2Upper(v: nat)
    requires v < 256
    ensures ParseHex(Hex2Upper(v)) == v
  {
    var s := Hex2Upper(v);
    assert s[..1] == [s[0]];
    assert [s[0]][..0] == [];
  }

  /** Six-digit colours written with lower-case or with upper-case digits, with or without the `#`,
      come back as their three channels. */
  lemma HexToRgbRoundTrip(r: nat, g: nat, b: nat)
    requires r < 256 && g < 256 && b < 256
    ensures var s := Hex2(r) + Hex2(g) + Hex2(b);
      HexToRgb("#" + s) == Some([r, g, b]) && HexToRgb(s) == Some([r, g, b])
    ensures var s := Hex2Upper(r) + Hex2Upper(g) + Hex2Upper(b);
      HexToRgb("#" + s) == Some([r, g, b]) && HexToRgb(s) == Some([r, g, b])
  {
    ParseHex2(r);
    ParseHex2(g);
    ParseHex2(b);
    HexToRgbSixDigits(Hex2(r), Hex2(g), Hex2(b));
    ParseHex2Upper(r);
    ParseHex2Upper(g);
    ParseHex2Upper(b);
    HexToRgbSixDigits(Hex2Upper(r), Hex2Upper(g), Hex2Upper(b));
  }

  lemma Hex2Examples()
    ensures Hex2(225) == "e1" && Hex2(87) == "57" && Hex2(84) == "54"
  {
    assert HexChar(14) == 'e' && HexChar(1) == '1' && HexChar(5) == '5' && HexChar(7) == '7' && HexChar(4) == '4';
  }

  /** The default foreground of data.js read back. */
  lemma HexToRgbForeground()
    ensures HexToRgb("#e1e1e1") == Some([225, 225, 225])
  {
    HexToRgbRoundTrip(225, 225, 225);
    Hex2Examples();
    assert "#e1e1e1" == "#" + (Hex2(225) + Hex2(225) + Hex2(225));
  }

  /** The default background of data.js read back. */
  lemma HexToRgbBackground()
    ensures HexToRgb("#575454") == Some([87, 84, 84])
  {
    HexToRgbRoundTrip(87, 84, 84);
    Hex2Examples();
    assert "#575454" == "#" + (Hex2(87) + Hex2(84) + Hex2(84));
  }

  /** Upper-case digits read the same as lower-case ones. */
  lemma HexToRgbUpperCase()
    ensures HexToRgb("#E1E1E1") == Some([225, 225, 225])
  {
    assert HexChar(14) == 'e' && HexChar(1) == '1';
    assert Hex2Upper(225) == "E1";
    ParseHex2Upper(225);
    HexToRgbSixDigits("E1", "E1", "E1");
    assert "E1" + "E1" + "E1" == "E1E1E1";
  }

  /** The three-digit form is not expanded the CSS way: `#abc` gives 10, 11, 12 rather than
      170, 187, 204. */
  lemma HexToRgbShorthand()
    ensures HexToRgb("#abc") == Some([10, 11, 12])
  {
    var d := HexDigits("#abc");
    assert d == "abc";
    assert d[..1] == "a" && d[1..2] == "b" && d[2..] == "c";
    assert "a"[..0] == [] && "b"[..0] == [] && "c"[..0] == [];
  }

  /** Five digits split 2, 2, 1. */
  lemma HexToRgbFiveDigits()
    ensures HexToRgb("#e1e1e") == Some([225, 225, 14])
  {
    Hex2Examples();
    ParseHex2(225);
    assert ParseHex("e") == 14 by {
      assert "e"[..0] == [];
    }
    var d := HexDigits("#e1e1e");
    assert d == "e1e1e";
    assert d[..2] == "e1";
    assert d[2..4] == "e1";
    assert d[4..] == "e";
  }

  /** Too few digits, too many, or a character outside the class: no match. */
  lemma HexToRgbRejects()
    ensures HexToRgb("#e1") == None && HexToRgb("#e1e1e1e") == None && HexToRgb("#e1e1g1") == None
  {
    assert HexDigits("#e1e1g1")[4] == 'g';
  }

  // ---------------------------------------------------------------- timeLoop

  /** The part of the tree the mutator changes. */
  datatype Structure = Structure(branchFactor: int, depth: int, rotationSpeed: real, branchIncrease: bool)

  /** At second 42: turn round at the ends of [2, 16], then move the branch factor one step in the
      current direction, except that it only grows while the depth is below 5. */
  function BranchStep(s: Structure): Structure {
    var up := if s.branchFactor >= 16 then false else if s.branchFactor <= 2 then true else s.branchIncrease;
    var delta := if up && s.depth < 5 then 1 else if !up then -1 else 0;
    s.(branchFactor := s.branchFactor + delta, branchIncrease := up)
  }

  /** When the draw hits 42: one level deeper while the branch factor is below 10, otherwise one level
      shallower unless the depth is 3 or less; the rotation speeds up by 2 either way. */
  function DepthStep(s: Structure): Structure {
    var delta := if s.branchFactor < 10 then 1 else if s.depth <= 3 then 0 else -1;
    s.(depth := s.depth + delta, rotationSpeed := s.rotationSpeed + 2.0)
  }

  /** One tick of the mutator, `elapsedMs` after the loop started, at wall-clock `second`, with `draw`
      the value of `random(0, second)`. */
  function Mutate(s: Structure, elapsedMs: int, second: int, draw: int): (n: Structure)
    ensures elapsedMs < 10000 ==> n == s
    ensures second != 42 ==> n.branchFactor == s.branchFactor && n.branchIncrease == s.branchIncrease
    ensures draw != 42 ==> n.depth == s.depth && n.rotationSpeed == s.rotationSpeed
    ensures -1 <= n.branchFactor - s.branchFactor <= 1 && -1 <= n.depth - s.depth <= 1
    ensures elapsedMs >= 10000 && second == 42 && s.branchFactor >= 16 ==> n.branchFactor == s.branchFactor - 1
    ensures elapsedMs >= 10000 && second == 42 && s.branchFactor <= 2 ==>
      n.branchFactor == s.branchFactor + (if s.depth < 5 then 1 else 0)
    ensures elapsedMs >= 10000 && draw == 42 ==> n.rotationSpeed == s.rotationSpeed + 2.0
    ensures elapsedMs >= 10000 && second == 42 ==>
      n.branchIncrease == (if s.branchFactor >= 16 then false else if s.branchFactor <= 2 then true else s.branchIncrease)
    ensures elapsedMs >= 10000 && second == 42 ==>
      n.branchFactor == s.branchFactor + (if n.branchIncrease && s.depth < 5 then 1 else if !n.branchIncrease then -1 else 0)
    ensures elapsedMs >= 10000 && draw == 42 ==>
      n.depth == s.depth + (if n.branchFactor < 10 then 1 else if s.depth <= 3 then 0 else -1)
  {
    if elapsedMs < 10000 then s
    else
      var b := if second == 42 then BranchStep(s) else s;
      if draw == 42 then DepthStep(b) else b
  }

  /** What the mutator keeps: a branch factor in [1, 16], a non-negative depth, and never both a depth
      of 5 or more and a branch factor of 10 or more. */
  predicate Steady(s: Structure) {
    1 <= s.branchFactor <= 16 && 0 <= s.depth && (s.depth >= 5 ==> s.branchFactor <= 9)
  }

  lemma MutateKeepsSteady(s: Structure, elapsedMs: int, second: int, draw: int)
    requires Steady(s)
    ensures Steady(Mutate(s, elapsedMs, second, draw))
  {
    if elapsedMs >= 10000 {
      var b := if second == 42 then BranchStep(s) else s;
      assert Steady(b);
      if draw == 42 {
        assert Steady(DepthStep(b));
      }
    }
  }

  /** The range the control panel offers, [2, 16], is kept too. */
  lemma MutateKeepsPanelFactor(s: Structure, elapsedMs: int, second: int, draw: int)
    requires 2 <= s.branchFactor <= 16
    ensures 2 <= Mutate(s, elapsedMs, second, draw).branchFactor <= 16
  {
  }

  /** The default graphics record's tree (branch factor 8, depth 3) is steady. */
  method DefaultsSteady() returns (g: Graphics)
    ensures Steady(StructureOf(g.tree))
  {
    g := new Graphics();
  }

  /** The depth grows without bound while the branch factor stays below 10: a hit at a second other
      than 42 always adds a level. */
  lemma DepthGrowsBelowTen(s: Structure, elapsedMs: int, second: int)
    requires elapsedMs >= 10000 && second != 42 && s.branchFactor < 10
    ensures Mutate(s, elapsedMs, second, 42).depth == s.depth + 1
  {
  }

  function StructureOf(t: TreeParams): Structure
    reads t
  {
    Structure(t.branchFactor, t.depth, t.rotationSpeed, t.branchIncrease)
  }

  /** The body of the `setInterval` in `timeLoop`. `u` is the draw behind `random(0, second)`; the
      second is `getSeconds()`, 0 to 59. */
  method TimeTick(tree: TreeParams, elapsedMs: int, second: int, u: real)
    requires 0 <= second < 60 && 0.0 <= u < 1.0
    modifies tree`branchFactor, tree`depth, tree`rotationSpeed, tree`branchIncrease
    ensures StructureOf(tree) == Mutate(old(StructureOf(tree)), elapsedMs, second, Utils.Random(0.0, second as real, u))
    ensures second < 42 ==> tree.depth == old(tree.depth) && tree.rotationSpeed == old(tree.rotationSpeed)
    ensures old(tree.Valid()) && Steady(old(StructureOf(tree))) ==> tree.Valid() && Steady(StructureOf(tree))
  {
    ghost var s0 := StructureOf(tree);
    if elapsedMs < 10000 {
      return;
    }
    if second == 42 {
      var bFactorDelta := 0;
      if tree.branchFactor >= 16 {
        tree.branchIncrease := false;
      } else if tree.branchFactor <= 2 {
        tree.branchIncrease := true;
      }
      if tree.branchIncrease && tree.depth < 5 {
        bFactorDelta := 1;
      } else if !tree.branchIncrease {
        bFactorDelta := -1;
      }
      tree.branchFactor := tree.branchFactor + bFactorDelta;
    }
    var draw := Utils.Random(0.0, second as real, u);
    if draw == 42 {
      tree.depth := tree.depth + (if tree.branchFactor < 10 then 1 else if tree.depth <= 3 then 0 else -1);
      tree.rotationSpeed := tree.rotationSpeed + 2.0;
    }
    if Steady(s0) {
      MutateKeepsSteady(s0, elapsedMs, second, draw);
    }
  }

  // ---------------------------------------------------------------- zoom

  datatype Zoom = Zoom(level: real, increasing: bool)

  /** The zoom block of `render`: start zooming in at or below the minimum, zoom out from the frame's
      threshold up, then move by a hundredth of the zoom speed. */
  function ZoomStep(z: Zoom, zoomMin: real, zoomSpeed: real, threshold: real): (n: Zoom)
    ensures z.level >= threshold ==> !n.increasing
    ensures z.level <= zoomMin && z.level < threshold ==> n.increasing
    ensures zoomMin < z.level < threshold ==> n.increasing == z.increasing
    ensures n.increasing ==> n.level == z.level + zoomSpeed / 100.0
    ensures !n.increasing ==> n.level == z.level - zoomSpeed / 100.0
  {
    var up := if z.level <= zoomMin then true else z.increasing;
    var up' := if z.level >= threshold then false else up;
    Zoom(z.level + (if up' then zoomSpeed / 100.0 else -(zoomSpeed / 100.0)), up')
  }

  /** With the threshold above the minimum and at most the maximum, the zoom never leaves
      [zoomMin - step, zoomMax + step] once inside it. */
  lemma ZoomStaysInBand(z: Zoom, zoomMin: real, zoomMax: real, zoomSpeed: real, threshold: real)
    requires zoomMin < threshold <= zoomMax && zoomSpeed >= 0.0
    requires zoomMin - zoomSpeed / 100.0 <= z.level <= zoomMax + zoomSpeed / 100.0
    ensures var n := ZoomStep(z, zoomMin, zoomSpeed, threshold);
      zoomMin - zoomSpeed / 100.0 <= n.level <= zoomMax + zoomSpeed / 100.0
  {
  }

  lemma HalfFloor(m: int)
    requires m >= 0
    ensures ((m as real) / 2.0).Floor == m / 2
  {
    var q, r := m / 2, m % 2;
    assert m == 2 * q + r;
    assert (m as real) / 2.0 == q as real + (r as real) / 2.0;
  }

  /** For a whole-number maximum the frame's threshold `random(zoomMax / 2, zoomMax)` lies in
      [zoomMax / 2, zoomMax], so the band of ZoomStaysInBand applies when zoomMin is below half of it. */
  lemma ZoomThresholdRange(zoomMax: int, u: real)
    requires zoomMax >= 0 && 0.0 <= u < 1.0
    ensures zoomMax / 2 <= Utils.Random((zoomMax as real) / 2.0, zoomMax as real, u) <= zoomMax
  {
    HalfFloor(zoomMax);
  }

  method AdvanceZoom(tree: TreeParams, u: real)
    requires 0.0 <= u < 1.0
    modifies tree`zoomLevel, tree`zoomIncrease
    ensures Zoom(tree.zoomLevel, tree.zoomIncrease) ==
      ZoomStep(old(Zoom(tree.zoomLevel, tree.zoomIncrease)), tree.zoomMin, tree.zoomSpeed,
        Utils.Random(tree.zoomMax / 2.0, tree.zoomMax, u) as real)
  {
    if tree.zoomLevel <= tree.zoomMin {
      tree.zoomIncrease := true;
    }
    if tree.zoomLevel >= Utils.Random(tree.zoomMax / 2.0, tree.zoomMax, u) as real {
      tree.zoomIncrease := false;
    }
    var zoomDelta := if tree.zoomIncrease then tree.zoomSpeed / 100.0 else -(tree.zoomSpeed / 100.0);
    tree.zoomLevel := tree.zoomLevel + zoomDelta;
  }

  // ---------------------------------------------------------------- renderTree

  /** The canvas as the tree uses it: the branch counter's value at each `stroke()`, in call order. */
  class Canvas {
    var strokes: seq<int>

    constructor ()
      ensures strokes == []
    {
      strokes := [];
    }
  }

  /** Branches drawn by `renderTree` at depth `d` with branch factor `b`. */
  function NodeCount(b: nat, d: nat): nat {
    if d == 0 then 0 else 1 + b * NodeCount(b, d - 1)
  }

  function Pow(b: nat, k: nat): nat {
    if k == 0 then 1 else b * Pow(b, k - 1)
  }

  /** One branch per node of a complete b-ary tree of height d: b^0 + b^1 + ... + b^(d-1). */
  function GeomSum(b: nat, d: nat): nat {
    if d == 0 then 0 else GeomSum(b, d - 1) + Pow(b, d - 1)
  }

  lemma Distribute(b: int, x: int, y: int)
    ensures b * (x + y) == b * x + b * y
  {
  }

  lemma {:induction false} GeomSumShift(b: nat, d: nat)
    ensures 1 + b * GeomSum(b, d) == GeomSum(b, d + 1)
  {
    if d > 0 {
      GeomSumShift(b, d - 1);
      var g, p := GeomSum(b, d - 1), Pow(b, d - 1);
      assert GeomSum(b, d) == g + p;
      Distribute(b, g, p);
      assert Pow(b, d) == b * p;
      assert GeomSum(b, d + 1) == GeomSum(b, d) + Pow(b, d);
    }
  }

  lemma {:induction false} NodeCountIsGeometric(b: nat, d: nat)
    ensures NodeCount(b, d) == GeomSum(b, d)
  {
    if d > 0 {
      NodeCountIsGeometric(b, d - 1);
      GeomSumShift(b, d - 1);
    }
  }

  /** Closed form: (b - 1) * NodeCount(b, d) == b^d - 1. */
  lemma {:induction false} NodeCountClosedForm(b: nat, d: nat)
    ensures (b - 1) * NodeCount(b, d) == Pow(b, d) - 1
  {
    if d > 0 {
      NodeCountClosedForm(b, d - 1);
      var n: int, p: int := NodeCount(b, d - 1), Pow(b, d - 1);
      assert NodeCount(b, d) == 1 + b * n && Pow(b, d) == b * p;
      assert (b - 1) * n == p - 1;
      calc {
        (b - 1) * (1 + b * n);
        (b - 1) + b * ((b - 1) * n);
        (b - 1) + b * (p - 1);
        b * p - 1;
      }
    }
  }

  /** With one branch per node the tree is a chain of `d` branches. */
  lemma {:induction false} NodeCountChain(d: nat)
    ensures NodeCount(1, d) == d
  {
    if d > 0 {
      NodeCountChain(d - 1);
    }
  }

  /** The default tree: 8 branches per node at depth 3 gives 1 + 8 + 64 branches. */
  lemma DefaultTreeSize()
    ensures NodeCount(8, 3) == 73
  {
  }

  /** The counter values stroked while the counter runs from `lo` to `hi`: every value except 1. */
  function Stroked(lo: int, hi: int): seq<int>
    decreases hi - lo
  {
    if hi <= lo then [] else Stroked(lo, hi - 1) + (if hi > 1 then [hi] else [])
  }

  lemma {:induction false} StrokedSplit(lo: int, mid: int, hi: int)
    requires lo <= mid <= hi
    ensures Stroked(lo, mid) + Stroked(mid, hi) == Stroked(lo, hi)
    decreases hi - mid
  {
    if mid < hi {
      StrokedSplit(lo, mid, hi - 1);
      assert Stroked(lo, mid) + Stroked(mid, hi - 1) + (if hi > 1 then [hi] else []) ==
        Stroked(lo, mid) + (Stroked(mid, hi - 1) + (if hi > 1 then [hi] else []));
    }
  }

  /** Appending the strokes of one more subtree to the strokes so far. */
  lemma StrokedExtend(prefix: seq<int>, lo: int, mid: int, hi: int)
    requires lo <= mid <= hi
    ensures prefix + Stroked(lo, mid) + Stroked(mid, hi) == prefix + Stroked(lo, hi)
  {
    StrokedSplit(lo, mid, hi);
    assert prefix + Stroked(lo, mid) + Stroked(mid, hi) == prefix + (Stroked(lo, mid) + Stroked(mid, hi));
  }

  /** A frame with `n` branches strokes branches 2, 3, ..., n in that order: each once, all but the
      first. */
  lemma {:induction false} FrameStrokes(n: nat)
    ensures |Stroked(0, n)| == (if n == 0 then 0 else n - 1)
    ensures forall i | 0 <= i < |Stroked(0, n)| :: Stroked(0, n)[i] == i + 2
  {
    if n > 0 {
      FrameStrokes(n - 1);
    }
  }

  /** `audio.midFreqs.map(f => f.amount).reduce(Math.max)`. */
  function PeakAmount(bands: seq<Band>): Byte
    requires |bands| > 0
  {
    if |bands| == 1 then bands[0].amount
    else
      var m := PeakAmount(bands[..|bands| - 1]);
      var last := bands[|bands| - 1].amount;
      if m >= last then m else last
  }

  /** The reduce yields the largest amount among the bands, and it is one of them. */
  lemma {:induction false} PeakAmountIsPeak(bands: seq<Band>)
    requires |bands| > 0
    ensures forall i | 0 <= i < |bands| :: bands[i].amount <= PeakAmount(bands)
    ensures exists i | 0 <= i < |bands| :: bands[i].amount == PeakAmount(bands)
  {
    if |bands| > 1 {
      var front := bands[..|bands| - 1];
      PeakAmountIsPeak(front);
      assert forall i | 0 <= i < |front| :: bands[i] == front[i];
      if PeakAmount(front) < bands[|bands| - 1].amount {
        assert bands[|bands| - 1].amount == PeakAmount(bands);
      } else {
        var k :| 0 <= k < |front| && front[k].amount == PeakAmount(front);
        assert bands[k].amount == PeakAmount(bands);
      }
    } else {
      assert bands[0].amount == PeakAmount(bands);
    }
  }

  /** Counts one branch and strokes it unless it is the first of the frame. */
  method VisitBranch(g: Graphics, canvas: Canvas)
    requires g.tree.Valid()
    modifies g.tree`totalbranches, canvas`strokes
    ensures g.tree.Valid() && g.tree.totalbranches == old(g.tree.totalbranches) + 1
    ensures canvas.strokes == old(canvas.strokes) + Stroked(old(g.tree.totalbranches), g.tree.totalbranches)
  {
    ghost var start := g.tree.totalbranches;
    g.tree.totalbranches := g.tree.totalbranches + 1;
    if g.tree.totalbranches > 1 {
      canvas.strokes := canvas.strokes + [g.tree.totalbranches];
    }
    assert Stroked(start, start + 1) == (if start + 1 > 1 then [start + 1] else []);
  }

  /** `renderTree(x1, y1, length, angle, depth)`: count this branch, stroke it unless it is the first
      of the frame, then recurse once per branch. The coordinates are left out; the length and angle
      are passed on as the source computes them. Without wave data nothing happens. */
  method RenderTree(g: Graphics, a: AudioState, canvas: Canvas, length: real, angle: real, depth: int)
    requires g.tree.Valid() && depth >= 0
    requires a.waveData.Some? && depth > 0 ==> |a.midFreqs| > 0
    modifies g.tree`totalbranches, canvas`strokes
    ensures g.tree.Valid()
    ensures g.tree.totalbranches ==
      old(g.tree.totalbranches) + (if a.waveData.Some? then NodeCount(g.tree.branchFactor, depth) else 0)
    ensures canvas.strokes == old(canvas.strokes) + Stroked(old(g.tree.totalbranches), g.tree.totalbranches)
    decreases depth, 1
  {
    if depth == 0 || a.waveData.None? {
      return;
    }
    var freq := PeakAmount(a.midFreqs);
    var nextLength := g.tree.growFactor * length + 0.2 * freq as real;
    var nextAngle := angle + g.tree.branchAngle;
    ghost var start := g.tree.totalbranches;
    VisitBranch(g, canvas);
    ghost var visited := g.tree.totalbranches;
    RenderBranches(g, a, canvas, nextLength, nextAngle, depth - 1);
    assert NodeCount(g.tree.branchFactor, depth) == 1 + g.tree.branchFactor * NodeCount(g.tree.branchFactor, depth - 1);
    StrokedExtend(old(canvas.strokes), start, visited, g.tree.totalbranches);
  }

  /** The loop of `renderTree`: one subtree of the given depth per branch, the i-th turned by
      `i * angleEach`. */
  method RenderBranches(g: Graphics, a: AudioState, canvas: Canvas, length: real, angle: real, depth: int)
    requires g.tree.Valid() && depth >= 0 && a.waveData.Some?
    requires depth > 0 ==> |a.midFreqs| > 0
    modifies g.tree`totalbranches, canvas`strokes
    ensures g.tree.Valid()
    ensures g.tree.totalbranches ==
      old(g.tree.totalbranches) + g.tree.branchFactor * NodeCount(g.tree.branchFactor, depth)
    ensures canvas.strokes == old(canvas.strokes) + Stroked(old(g.tree.totalbranches), g.tree.totalbranches)
    decreases depth + 1, 0
  {
    ghost var start := g.tree.totalbranches;
    ghost var size := NodeCount(g.tree.branchFactor, depth);
    var i := 0;
    while i < g.tree.branchFactor
      invariant 0 <= i <= g.tree.branchFactor
      invariant g.tree.Valid()
      invariant g.tree.totalbranches == start + i * size
      invariant canvas.strokes == old(canvas.strokes) + Stroked(start, g.tree.totalbranches)
    {
      ghost var before := g.tree.totalbranches;
      RenderTree(g, a, canvas, length, angle + g.angleEach * i as real, depth);
      assert (i + 1) * size == i * size + size;
      StrokedExtend(old(canvas.strokes), start, before, g.tree.totalbranches);
      i := i + 1;
    }
  }

  /** The fields the tree block of `render` turns and grows each frame. */
  datatype Turn = Turn(branchAngle: real, growSpeed: real, growFactor: real, angleEach: real)

  function TurnOf(g: Graphics): Turn
    reads g, g.tree
  {
    Turn(g.tree.branchAngle, g.tree.growSpeed, g.tree.growFactor, g.angleEach)
  }

  /** One tree frame's turn: the angle advances by a hundredth of the rotation speed, the grow phase by
      0.001, the grow factor is the host's sine and the branches of a node share the full circle. */
  function Turned(t: Turn, rotationSpeed: real, branchFactor: int, growFactor: real): (n: Turn)
    requires branchFactor >= 1
    ensures n.angleEach * branchFactor as real == 360.0
  {
    Turn(t.branchAngle + rotationSpeed / 100.0, t.growSpeed + 0.001, growFactor, 360.0 / branchFactor as real)
  }

  /** The tree block of `render` before the recursion. `growFactor` is `|sin(growSpeed) * 1.5|`
      computed by the host from the new grow speed. */
  method BeginTreeFrame(g: Graphics, growFactor: real)
    requires g.tree.Valid()
    modifies g.tree`totalbranches, g.tree`branchAngle, g.tree`growSpeed, g.tree`growFactor, g`angleEach
    ensures g.tree.Valid() && g.tree.totalbranches == 0
    ensures g.tree.branchAngle == old(g.tree.branchAngle) + g.tree.rotationSpeed / 100.0
    ensures g.angleEach * g.tree.branchFactor as real == 360.0
    ensures g.tree.growSpeed == old(g.tree.growSpeed) + 0.001 && g.tree.growFactor == growFactor
  {
    g.tree.totalbranches := 0;
    g.tree.branchAngle := g.tree.branchAngle + g.tree.rotationSpeed / 100.0;
    g.angleEach := 360.0 / g.tree.branchFactor as real;
    g.tree.growSpeed := g.tree.growSpeed + 0.001;
    g.tree.growFactor := growFactor;
  }

  // ---------------------------------------------------------------- renderInfo

  /** A colour as a template literal shows it: a CSS string as is, a `randomColor` array joined with
      commas. */
  function ColourString(c: Colour): string {
    match c
    case Css(text) => text
    case Rgba(channels) => Join(seq(|channels|, i requires 0 <= i < |channels| => NumberString(channels[i])), ',')
  }

  /** The tree's data lines. */
  function TreeLines(g: Graphics): (lines: seq<string>)
    reads g, g.tree
    ensures |lines| == 7
    ensures "total branches: " <= lines[0] && "tree depth: " <= lines[1] && "branch factor: " <= lines[2]
    ensures "branch angle: " <= lines[3] && "grow factor: " <= lines[4] && "zoom level: " <= lines[5]
    ensures "linewidth: " <= lines[6]
  {
    ["total branches: " + IntToString(g.tree.totalbranches),
     "tree depth: " + IntToString(g.tree.depth),
     "branch factor: " + IntToString(g.tree.branchFactor),
     "branch angle: " + ToFixed2(g.tree.branchAngle),
     "grow factor: " + ToFixed2(g.tree.growFactor),
     "zoom level: " + ToFixed2(g.tree.zoomLevel),
     "linewidth: " + NumberString(g.lineWidth)]
  }

  /** Lines added for the current mode; at most one mode matches. */
  function ModeLines(g: Graphics): (lines: seq<string>)
    reads g, g.tree
    ensures |lines| == (if g.mode == "tree" then 7 else if g.mode == "oscope" || g.mode == "bars" then 2 else 0)
  {
    (if g.mode == "tree" then TreeLines(g) else []) +
    (if g.mode == "oscope" then
      ["linewidth: " + ToFixed2(g.lineWidth), "dashwidth: " + ToFixed2(g.lineDWidth)]
     else []) +
    (if g.mode == "bars" then
      ["bar width: " + ToFixed2(g.barsWidth), "bar height: " + ToFixed2(g.barsHeight)]
     else [])
  }

  /** The data lines: the mode's lines, then background, foreground and frame rate. */
  function DataLines(g: Graphics): (lines: seq<string>)
    reads g, g.tree
    ensures |lines| == |ModeLines(g)| + 3
    ensures lines[..|ModeLines(g)|] == ModeLines(g)
    ensures lines[|lines| - 3] == "background: " + ColourString(g.background)
    ensures lines[|lines| - 2] == "foreground: " + ColourString(g.foreground)
    ensures lines[|lines| - 1] == "fps: " + IntToString(g.fps)
  {
    ModeLines(g) + ["background: " + ColourString(g.background), "foreground: " + ColourString(g.foreground),
      "fps: " + IntToString(g.fps)]
  }

  /** The counters the tree's data lines show read back as the counters themselves. */
  lemma TreeLinesReadBack(g: Graphics)
    ensures var lines := TreeLines(g);
      ParseInt(lines[0][16..]) == Some(g.tree.totalbranches) &&
      ParseInt(lines[1][12..]) == Some(g.tree.depth) &&
      ParseInt(lines[2][15..]) == Some(g.tree.branchFactor)
  {
    var lines := TreeLines(g);
    var t, d, b := IntToString(g.tree.totalbranches), IntToString(g.tree.depth), IntToString(g.tree.branchFactor);
    assert lines[0] == "total branches: " + t && lines[1] == "tree depth: " + d && lines[2] == "branch factor: " + b;
    assert ("total branches: " + t)[16..] == t;
    assert ("tree depth: " + d)[12..] == d;
    assert ("branch factor: " + b)[15..] == b;
    ParseIntToString(g.tree.totalbranches);
    ParseIntToString(g.tree.depth);
    ParseIntToString(g.tree.branchFactor);
  }

  /** The last data line reads back as the frame rate. */
  lemma FpsLineReadBack(g: Graphics)
    ensures var lines := DataLines(g);
      ParseInt(lines[|lines| - 1][5..]) == Some(g.fps)
  {
    var f := IntToString(g.fps);
    assert ("fps: " + f)[5..] == f;
    ParseIntToString(g.fps);
  }

  /** `info.slice(0, 1).concat(['audio: muted']).concat(info.slice(1))`. */
  function InsertMuted(lines: seq<string>): (r: seq<string>)
    ensures |r| == |lines| + 1
    ensures |lines| == 0 ==> r == ["audio: muted"]
    ensures |lines| > 0 ==> r[0] == lines[0] && r[1] == "audio: muted" && r[2..] == lines[1..]
  {
    var k := if |lines| == 0 then 0 else 1;
    lines[..k] + ["audio: muted"] + lines[k..]
  }

  /** The lines `renderInfo(info)` writes, top to bottom. */
  function InfoLines(g: Graphics, muted: bool, info: seq<string>): (lines: seq<string>)
    reads g, g.tree
    ensures !g.showInfo ==> lines == []
    ensures g.showInfo ==> |lines| == |info| + (if g.showData then |DataLines(g)| else 0) + (if muted then 1 else 0)
    ensures g.showInfo && !muted ==> lines[..|info|] == info
    ensures g.showInfo && !g.showData && !muted ==> lines == info
    ensures g.showInfo && muted && |info| > 0 ==> lines[0] == info[0] && lines[1] == "audio: muted"
    ensures var extra := if g.showData then DataLines(g) else [];
      g.showInfo && !muted ==> lines[|info|..] == extra
    ensures var base := info + (if g.showData then DataLines(g) else []);
      g.showInfo && muted && |base| > 0 ==> lines[0] == base[0] && lines[1] == "audio: muted" && lines[2..] == base[1..]
    ensures var base := info + (if g.showData then DataLines(g) else []);
      g.showInfo && muted && |base| == 0 ==> lines == ["audio: muted"]
  {
    if !g.showInfo then []
    else
      var base := info + (if g.showData then DataLines(g) else []);
      assert base[..|info|] == info;
      if muted then InsertMuted(base) else base
  }

  /** `renderInfo(info)`, returning the lines it fills in. */
  method RenderInfo(g: Graphics, a: AudioState, info: seq<string>) returns (drawn: seq<string>)
    ensures drawn == InfoLines(g, a.muted, info)
  {
    if !g.showInfo {
      return [];
    }
    var lines := info;
    if g.showData {
      lines := lines + DataLines(g);
    }
    if a.muted {
      lines := InsertMuted(lines);
    }
    drawn := lines;
  }

  // ---------------------------------------------------------------- render and setup

  /** The reduce over the mid-range bands throws on an empty list, and it is reached exactly when the
      tree is drawn with wave data and a positive depth. */
  predicate TreeThrows(g: Graphics, a: AudioState)
    reads g, g.tree, a
  {
    g.mode == "tree" && a.waveData.Some? && g.tree.depth > 0 && |a.midFreqs| == 0
  }

  /** The `tree` branch of `render`: reset the counter, turn, grow, and draw from the root, whose
      length is the zoom level. `thrown` is the reduce over an empty band list. */
  method DrawTree(g: Graphics, a: AudioState, canvas: Canvas, growFactor: real) returns (thrown: bool)
    requires g.tree.Valid() && g.mode == "tree"
    modifies g.tree`totalbranches, g.tree`branchAngle, g.tree`growSpeed, g.tree`growFactor, g`angleEach
    modifies canvas`strokes
    ensures g.tree.Valid()
    ensures thrown <==> TreeThrows(g, a)
    ensures TurnOf(g) == Turned(old(TurnOf(g)), g.tree.rotationSpeed, g.tree.branchFactor, growFactor)
    ensures thrown ==> g.tree.totalbranches == 0
    ensures !thrown ==>
      g.tree.totalbranches == (if a.waveData.Some? then NodeCount(g.tree.branchFactor, g.tree.depth) else 0)
    ensures canvas.strokes == old(canvas.strokes) + Stroked(0, g.tree.totalbranches)
  {
    BeginTreeFrame(g, growFactor);
    if TreeThrows(g, a) {
      return true;
    }
    RenderTree(g, a, canvas, g.tree.zoomLevel, 0.0, g.tree.depth);
    thrown := false;
  }

  /** The common part of `render`: analyse the audio, advance the dash phase and step the zoom. */
  method BeginFrame(g: Graphics, a: AudioState, wave: seq<Byte>, freq: seq<Byte>, u: real)
    requires a.Valid()
    requires a.waveData.Some? ==> |wave| == a.bufferLength && |freq| == a.bufferLength
    requires 0.0 <= u < 1.0
    modifies a`analyserFftSize, a`waveData, a`freqData, a`freqBands, a`lowFreqs, a`midFreqs, a`highFreqs
    modifies g`lineDWidthSpeed, g.tree`zoomLevel, g.tree`zoomIncrease
    ensures a.Valid() && a.analyserFftSize == a.fftSize
    ensures AnalysisOf(a) == Analysed(old(AnalysisOf(a)), a.bufferLength, wave, freq, a.sampleRate, a.fftSize)
    ensures g.lineDWidthSpeed == old(g.lineDWidthSpeed) + 0.001
    ensures Zoom(g.tree.zoomLevel, g.tree.zoomIncrease) ==
      ZoomStep(old(Zoom(g.tree.zoomLevel, g.tree.zoomIncrease)), g.tree.zoomMin, g.tree.zoomSpeed,
        Utils.Random(g.tree.zoomMax / 2.0, g.tree.zoomMax, u) as real)
  {
    AnalyseAudio(a, wave, freq);
    g.lineDWidthSpeed := g.lineDWidthSpeed + 0.001;
    AdvanceZoom(g.tree, u);
  }

  /** The mode switch of `render`. Only the tree changes state; the oscilloscope and the bars only
      draw, which is left out. */
  method DrawMode(g: Graphics, a: AudioState, canvas: Canvas, growFactor: real) returns (thrown: bool)
    requires g.tree.Valid()
    modifies g.tree`totalbranches, g.tree`branchAngle, g.tree`growSpeed, g.tree`growFactor, g`angleEach
    modifies canvas`strokes
    ensures g.tree.Valid()
    ensures thrown <==> TreeThrows(g, a)
    ensures thrown ==> g.tree.totalbranches == 0
    ensures g.mode == "tree" && !thrown ==>
      g.tree.totalbranches == (if a.waveData.Some? then NodeCount(g.tree.branchFactor, g.tree.depth) else 0)
    ensures g.mode == "tree" ==> canvas.strokes == old(canvas.strokes) + Stroked(0, g.tree.totalbranches)
    ensures g.mode == "tree" ==>
      TurnOf(g) == Turned(old(TurnOf(g)), g.tree.rotationSpeed, g.tree.branchFactor, growFactor)
    ensures g.mode != "tree" ==> (canvas.strokes == old(canvas.strokes) &&
      g.tree.totalbranches == old(g.tree.totalbranches) && TurnOf(g) == old(TurnOf(g)))
  {
    thrown := false;
    if g.mode == "tree" {
      thrown := DrawTree(g, a, canvas, growFactor);
    }
  }

  /** The drawing half of `render`: the current mode, then the info overlay. `None` is a frame that
      throws before the overlay is drawn. */
  method DrawFrame(g: Graphics, a: AudioState, canvas: Canvas, growFactor: real) returns (drawn: Option<seq<string>>)
    requires g.tree.Valid()
    modifies g.tree`totalbranches, g.tree`branchAngle, g.tree`growSpeed, g.tree`growFactor, g`angleEach
    modifies canvas`strokes
    ensures g.tree.Valid()
    ensures drawn.None? <==> TreeThrows(g, a)
    ensures drawn.None? ==> g.tree.totalbranches == 0
    ensures drawn.Some? ==> drawn.value == InfoLines(g, a.muted, g.info)
    ensures g.mode == "tree" && drawn.Some? ==>
      g.tree.totalbranches == (if a.waveData.Some? then NodeCount(g.tree.branchFactor, g.tree.depth) else 0)
    ensures g.mode == "tree" ==> canvas.strokes == old(canvas.strokes) + Stroked(0, g.tree.totalbranches)
    ensures g.mode == "tree" ==>
      TurnOf(g) == Turned(old(TurnOf(g)), g.tree.rotationSpeed, g.tree.branchFactor, growFactor)
    ensures g.mode != "tree" ==> (canvas.strokes == old(canvas.strokes) &&
      g.tree.totalbranches == old(g.tree.totalbranches) && TurnOf(g) == old(TurnOf(g)))
  {
    var thrown := DrawMode(g, a, canvas, growFactor);
    if thrown {
      drawn := None;
    } else {
      var lines := RenderInfo(g, a, g.info);
      drawn := Some(lines);
    }
  }

  /** `render()`: analyse, advance the dash phase and the zoom, draw the current mode, then the info
      overlay. `wave` and `freq` are what the analyser reports, `u` the draw behind the zoom threshold
      and `growFactor` the sine the host computes. `None` is a frame that throws; the loop then stops
      rescheduling itself. */
  method RenderFrame(g: Graphics, a: AudioState, canvas: Canvas, wave: seq<Byte>, freq: seq<Byte>,
                     u: real, growFactor: real) returns (drawn: Option<seq<string>>)
    requires a.Valid() && g.tree.Valid()
    requires a.waveData.Some? ==> |wave| == a.bufferLength && |freq| == a.bufferLength
    requires 0.0 <= u < 1.0
    modifies a`analyserFftSize, a`waveData, a`freqData, a`freqBands, a`lowFreqs, a`midFreqs, a`highFreqs
    modifies g`lineDWidthSpeed, g`angleEach, canvas`strokes
    modifies g.tree`zoomLevel, g.tree`zoomIncrease, g.tree`totalbranches, g.tree`branchAngle
    modifies g.tree`growSpeed, g.tree`growFactor
    ensures a.Valid() && g.tree.Valid() && a.analyserFftSize == a.fftSize
    ensures AnalysisOf(a) == Analysed(old(AnalysisOf(a)), a.bufferLength, wave, freq, a.sampleRate, a.fftSize)
    ensures g.lineDWidthSpeed == old(g.lineDWidthSpeed) + 0.001
    ensures Zoom(g.tree.zoomLevel, g.tree.zoomIncrease) ==
      ZoomStep(old(Zoom(g.tree.zoomLevel, g.tree.zoomIncrease)), g.tree.zoomMin, g.tree.zoomSpeed,
        Utils.Random(g.tree.zoomMax / 2.0, g.tree.zoomMax, u) as real)
    ensures drawn.None? <==> TreeThrows(g, a)
    ensures drawn.None? ==> g.tree.totalbranches == 0
    ensures drawn.Some? ==> drawn.value == InfoLines(g, a.muted, g.info)
    ensures g.mode == "tree" && drawn.Some? ==>
      g.tree.totalbranches == (if a.waveData.Some? then NodeCount(g.tree.branchFactor, g.tree.depth) else 0)
    ensures g.mode == "tree" ==> canvas.strokes == old(canvas.strokes) + Stroked(0, g.tree.totalbranches)
    ensures g.mode == "tree" ==>
      TurnOf(g) == Turned(old(TurnOf(g)), g.tree.rotationSpeed, g.tree.branchFactor, growFactor)
    ensures g.mode != "tree" ==> (canvas.strokes == old(canvas.strokes) &&
      g.tree.totalbranches == old(g.tree.totalbranches) && TurnOf(g) == old(TurnOf(g)))
  {
    BeginFrame(g, a, wave, freq, u);
    ghost var zoomed := Zoom(g.tree.zoomLevel, g.tree.zoomIncrease);
    ghost var dashed := g.lineDWidthSpeed;
    drawn := DrawFrame(g, a, canvas, growFactor);
    assert Zoom(g.tree.zoomLevel, g.tree.zoomIncrease) == zoomed && g.lineDWidthSpeed == dashed;
  }

  /** `setup()` without the audio context and the canvas lookup: the info text starts as the default
      text and the canvas takes the window's size. */
  method Setup(g: Graphics, innerWidth: real, innerHeight: real)
    modifies g`info, g`cw, g`ch, g`x, g`y
    ensures g.info == g.defaultInfo
    ensures g.cw == innerWidth && g.ch == innerHeight && 2.0 * g.x == innerWidth && 2.0 * g.y == innerHeight
  {
    g.info := g.defaultInfo;
    Gui.ResizeGraphics(g, innerWidth, innerHeight);
  }
}
