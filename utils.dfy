/** scripts/utils.js: the random draw, random colours, the `rgba(...)` colour string and the helpers that
    look up vendor-prefixed browser properties. The uniform draw of `Math.random()` is a parameter `u`
    in [0, 1). */
module Utils {
  import opened Wrappers
  import opened Text

  /** The number of integers `random(min, max)` can return when both bounds are integral. */
  function Span(min: real, max: real): real { max - min + 1.0 }

  /** `u * w` for a draw u in [0, 1): it stays below w. */
  function Scale(u: real, w: real): (p: real)
    requires 0.0 <= u < 1.0 && 0.0 < w
    ensures 0.0 <= p < w
  {
    assert (1.0 - u) * w > 0.0;
    u * w
  }

  lemma FloorWithin(v: real, lo: real, hi: real)
    requires lo <= v < hi + 1.0
    ensures lo.Floor <= v.Floor && (v.Floor as real) < hi + 1.0
    ensures lo == lo.Floor as real && hi == hi.Floor as real ==> lo <= v.Floor as real <= hi
  {
    var a := lo.Floor;
    var b := v.Floor;
    assert a as real <= lo && v < b as real + 1.0;
    assert (a as real) < (b as real) + 1.0;
    assert a < b + 1;
    assert b as real <= v;
    if hi == hi.Floor as real {
      var h := hi.Floor;
      assert (b as real) < (h as real) + 1.0;
      assert b < h + 1;
    }
  }

  /** `random(min, max)`: `Math.floor(u * (max - min + 1) + min)`. JavaScript numbers are reals here; for
      integral bounds the result lies in [min, max]. */
  function Random(min: real, max: real, u: real): (r: int)
    requires 0.0 <= u < 1.0
    ensures min <= max ==> min.Floor <= r && (r as real) < max + 1.0
    ensures min <= max && min == min.Floor as real && max == max.Floor as real ==> min <= r as real <= max
  {
    if min <= max then
      var v := Scale(u, Span(min, max)) + min;
      FloorWithin(v, min, max);
      v.Floor
    else
      (u * Span(min, max) + min).Floor
  }

  /** Every integer of [min, max] is drawn for some u: the range of `random` is exactly [min, max]. */
  lemma RandomReaches(min: int, max: int, k: int)
    requires min <= k <= max
    ensures var u := (k - min) as real / Span(min as real, max as real);
      0.0 <= u < 1.0 && Random(min as real, max as real, u) == k
  {
    var w := Span(min as real, max as real);
    var u := (k - min) as real / w;
    assert u * w == (k - min) as real;
    assert (k - min) as real < w;
    assert u < 1.0;
  }

  /** `randomColor()`: three channels drawn with `random(0, 255)`, then alpha 1.0. */
  function RandomColor(u0: real, u1: real, u2: real): (c: seq<real>)
    requires 0.0 <= u0 < 1.0 && 0.0 <= u1 < 1.0 && 0.0 <= u2 < 1.0
    ensures |c| == 4 && c[3] == 1.0
    ensures forall i | 0 <= i < 3 :: 0.0 <= c[i] <= 255.0 && c[i] == c[i].Floor as real
  {
    [Random(0.0, 255.0, u0) as real, Random(0.0, 255.0, u1) as real, Random(0.0, 255.0, u2) as real] + [1.0]
  }

  /** `rgbaString(rgba)`: the first three entries floored, the fourth as is, joined by commas inside
      `rgba(` and `)`. A missing fourth entry is `undefined`, which `join` prints as nothing. */
  function RgbaString(rgba: seq<real>): (s: string)
    ensures |s| >= 6 && s[..5] == "rgba(" && s[|s| - 1] == ')'
    ensures |rgba| >= 4 ==> var t := "," + NumberString(rgba[3]) + ")"; |t| <= |s| && s[|s| - |t|..] == t
  {
    var channels := FlooredChannels(rgba);
    var alpha := if |rgba| > 3 then NumberString(rgba[3]) else "";
    RgbaClosesWithAlpha(channels, alpha);
    "rgba(" + Join(channels + [alpha], ',') + ")"
  }

  /** The first three entries (fewer when there are fewer), floored and printed. */
  function FlooredChannels(rgba: seq<real>): (channels: seq<string>)
    ensures |channels| == if |rgba| < 3 then |rgba| else 3
    ensures forall i | 0 <= i < |channels| :: channels[i] == IntToString(rgba[i].Floor)
  {
    var n := if |rgba| < 3 then |rgba| else 3;
    seq(n, i requires 0 <= i < n => IntToString(rgba[i].Floor))
  }

  /** The text opens with `rgba(` and closes with `)`; with at least one channel, a comma and the
      alpha come right before the bracket. */
  lemma RgbaClosesWithAlpha(channels: seq<string>, alpha: string)
    ensures var s := "rgba(" + Join(channels + [alpha], ',') + ")";
      |s| >= 6 && s[..5] == "rgba(" && s[|s| - 1] == ')'
    ensures var s := "rgba(" + Join(channels + [alpha], ',') + ")"; var t := "," + alpha + ")";
      |channels| > 0 ==> |t| <= |s| && s[|s| - |t|..] == t
  {
    var parts := channels + [alpha];
    var s := "rgba(" + Join(parts, ',') + ")";
    assert s[..5] == "rgba(";
    if |channels| > 0 {
      JoinLast(parts, ',');
      assert parts[..|parts| - 1] == channels;
      assert s == "rgba(" + Join(channels, ',') + ("," + alpha + ")");
    }
  }

  /** Reads an `rgba(r,g,b,a)` string back: the three colour channels as integers and the alpha text. */
  function ParseRgba(s: string): Option<(seq<int>, string)> {
    if |s| >= 6 && s[..5] == "rgba(" && s[|s| - 1] == ')' then
      var parts := Split(s[5..|s| - 1], ',');
      if |parts| == 4 && ParseInt(parts[0]).Some? && ParseInt(parts[1]).Some? && ParseInt(parts[2]).Some? then
        Some(([ParseInt(parts[0]).value, ParseInt(parts[1]).value, ParseInt(parts[2]).value], parts[3]))
      else None
    else None
  }

  lemma NumeralHasNoComma(s: string)
    requires IsNumeral(s)
    ensures ',' !in s
  {
    assert forall i | 0 <= i < |s| :: s[i] != ',';
  }

  /** The string carries the floored channels and the alpha as printed: reading it back gives
      floor(r), floor(g), floor(b) and the alpha's text. */
  lemma {:induction false} RgbaStringRoundTrip(c: seq<real>)
    requires |c| >= 4
    ensures ParseRgba(RgbaString(c)) == Some(([c[0].Floor, c[1].Floor, c[2].Floor], NumberString(c[3])))
  {
    var parts := [IntToString(c[0].Floor), IntToString(c[1].Floor), IntToString(c[2].Floor), NumberString(c[3])];
    var channels := seq(3, i requires 0 <= i < 3 => IntToString(c[i].Floor));
    assert channels + [NumberString(c[3])] == parts;
    forall i | 0 <= i < 4 ensures ',' !in parts[i] {
      NumeralHasNoComma(parts[i]);
    }
    SplitJoin(parts, ',');
    var s := RgbaString(c);
    assert s[5..|s| - 1] == Join(parts, ',');
    ParseIntToString(c[0].Floor);
    ParseIntToString(c[1].Floor);
    ParseIntToString(c[2].Floor);
  }

  /** Entries after the fourth do not show in the string. */
  lemma RgbaStringIgnoresExtra(c: seq<real>, extra: seq<real>)
    requires |c| >= 4
    ensures RgbaString(c + extra) == RgbaString(c)
  {
    var d := c + extra;
    assert seq(3, i requires 0 <= i < 3 => IntToString(d[i].Floor))
        == seq(3, i requires 0 <= i < 3 => IntToString(c[i].Floor));
  }

  const Prefixes: seq<string> := ["", "ms", "moz", "webkit"]

  /** `vendorPrefix(str)`: the name with each of the four vendor prefixes, in prefix order. */
  function VendorPrefix(str: string): (names: seq<string>)
    ensures |names| == |Prefixes|
    ensures forall i | 0 <= i < |names| :: names[i] == Prefixes[i] + str
  {
    ["" + str, "ms" + str, "moz" + str, "webkit" + str]
  }

  /** The four prefixed names are distinct and each gives back the name when its prefix is cut off. */
  lemma VendorPrefixDistinct(str: string)
    ensures forall i, j | 0 <= i < j < 4 :: VendorPrefix(str)[i] != VendorPrefix(str)[j]
    ensures forall i | 0 <= i < 4 :: VendorPrefix(str)[i][|Prefixes[i]|..] == str
  {
    var names := VendorPrefix(str);
    forall i | 0 <= i < 4 ensures names[i][|Prefixes[i]|..] == str {
      assert names[i] == Prefixes[i] + str;
    }
  }

  /** A JavaScript value as far as truthiness is concerned (NaN is not modelled). */
  datatype JsValue = Undefined | Null | Bool(b: bool) | Number(n: real) | Str(s: string) | Object(id: nat)
  {
    predicate Truthy() {
      match this
      case Undefined => false
      case Null => false
      case Bool(b) => b
      case Number(n) => n != 0.0
      case Str(s) => s != ""
      case Object(_) => true
    }
  }

  /** `target[key]`: a missing property reads as `undefined`. */
  function Lookup(target: map<string, JsValue>, key: string): JsValue {
    if key in target then target[key] else Undefined
  }

  /** `prop.charAt(0).toUpperCase() + prop.slice(1)`. */
  function Capitalised(prop: string): (r: string)
    ensures |r| == |prop|
  {
    if prop == [] then [] else [UpperChar(prop[0])] + prop[1..]
  }

  /** The property names `vendorPrefixed` tries, in order: `prop` itself, then the three vendor prefixes
      with `prop` capitalised. */
  function PrefixedNames(prop: string): (names: seq<string>)
    ensures |names| == 4 && names[0] == prop
    ensures forall i | 1 <= i < 4 :: names[i] == Prefixes[i] + Capitalised(prop)
  {
    [prop, "ms" + Capitalised(prop), "moz" + Capitalised(prop), "webkit" + Capitalised(prop)]
  }

  /** `values.filter(v => v)[0]`. */
  function FirstTruthy(values: seq<JsValue>): (r: JsValue)
    ensures r.Truthy() || r == Undefined
    ensures r == Undefined ==> forall i | 0 <= i < |values| :: !values[i].Truthy()
    ensures r.Truthy() ==> exists i | 0 <= i < |values| :: values[i] == r && forall j | 0 <= j < i :: !values[j].Truthy()
  {
    if values == [] then Undefined
    else if values[0].Truthy() then values[0]
    else
      var r := FirstTruthy(values[1..]);
      assert r.Truthy() ==> exists i | 1 <= i < |values| :: values[i] == r && forall j | 0 <= j < i :: !values[j].Truthy() by {
        if r.Truthy() {
          var k :| 0 <= k < |values| - 1 && values[1..][k] == r && forall j | 0 <= j < k :: !values[1..][j].Truthy();
          assert values[k + 1] == r;
          assert forall j | 0 <= j < k + 1 :: !values[j].Truthy() by {
            forall j | 0 <= j < k + 1 ensures !values[j].Truthy() {
              if j > 0 { assert values[j] == values[1..][j - 1]; }
            }
          }
        }
      }
      r
  }

  /** `vendorPrefixed(prop, target)`: the first truthy value among the properties named by `PrefixedNames`,
      or `undefined` when none is truthy. */
  function VendorPrefixed(prop: string, target: map<string, JsValue>): (r: JsValue)
    ensures r == Undefined <==> forall i | 0 <= i < 4 :: !Lookup(target, PrefixedNames(prop)[i]).Truthy()
    ensures r != Undefined ==> exists i | 0 <= i < 4 ::
      r == Lookup(target, PrefixedNames(prop)[i]) && r.Truthy() &&
      forall j | 0 <= j < i :: !Lookup(target, PrefixedNames(prop)[j]).Truthy()
  {
    var names := PrefixedNames(prop);
    var values := seq(4, i requires 0 <= i < 4 => Lookup(target, names[i]));
    assert forall i | 0 <= i < 4 :: values[i] == Lookup(target, PrefixedNames(prop)[i]);
    FirstTruthy(values)
  }
}
