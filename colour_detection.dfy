/**
 * The chip colour classification of ColourDetection/colour_detection.py:
 * HSV pixels from the camera ring scan are tallied into colour categories
 * by hue (saturated pixels) or by value (dull pixels), and the colour with
 * the largest tally is the chip's colour.  The camera, the image capture
 * and the ring scan (OpenCV and floating-point trigonometry) are not part
 * of this model: the scanned pixels are its input.
 */
module ColourDetection {
  import opened Bits
  import opened Wrappers

  /** The keys of the result dictionary. */
  datatype Category = White | Black | Red | Orange | Yellow | Green | Blue | Purple | Pink

  /**
   * One entry of `colour_ranges`: an inclusive OpenCV hue range (0-179) and
   * the key it counts towards; "red_low" and "red_high" both count as red.
   */
  datatype HueRange = HueRange(category: Category, low: nat, high: nat)

  /** An OpenCV HSV pixel: hue, saturation, value. */
  datatype Pixel = Pixel(hue: Byte, sat: Byte, val: Byte)

  /** A Python dictionary from category to count: its keys in insertion order and its entries. */
  datatype Tally = Tally(keys: seq<Category>, count: map<Category, nat>)

  /** `colour_ranges`, in its insertion order. */
  const ColourRanges: seq<HueRange> := [
    HueRange(Red, 0, 20), HueRange(Orange, 21, 25), HueRange(Yellow, 26, 34),
    HueRange(Green, 35, 89), HueRange(Blue, 90, 135), HueRange(Purple, 136, 150),
    HueRange(Pink, 151, 164), HueRange(Red, 165, 179)
  ]

  /** `255 // 2`: the saturation and value thresholds. */
  const HalfScale: nat := 127

  /** The result keys in insertion order: white and black first, then one per range key, red once. */
  const KeyOrder: seq<Category> := [White, Black, Red, Orange, Yellow, Green, Blue, Purple, Pink]

  /** No key appears twice. */
  predicate Distinct(keys: seq<Category>)
  {
    forall i, j :: 0 <= i < j < |keys| ==> keys[i] != keys[j]
  }

  /**
   * Assignment to a dictionary key, as it affects the key order: every
   * existing key keeps its place, the keys become the old ones and `c`,
   * at most one is added at the end, and no key is ever listed twice.
   */
  function Insert(keys: seq<Category>, c: Category): (r: seq<Category>)
    ensures keys <= r && |r| <= |keys| + 1
    ensures forall k :: k in r <==> k in keys || k == c
    ensures Distinct(keys) ==> Distinct(r)
  {
    if c in keys then keys else keys + [c]
  }

  /** The key order after `colour_cat[key] = 0` for each of the first `n` ranges in turn. */
  function KeysAfter(keys: seq<Category>, n: nat): seq<Category>
    requires n <= |ColourRanges|
  {
    if n == 0 then keys else Insert(KeysAfter(keys, n - 1), ColourRanges[n - 1].category)
  }

  /** Every category counted zero times. */
  function Zero(): (m: map<Category, nat>)
    ensures forall c :: c in m && m[c] == 0
  {
    EveryCategoryIsAKey();
    map c: Category | c in KeyOrder :: 0
  }

  /** Every category is one of the result keys. */
  lemma EveryCategoryIsAKey()
    ensures forall c: Category :: c in KeyOrder
  {
    forall c: Category ensures c in KeyOrder {
      match c
      case White => assert KeyOrder[0] == c;
      case Black => assert KeyOrder[1] == c;
      case Red => assert KeyOrder[2] == c;
      case Orange => assert KeyOrder[3] == c;
      case Yellow => assert KeyOrder[4] == c;
      case Green => assert KeyOrder[5] == c;
      case Blue => assert KeyOrder[6] == c;
      case Purple => assert KeyOrder[7] == c;
      case Pink => assert KeyOrder[8] == c;
    }
  }

  /**
   * The reference colour of a hue, by thresholds read off the table:
   * none for a hue above 179.
   */
  function HueCategory(h: nat): (c: Option<Category>)
    ensures c.Some? <==> h <= 179
  {
    if h <= 20 then Some(Red)
    else if h <= 25 then Some(Orange)
    else if h <= 34 then Some(Yellow)
    else if h <= 89 then Some(Green)
    else if h <= 135 then Some(Blue)
    else if h <= 150 then Some(Purple)
    else if h <= 164 then Some(Pink)
    else if h <= 179 then Some(Red)
    else None
  }

  /** The categories of the first `n` ranges that hold hue `h`, in table order. */
  function Matching(h: nat, n: nat): seq<Category>
    requires n <= |ColourRanges|
  {
    if n == 0 then []
    else
      var last := ColourRanges[n - 1];
      Matching(h, n - 1) + (if last.low <= h <= last.high then [last.category] else [])
  }

  /** As a list of optional categories: empty or one. */
  function AsList(c: Option<Category>): seq<Category>
  {
    if c.Some? then [c.value] else []
  }

  /**
   * The ranges partition the hues 0-179: each such hue lies in exactly one
   * range, the one the reference thresholds name, and no larger hue lies in
   * any.
   */
  lemma ExactlyOneRange(h: nat)
    ensures Matching(h, |ColourRanges|) == AsList(HueCategory(h))
  {
    assert Matching(h, 1) == if h <= 20 then [Red] else [];
    assert Matching(h, 2) == if h <= 25 then AsList(HueCategory(h)) else [];
    assert Matching(h, 3) == if h <= 34 then AsList(HueCategory(h)) else [];
    assert Matching(h, 4) == if h <= 89 then AsList(HueCategory(h)) else [];
    assert Matching(h, 5) == if h <= 135 then AsList(HueCategory(h)) else [];
    assert Matching(h, 6) == if h <= 150 then AsList(HueCategory(h)) else [];
    assert Matching(h, 7) == if h <= 164 then AsList(HueCategory(h)) else [];
  }

  /** The ranges lie in ascending order, each starting one past the end of the last, from 0 to 179. */
  lemma RangesAreContiguous()
    ensures ColourRanges[0].low == 0 && ColourRanges[|ColourRanges| - 1].high == 179
    ensures forall i :: 0 <= i < |ColourRanges| ==> ColourRanges[i].low <= ColourRanges[i].high
    ensures forall i :: 0 <= i < |ColourRanges| - 1 ==>
              ColourRanges[i].high + 1 == ColourRanges[i + 1].low
  {
  }

  /** The category a pixel is counted under, if any. */
  function Classify(p: Pixel): (c: Option<Category>)
    ensures p.sat > HalfScale ==> c == HueCategory(p.hue)
    ensures p.sat <= HalfScale && p.val > HalfScale ==> c == Some(White)
    ensures p.sat <= HalfScale && p.val <= HalfScale ==> c == Some(Black)
    ensures c.None? <==> p.sat > HalfScale && p.hue > 179
  {
    if p.sat > HalfScale then HueCategory(p.hue)
    else if p.val > HalfScale then Some(White)
    else Some(Black)
  }

  /** One more for each listed category. */
  function BumpAll(m: map<Category, nat>, cs: seq<Category>): (r: map<Category, nat>)
    requires forall c :: c in m
    ensures forall c :: c in r
    decreases |cs|
  {
    if cs == [] then m
    else
      var prev := BumpAll(m, cs[..|cs| - 1]);
      prev[cs[|cs| - 1] := prev[cs[|cs| - 1]] + 1]
  }

  /** The reference tally of a list of pixels. */
  function Counts(pixels: seq<Pixel>): (m: map<Category, nat>)
    ensures forall c :: c in m
    decreases |pixels|
  {
    if pixels == [] then Zero()
    else BumpAll(Counts(pixels[..|pixels| - 1]), AsList(Classify(pixels[|pixels| - 1])))
  }

  /** The sum of a tally's counts. */
  function Total(m: map<Category, nat>): nat
    requires forall c :: c in m
  {
    m[White] + m[Black] + m[Red] + m[Orange] + m[Yellow] + m[Green] + m[Blue] + m[Purple] + m[Pink]
  }

  /** Counting one more category adds one to the total. */
  lemma TotalOfBump(m: map<Category, nat>, c: Category)
    requires forall k :: k in m
    ensures Total(m[c := m[c] + 1]) == Total(m) + 1
  {
  }

  /**
   * Every pixel is counted at most once, and exactly once when its hue is
   * within 0-179 or it is dull.
   */
  lemma {:induction false} TotalCounts(pixels: seq<Pixel>)
    ensures Total(Counts(pixels)) <= |pixels|
    ensures (forall i :: 0 <= i < |pixels| ==> Classify(pixels[i]).Some?) ==>
              Total(Counts(pixels)) == |pixels|
    decreases |pixels|
  {
    if pixels != [] {
      var init := pixels[..|pixels| - 1];
      TotalCounts(init);
      var c := Classify(pixels[|pixels| - 1]);
      if c.Some? {
        BumpOne(Counts(init), c.value);
        TotalOfBump(Counts(init), c.value);
      } else {
        assert Counts(pixels) == Counts(init);
      }
      assert forall i :: 0 <= i < |init| ==> init[i] == pixels[i];
    }
  }

  /** With every hue in 0-179, the counts add up to the number of pixels. */
  lemma TotalWithinHueRange(pixels: seq<Pixel>)
    requires forall i :: 0 <= i < |pixels| ==> pixels[i].hue <= 179
    ensures Total(Counts(pixels)) == |pixels|
  {
    TotalCounts(pixels);
  }

  /** Listing one category counts it once. */
  lemma BumpOne(m: map<Category, nat>, c: Category)
    requires forall k :: k in m
    ensures BumpAll(m, [c]) == m[c := m[c] + 1]
  {
    assert [c][..0] == [];
  }

  /** One more listed category, one more count. */
  lemma BumpAllStep(m: map<Category, nat>, cs: seq<Category>, c: Category)
    requires forall k :: k in m
    ensures BumpAll(m, cs + [c]) == var prev := BumpAll(m, cs); prev[c := prev[c] + 1]
  {
    assert (cs + [c])[..|cs|] == cs;
  }

  /**
   * categorize_pixels, first part: the result dictionary starts with white
   * and black, then gets a zero entry for each range's key in table order.
   */
  method NewTally() returns (t: Tally)
    ensures t.keys == KeyOrder
    ensures t.count == Zero()
  {
    var keys := [White, Black];
    var count: map<Category, nat> := map[White := 0, Black := 0];
    var i := 0;
    while i < |ColourRanges|
      invariant 0 <= i <= |ColourRanges|
      invariant keys == KeysAfter([White, Black], i)
      invariant forall c :: c in count <==> c in keys
      invariant forall c :: c in count ==> count[c] == 0
    {
      keys := Insert(keys, ColourRanges[i].category);
      count := count[ColourRanges[i].category := 0];
      i := i + 1;
    }
    InitialTally(keys, count);
    t := Tally(keys, count);
  }

  /** What the initialisation loop leaves: the full key order, each key counted zero times. */
  lemma InitialTally(keys: seq<Category>, count: map<Category, nat>)
    requires keys == KeysAfter([White, Black], |ColourRanges|)
    requires forall c :: c in count <==> c in keys
    requires forall c :: c in count ==> count[c] == 0
    ensures keys == KeyOrder && count == Zero()
  {
    InitialKeys();
    EveryCategoryIsAKey();
    assert forall c :: c in count && count[c] == 0;
  }

  /**
   * categorize_pixels, the body of its loop over the pixels: a saturated
   * pixel adds one to the key of every range holding its hue (the
   * `continue` does not leave the range loop), a dull one to white or
   * black by its value.
   */
  method CountPixel(count: map<Category, nat>, px: Pixel) returns (count': map<Category, nat>)
    requires forall c :: c in count
    ensures count' == BumpAll(count, AsList(Classify(px)))
  {
    count' := count;
    if px.sat > HalfScale {
      var j := 0;
      while j < |ColourRanges|
        invariant 0 <= j <= |ColourRanges|
        invariant count' == BumpAll(count, Matching(px.hue, j))
      {
        var range := ColourRanges[j];
        if range.low <= px.hue <= range.high {
          BumpAllStep(count, Matching(px.hue, j), range.category);
          count' := count'[range.category := count'[range.category] + 1];
        } else {
          assert Matching(px.hue, j + 1) == Matching(px.hue, j);
        }
        j := j + 1;
      }
      ExactlyOneRange(px.hue);
    } else if px.val > HalfScale {
      BumpOne(count, White);
      count' := count'[White := count'[White] + 1];
    } else {
      BumpOne(count, Black);
      count' := count'[Black := count'[Black] + 1];
    }
  }

  /**
   * categorize_pixels: the result has the keys white, black, red, orange,
   * yellow, green, blue, purple and pink in that order, and counts each
   * pixel under the category Classify gives it.  The two loops over
   * `pixel_values` run over lists that nothing fills, so they change no
   * count and have no counterpart here.
   */
  method CategorizePixels(pixels: seq<Pixel>) returns (t: Tally)
    ensures t.keys == KeyOrder
    ensures t.count == Counts(pixels)
  {
    t := NewTally();
    var count := t.count;
    var n := 0;
    while n < |pixels|
      invariant 0 <= n <= |pixels|
      invariant count == Counts(pixels[..n])
    {
      assert pixels[..n + 1][..n] == pixels[..n];
      count := CountPixel(count, pixels[n]);
      n := n + 1;
    }
    assert pixels[..n] == pixels;
    t := Tally(t.keys, count);
  }

  /** The initialisation loop's keys: white, black, then the range keys in first-seen order. */
  lemma InitialKeys()
    ensures KeysAfter([White, Black], |ColourRanges|) == KeyOrder
  {
    var n: nat := 7;
    KeysPrefix(n);
    assert KeyOrder[..n + 2] == KeyOrder;
    assert ColourRanges[n].category == KeyOrder[2];
    assert KeysAfter([White, Black], n + 1) == Insert(KeyOrder, KeyOrder[2]) == KeyOrder;
  }

  /** The place of a category in the key order. */
  function KeyIndex(c: Category): nat
  {
    match c
    case White => 0
    case Black => 1
    case Red => 2
    case Orange => 3
    case Yellow => 4
    case Green => 5
    case Blue => 6
    case Purple => 7
    case Pink => 8
  }

  /** No category appears twice in the key order. */
  lemma KeyOrderDistinct()
    ensures forall i :: 0 <= i < |KeyOrder| ==> KeyIndex(KeyOrder[i]) == i
  {
  }

  /** Each of the first seven ranges adds a new key, the next one of the key order. */
  lemma {:induction false} KeysPrefix(n: nat)
    requires n <= 7
    ensures KeysAfter([White, Black], n) == KeyOrder[..n + 2]
  {
    if n == 0 {
      assert KeyOrder[..2] == [White, Black];
    } else {
      KeysPrefix(n - 1);
      var c := ColourRanges[n - 1].category;
      assert c == KeyOrder[n + 1];
      KeyOrderDistinct();
      assert KeyOrder[..n + 1] + [c] == KeyOrder[..n + 2];
    }
  }

  /**
   * analyse_categories: the first key, in insertion order, whose count is
   * the largest of all.
   */
  method AnalyseCategories(t: Tally) returns (colour: Category)
    requires |t.keys| > 0
    requires forall k :: k in t.keys ==> k in t.count
    ensures colour in t.keys
    ensures forall k :: k in t.keys ==> t.count[k] <= t.count[colour]
    ensures exists i :: 0 <= i < |t.keys| && t.keys[i] == colour
              && forall j :: 0 <= j < i ==> t.count[t.keys[j]] < t.count[colour]
  {
    var maxCount := MaxCount(t.count, t.keys);
    ghost var w :| 0 <= w < |t.keys| && t.count[t.keys[w]] == maxCount;
    var i := 0;
    while t.count[t.keys[i]] != maxCount
      invariant 0 <= i <= w
      invariant forall j :: 0 <= j < i ==> t.count[t.keys[j]] < maxCount
      decreases w - i
    {
      i := i + 1;
    }
    colour := t.keys[i];
  }

  /** `max(categorized_results.values())`: the largest count of the listed keys. */
  function MaxCount(count: map<Category, nat>, keys: seq<Category>): (m: nat)
    requires |keys| > 0
    requires forall k :: k in keys ==> k in count
    ensures forall i :: 0 <= i < |keys| ==> count[keys[i]] <= m
    ensures exists i :: 0 <= i < |keys| && count[keys[i]] == m
    decreases |keys|
  {
    if |keys| == 1 then count[keys[0]]
    else
      var rest := MaxCount(count, keys[1..]);
      assert forall i :: 1 <= i < |keys| ==> keys[i] == keys[1..][i - 1];
      if count[keys[0]] >= rest then count[keys[0]] else rest
  }
}
