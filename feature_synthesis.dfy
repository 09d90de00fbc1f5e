/**
 * The synthetic feature generator of the severity predictor: it turns the
 * patient sliders into one value per name of the trained model's feature
 * schema. Names are classified by an ordered chain of substring tests (first
 * match wins) and each class gets either a slider value verbatim or a clipped
 * normal draw shifted by a slider-dependent offset.
 *
 * The random draw is an input: `np.random.normal(mean, std)` is written
 * `mean + std * z`, and every property below holds for every `z`.
 */
module FeatureSynthesis {
  import opened Text

  /** The six form inputs that the generator reads (module-level globals in the source). */
  datatype Sliders = Sliders(
    age: int,         // number input, 20..90
    sex: int,         // Male = 1, Female = 0
    tremor: int,      // slider 0..10
    clarity: int,     // slider 0..10
    stability: int,   // slider 0..10
    distortion: int   // slider 0..10
  )

  /** The bounds the form widgets put on the inputs. */
  predicate ValidSliders(s: Sliders) {
    20 <= s.age <= 90 && (s.sex == 0 || s.sex == 1) &&
    0 <= s.tremor <= 10 && 0 <= s.clarity <= 10 &&
    0 <= s.stability <= 10 && 0 <= s.distortion <= 10
  }

  // ---------------------------------------------------------------------
  // realistic_value
  // ---------------------------------------------------------------------

  /** `np.clip(x, lo, hi)`, that is `min(max(x, lo), hi)`: the upper bound wins when lo > hi. */
  function Clip(x: real, lo: real, hi: real): (r: real)
    ensures r <= hi
    ensures lo <= hi ==> lo <= r
    ensures lo <= x <= hi ==> r == x
    ensures x >= hi ==> r == hi
    ensures x <= lo <= hi ==> r == lo
  {
    var m := if x < lo then lo else x;
    if m > hi then hi else m
  }

  function Dist(x: real, y: real): real {
    if x < y then y - x else x - y
  }

  /** Within a non-empty interval, Clip picks the point nearest to x. */
  lemma ClipIsNearest(x: real, lo: real, hi: real, y: real)
    requires lo <= hi && lo <= y <= hi
    ensures Dist(Clip(x, lo, hi), x) <= Dist(y, x)
  {
  }

  /**
   * `realistic_value(mean, std, minVal, maxVal)`: a normal draw, given as the
   * standard score `z`, clipped to the clinical range [minVal, maxVal].
   */
  function RealisticValue(mean: real, std: real, minVal: real, maxVal: real, z: real): (r: real)
    ensures minVal <= maxVal ==> minVal <= r <= maxVal
    ensures minVal <= mean + std * z <= maxVal ==> r == mean + std * z
  {
    Clip(mean + std * z, minVal, maxVal)
  }

  // ---------------------------------------------------------------------
  // Name classification
  // ---------------------------------------------------------------------

  /** The branches of the generator, one per name test plus the default. */
  datatype Category = Age | Sex | Jitter | Shimmer | Nhr | Hnr | Rpde | Dfa | Ppe | Other

  /** The order in which the source tries the branches. */
  const Rules: seq<Category> := [Age, Sex, Jitter, Shimmer, Nhr, Hnr, Rpde, Dfa, Ppe, Other]

  /** Position of a branch in Rules. */
  function Rank(c: Category): (k: nat)
    ensures k < |Rules| && Rules[k] == c
  {
    match c
    case Age => 0
    case Sex => 1
    case Jitter => 2
    case Shimmer => 3
    case Nhr => 4
    case Hnr => 5
    case Rpde => 6
    case Dfa => 7
    case Ppe => 8
    case Other => 9
  }

  /**
   * The test of one branch taken on its own. Age, sex, jitter and shimmer test
   * the lower-cased name; NHR, HNR, RPDE, DFA and PPE test the name as given.
   * The default branch takes every name; every key is at least three
   * characters long, so a key test accepts only names at least that long.
   */
  predicate Matches(name: string, c: Category)
    ensures c == Other ==> Matches(name, c)
    ensures c != Other && Matches(name, c) ==> 3 <= |name|
  {
    match c
    case Age => Contains(Lower(name), "age")
    case Sex => Contains(Lower(name), "sex")
    case Jitter => Contains(Lower(name), "jitter")
    case Shimmer => Contains(Lower(name), "shimmer")
    case Nhr => Contains(name, "NHR")
    case Hnr => Contains(name, "HNR")
    case Rpde => Contains(name, "RPDE")
    case Dfa => Contains(name, "DFA")
    case Ppe => Contains(name, "PPE")
    case Other => true
  }

  /**
   * The age, sex, jitter and shimmer tests ignore case: lower-casing the name
   * first does not change their verdict.
   */
  lemma CaseInsensitiveTests(name: string, c: Category)
    requires c in {Age, Sex, Jitter, Shimmer}
    ensures Matches(name, c) <==> Matches(Lower(name), c)
  {
    LowerIdempotent(name);
  }

  /**
   * The `if`/`elif` chain of the generator. Its result is the first branch in
   * Rules whose test accepts the name.
   */
  function Classify(name: string): (c: Category)
    ensures Matches(name, c)
    ensures forall k :: 0 <= k < Rank(c) ==> !Matches(name, Rules[k])
  {
    var lower := Lower(name);
    if Contains(lower, "age") then Age
    else if Contains(lower, "sex") then Sex
    else if Contains(lower, "jitter") then Jitter
    else if Contains(lower, "shimmer") then Shimmer
    else if Contains(name, "NHR") then Nhr
    else if Contains(name, "HNR") then Hnr
    else if Contains(name, "RPDE") then Rpde
    else if Contains(name, "DFA") then Dfa
    else if Contains(name, "PPE") then Ppe
    else Other
  }

  /** First match wins: a branch whose test accepts and is preceded only by rejecting tests is the one taken. */
  lemma FirstMatchWins(name: string, j: nat)
    requires j < |Rules| && Matches(name, Rules[j])
    requires forall k :: 0 <= k < j ==> !Matches(name, Rules[k])
    ensures Classify(name) == Rules[j]
  {
  }

  // ---------------------------------------------------------------------
  // Value of one position
  // ---------------------------------------------------------------------

  /**
   * The value written at a position named `name`, for the sliders `s` and the
   * standard score `z` of that position's draw. Age and sex are copied; every
   * other key branch lands in its clinical range shifted by its slider offset,
   * and the default branch is the bare clipped draw.
   */
  function FeatureValue(name: string, s: Sliders, z: real): (v: real)
    ensures Classify(name) == Age ==> v == s.age as real
    ensures Classify(name) == Sex ==> v == s.sex as real
    ensures Classify(name) == Jitter ==>
      0.0001 + 0.0005 * s.distortion as real <= v <= 0.010 + 0.0005 * s.distortion as real
    ensures Classify(name) == Shimmer ==>
      0.01 + 0.003 * s.distortion as real <= v <= 0.2 + 0.003 * s.distortion as real
    ensures Classify(name) == Nhr ==>
      0.0 + 0.01 * (10 - s.clarity) as real <= v <= 0.30 + 0.01 * (10 - s.clarity) as real
    ensures Classify(name) == Hnr ==>
      5.0 + 0.5 * s.clarity as real <= v <= 35.0 + 0.5 * s.clarity as real
    ensures Classify(name) == Rpde ==>
      0.30 + 0.005 * (10 - s.stability) as real <= v <= 0.65 + 0.005 * (10 - s.stability) as real
    ensures Classify(name) == Dfa ==>
      0.50 - 0.01 * s.tremor as real <= v <= 1.30 - 0.01 * s.tremor as real
    ensures Classify(name) == Ppe ==>
      0.02 + 0.02 * (s.distortion + 10 - s.stability) as real <= v
      <= 0.30 + 0.02 * (s.distortion + 10 - s.stability) as real
    ensures Classify(name) == Other ==> 0.05 <= v <= 1.0
  {
    match Classify(name)
    case Age => s.age as real
    case Sex => s.sex as real
    case Jitter =>
      RealisticValue(0.003, 0.002, 0.0001, 0.010, z) + s.distortion as real * 0.0005
    case Shimmer =>
      RealisticValue(0.04, 0.015, 0.01, 0.2, z) + s.distortion as real * 0.003
    case Nhr =>
      RealisticValue(0.10, 0.05, 0.0, 0.30, z) + (10 - s.clarity) as real * 0.01
    case Hnr =>
      RealisticValue(20.0, 7.0, 5.0, 35.0, z) + s.clarity as real * 0.5
    case Rpde =>
      RealisticValue(0.45, 0.07, 0.30, 0.65, z) + (10 - s.stability) as real * 0.005
    case Dfa =>
      RealisticValue(0.9, 0.15, 0.50, 1.30, z) - s.tremor as real * 0.01
    case Ppe =>
      RealisticValue(0.1, 0.05, 0.02, 0.30, z)
      + (s.distortion as real * 0.02 + (10 - s.stability) as real * 0.02)
    case Other =>
      RealisticValue(0.2, 0.1, 0.05, 1.0, z)
  }

  // ---------------------------------------------------------------------
  // The whole vector
  // ---------------------------------------------------------------------

  /**
   * The feature row for a schema, built left to right as the loop builds it:
   * position i holds FeatureValue of the i-th name with the i-th draw.
   */
  function FeatureVector(names: seq<string>, s: Sliders, draw: nat -> real): (row: seq<real>)
    ensures |row| == |names|
  {
    if names == [] then []
    else FeatureVector(names[..|names| - 1], s, draw)
         + [FeatureValue(names[|names| - 1], s, draw(|names| - 1))]
  }

  /** One entry per schema name, in schema order, each computed from its own name and draw only. */
  lemma {:induction false} FeatureVectorAt(names: seq<string>, s: Sliders, draw: nat -> real)
    ensures forall i :: 0 <= i < |names| ==>
      FeatureVector(names, s, draw)[i] == FeatureValue(names[i], s, draw(i))
  {
    if names != [] {
      var init := names[..|names| - 1];
      FeatureVectorAt(init, s, draw);
      assert forall i :: 0 <= i < |init| ==> init[i] == names[i];
    }
  }

  /** Extending the schema prefix by one name appends that name's value. */
  lemma FeatureVectorSnoc(names: seq<string>, i: nat, s: Sliders, draw: nat -> real)
    requires i < |names|
    ensures FeatureVector(names[..i + 1], s, draw)
      == FeatureVector(names[..i], s, draw) + [FeatureValue(names[i], s, draw(i))]
  {
    assert names[..i + 1][..i] == names[..i];
  }

  /**
   * `create_medical_feature_vector`: a zero buffer of the schema's length,
   * overwritten position by position, returned as a single row.
   */
  method CreateMedicalFeatureVector(featureNames: seq<string>, s: Sliders, draw: nat -> real)
    returns (x: seq<seq<real>>)
    ensures |x| == 1
    ensures x[0] == FeatureVector(featureNames, s, draw)
    ensures |x[0]| == |featureNames|
    ensures forall i :: 0 <= i < |featureNames| ==>
      x[0][i] == FeatureValue(featureNames[i], s, draw(i))
  {
    var features := new real[|featureNames|](_ => 0.0);
    for i := 0 to |featureNames|
      invariant features[..i] == FeatureVector(featureNames[..i], s, draw)
      invariant forall j :: i <= j < features.Length ==> features[j] == 0.0
    {
      ghost var done := features[..i];
      features[i] := FeatureValue(featureNames[i], s, draw(i));
      assert features[..i + 1] == done + [features[i]];
      FeatureVectorSnoc(featureNames, i, s, draw);
    }
    assert featureNames[..|featureNames|] == featureNames;
    FeatureVectorAt(featureNames, s, draw);
    x := [features[..]];
  }
}
