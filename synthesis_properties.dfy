/**
 * Properties of the feature generator that relate several calls or several
 * branches: the priority of the name tests, case sensitivity, the effect of
 * each slider, bounds under the form's input limits, and independence of the
 * positions of the row.
 */
module SynthesisProperties {
  import opened Text
  import opened FeatureSynthesis

  // ---------------------------------------------------------------------
  // Dispatch priority
  // ---------------------------------------------------------------------

  /** A name whose lower-cased form contains "age" gets the age, whatever else it contains and whatever the draw. */
  lemma AgeWins(name: string, s: Sliders, z: real)
    requires Contains(Lower(name), "age")
    ensures Classify(name) == Age
    ensures FeatureValue(name, s, z) == s.age as real
  {
  }

  /** A name with "sex" but not "age" (case-insensitively) gets the sex code, which is 0 or 1 on valid input. */
  lemma SexUnlessAge(name: string, s: Sliders, z: real)
    requires !Contains(Lower(name), "age") && Contains(Lower(name), "sex")
    ensures Classify(name) == Sex
    ensures FeatureValue(name, s, z) == s.sex as real
    ensures ValidSliders(s) ==> FeatureValue(name, s, z) == 0.0 || FeatureValue(name, s, z) == 1.0
  {
  }

  /** The default branch is taken exactly when none of the nine key tests accepts the name. */
  lemma DefaultIffNoKey(name: string)
    ensures Classify(name) == Other <==> forall k :: 0 <= k < 9 ==> !Matches(name, Rules[k])
  {
    if forall k :: 0 <= k < 9 ==> !Matches(name, Rules[k]) {
      FirstMatchWins(name, 9);
    } else {
      var k :| 0 <= k < 9 && Matches(name, Rules[k]);
      assert Rank(Classify(name)) <= k;
    }
  }

  /** "nhr" and "hnr" written in lower case pass no key test and fall through to the default branch. */
  lemma LowerCaseRatioFallsThrough(name: string)
    requires name == "nhr" || name == "hnr"
    ensures Classify(name) == Other
  {
    assert Lower(name) == name;
    MissingFirstChar(name, "age");
    MissingFirstChar(name, "sex");
    TooShort(name, "jitter");
    TooShort(name, "shimmer");
    MissingFirstChar(name, "NHR");
    MissingFirstChar(name, "HNR");
    TooShort(name, "RPDE");
    MissingFirstChar(name, "DFA");
    MissingFirstChar(name, "PPE");
    FirstMatchWins(name, 9);
  }

  /** "NHR" in upper case reaches the NHR branch. */
  lemma UpperNhrMatches()
    ensures Classify("NHR") == Nhr
  {
    var name := "NHR";
    assert Lower(name) == "nhr";
    MissingFirstChar(Lower(name), "age");
    MissingFirstChar(Lower(name), "sex");
    TooShort(Lower(name), "jitter");
    TooShort(Lower(name), "shimmer");
    OccursImpliesContains(name, "NHR", 0);
    FirstMatchWins(name, 4);
  }

  /** "HNR" in upper case reaches the HNR branch: it fails the NHR test just before. */
  lemma UpperHnrMatches()
    ensures Classify("HNR") == Hnr
  {
    var name := "HNR";
    assert Lower(name) == "hnr";
    MissingFirstChar(Lower(name), "age");
    MissingFirstChar(Lower(name), "sex");
    TooShort(Lower(name), "jitter");
    TooShort(Lower(name), "shimmer");
    assert name[0..3][0] == 'H';
    OccursImpliesContains(name, "HNR", 0);
    FirstMatchWins(name, 5);
  }

  /**
   * The ratio keys are case-sensitive: "NHR" and "HNR" reach their branches,
   * while the same names in lower case fall through to the default.
   */
  lemma RatioKeysCaseSensitive()
    ensures Classify("nhr") == Other && Classify("hnr") == Other
    ensures Classify("NHR") == Nhr && Classify("HNR") == Hnr
  {
    LowerCaseRatioFallsThrough("nhr");
    LowerCaseRatioFallsThrough("hnr");
    UpperNhrMatches();
    UpperHnrMatches();
  }

  // ---------------------------------------------------------------------
  // Slider effects (for a fixed draw)
  // ---------------------------------------------------------------------

  /** The age and sex branches ignore the draw. */
  lemma DemographicsIgnoreDraw(name: string, s: Sliders, z1: real, z2: real)
    requires Classify(name) == Age || Classify(name) == Sex
    ensures FeatureValue(name, s, z1) == FeatureValue(name, s, z2)
  {
  }

  /** Raising distortion never lowers jitter, shimmer or PPE and leaves every other branch alone. */
  lemma DistortionMonotone(name: string, s: Sliders, z: real, d: int)
    requires s.distortion <= d
    ensures var c := Classify(name);
      if c in {Jitter, Shimmer, Ppe} then FeatureValue(name, s, z) <= FeatureValue(name, s.(distortion := d), z)
      else FeatureValue(name, s, z) == FeatureValue(name, s.(distortion := d), z)
  {
  }

  /** Raising voice clarity never raises NHR, never lowers HNR and leaves every other branch alone. */
  lemma ClarityEffect(name: string, s: Sliders, z: real, c: int)
    requires s.clarity <= c
    ensures Classify(name) == Nhr ==> FeatureValue(name, s, z) >= FeatureValue(name, s.(clarity := c), z)
    ensures Classify(name) == Hnr ==> FeatureValue(name, s, z) <= FeatureValue(name, s.(clarity := c), z)
    ensures Classify(name) !in {Nhr, Hnr} ==> FeatureValue(name, s, z) == FeatureValue(name, s.(clarity := c), z)
  {
  }

  /** Raising speech stability never raises RPDE or PPE and leaves every other branch alone. */
  lemma StabilityEffect(name: string, s: Sliders, z: real, t: int)
    requires s.stability <= t
    ensures Classify(name) in {Rpde, Ppe} ==> FeatureValue(name, s, z) >= FeatureValue(name, s.(stability := t), z)
    ensures Classify(name) !in {Rpde, Ppe} ==> FeatureValue(name, s, z) == FeatureValue(name, s.(stability := t), z)
  {
  }

  /** Raising tremor never raises DFA and leaves every other branch alone. */
  lemma TremorEffect(name: string, s: Sliders, z: real, t: int)
    requires s.tremor <= t
    ensures Classify(name) == Dfa ==> FeatureValue(name, s, z) >= FeatureValue(name, s.(tremor := t), z)
    ensures Classify(name) != Dfa ==> FeatureValue(name, s, z) == FeatureValue(name, s.(tremor := t), z)
  {
  }

  // ---------------------------------------------------------------------
  // Bounds on the form's inputs
  // ---------------------------------------------------------------------

  /** On inputs the form allows, every generated value is non-negative, at most 40 outside the age branch and at most 90 overall. */
  lemma ValidInputBounds(name: string, s: Sliders, z: real)
    requires ValidSliders(s)
    ensures 0.0 <= FeatureValue(name, s, z) <= 90.0
    ensures Classify(name) != Age ==> FeatureValue(name, s, z) <= 40.0
  {
  }

  // ---------------------------------------------------------------------
  // The row
  // ---------------------------------------------------------------------

  /**
   * A position of the row depends only on its own name, the sliders and its
   * own draw: two schemas that agree at position i, with draws
   * that agree at i, give the same value there.
   */
  lemma PositionsIndependent(names1: seq<string>, names2: seq<string>, s: Sliders,
                             draw1: nat -> real, draw2: nat -> real, i: nat)
    requires i < |names1| && i < |names2|
    requires names1[i] == names2[i] && draw1(i) == draw2(i)
    ensures FeatureVector(names1, s, draw1)[i] == FeatureVector(names2, s, draw2)[i]
  {
    FeatureVectorAt(names1, s, draw1);
    FeatureVectorAt(names2, s, draw2);
  }

  /** "MDVP:Jitter(%)" reaches the jitter branch through the case-insensitive test. */
  lemma MixedCaseJitterMatches()
    ensures Classify("MDVP:Jitter(%)") == Jitter
  {
    var name := "MDVP:Jitter(%)";
    var lower := "mdvp:jitter(%)";
    assert Lower(name) == lower;
    MissingFirstChar(lower, "age");
    MissingFirstChar(lower, "sex");
    assert lower[5..11] == "jitter";
    OccursImpliesContains(lower, "jitter", 5);
    FirstMatchWins(name, 2);
  }

  /** "DFA" reaches the DFA branch; the "a" it ends in does not start an "age". */
  lemma DfaMatches()
    ensures Classify("DFA") == Dfa
  {
    var name := "DFA";
    var lower := "dfa";
    assert Lower(name) == lower;
    assert lower[0..3][0] == 'd';
    MissingFirstChar(lower, "sex");
    TooShort(lower, "jitter");
    TooShort(lower, "shimmer");
    MissingFirstChar(name, "NHR");
    MissingFirstChar(name, "HNR");
    TooShort(name, "RPDE");
    OccursImpliesContains(name, "DFA", 0);
    FirstMatchWins(name, 7);
  }

  /** "age" and "sex" reach the demographic branches. */
  lemma DemographicNamesMatch()
    ensures Classify("age") == Age && Classify("sex") == Sex
  {
    assert Lower("age") == "age";
    OccursImpliesContains("age", "age", 0);
    FirstMatchWins("age", 0);
    assert Lower("sex") == "sex";
    MissingFirstChar("sex", "age");
    OccursImpliesContains("sex", "sex", 0);
    FirstMatchWins("sex", 1);
  }

  /** The value of each example name at slider level 5 and the mean draw. */
  lemma MeanDrawValue(name: string, s: Sliders, v: real)
    requires s == Sliders(60, 1, 5, 5, 5, 5)
    requires (Classify(name) == Age && v == 60.0) || (Classify(name) == Sex && v == 1.0)
          || (Classify(name) == Jitter && v == 0.0055) || (Classify(name) == Hnr && v == 22.5)
          || (Classify(name) == Dfa && v == 0.85)
    ensures FeatureValue(name, s, 0.0) == v
  {
  }

  /**
   * A worked example: age 60, male, every slider at 5, and every draw at its
   * mean (z = 0). Jitter gets 0.003 + 5 * 0.0005, HNR 20 + 5 * 0.5, DFA 0.9 - 5 * 0.01.
   */
  lemma MeanDrawExample()
    ensures FeatureVector(["age", "sex", "MDVP:Jitter(%)", "HNR", "DFA"],
                          Sliders(60, 1, 5, 5, 5, 5), _ => 0.0)
            == [60.0, 1.0, 0.0055, 22.5, 0.85]
  {
    var names := ["age", "sex", "MDVP:Jitter(%)", "HNR", "DFA"];
    var s := Sliders(60, 1, 5, 5, 5, 5);
    var draw: nat -> real := _ => 0.0;
    var expected := [60.0, 1.0, 0.0055, 22.5, 0.85];
    DemographicNamesMatch();
    MixedCaseJitterMatches();
    UpperHnrMatches();
    DfaMatches();
    forall i | 0 <= i < 5 ensures FeatureValue(names[i], s, draw(i)) == expected[i] {
      MeanDrawValue(names[i], s, expected[i]);
    }
    FeatureVectorAt(names, s, draw);
  }
}
