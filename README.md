# Parkinson's severity predictor: the synthetic feature generator

The predictor is a small web form. It collects six patient inputs: age, sex, tremor,
voice clarity, speech stability and distortion. It turns them into the feature vector
a pre-trained scaler → PCA → SVM pipeline expects, and shows the predicted UPDRS score.
The only part with logic of its own is the feature generator in `app.py`.

- `realistic_value(mean, std, min_val, max_val)` draws from a normal distribution and
  clips the draw to a clinical range with `np.clip`.
- `create_medical_feature_vector()` starts from a zero array with one slot per name of
  the model's feature schema. It walks the names in order and classifies each one with
  an `if`/`elif` chain of substring tests, where the first match wins: age, sex, jitter,
  shimmer, NHR, HNR, RPDE, DFA, PPE, then a default. It writes that branch's value into
  the slot and returns the array as a single row.

The model has three modules:

- `Text` (`text.dfy`) covers the two string operations the chain uses. `Lower` is ASCII
  lower-casing, for `str.lower()`. `Contains` is substring membership, for `in`.
- `FeatureSynthesis` (`feature_synthesis.dfy`) holds the generator.
  - `Clip` and `RealisticValue` are the draw and clip.
  - `Classify` is the name dispatch. `Rules` and `Matches` give the priority order and
    each test on its own.
  - `FeatureValue` is one slot and `FeatureVector` is the whole row.
  - `CreateMedicalFeatureVector` is the imperative fill of a zero-initialised array,
    proved equal to `FeatureVector`.
- `SynthesisProperties` (`synthesis_properties.dfy`) holds the properties that relate
  branches or calls: dispatch priority, case sensitivity, how each slider moves the
  values, bounds on the form's inputs, independence of positions, and a worked example.

How the model treats the source's inputs:

- **The random draw is an input.** `np.random.normal(mean, std)` is written
  `mean + std * z`. The standard score `z` of position `i` is `draw(i)` for an arbitrary
  `draw: nat -> real`. Every property holds for every draw.
- **The module-level globals are parameters.** `feature_names`, `age`, `sex`, `tremor`,
  `clarity`, `stability` and `distortion` are passed in explicitly as a `seq<string>`
  and a `Sliders` value.
- **Arithmetic is exact.** It uses `real`, not IEEE doubles.

Facts about the code that the model keeps:

- Each drawing branch except the default takes a clipped random draw plus an additive
  slider offset, so a jitter value with distortion 0 can be anywhere in [0.0001, 0.010].
  The default branch is the bare clipped draw, with no slider offset.
- The RPDE, DFA and PPE tests are case-sensitive, as are the NHR and HNR tests
  (app.py:110-126). Only the age, sex, jitter and shimmer tests lower-case the name.
- The default branch clips to [0.05, 1.0].
- DFA is the clipped draw minus `0.01 * tremor`.

## Model

| member | source | states |
|---|---|---|
| `Text.Lower` | app.py:94 | `name.lower()` keeps the length, leaves no upper-case ASCII letter, turns every upper-case letter into its lower-case counterpart (code point + 32, so "AGE" becomes "age"), and keeps every other character |
| `Text.Contains` | app.py:94-126 | `key in name`: the empty key and the name itself are always in the name; a key that is in the name is no longer than it, and its first character appears in the name |
| `Text.OccursImpliesContains` | app.py:94-126 | an occurrence of the key at any index makes `key in name` true |
| `Text.MissingFirstChar` | app.py:94-126 | a non-empty key whose first character never appears in the name is not in the name |
| `Text.TooShort` | app.py:94-126 | a key longer than the name is not in the name |
| `Text.LowerKeepsContains` | app.py:94-126 | whenever `key in name`, also `key.lower() in name.lower()`: the case-sensitive tests accept no more than a case-insensitive test would |
| `FeatureSynthesis.Clip` | app.py:81 | `np.clip`: the result never exceeds the upper bound; it is at least the lower bound when the interval is non-empty; a value inside the interval is kept; a value at or above the top gives the top, and, when the interval is non-empty, one at or below the bottom gives the bottom |
| `FeatureSynthesis.ClipIsNearest` | app.py:81 | within a non-empty interval, the clipped value is the point of the interval nearest to the draw |
| `FeatureSynthesis.RealisticValue` | app.py:78-81 | `realistic_value` lies in `[min_val, max_val]` whenever `min_val <= max_val`, whatever the draw, and returns the draw unchanged when it already lies in range |
| `FeatureSynthesis.Matches` | app.py:94-126 | the definition is each `if`/`elif` test of the source verbatim, taken on its own: age, sex, jitter and shimmer look for their lower-case key in the lower-cased name; NHR, HNR, RPDE, DFA and PPE look for their upper-case key in the name as given; the ensures add only that the default accepts every name (and that a key test needs a name of at least three characters) |
| `FeatureSynthesis.CaseInsensitiveTests` | app.py:94-107 | the age, sex, jitter and shimmer tests give the same verdict on a name and on its lower-cased form |
| `FeatureSynthesis.Classify` | app.py:93-133 | the branch taken is the first one in the order age, sex, jitter, shimmer, NHR, HNR, RPDE, DFA, PPE, default whose test accepts the name; the tests for age, sex, jitter and shimmer use the lower-cased name, the rest use the name as given |
| `FeatureSynthesis.FirstMatchWins` | app.py:93-133 | conversely, a branch whose test accepts, and whose earlier tests all reject, is the branch taken |
| `FeatureSynthesis.FeatureValue` | app.py:93-133 | age and sex slots hold the input exactly; every other branch lies in its clinical range shifted by its slider offset: jitter `[0.0001, 0.010] + 0.0005·distortion`, shimmer `[0.01, 0.2] + 0.003·distortion`, NHR `[0, 0.30] + 0.01·(10 − clarity)`, HNR `[5, 35] + 0.5·clarity`, RPDE `[0.30, 0.65] + 0.005·(10 − stability)`, DFA `[0.50, 1.30] − 0.01·tremor`, PPE `[0.02, 0.30] + 0.02·(distortion + 10 − stability)`, default `[0.05, 1.0]` |
| `FeatureSynthesis.FeatureVector` | app.py:89-91 | the row has exactly one entry per schema name |
| `FeatureSynthesis.FeatureVectorAt` | app.py:91-133 | entry `i` of the row is the value for the `i`-th schema name with the `i`-th draw, so the row follows schema order |
| `FeatureSynthesis.CreateMedicalFeatureVector` | app.py:84-135 | the zero buffer filled index by index and reshaped is a single row that equals `FeatureVector`: one entry per name, in schema order, entry `i` being `FeatureValue` of name `i` with draw `i` |
| `SynthesisProperties.AgeWins` | app.py:94-95 | any name whose lower-cased form contains "age" gets exactly the age, even if it also contains "sex", "jitter" or a later key, and whatever the draw |
| `SynthesisProperties.SexUnlessAge` | app.py:94-97 | a name containing "sex" but not "age", ignoring case, gets exactly the sex code, which is 0 or 1 for the form's inputs |
| `SynthesisProperties.DefaultIffNoKey` | app.py:93-133 | the default branch is taken if and only if none of the nine key tests accepts the name |
| `SynthesisProperties.LowerCaseRatioFallsThrough` | app.py:110-133 | "nhr" and "hnr" in lower case fail the case-sensitive "NHR" and "HNR" tests and every other test, so they get the default value |
| `SynthesisProperties.UpperNhrMatches` | app.py:110-111 | "NHR" reaches the NHR branch |
| `SynthesisProperties.UpperHnrMatches` | app.py:110-115 | "HNR" fails the NHR test and reaches the HNR branch |
| `SynthesisProperties.RatioKeysCaseSensitive` | app.py:110-115 | the NHR and HNR tests depend on case: the upper-case names reach their branches, and the lower-case ones do not |
| `SynthesisProperties.MixedCaseJitterMatches` | app.py:100-102 | "MDVP:Jitter(%)" reaches the jitter branch because that test lower-cases the name |
| `SynthesisProperties.DfaMatches` | app.py:122-123 | "DFA" reaches the DFA branch; its lower-cased form "dfa" does not contain "age" |
| `SynthesisProperties.DemographicNamesMatch` | app.py:94-97 | "age" and "sex" reach the demographic branches |
| `SynthesisProperties.DemographicsIgnoreDraw` | app.py:94-97 | the age and sex slots do not depend on the draw |
| `SynthesisProperties.DistortionMonotone` | app.py:100-129 | for a fixed draw, raising distortion never lowers jitter, shimmer or PPE and leaves every other branch unchanged |
| `SynthesisProperties.ClarityEffect` | app.py:110-115 | for a fixed draw, raising voice clarity never raises NHR, never lowers HNR, and leaves every other branch unchanged |
| `SynthesisProperties.StabilityEffect` | app.py:118-129 | for a fixed draw, raising speech stability never raises RPDE or PPE and leaves every other branch unchanged |
| `SynthesisProperties.TremorEffect` | app.py:122-123 | for a fixed draw, raising tremor never raises DFA and leaves every other branch unchanged |
| `SynthesisProperties.ValidInputBounds` | app.py:43-133 | for inputs within the form's bounds (age 20–90, sex 0/1, sliders 0–10), every generated value is in [0, 90], and every value outside the age branch is at most 40 |
| `SynthesisProperties.PositionsIndependent` | app.py:91-133 | a row entry depends only on its own name, the sliders and its own draw: two schemas that agree at position `i`, with draws that agree there, give the same entry `i` |
| `SynthesisProperties.MeanDrawValue` | app.py:94-123 | at age 60, sex 1, every slider at 5 and the mean draw, the age slot is 60, the sex slot 1, jitter 0.0055, HNR 22.5 and DFA 0.85 |
| `SynthesisProperties.MeanDrawExample` | app.py:91-133 | with age 60, male, every slider at 5, every draw at its mean, and the schema `["age", "sex", "MDVP:Jitter(%)", "HNR", "DFA"]`, the row is `[60, 1, 0.0055, 22.5, 0.85]` |

## Left out

- The Streamlit page: configuration, styling, the input widgets, the explanatory expander and the result display (app.py:16-72, 140-152). The widgets' bounds (app.py:43-44 for age and sex, app.py:67-70 for the four sliders) appear only as the `ValidSliders` predicate, the hypothesis of `SexUnlessAge` and `ValidInputBounds`, because the generator itself does not clamp its inputs.
- Loading the scaler, PCA, SVM and feature names with `joblib.load` (app.py:8-11). This is file I/O on opaque pickled artifacts; the schema is an input `seq<string>`.
- `scaler.transform`, `pca.transform` and `model.predict` (app.py:145-147). These are library calls whose behaviour is not visible in this repository.
- The distribution of `np.random.normal`. The draw is an arbitrary real per position. The source's generator consumes a draw only at positions that draw, while here every position gets its own `draw(i)` and the age and sex positions ignore theirs. No property depends on the distribution or on the stream order.
- IEEE double rounding in the offsets, in `np.clip` and in the `float64` array. Arithmetic is exact `real` arithmetic, so the worked example's values are exact rather than the nearest doubles.
- Unicode case mapping in `str.lower()`. Only ASCII letters are lowered. The keys are ASCII, but a non-ASCII name can lower differently in Python.
- The `(1, n)` NumPy shape of the result. It is modelled as a sequence holding one row.
