/** The fixed feature vector of the wine-quality classifier and the advisory
    value ranges documented to callers. */
module Features {
  import opened Seqs

  /** The 11 input fields, in the positional order the scaler and classifier expect. */
  const FeatureNames: seq<string> := [
    "fixed_acidity", "volatile_acidity", "citric_acid",
    "residual_sugar", "chlorides", "free_sulfur_dioxide",
    "total_sulfur_dioxide", "density", "pH",
    "sulphates", "alcohol"
  ]

  /** An inclusive lower/upper bound for one field (Python floats read as exact decimals). */
  datatype Range = Range(lower: real, upper: real)

  /** The advisory range of every field; `/predict` never enforces it. */
  const ValidRanges: map<string, Range> := map[
    "fixed_acidity" := Range(4.6, 15.9),
    "volatile_acidity" := Range(0.12, 1.58),
    "citric_acid" := Range(0.0, 1.0),
    "residual_sugar" := Range(0.9, 15.5),
    "chlorides" := Range(0.012, 0.611),
    "free_sulfur_dioxide" := Range(1.0, 72.0),
    "total_sulfur_dioxide" := Range(6.0, 289.0),
    "density" := Range(0.990, 1.004),
    "pH" := Range(2.74, 4.01),
    "sulphates" := Range(0.33, 2.0),
    "alcohol" := Range(8.0, 14.9)
  ]

  /** `x` lies inside the advisory range of field `f`. */
  predicate InRange(f: string, x: real)
    requires f in ValidRanges
  {
    ValidRanges[f].lower <= x <= ValidRanges[f].upper
  }

  /** There are 11 feature names, each with exactly one range, and each
      range is non-empty with its lower bound below its upper bound (that no
      name is listed twice is `FeatureNamesDistinct`). */
  lemma FeatureTableWellFormed()
    ensures |FeatureNames| == 11
    ensures ValidRanges.Keys == set f | f in FeatureNames
    ensures forall f :: f in ValidRanges ==> ValidRanges[f].lower < ValidRanges[f].upper
  {
  }

  /** No feature name is listed twice. */
  lemma FeatureNamesDistinct()
    ensures Distinct(FeatureNames)
  {
  }

  /** Every advisory upper bound is below 300. */
  lemma UpperBoundsBelow300()
    ensures forall f :: f in ValidRanges ==> ValidRanges[f].upper < 300.0
  {
  }
}
