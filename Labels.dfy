/**
 * Prediction labels. The severity model's classes are `healthy`, `high`, `low` and `medium`
 * (in output-index order); a history label is the class name followed by the formatted
 * confidence, `"<class> (<conf>%)"`, or the sentinel `"No Plant Detected"`. The formatted
 * confidence is kept as opaque text.
 */
module Labels {

  datatype SeverityClass = Healthy | High | Low | Medium

  function ClassName(c: SeverityClass): (name: string)
    ensures name != [] && ' ' !in name
  {
    match c
    case Healthy => "healthy"
    case High => "high"
    case Low => "low"
    case Medium => "medium"
  }

  datatype Label = NoPlant | Classified(severity: SeverityClass, confidenceText: string)

  const NoPlantText: string := "No Plant Detected"

  /** The label string as the server builds it and shows it. */
  function LabelText(l: Label): string
  {
    match l
    case NoPlant => NoPlantText
    case Classified(c, t) => ClassName(c) + " (" + t + "%)"
  }

  /** `s.split(" ")[0]`: the longest prefix of `s` without a space. */
  function FirstToken(s: string): (t: string)
    ensures t <= s && ' ' !in t
    ensures |t| < |s| ==> s[|t|] == ' '
  {
    if s == [] || s[0] == ' ' then [] else [s[0]] + FirstToken(s[1..])
  }

  lemma FirstTokenOfJoin(a: string, b: string)
    requires ' ' !in a
    ensures FirstToken(a + " " + b) == a
  {
    var s := a + " " + b;
    assert s[|a|] == ' ';
  }

  /**
   * The severity token the spray logic looks at: the class name of a classified label, and "No"
   * for the sentinel. `SeverityIsFirstToken` shows that this is the first space-separated word of
   * the label text, which is how the server obtains it.
   */
  function Severity(l: Label): string
  {
    match l
    case NoPlant => "No"
    case Classified(c, _) => ClassName(c)
  }

  lemma SeverityIsFirstToken(l: Label)
    ensures Severity(l) == FirstToken(LabelText(l))
  {
    match l
    case NoPlant =>
      assert NoPlantText == "No" + " " + "Plant Detected";
      FirstTokenOfJoin("No", "Plant Detected");
    case Classified(c, t) =>
      assert LabelText(l) == ClassName(c) + " " + ("(" + t + "%)");
      FirstTokenOfJoin(ClassName(c), "(" + t + "%)");
  }

  lemma ClassNameInjective(c1: SeverityClass, c2: SeverityClass)
    requires ClassName(c1) == ClassName(c2)
    ensures c1 == c2
  {
  }

  /**
   * Distinct labels have distinct texts, so comparing and counting `Label` values agrees with
   * comparing and counting the label strings.
   */
  lemma LabelTextInjective(l1: Label, l2: Label)
    requires LabelText(l1) == LabelText(l2)
    ensures l1 == l2
  {
    SeverityIsFirstToken(l1);
    SeverityIsFirstToken(l2);
    if l1.Classified? && l2.Classified? {
      var n := ClassName(l1.severity);
      ClassNameInjective(l1.severity, l2.severity);
      var s := LabelText(l1);
      assert s == n + " (" + l1.confidenceText + "%)";
      assert s == n + " (" + l2.confidenceText + "%)";
      assert l1.confidenceText == s[|n| + 2..|s| - 2];
      assert l2.confidenceText == s[|n| + 2..|s| - 2];
    }
  }
}
