/** How the Generator's validation bounds compare with the Analyzer's
    scoring bounds for the same two fields. */
module Bounds {
  import Analyzer
  import opened Generator

  /** For a non-empty title the two components agree: the Generator accepts
      it exactly when the Analyzer rates it good. */
  lemma TitleBoundsAgree(i: MetaTagInput)
    requires i.title != []
    ensures Title !in ValidationErrors(i) <==> Analyzer.TitleResult(i.title).status == Analyzer.Good
  {
    ValidationRules(i);
  }

  /** For descriptions they differ: one of 156 to 160 characters passes the
      Generator's validation (upper bound 160) but is only a warning in the
      Analyzer (upper bound 155). */
  lemma DescriptionBoundsDiffer(i: MetaTagInput)
    requires 156 <= |i.description| <= 160
    ensures Description !in ValidationErrors(i)
    ensures Analyzer.DescriptionResult(i.description).status == Analyzer.Warning
  {
    ValidationRules(i);
  }

  /** Elsewhere the two agree: a non-empty description of any other length
      is accepted by one exactly when it is rated good by the other. */
  lemma DescriptionBoundsAgreeElsewhere(i: MetaTagInput)
    requires i.description != [] && !(156 <= |i.description| <= 160)
    ensures Description !in ValidationErrors(i) <==>
      Analyzer.DescriptionResult(i.description).status == Analyzer.Good
  {
    ValidationRules(i);
  }
}
