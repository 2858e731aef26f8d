/** The latest report of a dataset (`GET /api/latest-report/{dataset}`):
    its comma-separated `top_features` text becomes a list of names. */
module LatestReport {
  import opened Text

  /** The feature list of a report:
      no names for an empty text, otherwise one trimmed name per
      comma-separated piece. */
  function TopFeaturesList(topFeatures: string): (names: seq<string>)
    ensures topFeatures == "" ==> names == []
    ensures topFeatures != "" ==>
              var pieces := Split(topFeatures, ',');
              |names| == |pieces| >= 1 &&
              forall i :: 0 <= i < |names| ==> names[i] == Trim(pieces[i]) && ',' !in names[i]
  {
    if topFeatures == "" then []
    else
      var pieces := Split(topFeatures, ',');
      seq(|pieces|, i requires 0 <= i < |pieces| => Trim(pieces[i]))
  }

  /** Names without commas or surrounding whitespace, stored joined by
      commas, come back as the same list. */
  lemma {:induction false} TopFeaturesRoundTrip(names: seq<string>)
    requires |names| >= 1 && Join(names, ',') != ""
    requires forall i :: 0 <= i < |names| ==> ',' !in names[i] && Trim(names[i]) == names[i]
    ensures TopFeaturesList(Join(names, ',')) == names
  {
    SplitJoin(names, ',');
  }
}
