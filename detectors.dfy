/** The `Detector` contract: a total yes/no classification of a post and the fixed category it reports. */
module Detectors {
  import opened Dom
  import opened Types
  import AdDetection
  import SuggestionDetection

  datatype Detector = AdDetector | SuggestionDetector {

    /** The read-only `type` field. */
    function Type(): (t: BlockedType)
      ensures AdDetector? <==> t == Ad
    {
      match this
      case AdDetector => Ad
      case SuggestionDetector => Recommendation
    }

    function Detect(article: Node): (r: bool)
      ensures AdDetector? ==> r == AdDetection.Detect(article)
      ensures SuggestionDetector? ==> r == SuggestionDetection.Detect(article)
    {
      match this
      case AdDetector => AdDetection.Detect(article)
      case SuggestionDetector => SuggestionDetection.Detect(article)
    }
  }

  /** Each detector reports its own category, and the two categories are the only ones. */
  lemma DetectorTypes(t: BlockedType)
    ensures AdDetector.Type() == Ad && SuggestionDetector.Type() == Recommendation
    ensures t == AdDetector.Type() || t == SuggestionDetector.Type()
  {
  }
}
