/**
 * The listing card: the listing record every grid shows, the badge chosen
 * for a condition, and the card's favourite toggle.
 */
module ItemCard {
  import opened Text

  /** A listing as the card receives it; the uploader's rating is left out. */
  datatype Listing = Listing(
    id: string,
    title: string,
    image: string,
    category: string,
    size: string,
    condition: string,
    points: int,
    location: string,
    uploaderName: string)

  /** The badge styles of `getConditionColor`. */
  datatype ConditionBadge = Green | Blue | Yellow | Gray

  /** `getConditionColor`: a switch on the lower-cased condition with a gray default. */
  function ConditionColor(condition: string): (b: ConditionBadge)
    ensures b == Gray <==> Lower(condition) !in {"excellent", "good", "fair"}
  {
    match Lower(condition)
    case "excellent" => Green
    case "good" => Blue
    case "fair" => Yellow
    case _ => Gray
  }

  /** Each known condition, in any letter case, gets its own badge; every other string gets gray. */
  lemma ConditionColorCases(condition: string)
    ensures ConditionColor(condition) == Green <==> Lower(condition) == "excellent"
    ensures ConditionColor(condition) == Blue <==> Lower(condition) == "good"
    ensures ConditionColor(condition) == Yellow <==> Lower(condition) == "fair"
    ensures ConditionColor(condition) == Gray <==>
      Lower(condition) !in {"excellent", "good", "fair"}
  {
  }

  /** 'Excellent', as the sample listings spell it, gets the green badge. */
  lemma ExcellentIsGreen()
    ensures ConditionColor("Excellent") == Green
  {
    var s := "Excellent";
    var l := Lower(s);
    assert l[0] == 'e';
    assert forall i :: 1 <= i < |s| ==> l[i] == s[i];
    assert l == "excellent";
  }

  /** The badge depends on the condition only through its lower-case form. */
  lemma {:induction false} ConditionColorIgnoresCase(a: string, b: string)
    requires SameUpToCase(a, b)
    ensures ConditionColor(a) == ConditionColor(b)
  {
    SameUpToCaseIffSameLower(a, b);
  }

  /** The heart button's click handler: `setIsFavorited(!isFavorited)`. */
  function ToggleFavorite(isFavorited: bool): (r: bool)
    ensures r != isFavorited
  {
    !isFavorited
  }

  /** Clicking the heart twice leaves the card as it was. */
  lemma ToggleFavoriteTwice(isFavorited: bool)
    ensures ToggleFavorite(ToggleFavorite(isFavorited)) == isFavorited
  {
  }
}
