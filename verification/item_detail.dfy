/** The item page: its condition badge, its availability label and its image gallery. */
module ItemDetail {
  import opened Text
  import ItemCard

  /** The page's own copy of `getConditionColor`. */
  function ConditionColor(condition: string): (b: ItemCard.ConditionBadge)
    ensures b == ItemCard.Gray <==> Lower(condition) !in {"excellent", "good", "fair"}
  {
    var c := Lower(condition);
    if c == "excellent" then ItemCard.Green
    else if c == "good" then ItemCard.Blue
    else if c == "fair" then ItemCard.Yellow
    else ItemCard.Gray
  }

  /** The page's badge agrees with the card's for every condition string. */
  lemma ConditionColorAgreesWithCard(condition: string)
    ensures ConditionColor(condition) == ItemCard.ConditionColor(condition)
  {
  }

  /** A condition outside the three known ones gets the gray default. */
  lemma UnknownConditionIsGray(condition: string)
    requires Lower(condition) != "excellent" && Lower(condition) != "good" && Lower(condition) != "fair"
    ensures ConditionColor(condition) == ItemCard.Gray
  {
  }

  /** The status badge text. */
  function AvailabilityLabel(availability: string): (badge: string)
    ensures badge == "Available" <==> availability == "available"
    ensures badge == "Reserved" <==> availability != "available"
  {
    if availability == "available" then "Available" else "Reserved"
  }

  /** The gallery's state: the item's images, the selected one and the heart. */
  class Gallery {
    const images: seq<string>
    var currentImageIndex: nat
    var isFavorited: bool

    ghost predicate Valid()
      reads this
    {
      currentImageIndex < |images|
    }

    /** The page opens on the first image, not favourited. */
    constructor (images: seq<string>)
      requires |images| > 0
      ensures Valid()
      ensures this.images == images && currentImageIndex == 0 && !isFavorited
    {
      this.images := images;
      currentImageIndex := 0;
      isFavorited := false;
    }

    /** `item.images[currentImageIndex]`: always one of the item's images. */
    function MainImage(): (image: string)
      reads this
      requires Valid()
      ensures image in images
    {
      images[currentImageIndex]
    }

    /** Whether the thumbnail at `index` gets the highlighted border. */
    predicate IsHighlighted(index: nat)
      reads this
      ensures Valid() && IsHighlighted(index) ==> index < |images| && images[index] == MainImage()
    {
      currentImageIndex == index
    }

    /** A click on the thumbnail at position `index` of the rendered list. */
    method SelectThumbnail(index: nat)
      requires Valid() && index < |images|
      modifies this`currentImageIndex
      ensures Valid()
      ensures currentImageIndex == index && MainImage() == images[index]
      ensures forall j :: 0 <= j < |images| ==> (IsHighlighted(j) <==> j == index)
    {
      currentImageIndex := index;
    }

    /** The heart button: `setIsFavorited(!isFavorited)`. */
    method ToggleFavorite()
      modifies this`isFavorited
      ensures isFavorited == ItemCard.ToggleFavorite(old(isFavorited))
    {
      isFavorited := !isFavorited;
    }
  }
}
