/** The shared item store: a list that new items are put in front of. */
module ItemsContext {
  import opened Wrappers

  /** The store's item record; the uploader's rating is left out. */
  datatype Uploader = Uploader(
    name: string,
    totalSwaps: Option<int>,
    memberSince: Option<string>,
    responseTime: Option<string>,
    verifiedProfile: Option<bool>)

  datatype Item = Item(
    id: string,
    title: string,
    image: string,
    images: seq<string>,
    description: string,
    category: string,
    size: string,
    condition: string,
    points: int,
    location: string,
    uploader: Uploader,
    postedDate: Option<string>,
    availability: Option<string>,
    views: Option<int>,
    interested: Option<int>,
    tags: Option<seq<string>>)

  /** `[newItem, ...prev]`. */
  function Prepend(items: seq<Item>, newItem: Item): (r: seq<Item>)
    ensures |r| == |items| + 1
    ensures r[0] == newItem && r[1..] == items
  {
    [newItem] + items
  }

  /** Nothing is deduplicated: adding an item twice gives two more copies of it. */
  lemma PrependTwiceKeepsBoth(items: seq<Item>, newItem: Item)
    ensures multiset(Prepend(Prepend(items, newItem), newItem))[newItem] == multiset(items)[newItem] + 2
    ensures Prepend(Prepend(items, newItem), newItem)[..2] == [newItem, newItem]
  {
    assert Prepend(Prepend(items, newItem), newItem) == [newItem, newItem] + items;
  }

  /** Every item already stored keeps its place relative to the others, one position later. */
  lemma PrependShifts(items: seq<Item>, newItem: Item, i: nat)
    requires i < |items|
    ensures Prepend(items, newItem)[i + 1] == items[i]
  {
    assert Prepend(items, newItem)[1..][i] == items[i];
  }

  /** `ItemsProvider`'s state. */
  class ItemsProvider {
    var items: seq<Item>

    /** The store starts empty. */
    constructor ()
      ensures items == []
    {
      items := [];
    }

    /** `addItem(newItem)`. */
    method AddItem(newItem: Item)
      modifies this
      ensures items == Prepend(old(items), newItem)
    {
      items := [newItem] + items;
    }
  }

  /** The value a provider hands to its consumers (the `addItem` callback is the method above). */
  datatype ItemsContextValue = ItemsContextValue(items: seq<Item>)

  const MissingProviderMessage := "useItems must be used within an ItemsProvider"

  /** `useItems`: the provider's value, or the error thrown outside a provider. */
  function UseItems(context: Option<ItemsContextValue>): (r: Result<ItemsContextValue, string>)
    ensures r.Failure? <==> context.None?
    ensures r.Failure? ==> r.error == MissingProviderMessage
    ensures r.Success? ==> r.value == context.value
  {
    match context
    case None => Failure(MissingProviderMessage)
    case Some(v) => Success(v)
  }
}
