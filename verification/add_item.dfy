/**
 * The "List a New Item" form: the image list capped at five, the tag list,
 * the points suggested for a condition, and the check made on submit.
 */
module AddItem {
  import opened Text
  import opened Lists
  import opened Wrappers

  /** At most this many photos are kept. */
  const MaxImages := 5

  /** Points shown before any condition is chosen, and the fallback of the lookup. */
  const DefaultPoints := 20

  /** `[...prev, ...newImages].slice(0, 5)`. */
  function CapImages(prev: seq<string>, added: seq<string>): (r: seq<string>)
    ensures |r| == if |prev| + |added| <= MaxImages then |prev| + |added| else MaxImages
    ensures r == (prev + added)[..|r|]
    ensures |prev| < MaxImages ==> prev == r[..|prev|]
    ensures |prev| >= MaxImages ==> r == prev[..MaxImages]
  {
    var all := prev + added;
    if |all| <= MaxImages then all else all[..MaxImages]
  }

  /** `prev.filter((_, i) => i !== index)`: every position but `index`, in order. */
  function RemoveAt(s: seq<string>, index: int): (r: seq<string>)
    ensures 0 <= index < |s| ==> r == s[..index] + s[index + 1..]
    ensures !(0 <= index < |s|) ==> r == s
  {
    if s == [] then []
    else if index == 0 then s[1..]
    else [s[0]] + RemoveAt(s[1..], index - 1)
  }

  /** `tags.filter(t => t !== tag)`: every tag but `tag`, in order. */
  function WithoutTag(tags: seq<string>, tag: string): (r: seq<string>)
    ensures tag !in r
    ensures forall t :: t in r <==> t in tags && t != tag
    ensures IsSubsequence(r, tags)
  {
    if tags == [] then []
    else if tags[0] == tag then WithoutTag(tags[1..], tag)
    else
      var t := WithoutTag(tags[1..], tag);
      assert ([tags[0]] + t)[1..] == t;
      [tags[0]] + t
  }

  /** In a duplicate-free list, removing the tag at position k removes exactly that position. */
  lemma {:induction false} WithoutTagIsRemoveAt(tags: seq<string>, k: nat)
    requires NoDuplicates(tags) && k < |tags|
    ensures WithoutTag(tags, tags[k]) == tags[..k] + tags[k + 1..]
  {
    if k == 0 {
      WithoutAbsentTagUnchanged(tags[1..], tags[0]);
    } else {
      WithoutTagIsRemoveAt(tags[1..], k - 1);
      assert tags[1..][k - 1] == tags[k];
      assert tags[..k] == [tags[0]] + tags[1..][..k - 1];
    }
  }

  lemma {:induction false} WithoutAbsentTagUnchanged(tags: seq<string>, tag: string)
    requires tag !in tags
    ensures WithoutTag(tags, tag) == tags
  {
    if tags != [] {
      WithoutAbsentTagUnchanged(tags[1..], tag);
    }
  }

  /** A subsequence of a duplicate-free list is duplicate-free. */
  lemma {:induction false} SubsequenceNoDuplicates(xs: seq<string>, ys: seq<string>)
    requires IsSubsequence(xs, ys) && NoDuplicates(ys)
    ensures NoDuplicates(xs)
    decreases |ys|
  {
    if ys != [] && xs != [] {
      if xs[0] == ys[0] && IsSubsequence(xs[1..], ys[1..]) {
        SubsequenceNoDuplicates(xs[1..], ys[1..]);
        SubsequenceMultiset(xs[1..], ys[1..]);
        assert xs[0] !in multiset(ys[1..]);
        assert xs[0] !in xs[1..];
        forall i, j | 0 <= i < j < |xs| ensures xs[i] != xs[j] {
          if i == 0 { assert xs[j] == xs[1..][j - 1]; }
          else { assert xs[i] == xs[1..][i - 1] && xs[j] == xs[1..][j - 1]; }
        }
      } else {
        SubsequenceNoDuplicates(xs, ys[1..]);
      }
    }
  }

  /** The tag list and the tag input after `addTag`. */
  datatype TagState = TagState(tags: seq<string>, newTag: string)

  /** `addTag`: append the trimmed input when it is non-blank and new, and clear the input. */
  function AddTagState(tags: seq<string>, newTag: string): (r: TagState)
    ensures Trim(newTag) != "" && Trim(newTag) !in tags ==>
      r.tags == tags + [Trim(newTag)] && r.newTag == ""
    ensures !(Trim(newTag) != "" && Trim(newTag) !in tags) ==> r == TagState(tags, newTag)
  {
    var t := Trim(newTag);
    if t != "" && t !in tags then TagState(tags + [t], "") else TagState(tags, newTag)
  }

  /** The shape every stored tag list has: no repeats, each tag non-empty and trimmed. */
  predicate WellFormedTags(tags: seq<string>)
  {
    NoDuplicates(tags) && forall i :: 0 <= i < |tags| ==> tags[i] != "" && Trim(tags[i]) == tags[i]
  }

  /** `addTag` keeps the tag list duplicate-free and trimmed. */
  lemma AddTagStateKeepsTagsWellFormed(tags: seq<string>, newTag: string)
    requires WellFormedTags(tags)
    ensures WellFormedTags(AddTagState(tags, newTag).tags)
  {
    var t := Trim(newTag);
    if t != "" && t !in tags {
      TrimIdempotent(newTag);
      var r := tags + [t];
      forall i, j | 0 <= i < j < |r| ensures r[i] != r[j] {
        if j < |tags| {
          assert r[i] == tags[i] && r[j] == tags[j];
        } else {
          assert r[i] == tags[i] && r[j] == t;
        }
      }
      forall i | 0 <= i < |r| ensures r[i] != "" && Trim(r[i]) == r[i] {
        if i < |tags| { assert r[i] == tags[i]; }
      }
    }
  }

  /** `removeTag` keeps the tag list duplicate-free and trimmed. */
  lemma WithoutTagKeepsTagsWellFormed(tags: seq<string>, tag: string)
    requires WellFormedTags(tags)
    ensures WellFormedTags(WithoutTag(tags, tag))
  {
    var r := WithoutTag(tags, tag);
    SubsequenceNoDuplicates(r, tags);
    forall i | 0 <= i < |r| ensures r[i] != "" && Trim(r[i]) == r[i] {
      assert r[i] in r;
    }
  }

  /** One row of the condition select. */
  datatype ConditionOption = ConditionOption(value: string, caption: string, points: int)

  const Conditions := [
    ConditionOption("excellent", "Excellent - Like new", 25),
    ConditionOption("good", "Good - Minor wear", 20),
    ConditionOption("fair", "Fair - Visible wear", 15)
  ]

  /** `conditions.find(c => c.value === value)`: the first row with exactly this value. */
  function FindCondition(options: seq<ConditionOption>, value: string): (r: Option<ConditionOption>)
    ensures r.Some? ==> r.value in options && r.value.value == value
    ensures r.Some? ==> exists k :: 0 <= k < |options| && options[k] == r.value
                                  && forall j :: 0 <= j < k ==> options[j].value != value
    ensures r.None? ==> forall o :: o in options ==> o.value != value
  {
    if options == [] then None
    else if options[0].value == value then Some(options[0])
    else FindCondition(options[1..], value)
  }

  /** `condition?.points || 20`: the row's points unless there is no row (or they are 0). */
  function SuggestedPoints(value: string): (p: int)
    ensures p == if value == "excellent" then 25
                 else if value == "good" then 20
                 else if value == "fair" then 15
                 else DefaultPoints
  {
    var found := FindCondition(Conditions, value);
    var points := if found.Some? then found.value.points else 0;
    if points != 0 then points else DefaultPoints
  }

  /** The lookup is exact: 'Excellent' spelled with a capital is not in the table. */
  lemma SuggestedPointsIsCaseSensitive()
    ensures SuggestedPoints("Excellent") == DefaultPoints
  {
  }

  /** What `handleSubmit` does. */
  datatype SubmitOutcome = MissingInformation | Listed(redirect: string)

  /** The state of the form component. */
  class ListingForm {
    var images: seq<string>
    var title: string
    var description: string
    var category: string
    var itemType: string
    var size: string
    var condition: string
    var points: int
    var tags: seq<string>
    var newTag: string

    ghost predicate Valid()
      reads this
    {
      |images| <= MaxImages && WellFormedTags(tags)
    }

    /** The form as it is first rendered. */
    constructor ()
      ensures Valid()
      ensures images == [] && tags == [] && newTag == ""
      ensures title == "" && description == "" && category == "" && itemType == ""
      ensures size == "" && condition == ""
      ensures points == DefaultPoints
    {
      images, tags, newTag := [], [], "";
      title, description, category, itemType, size, condition := "", "", "", "", "", "";
      points := DefaultPoints;
    }

    /** `handleImageUpload`: no file list changes nothing; otherwise keep the first five. */
    method UploadImages(files: Option<seq<string>>)
      requires Valid()
      modifies this`images
      ensures Valid()
      ensures files.None? ==> images == old(images)
      ensures files.Some? ==> images == CapImages(old(images), files.value)
    {
      if files.Some? {
        images := CapImages(images, files.value);
      }
    }

    /** `removeImage(index)`. */
    method RemoveImage(index: int)
      requires Valid()
      modifies this`images
      ensures Valid()
      ensures images == RemoveAt(old(images), index)
    {
      images := RemoveAt(images, index);
    }

    method SetTitle(value: string)
      modifies this`title
      ensures title == value
    {
      title := value;
    }

    method SetDescription(value: string)
      modifies this`description
      ensures description == value
    {
      description := value;
    }

    method SetCategory(value: string)
      modifies this`category
      ensures category == value
    {
      category := value;
    }

    method SetSize(value: string)
      modifies this`size
      ensures size == value
    {
      size := value;
    }

    /** Typing into the tag input. */
    method SetNewTag(value: string)
      modifies this`newTag
      ensures newTag == value
    {
      newTag := value;
    }

    /** `addTag`, from the button or the Enter key. */
    method AddTag()
      requires Valid()
      modifies this`tags, this`newTag
      ensures Valid()
      ensures TagState(tags, newTag) == AddTagState(old(tags), old(newTag))
    {
      AddTagStateKeepsTagsWellFormed(tags, newTag);
      var r := AddTagState(tags, newTag);
      tags, newTag := r.tags, r.newTag;
    }

    /** `removeTag(tag)`. */
    method RemoveTag(tag: string)
      requires Valid()
      modifies this`tags
      ensures Valid()
      ensures tags == WithoutTag(old(tags), tag)
    {
      WithoutTagKeepsTagsWellFormed(tags, tag);
      tags := WithoutTag(tags, tag);
    }

    /** `handleConditionChange(value)`: store the value and its suggested points. */
    method ConditionChange(value: string)
      modifies this`condition, this`points
      ensures condition == value && points == SuggestedPoints(value)
    {
      condition := value;
      points := SuggestedPoints(value);
    }

    /** `handleSubmit`: rejected unless title, category, condition and one image are present. */
    method Submit() returns (outcome: SubmitOutcome)
      ensures outcome.Listed? <==>
        title != "" && category != "" && condition != "" && |images| > 0
      ensures outcome.Listed? ==> outcome.redirect == "/dashboard"
    {
      if title == "" || category == "" || condition == "" || |images| == 0 {
        return MissingInformation;
      }
      return Listed("/dashboard");
    }
  }
}
