/** src/pages/Feedback.tsx: star ratings, the like/improvement tag lists and
    the quick-feedback box. Submitting the full review only starts a timer
    and is not modelled. */
module Feedback {
  import opened Common

  datatype RatingField =
    OverallRating | RoomRating | ServiceRating | CleanlinessRating | FoodRating | ValueRating

  const AllRatingFields: set<RatingField> :=
    {OverallRating, RoomRating, ServiceRating, CleanlinessRating, FoodRating, ValueRating}

  /** The two tag lists, `'likes' | 'improvements'`. */
  datatype TagList = Likes | Improvements

  predicate NoDuplicates(s: seq<string>)
  {
    forall i, j :: 0 <= i < j < |s| ==> s[i] != s[j]
  }

  /** The position `indexOf` finds: the first occurrence. */
  function FirstIndex(s: seq<string>, x: string): (k: nat)
    requires x in s
    ensures k < |s| && s[k] == x && x !in s[..k]
  {
    if s[0] == x then 0 else assert s == [s[0]] + s[1..]; 1 + FirstIndex(s[1..], x)
  }

  /** `currentTags.indexOf(tag)`: -1 when absent, else the first position. */
  method IndexOf(s: seq<string>, x: string) returns (index: int)
    ensures index == -1 <==> x !in s
    ensures index != -1 ==> index == FirstIndex(s, x)
  {
    index := 0;
    while index < |s|
      invariant 0 <= index <= |s|
      invariant x !in s[..index]
    {
      if s[index] == x {
        FirstIndexUnique(s, x, index);
        return;
      }
      assert s[..index + 1] == s[..index] + [s[index]];
      index := index + 1;
    }
    assert s[..index] == s;
    index := -1;
  }

  lemma FirstIndexUnique(s: seq<string>, x: string, k: nat)
    requires k < |s| && s[k] == x && x !in s[..k]
    ensures FirstIndex(s, x) == k
  {
  }

  /** `splice(index, 1)` */
  function RemoveAt(s: seq<string>, k: nat): seq<string>
    requires k < |s|
  {
    s[..k] + s[k + 1..]
  }

  /** What `handleTagClick` makes of a list: an absent tag is appended at the
      end, a present one loses its first occurrence. */
  function Toggled(tags: seq<string>, tag: string): seq<string>
  {
    if tag !in tags then tags + [tag] else RemoveAt(tags, FirstIndex(tags, tag))
  }

  /** Where each element of `RemoveAt(s, k)` comes from. */
  lemma RemoveAtIndex(s: seq<string>, k: nat)
    requires k < |s|
    ensures |RemoveAt(s, k)| == |s| - 1
    ensures forall i :: 0 <= i < |s| - 1 ==> RemoveAt(s, k)[i] == if i < k then s[i] else s[i + 1]
  {
  }

  /** Without duplicates, the removed element is nowhere else in the list. */
  lemma RemoveAtDropsElement(s: seq<string>, k: nat)
    requires NoDuplicates(s) && k < |s|
    ensures s[k] !in RemoveAt(s, k)
  {
    var r := RemoveAt(s, k);
    RemoveAtIndex(s, k);
    forall i | 0 <= i < |r|
      ensures r[i] != s[k]
    {
      if i < k { assert r[i] == s[i]; } else { assert r[i] == s[i + 1]; }
    }
  }

  /** Every element other than the removed one is still in the list, and
      nothing new appears. */
  lemma RemoveAtKeepsOthers(s: seq<string>, k: nat)
    requires k < |s|
    ensures forall x :: x in RemoveAt(s, k) ==> x in s
    ensures forall x :: x in s && x != s[k] ==> x in RemoveAt(s, k)
  {
    var r := RemoveAt(s, k);
    RemoveAtIndex(s, k);
    forall x | x in r
      ensures x in s
    {
      var i :| 0 <= i < |r| && r[i] == x;
      if i < k { assert s[i] == x; } else { assert s[i + 1] == x; }
    }
    forall x | x in s && x != s[k]
      ensures x in r
    {
      var j :| 0 <= j < |s| && s[j] == x;
      if j < k { assert r[j] == x; } else { assert r[j - 1] == x; }
    }
  }

  /** Removing one element creates no duplicate. */
  lemma RemoveAtNoDuplicates(s: seq<string>, k: nat)
    requires NoDuplicates(s) && k < |s|
    ensures NoDuplicates(RemoveAt(s, k))
  {
    var r := RemoveAt(s, k);
    RemoveAtIndex(s, k);
    forall i, j | 0 <= i < j < |r|
      ensures r[i] != r[j]
    {
      var si := if i < k then i else i + 1;
      var sj := if j < k then j else j + 1;
      assert si < sj && r[i] == s[si] && r[j] == s[sj];
    }
  }

  /** Removing the first occurrence of a tag from a list without duplicates
      removes the tag and nothing else, and creates no duplicate. */
  lemma RemoveFirstOccurrence(tags: seq<string>, tag: string)
    requires NoDuplicates(tags) && tag in tags
    ensures tag !in RemoveAt(tags, FirstIndex(tags, tag))
    ensures forall other :: other != tag ==> (other in RemoveAt(tags, FirstIndex(tags, tag)) <==> other in tags)
    ensures NoDuplicates(RemoveAt(tags, FirstIndex(tags, tag)))
  {
    var k := FirstIndex(tags, tag);
    RemoveAtDropsElement(tags, k);
    RemoveAtKeepsOthers(tags, k);
    RemoveAtNoDuplicates(tags, k);
  }

  /** In a list without duplicates the tag is in the result exactly when it
      was not in the list; every other tag keeps its membership, and no
      duplicate appears. */
  lemma ToggledMembership(tags: seq<string>, tag: string)
    requires NoDuplicates(tags)
    ensures tag in Toggled(tags, tag) <==> tag !in tags
    ensures forall other :: other != tag ==> (other in Toggled(tags, tag) <==> other in tags)
    ensures NoDuplicates(Toggled(tags, tag))
  {
    if tag in tags {
      RemoveFirstOccurrence(tags, tag);
    } else {
      var r := tags + [tag];
      forall i, j | 0 <= i < j < |r|
        ensures r[i] != r[j]
      {
        if j == |tags| { assert r[i] == tags[i]; }
      }
    }
  }

  /** Toggling an absent tag twice gives back the list. */
  lemma ToggleTwiceAbsent(tags: seq<string>, tag: string)
    requires tag !in tags
    ensures Toggled(Toggled(tags, tag), tag) == tags
  {
    var once := tags + [tag];
    FirstIndexUnique(once, tag, |tags|);
    assert once[..|tags|] == tags;
  }

  /** Taking an element out and appending it keeps the same elements. */
  lemma MoveToEndKeepsElements(s: seq<string>, k: nat)
    requires k < |s|
    ensures multiset(RemoveAt(s, k) + [s[k]]) == multiset(s)
  {
    assert s == s[..k] + [s[k]] + s[k + 1..];
    calc {
      multiset(RemoveAt(s, k) + [s[k]]);
      multiset(s[..k]) + multiset(s[k + 1..]) + multiset{s[k]};
      multiset(s[..k] + [s[k]] + s[k + 1..]);
    }
  }

  /** Toggling a present tag twice keeps the same tags but moves this one
      to the end: the list comes back only when the tag was already last. */
  lemma ToggleTwicePresent(tags: seq<string>, tag: string)
    requires NoDuplicates(tags) && tag in tags
    ensures Toggled(Toggled(tags, tag), tag) == RemoveAt(tags, FirstIndex(tags, tag)) + [tag]
    ensures multiset(Toggled(Toggled(tags, tag), tag)) == multiset(tags)
    ensures Toggled(Toggled(tags, tag), tag) == tags <==> tags[|tags| - 1] == tag
  {
    var k := FirstIndex(tags, tag);
    var once := RemoveAt(tags, k);
    RemoveAtDropsElement(tags, k);
    assert Toggled(tags, tag) == once;
    assert Toggled(once, tag) == once + [tag];
    MoveToEndKeepsElements(tags, k);
    if tags[|tags| - 1] == tag {
      assert k == |tags| - 1;
      assert once == tags[..k];
      assert tags == tags[..k] + [tag];
    }
  }

  /** `formData.<rating> >= star`: star `star` is drawn as active. */
  predicate StarActive(rating: int, star: int)
  {
    rating >= star
  }

  const Stars: seq<int> := [1, 2, 3, 4, 5]

  /** A rating of 0 to 5 lights up that many of the five stars. */
  lemma ActiveStarCount(rating: int)
    requires 0 <= rating <= 5
    ensures |Filter((star: int) => StarActive(rating, star), Stars)| == rating
  {
    var keep := (star: int) => StarActive(rating, star);
    assert Stars[..4] == [1, 2, 3, 4];
    assert [1, 2, 3, 4][..3] == [1, 2, 3];
    assert [1, 2, 3][..2] == [1, 2];
    assert [1, 2][..1] == [1];
    assert [1][..0] == [];
    assert |Filter(keep, [1])| == if rating >= 1 then 1 else 0;
    assert |Filter(keep, [1, 2])| == if rating >= 2 then 2 else rating;
    assert |Filter(keep, [1, 2, 3])| == if rating >= 3 then 3 else rating;
    assert |Filter(keep, [1, 2, 3, 4])| == if rating >= 4 then 4 else rating;
  }

  /** The page's state: the form and the quick-feedback box. */
  class FeedbackPage {
    var ratings: map<RatingField, int>
    var title: string
    var review: string
    var anonymous: bool
    var likes: seq<string>
    var improvements: seq<string>
    var showQuickFeedbackForm: bool
    var quickFeedbackType: string
    var quickFeedbackText: string

    ghost predicate Valid()
      reads this
    {
      ratings.Keys == AllRatingFields && NoDuplicates(likes) && NoDuplicates(improvements)
    }

    /** The initial form: all six ratings 0, empty texts and tag lists, not
        anonymous; the quick-feedback box closed and empty. */
    constructor ()
      ensures Valid()
      ensures forall f :: f in AllRatingFields ==> ratings[f] == 0
      ensures title == "" && review == "" && !anonymous && likes == [] && improvements == []
      ensures !showQuickFeedbackForm && quickFeedbackType == "" && quickFeedbackText == ""
    {
      ratings := map f | f in AllRatingFields :: 0;
      title, review, anonymous := "", "", false;
      likes, improvements := [], [];
      showQuickFeedbackForm, quickFeedbackType, quickFeedbackText := false, "", "";
    }

    /** `handleRatingClick`: only the named rating changes. */
    method HandleRatingClick(field: RatingField, value: int)
      requires Valid()
      modifies this`ratings
      ensures Valid()
      ensures ratings == old(ratings)[field := value]
    {
      ratings := ratings[field := value];
    }

    /** `handleTagClick`: copy the named list, look the tag up, append it or
        splice it out; the other list is untouched. */
    method HandleTagClick(tag: string, list: TagList)
      requires Valid()
      modifies this`likes, this`improvements
      ensures Valid()
      ensures list == Likes ==> likes == Toggled(old(likes), tag) && improvements == old(improvements)
      ensures list == Improvements ==> improvements == Toggled(old(improvements), tag) && likes == old(likes)
    {
      var currentTags := if list == Likes then likes else improvements;
      ToggledMembership(currentTags, tag);
      var index := IndexOf(currentTags, tag);
      if index == -1 {
        currentTags := currentTags + [tag];
      } else {
        currentTags := currentTags[..index] + currentTags[index + 1..];
      }
      if list == Likes {
        likes := currentTags;
      } else {
        improvements := currentTags;
      }
    }

    /** `handleQuickFeedbackClick`: open the box for the given kind. */
    method HandleQuickFeedbackClick(feedbackType: string)
      modifies this`quickFeedbackType, this`showQuickFeedbackForm
      ensures quickFeedbackType == feedbackType && showQuickFeedbackForm
    {
      quickFeedbackType := feedbackType;
      showQuickFeedbackForm := true;
    }

    /** `handleQuickFeedbackSubmit`: blank text is refused and the box stays
        as it is; otherwise the box closes and the text is cleared. */
    method HandleQuickFeedbackSubmit() returns (sent: bool)
      modifies this`showQuickFeedbackForm, this`quickFeedbackText
      ensures sent <==> !IsBlank(old(quickFeedbackText))
      ensures !sent ==> showQuickFeedbackForm == old(showQuickFeedbackForm) && quickFeedbackText == old(quickFeedbackText)
      ensures sent ==> !showQuickFeedbackForm && quickFeedbackText == ""
    {
      if IsBlank(quickFeedbackText) {
        return false;
      }
      showQuickFeedbackForm := false;
      quickFeedbackText := "";
      sent := true;
    }
  }
}
