/**
 * The gallery page's lightbox navigation (`app/gallery/page.tsx`): the image
 * list filtered by category and by a case-insensitive search of the
 * descriptions, and the next/previous buttons, which step cyclically through
 * the filtered list using JavaScript's remainder operator.
 */
module Gallery {
  import opened Wrappers
  import opened Strings

  datatype Image = Image(id: int, src: string, alt: string, category: string, description: string)

  /** The category id that disables the category filter. */
  const ALL := "all"

  /** `s.filter(keep)`: the elements that pass, in their original order. */
  function Filter(s: seq<Image>, keep: Image -> bool): (r: seq<Image>)
    ensures |r| <= |s|
    ensures forall x :: x in r <==> x in s && keep(x)
    ensures forall x :: multiset(r)[x] == (if keep(x) then multiset(s)[x] else 0)
  {
    if s == [] then []
    else
      assert s == [s[0]] + s[1..];
      (if keep(s[0]) then [s[0]] else []) + Filter(s[1..], keep)
  }

  /** `a` can be obtained from `b` by deleting elements. */
  predicate IsSubsequence(a: seq<Image>, b: seq<Image>) {
    a == [] || (b != [] && ((a[0] == b[0] && IsSubsequence(a[1..], b[1..])) || IsSubsequence(a, b[1..])))
  }

  /** Filtering keeps the order: its result is a subsequence of its input. */
  lemma {:induction false} FilterIsSubsequence(s: seq<Image>, keep: Image -> bool)
    ensures IsSubsequence(Filter(s, keep), s)
  {
    if s != [] {
      FilterIsSubsequence(s[1..], keep);
      var rest := Filter(s[1..], keep);
      if keep(s[0]) {
        assert Filter(s, keep) == [s[0]] + rest;
        assert ([s[0]] + rest)[1..] == rest;
      } else {
        assert Filter(s, keep) == rest;
      }
    }
  }

  /** Two filters in a row are one filter by the conjunction. */
  lemma {:induction false} FilterTwice(s: seq<Image>, p: Image -> bool, q: Image -> bool, pq: Image -> bool)
    requires forall x :: pq(x) == (p(x) && q(x))
    ensures Filter(Filter(s, p), q) == Filter(s, pq)
  {
    if s != [] {
      FilterTwice(s[1..], p, q, pq);
      var t := Filter(s, p);
      if p(s[0]) {
        assert t == [s[0]] + Filter(s[1..], p);
        assert t != [] && t[0] == s[0] && t[1..] == Filter(s[1..], p);
      } else {
        assert t == Filter(s[1..], p);
      }
    }
  }

  function MatchesQuery(lower: string -> string, query: string): Image -> bool {
    (img: Image) => Contains(lower(img.description), lower(query))
  }

  function InCategory(category: string): Image -> bool {
    (img: Image) => img.category == category
  }

  /**
   * The filter effect: the category filter unless "all", then the search
   * filter unless the query is empty. `lower` stands for `toLowerCase`.
   */
  function FilterImages(images: seq<Image>, category: string, query: string, lower: string -> string): seq<Image> {
    var byCategory := if category != ALL then Filter(images, InCategory(category)) else images;
    if query != "" then Filter(byCategory, MatchesQuery(lower, query)) else byCategory
  }

  /** With "all" and an empty query, nothing is filtered out. */
  lemma Unfiltered(images: seq<Image>, lower: string -> string)
    ensures FilterImages(images, ALL, "", lower) == images
  {
  }

  /**
   * The filtered list is an order-preserving subsequence of the images, and
   * holds exactly the images of the chosen category (unless "all") whose
   * lower-cased description contains the lower-cased query (unless empty).
   */
  lemma {:induction false} FilterImagesSound(images: seq<Image>, category: string, query: string, lower: string -> string)
    ensures IsSubsequence(FilterImages(images, category, query, lower), images)
    ensures forall x :: x in FilterImages(images, category, query, lower) <==>
      && x in images
      && (category == ALL || x.category == category)
      && (query == "" || Contains(lower(x.description), lower(query)))
  {
    var c := InCategory(category);
    var m := MatchesQuery(lower, query);
    if category != ALL && query != "" {
      var both := (x: Image) => c(x) && m(x);
      FilterTwice(images, c, m, both);
      FilterIsSubsequence(images, both);
    } else if category != ALL {
      FilterIsSubsequence(images, c);
    } else if query != "" {
      FilterIsSubsequence(images, m);
    } else {
      SubsequenceOfItself(images);
    }
  }

  lemma {:induction false} SubsequenceOfItself(s: seq<Image>)
    ensures IsSubsequence(s, s)
  {
    if s != [] {
      SubsequenceOfItself(s[1..]);
    }
  }

  // ----- Cyclic navigation -----

  /** `findIndex(img => img.id === id)`: the first position with that id, or -1. */
  function FindIndex(s: seq<Image>, id: int): (i: int)
    ensures -1 <= i < |s|
    ensures i >= 0 ==> s[i].id == id && forall j :: 0 <= j < i ==> s[j].id != id
    ensures i == -1 ==> forall j :: 0 <= j < |s| ==> s[j].id != id
  {
    if s == [] then -1
    else if s[0].id == id then 0
    else
      var k := FindIndex(s[1..], id);
      if k == -1 then -1 else k + 1
  }

  /** JavaScript's `a % n` for `n > 0`: the remainder takes the sign of `a`. */
  function JsRem(a: int, n: int): (r: int)
    requires n > 0
    ensures -n < r < n
    ensures a >= 0 ==> r >= 0 && r == a % n
    ensures a < 0 ==> r <= 0 && r == -((-a) % n)
  {
    if a >= 0 then a % n else -((-a) % n)
  }

  /** The index `handleNext` computes: `(currentIndex + 1) % length`. */
  function NextIndex(current: int, n: int): (k: int)
    requires n > 0 && -1 <= current < n
    ensures 0 <= k < n
    ensures current == n - 1 ==> k == 0
    ensures current < n - 1 ==> k == current + 1
  {
    JsRem(current + 1, n)
  }

  /** The index `handlePrevious` computes: `(currentIndex - 1 + length) % length`. */
  function PreviousIndex(current: int, n: int): (k: int)
    requires n > 0 && -1 <= current < n
    ensures 0 <= k < n
    ensures current == 0 ==> k == n - 1
    ensures current > 0 ==> k == current - 1
    ensures current == -1 ==> k == (if n >= 2 then n - 2 else 0)
  {
    JsRem(current - 1 + n, n)
  }

  /**
   * The selection after `handleNext`: unchanged without a selection; cleared
   * on an empty list (the index is NaN and the lookup undefined); otherwise
   * the image after the selected one, cyclically.
   */
  function NextSelection(filtered: seq<Image>, selected: Option<Image>): Option<Image> {
    if selected.None? then None
    else if |filtered| == 0 then None
    else Some(filtered[NextIndex(FindIndex(filtered, selected.value.id), |filtered|)])
  }

  /** The selection after `handlePrevious`, by the same rules. */
  function PreviousSelection(filtered: seq<Image>, selected: Option<Image>): Option<Image> {
    if selected.None? then None
    else if |filtered| == 0 then None
    else Some(filtered[PreviousIndex(FindIndex(filtered, selected.value.id), |filtered|)])
  }

  predicate DistinctIds(s: seq<Image>) {
    forall i, j :: 0 <= i < j < |s| ==> s[i].id != s[j].id
  }

  /** With distinct ids, an image is found at its own position. */
  lemma FindIndexOfDistinct(s: seq<Image>, i: int)
    requires DistinctIds(s) && 0 <= i < |s|
    ensures FindIndex(s, s[i].id) == i
  {
  }

  /**
   * Next and previous move one step forward and back, wrapping from the
   * last image to the first and from the first to the last.
   */
  lemma {:induction false} StepAt(s: seq<Image>, i: int)
    requires DistinctIds(s) && 0 <= i < |s|
    ensures NextSelection(s, Some(s[i])) == Some(s[if i == |s| - 1 then 0 else i + 1])
    ensures PreviousSelection(s, Some(s[i])) == Some(s[if i == 0 then |s| - 1 else i - 1])
  {
    FindIndexOfDistinct(s, i);
  }

  /** With distinct ids, previous undoes next and next undoes previous. */
  lemma {:induction false} NavigationRoundTrip(s: seq<Image>, i: int)
    requires DistinctIds(s) && 0 <= i < |s|
    ensures PreviousSelection(s, NextSelection(s, Some(s[i]))) == Some(s[i])
    ensures NextSelection(s, PreviousSelection(s, Some(s[i]))) == Some(s[i])
  {
    var n := |s|;
    StepAt(s, i);
    var j := if i == n - 1 then 0 else i + 1;
    var k := if i == 0 then n - 1 else i - 1;
    StepAt(s, j);
    StepAt(s, k);
  }

  /**
   * A selection that is no longer in the filtered list: next jumps to the
   * first image, previous to the second-to-last (the first if there is one
   * image), and an empty list clears the selection.
   */
  lemma FilteredOutSelection(s: seq<Image>, img: Image)
    requires forall j :: 0 <= j < |s| ==> s[j].id != img.id
    ensures s != [] ==> NextSelection(s, Some(img)) == Some(s[0])
    ensures s != [] ==> PreviousSelection(s, Some(img)) == Some(s[if |s| >= 2 then |s| - 2 else 0])
    ensures s == [] ==> NextSelection(s, Some(img)) == None && PreviousSelection(s, Some(img)) == None
  {
  }

  /** The page's state: the full list, the filter inputs, the filtered list and the lightbox selection. */
  class GalleryState {
    const images: seq<Image>
    const lower: string -> string
    var category: string
    var query: string
    var filtered: seq<Image>
    var selected: Option<Image>

    /** The filtered list always reflects the current filter inputs. */
    ghost predicate Valid()
      reads this
    {
      filtered == FilterImages(images, category, query, lower)
    }

    constructor (images: seq<Image>, lower: string -> string)
      ensures Valid()
      ensures this.images == images && this.lower == lower
      ensures category == ALL && query == "" && filtered == images && selected == None
    {
      this.images := images;
      this.lower := lower;
      category := ALL;
      query := "";
      filtered := images;
      selected := None;
    }

    /** Choosing a category re-runs the filter effect. */
    method SetCategory(c: string)
      requires Valid()
      modifies this
      ensures Valid()
      ensures category == c && query == old(query) && selected == old(selected)
    {
      category := c;
      Refilter();
    }

    /** Typing in the search box re-runs the filter effect. */
    method SetQuery(q: string)
      requires Valid()
      modifies this
      ensures Valid()
      ensures query == q && category == old(category) && selected == old(selected)
    {
      query := q;
      Refilter();
    }

    /** The filter effect: the chain of `.filter` calls, then the state write. */
    method Refilter()
      modifies this`filtered
      ensures Valid()
    {
      var result := images;
      if category != ALL {
        result := Filter(result, InCategory(category));
      }
      if query != "" {
        result := Filter(result, MatchesQuery(lower, query));
      }
      filtered := result;
    }

    /** Clicking an image opens it in the lightbox. */
    method Select(img: Image)
      modifies this`selected
      ensures selected == Some(img)
    {
      selected := Some(img);
    }

    /** Closing the lightbox clears the selection. */
    method Close()
      modifies this`selected
      ensures selected == None
    {
      selected := None;
    }

    /** `handleNext`. */
    method Next()
      modifies this`selected
      ensures selected == NextSelection(filtered, old(selected))
    {
      if selected.None? {
        return;
      }
      var currentIndex := FindIndex(filtered, selected.value.id);
      if |filtered| == 0 {
        selected := None;
      } else {
        var nextIndex := JsRem(currentIndex + 1, |filtered|);
        selected := Some(filtered[nextIndex]);
      }
    }

    /** `handlePrevious`. */
    method Previous()
      modifies this`selected
      ensures selected == PreviousSelection(filtered, old(selected))
    {
      if selected.None? {
        return;
      }
      var currentIndex := FindIndex(filtered, selected.value.id);
      if |filtered| == 0 {
        selected := None;
      } else {
        var previousIndex := JsRem(currentIndex - 1 + |filtered|, |filtered|);
        selected := Some(filtered[previousIndex]);
      }
    }
  }
}
