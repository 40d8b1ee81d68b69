/** The to-do item shared by the backend and the frontend, and the one
    matching rule both of them use to search titles: the lowercased title
    contains the lowercased search term as a substring. */
module Todos {

  /** `{ id, title, completed }`, the JSON shape both sides agree on. */
  datatype Todo = Todo(id: string, title: string, completed: bool)

  /** The item with its `completed` flag negated and every other field kept. */
  function Flip(t: Todo): (r: Todo)
    ensures r.id == t.id && r.title == t.title && r.completed == !t.completed
  {
    t.(completed := !t.completed)
  }

  lemma FlipTwice(t: Todo)
    ensures Flip(Flip(t)) == t
  {
  }

  // ---------------------------------------------------------------------
  // Case folding (ASCII letters only; see README "Left out")

  function LowerChar(c: char): (r: char)
  {
    if 'A' <= c <= 'Z' then (c as int + 32) as char else c
  }

  function Lower(s: string): (r: string)
    ensures |r| == |s|
  {
    seq(|s|, i requires 0 <= i < |s| => LowerChar(s[i]))
  }

  /** Lowercasing twice is lowercasing once. */
  lemma LowerIdempotent(s: string)
    ensures Lower(Lower(s)) == Lower(s)
  {
  }

  /** The result has no upper-case ASCII letter left. */
  lemma LowerHasNoUpper(s: string)
    ensures forall i :: 0 <= i < |Lower(s)| ==> !('A' <= Lower(s)[i] <= 'Z')
  {
  }

  // ---------------------------------------------------------------------
  // Substring search, as JavaScript's `String.prototype.includes`

  predicate StartsWith(hay: string, needle: string)
  {
    |needle| <= |hay| && hay[..|needle|] == needle
  }

  /** `hay.includes(needle)`: a scan of the start positions from left to
      right. A needle never fits in a shorter text, and a text of the
      needle's own length includes it only by being equal to it. */
  predicate Contains(hay: string, needle: string)
    ensures Contains(hay, needle) ==> |needle| <= |hay|
    ensures |needle| == |hay| ==> (Contains(hay, needle) <==> hay == needle)
    decreases |hay|
  {
    StartsWith(hay, needle) || (hay != [] && Contains(hay[1..], needle))
  }

  /** `needle` occurs in `hay` starting at position `i`. */
  ghost predicate OccursAt(hay: string, needle: string, i: int)
  {
    0 <= i && i + |needle| <= |hay| && hay[i..i + |needle|] == needle
  }

  /** The scan agrees with the textbook definition of a substring:
      there is a position at which the needle occurs. */
  lemma {:induction false} ContainsIffOccurs(hay: string, needle: string)
    ensures Contains(hay, needle) <==> exists i :: OccursAt(hay, needle, i)
    decreases |hay|
  {
    if StartsWith(hay, needle) {
      assert OccursAt(hay, needle, 0);
    } else if hay == [] {
      assert |needle| > 0;
    } else {
      ContainsIffOccurs(hay[1..], needle);
      if exists i :: OccursAt(hay[1..], needle, i) {
        var i :| OccursAt(hay[1..], needle, i);
        assert hay[i + 1..i + 1 + |needle|] == hay[1..][i..i + |needle|];
        assert OccursAt(hay, needle, i + 1);
      }
      if exists i :: OccursAt(hay, needle, i) {
        var i :| OccursAt(hay, needle, i);
        assert i != 0;
        assert hay[1..][i - 1..i - 1 + |needle|] == hay[i..i + |needle|];
        assert OccursAt(hay[1..], needle, i - 1);
      }
    }
  }

  /** The empty string is contained in every string. */
  lemma ContainsEmpty(hay: string)
    ensures Contains(hay, "")
  {
  }

  /** A needle whose first character never occurs in the haystack is not in it. */
  lemma {:induction false} AbsentFirstCharNotContained(hay: string, needle: string)
    requires needle != [] && forall i :: 0 <= i < |hay| ==> hay[i] != needle[0]
    ensures !Contains(hay, needle)
  {
    if hay != [] {
      AbsentFirstCharNotContained(hay[1..], needle);
      assert |needle| <= |hay| ==> hay[..|needle|][0] == hay[0];
    }
  }

  // ---------------------------------------------------------------------
  // The shared matching rule and filter

  /** `title.toLowerCase().includes(term.toLowerCase())`: every title
      matches its own text, and no title matches a longer term. */
  predicate Matches(title: string, term: string)
    ensures title == term ==> Matches(title, term)
    ensures Matches(title, term) ==> |term| <= |title|
  {
    Contains(Lower(title), Lower(term))
  }

  /** Matching ignores the case of both the title and the term. */
  lemma MatchesIgnoresCase(title: string, term: string)
    ensures Matches(title, term) <==> Matches(Lower(title), Lower(term))
  {
    LowerIdempotent(title);
    LowerIdempotent(term);
  }

  /** The empty term matches every title. */
  lemma MatchesEmptyTerm(title: string)
    ensures Matches(title, "")
  {
  }

  /** `items.filter(t => Matches(t.title, term))`: the matching items, in order. */
  function Filter(items: seq<Todo>, term: string): (r: seq<Todo>)
    ensures |r| <= |items|
  {
    if items == [] then []
    else (if Matches(items[0].title, term) then [items[0]] else []) + Filter(items[1..], term)
  }

  /** The filter keeps exactly the matching items, in their original order:
      `idx` lists, increasing, the positions of `items` it keeps, and a
      position is kept if and only if its title matches. */
  lemma {:induction false} FilterSelects(items: seq<Todo>, term: string) returns (idx: seq<nat>)
    ensures |idx| == |Filter(items, term)|
    ensures forall k :: 0 <= k < |idx| ==> idx[k] < |items| && Filter(items, term)[k] == items[idx[k]]
    ensures forall k, l :: 0 <= k < l < |idx| ==> idx[k] < idx[l]
    ensures forall i :: 0 <= i < |items| ==> (Matches(items[i].title, term) <==> i in idx)
  {
    if items == [] {
      idx := [];
      return;
    }
    var tail := items[1..];
    var rest := FilterSelects(tail, term);
    idx := (if Matches(items[0].title, term) then [0] else []) + Shift(rest);
    KeptItems(items, term, rest, idx);
    KeptPositions(items, term, rest, idx);
    KeptIncreasing(items[0].title, term, rest, idx);
  }

  /** The third step of `FilterSelects`: shifting keeps the positions
      increasing, and 0 comes before all of them. */
  lemma KeptIncreasing(title: string, term: string, rest: seq<nat>, idx: seq<nat>)
    requires forall k, l :: 0 <= k < l < |rest| ==> rest[k] < rest[l]
    requires idx == (if Matches(title, term) then [0] else []) + Shift(rest)
    ensures forall k, l :: 0 <= k < l < |idx| ==> idx[k] < idx[l]
  {
  }

  /** The first step of `FilterSelects`: the positions kept in the tail,
      moved one to the right and led by 0 when the head matches, pick out
      the items the filter returns. */
  lemma KeptItems(items: seq<Todo>, term: string, rest: seq<nat>, idx: seq<nat>)
    requires items != []
    requires |rest| == |Filter(items[1..], term)|
    requires forall k :: 0 <= k < |rest| ==> rest[k] < |items[1..]| && Filter(items[1..], term)[k] == items[1..][rest[k]]
    requires idx == (if Matches(items[0].title, term) then [0] else []) + Shift(rest)
    ensures |idx| == |Filter(items, term)|
    ensures forall k :: 0 <= k < |idx| ==> idx[k] < |items| && Filter(items, term)[k] == items[idx[k]]
  {
  }

  /** The second step of `FilterSelects`: a position is among the shifted
      ones exactly when its title matches. */
  lemma KeptPositions(items: seq<Todo>, term: string, rest: seq<nat>, idx: seq<nat>)
    requires items != []
    requires forall i :: 0 <= i < |items[1..]| ==> (Matches(items[1..][i].title, term) <==> i in rest)
    requires idx == (if Matches(items[0].title, term) then [0] else []) + Shift(rest)
    ensures forall i :: 0 <= i < |items| ==> (Matches(items[i].title, term) <==> i in idx)
  {
  }

  /** Every position moved one to the right, as positions of a list that
      gained one item at its front. */
  function Shift(idx: seq<nat>): (r: seq<nat>)
    ensures |r| == |idx|
    ensures forall k :: 0 <= k < |r| ==> r[k] == idx[k] + 1
    ensures forall i :: i in r <==> i >= 1 && i - 1 in idx
  {
    var r := seq(|idx|, k requires 0 <= k < |idx| => idx[k] + 1);
    assert forall i :: i >= 1 && i - 1 in idx ==> i in r by {
      forall i | i >= 1 && i - 1 in idx
        ensures i in r
      {
        var k :| 0 <= k < |idx| && idx[k] == i - 1;
        assert r[k] == i;
      }
    }
    r
  }

  /** An item appears in the filtered list if and only if it appears in the
      list and its title matches. */
  lemma {:induction false} FilterMembership(items: seq<Todo>, term: string)
    ensures forall t :: t in Filter(items, term) <==> t in items && Matches(t.title, term)
  {
    if items != [] {
      FilterMembership(items[1..], term);
      assert items == [items[0]] + items[1..];
    }
  }

  /** With an empty term the filter returns the whole list unchanged. */
  lemma {:induction false} FilterEmptyTerm(items: seq<Todo>)
    ensures Filter(items, "") == items
  {
    if items != [] {
      MatchesEmptyTerm(items[0].title);
      FilterEmptyTerm(items[1..]);
      assert items == [items[0]] + items[1..];
    }
  }
}
