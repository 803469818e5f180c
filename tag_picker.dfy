/** The tag chips of the note form and of the note editor: the selected tag
    names, the registered tags offered for selection (those not selected yet,
    by name), selecting (only when absent) and deselecting (`list.remove`). */
module TagPicker {
  import opened Records
  import opened Text
  import opened Sorting

  predicate NoDuplicates(s: seq<string>)
  {
    forall i, j :: 0 <= i < j < |s| ==> s[i] != s[j]
  }

  /** `if t not in selected: selected.append(t)`. */
  function Selected(selected: seq<string>, t: string): seq<string>
  {
    if t in selected then selected else selected + [t]
  }

  /** Selecting adds exactly the tag, at the end when it was absent, and
      never introduces a duplicate. */
  lemma SelectAddsOnce(selected: seq<string>, t: string)
    ensures var r := Selected(selected, t);
      && (forall x :: x in r <==> x in selected || x == t)
      && (t !in selected ==> r == selected + [t])
      && (NoDuplicates(selected) ==> NoDuplicates(r))
  {
    var r := Selected(selected, t);
    if t !in selected && NoDuplicates(selected) {
      forall i, j | 0 <= i < j < |r| ensures r[i] != r[j] {
        assert r[i] == selected[i];
        if j < |selected| { assert r[j] == selected[j]; }
      }
    }
  }

  /** `selected.remove(t)`: the first occurrence removed. */
  function RemoveFirst(selected: seq<string>, t: string): (r: seq<string>)
    requires t in selected
    ensures |r| == |selected| - 1
  {
    if selected[0] == t then selected[1..] else [selected[0]] + RemoveFirst(selected[1..], t)
  }

  /** Deselecting takes out one occurrence and keeps the rest. */
  lemma {:induction false} DeselectRemovesOne(selected: seq<string>, t: string)
    requires t in selected
    ensures multiset(RemoveFirst(selected, t)) == multiset(selected) - multiset{t}
  {
    if selected[0] == t {
      assert selected == [t] + selected[1..];
    } else {
      var tail := selected[1..];
      assert t in tail by { var k :| 0 <= k < |selected| && selected[k] == t; assert tail[k - 1] == t; }
      DeselectRemovesOne(tail, t);
      assert selected == [selected[0]] + tail;
    }
  }

  /** In a selection without duplicates, deselecting leaves the tag gone and
      still no duplicates. */
  lemma DeselectKeepsDistinct(selected: seq<string>, t: string)
    requires t in selected && NoDuplicates(selected)
    ensures t !in RemoveFirst(selected, t) && NoDuplicates(RemoveFirst(selected, t))
  {
    var i :| 0 <= i < |selected| && selected[i] == t;
    assert t !in selected[..i];
    RemoveFirstAt(selected, t, i);
    var r := RemoveFirst(selected, t);
    assert forall k :: 0 <= k < |r| ==> r[k] == (if k < i then selected[k] else selected[k + 1]);
  }

  /** `[t for t in all_tags if t['name'] not in selected]`. */
  function Available(all: seq<Tag>, selected: seq<string>): (r: seq<Tag>)
    ensures |r| <= |all|
  {
    if all == [] then []
    else Available(all[..|all| - 1], selected) + (if all[|all| - 1].name !in selected then [all[|all| - 1]] else [])
  }

  function TagName(t: Tag): string { t.name }

  /** The chips offered: the available tags sorted by name. */
  function Offered(all: seq<Tag>, selected: seq<string>): seq<Tag>
  {
    SortBy(Available(all, selected), TagName, StrLt)
  }

  lemma StrLtIsStrictTotalOrder()
    ensures StrictTotalOrder(StrLt)
  {
    forall a ensures !StrLt(a, a) { StrLtIrreflexive(a); }
    forall a, b, c | StrLt(a, b) && StrLt(b, c) ensures StrLt(a, c) { StrLtTransitive(a, b, c); }
    forall a, b | a != b ensures StrLt(a, b) || StrLt(b, a) { StrLtConnected(a, b); }
  }

  lemma {:induction false} AvailableExact(all: seq<Tag>, selected: seq<string>, t: Tag)
    ensures t in Available(all, selected) <==> t in all && t.name !in selected
  {
    if all != [] {
      AvailableExact(all[..|all| - 1], selected, t);
      assert all == all[..|all| - 1] + [all[|all| - 1]];
    }
  }

  /** The offered tags are exactly the registered ones not selected, each as
      often as registered, in name order. */
  lemma OfferedExact(all: seq<Tag>, selected: seq<string>, t: Tag)
    ensures t in Offered(all, selected) <==> t in all && t.name !in selected
    ensures multiset(Offered(all, selected)) == multiset(Available(all, selected))
    ensures SortedBy(Offered(all, selected), TagName, StrLt)
  {
    SortByMultiset(Available(all, selected), TagName, StrLt);
    StrLtIsStrictTotalOrder();
    SortBySorted(Available(all, selected), TagName, StrLt);
    AvailableExact(all, selected, t);
    assert t in Offered(all, selected) <==> t in multiset(Offered(all, selected));
  }

  /** An offered chip can always be selected: its name is not selected yet. */
  lemma OfferedSelectable(all: seq<Tag>, selected: seq<string>, k: nat)
    requires k < |Offered(all, selected)|
    ensures Selected(selected, Offered(all, selected)[k].name) == selected + [Offered(all, selected)[k].name]
  {
    OfferedExact(all, selected, Offered(all, selected)[k]);
  }

  /** The selected tag names of one form or editor. */
  class TagSelection {
    var tags: seq<string>

    constructor (initial: seq<string>)
      ensures tags == initial
    {
      tags := initial;
    }

    /** `make_select(t)`. */
    method Select(t: string)
      modifies this
      ensures tags == Selected(old(tags), t)
    {
      if t !in tags {
        tags := tags + [t];
      }
    }

    /** A chip's removal: the chip is only shown for a selected tag. */
    method Deselect(t: string)
      requires t in tags
      modifies this
      ensures tags == RemoveFirst(old(tags), t)
    {
      var i := 0;
      while tags[i] != t
        invariant 0 <= i < |tags|
        invariant t !in tags[..i]
        invariant t in tags[i..]
        decreases |tags| - i
      {
        assert tags[..i + 1] == tags[..i] + [tags[i]];
        i := i + 1;
      }
      RemoveFirstAt(tags, t, i);
      tags := tags[..i] + tags[i + 1..];
    }

    method Clear()
      modifies this
      ensures tags == []
    {
      tags := [];
    }
  }

  lemma {:induction false} RemoveFirstAt(s: seq<string>, t: string, i: nat)
    requires i < |s| && s[i] == t && t !in s[..i]
    ensures RemoveFirst(s, t) == s[..i] + s[i + 1..]
  {
    if i > 0 {
      assert s[0] != t by { assert s[..i][0] == s[0]; }
      assert s[1..][..i - 1] == s[..i][1..];
      assert t !in s[1..][..i - 1];
      RemoveFirstAt(s[1..], t, i - 1);
      assert s[..i] == [s[0]] + s[1..][..i - 1];
      assert s[1..][i..] == s[i + 1..];
    }
  }
}
