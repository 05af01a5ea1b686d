/**
 * The mental-health concern list of the profile editor: an array of tags
 * that checkbox events append to or filter, as `handleMentalHealthChange`
 * does through its `setUser` updater.
 */
module Concerns {

  type Tag = string

  /** No tag occurs twice. */
  ghost predicate NoDuplicates(s: seq<Tag>)
  {
    forall i, j :: 0 <= i < j < |s| ==> s[i] != s[j]
  }

  /** Every tag is drawn from `allowed`. */
  ghost predicate AllIn(s: seq<Tag>, allowed: set<Tag>)
  {
    forall x :: x in s ==> x in allowed
  }

  /** `s.filter(concern => concern !== t)`. */
  function Without(s: seq<Tag>, t: Tag): (r: seq<Tag>)
    ensures forall x :: x in r <==> x in s && x != t
    ensures multiset(r) == multiset(s)[t := 0]
    ensures |r| <= |s|
  {
    if s == [] then []
    else
      assert s == [s[0]] + s[1..];
      if s[0] == t then Without(s[1..], t)
      else [s[0]] + Without(s[1..], t)
  }

  /**
   * The new concern list after a checkbox event for tag `t` reporting
   * `checked`: appended at the end when checked, every occurrence filtered
   * out when unchecked.
   */
  function Toggle(s: seq<Tag>, t: Tag, checked: bool): (r: seq<Tag>)
    ensures checked ==> |r| == |s| + 1 && r[..|s|] == s && r[|s|] == t
    ensures !checked ==> (forall x :: x in r <==> x in s && x != t)
    ensures !checked ==> multiset(r) == multiset(s)[t := 0]
  {
    if checked then s + [t] else Without(s, t)
  }

  /** Whether the checkbox of tag `t` is shown checked: `includes(t)`. */
  predicate IsChecked(s: seq<Tag>, t: Tag)
  {
    t in s
  }

  /**
   * A click on the checkbox of `t`: the checkbox reports the negation of
   * the state it shows.
   */
  function Click(s: seq<Tag>, t: Tag): seq<Tag>
  {
    Toggle(s, t, !IsChecked(s, t))
  }

  /** A sequence of clicks, applied left to right. */
  function ClickAll(s: seq<Tag>, clicks: seq<Tag>): seq<Tag>
    decreases |clicks|
  {
    if clicks == [] then s else ClickAll(Click(s, clicks[0]), clicks[1..])
  }

  /** Filtering is applied element by element, so it keeps the order of what it keeps. */
  lemma {:induction false} WithoutConcat(a: seq<Tag>, b: seq<Tag>, t: Tag)
    ensures Without(a + b, t) == Without(a, t) + Without(b, t)
  {
    if a == [] {
      assert a + b == b;
    } else {
      assert (a + b)[1..] == a[1..] + b;
      WithoutConcat(a[1..], b, t);
    }
  }

  /** Filtering a tag that does not occur changes nothing. */
  lemma {:induction false} WithoutAbsent(s: seq<Tag>, t: Tag)
    requires t !in s
    ensures Without(s, t) == s
  {
    if s != [] {
      WithoutAbsent(s[1..], t);
    }
  }

  /** No duplicates is the same as every tag counted at most once. */
  lemma {:induction false} NoDuplicatesIffCountsAtMostOne(s: seq<Tag>)
    ensures NoDuplicates(s) <==> forall x :: multiset(s)[x] <= 1
  {
    if s != [] {
      var a, rest := s[0], s[1..];
      assert s == [a] + rest;
      NoDuplicatesIffCountsAtMostOne(rest);
      if NoDuplicates(s) {
        assert NoDuplicates(rest) by {
          forall i, j | 0 <= i < j < |rest| ensures rest[i] != rest[j] {
            assert rest[i] == s[i + 1] && rest[j] == s[j + 1];
          }
        }
        forall k | 0 <= k < |rest| ensures rest[k] != a {
          assert rest[k] == s[k + 1];
        }
        forall x ensures multiset(s)[x] <= 1 {
          assert multiset(s)[x] == multiset([a])[x] + multiset(rest)[x];
        }
      }
      if forall x :: multiset(s)[x] <= 1 {
        forall x ensures multiset(rest)[x] <= 1 {
          assert multiset(s)[x] == multiset([a])[x] + multiset(rest)[x];
        }
        assert multiset(rest)[a] == 0 by {
          assert multiset(s)[a] == 1 + multiset(rest)[a];
        }
        forall i, j | 0 <= i < j < |s| ensures s[i] != s[j] {
          if i == 0 {
            assert s[j] == rest[j - 1] && s[j] in rest;
          } else {
            assert s[i] == rest[i - 1] && s[j] == rest[j - 1];
          }
        }
      }
    }
  }

  /**
   * Checking a tag that was absent and then unchecking it restores the
   * original list exactly.
   */
  lemma CheckThenUncheckRestores(s: seq<Tag>, t: Tag)
    requires t !in s
    ensures Toggle(Toggle(s, t, true), t, false) == s
  {
    WithoutConcat(s, [t], t);
    WithoutAbsent(s, t);
    assert Without([t], t) == [];
  }

  /**
   * Unchecking a present tag and then checking it again keeps the same
   * members but moves the tag to the end; on a list without duplicates the
   * counts are unchanged too.
   */
  lemma UncheckThenCheckMovesToEnd(s: seq<Tag>, t: Tag)
    requires t in s
    ensures Toggle(Toggle(s, t, false), t, true) == Without(s, t) + [t]
    ensures forall x :: x in Toggle(Toggle(s, t, false), t, true) <==> x in s
    ensures NoDuplicates(s) ==> multiset(Toggle(Toggle(s, t, false), t, true)) == multiset(s)
  {
  }

  /**
   * Checking a tag that is already present is not a no-op: the append is
   * unconditional and the tag then occurs twice.
   */
  lemma RecheckDuplicates(s: seq<Tag>, t: Tag)
    requires t in s
    ensures multiset(Toggle(s, t, true))[t] >= 2
    ensures !NoDuplicates(Toggle(s, t, true))
  {
  }

  /** A click flips the checkbox of its tag and no other. */
  lemma ClickFlips(s: seq<Tag>, t: Tag, u: Tag)
    ensures IsChecked(Click(s, t), t) == !IsChecked(s, t)
    ensures u != t ==> IsChecked(Click(s, t), u) == IsChecked(s, u)
  {
  }

  /** A click keeps the list free of duplicates and within the allowed tags. */
  lemma ClickPreserves(s: seq<Tag>, t: Tag, allowed: set<Tag>)
    requires NoDuplicates(s) && AllIn(s, allowed) && t in allowed
    ensures NoDuplicates(Click(s, t)) && AllIn(Click(s, t), allowed)
  {
    var r := Click(s, t);
    NoDuplicatesIffCountsAtMostOne(s);
    if t in s {
      assert r == Without(s, t);
    } else {
      assert r == s + [t];
      assert multiset(r) == multiset(s) + multiset{t};
    }
    NoDuplicatesIffCountsAtMostOne(r);
  }

  /**
   * However the checkboxes are clicked, the list never holds a tag twice
   * and holds only catalog tags when every checkbox is a catalog entry.
   */
  lemma {:induction false} ClickAllPreserves(s: seq<Tag>, clicks: seq<Tag>, allowed: set<Tag>)
    requires NoDuplicates(s) && AllIn(s, allowed) && AllIn(clicks, allowed)
    ensures NoDuplicates(ClickAll(s, clicks)) && AllIn(ClickAll(s, clicks), allowed)
    decreases |clicks|
  {
    if clicks != [] {
      ClickPreserves(s, clicks[0], allowed);
      assert AllIn(clicks[1..], allowed) by {
        forall x | x in clicks[1..] ensures x in allowed {
          assert x in clicks;
        }
      }
      ClickAllPreserves(Click(s, clicks[0]), clicks[1..], allowed);
    }
  }
}
