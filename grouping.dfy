/** Grouping metric results by category name in order of first appearance,
    as the score aggregation and the Markdown report both do with an
    insertion-ordered dictionary of lists. */
module Grouping {
  import opened Wrappers
  import opened Assoc
  import opened Models

  /** `groups.setdefault(r.metric.category, []).append(r)`. */
  function AddToGroup(groups: seq<(string, seq<MetricResult>)>, r: MetricResult)
    : seq<(string, seq<MetricResult>)>
  {
    var c := r.metric.category;
    Put(groups, c, (if HasKey(groups, c) then Get(groups, c).value else []) + [r])
  }

  function GroupByCategory(rs: seq<MetricResult>): seq<(string, seq<MetricResult>)> {
    if rs == [] then [] else AddToGroup(GroupByCategory(rs[..|rs| - 1]), rs[|rs| - 1])
  }

  /** The results of one category, in their original order. */
  function InCategory(rs: seq<MetricResult>, c: string): (r: seq<MetricResult>)
    ensures forall k :: 0 <= k < |r| ==> r[k].metric.category == c
  {
    if rs == [] then []
    else InCategory(rs[..|rs| - 1], c) + (if rs[|rs| - 1].metric.category == c then [rs[|rs| - 1]] else [])
  }

  predicate HasCategory(rs: seq<MetricResult>, c: string) {
    exists k :: 0 <= k < |rs| && rs[k].metric.category == c
  }

  lemma {:induction false} InCategoryEmpty(rs: seq<MetricResult>, c: string)
    ensures InCategory(rs, c) == [] <==> !HasCategory(rs, c)
  {
    if rs != [] {
      var init := rs[..|rs| - 1];
      InCategoryEmpty(init, c);
      if HasCategory(init, c) {
        var k :| 0 <= k < |init| && init[k].metric.category == c;
        assert rs[k] == init[k];
      }
      if HasCategory(rs, c) && rs[|rs| - 1].metric.category != c {
        var k :| 0 <= k < |rs| && rs[k].metric.category == c;
        assert init[k] == rs[k];
      }
    }
  }

  lemma HasCategorySnoc(rs: seq<MetricResult>, c: string)
    requires rs != []
    ensures HasCategory(rs, c) <==> HasCategory(rs[..|rs| - 1], c) || rs[|rs| - 1].metric.category == c
  {
    var init := rs[..|rs| - 1];
    if HasCategory(init, c) {
      var k :| 0 <= k < |init| && init[k].metric.category == c;
      assert rs[k] == init[k];
    }
    if HasCategory(rs, c) && rs[|rs| - 1].metric.category != c {
      var k :| 0 <= k < |rs| && rs[k].metric.category == c;
      assert init[k] == rs[k];
    }
  }

  lemma AddToGroupUnique(g: seq<(string, seq<MetricResult>)>, r: MetricResult)
    requires UniqueKeys(g)
    ensures UniqueKeys(AddToGroup(g, r))
  {
    var c := r.metric.category;
    PutUnique(g, c, (if HasKey(g, c) then Get(g, c).value else []) + [r]);
  }

  /** One step of the grouping: the result's own category gains it at the
      end, every other category is unchanged. */
  lemma AddToGroupGet(g: seq<(string, seq<MetricResult>)>, r: MetricResult, c: string)
    ensures c == r.metric.category ==>
      Get(AddToGroup(g, r), c) == Some((if HasKey(g, c) then Get(g, c).value else []) + [r])
    ensures c != r.metric.category ==> Get(AddToGroup(g, r), c) == Get(g, c)
  {
    var lc := r.metric.category;
    GetPut(g, lc, (if HasKey(g, lc) then Get(g, lc).value else []) + [r], c);
  }

  /** The grouping has distinct keys, and looking a category up yields
      exactly that category's results in their original order, or nothing
      when the category does not occur. */
  lemma {:induction false} GroupByCategoryCorrect(rs: seq<MetricResult>, c: string)
    ensures UniqueKeys(GroupByCategory(rs))
    ensures HasKey(GroupByCategory(rs), c) <==> HasCategory(rs, c)
    ensures Get(GroupByCategory(rs), c) == if HasCategory(rs, c) then Some(InCategory(rs, c)) else None
  {
    InCategoryEmpty(rs, c);
    if rs != [] {
      var init := rs[..|rs| - 1];
      var last := rs[|rs| - 1];
      GroupByCategoryCorrect(init, c);
      InCategoryEmpty(init, c);
      AddToGroupUnique(GroupByCategory(init), last);
      AddToGroupGet(GroupByCategory(init), last, c);
      HasCategorySnoc(rs, c);
      assert GroupByCategory(rs) == AddToGroup(GroupByCategory(init), last);
      assert InCategory(rs, c) == InCategory(init, c) + (if last.metric.category == c then [last] else []);
      var g0 := GroupByCategory(init);
      if last.metric.category == c {
        if HasCategory(init, c) {
          assert Get(g0, c).value == InCategory(init, c);
        } else {
          assert !HasKey(g0, c);
          assert InCategory(rs, c) == [last];
        }
        assert Get(GroupByCategory(rs), c) == Some(InCategory(rs, c));
      } else {
        assert InCategory(rs, c) == InCategory(init, c) + [];
        assert InCategory(rs, c) == InCategory(init, c);
      }
    }
  }

  /** The categories of `rs`, each once, in the order they first occur. */
  function FirstAppearances(rs: seq<MetricResult>): seq<string> {
    if rs == [] then []
    else
      var seen := FirstAppearances(rs[..|rs| - 1]);
      var c := rs[|rs| - 1].metric.category;
      if c in seen then seen else seen + [c]
  }

  /** The groups are keyed in first-appearance order of their categories. */
  lemma {:induction false} GroupKeysInFirstAppearanceOrder(rs: seq<MetricResult>)
    ensures Keys(GroupByCategory(rs)) == FirstAppearances(rs)
  {
    if rs != [] {
      var init := rs[..|rs| - 1];
      var last := rs[|rs| - 1];
      var c := last.metric.category;
      GroupKeysInFirstAppearanceOrder(init);
      var g0 := GroupByCategory(init);
      assert GroupByCategory(rs) == AddToGroup(g0, last);
      PutKeys(g0, c, (if HasKey(g0, c) then Get(g0, c).value else []) + [last]);
    }
  }
}
