/** Splitting a stream into windows on the fly against grouping it by window.

    Both aggregators keep one open window and close it when a sample of another window arrives.
    For any stream that yields the maximal runs of equal window index; for a stream whose window
    indices never decrease the runs are the groups, one per window, in increasing order. */
module WindowGroups {
  import opened Common

  datatype Tagged<S> = Tagged(window: nat, sample: S)

  datatype Group<S> = Group(window: nat, samples: seq<S>)

  datatype Split<S> = Split(closed: seq<Group<S>>, open: Option<Group<S>>) {
    /** All groups once the open one is flushed. */
    function Flushed(): seq<Group<S>> { if open.Some? then closed + [open.value] else closed }
  }

  function Feed<S>(sp: Split<S>, t: Tagged<S>): Split<S> {
    if sp.open.Some? && sp.open.value.window == t.window then
      sp.(open := Some(Group(t.window, sp.open.value.samples + [t.sample])))
    else
      Split(sp.Flushed(), Some(Group(t.window, [t.sample])))
  }

  function SplitOf<S>(ts: seq<Tagged<S>>): Split<S> {
    if ts == [] then Split([], None) else Feed(SplitOf(ts[..|ts| - 1]), ts[|ts| - 1])
  }

  lemma SplitSnoc<S>(ts: seq<Tagged<S>>, t: Tagged<S>)
    ensures SplitOf(ts + [t]) == Feed(SplitOf(ts), t)
  {
    assert (ts + [t])[..|ts|] == ts;
  }

  /** The samples of one window, in stream order. */
  function InWindow<S>(ts: seq<Tagged<S>>, w: nat): seq<S> {
    if ts == [] then []
    else
      var front := InWindow(ts[..|ts| - 1], w);
      if ts[|ts| - 1].window == w then front + [ts[|ts| - 1].sample] else front
  }

  ghost predicate NonDecreasing<S>(ts: seq<Tagged<S>>) {
    forall i, j :: 0 <= i < j < |ts| ==> ts[i].window <= ts[j].window
  }

  /** One non-empty group per window that occurs, in strictly increasing window order, holding all its samples. */
  ghost predicate IsGroupBy<S>(gs: seq<Group<S>>, ts: seq<Tagged<S>>) {
    && (forall i, j :: 0 <= i < j < |gs| ==> gs[i].window < gs[j].window)
    && (forall i :: 0 <= i < |gs| ==> gs[i].samples != [] && gs[i].samples == InWindow(ts, gs[i].window))
    && (forall t :: t in ts ==> exists i :: 0 <= i < |gs| && gs[i].window == t.window)
  }

  lemma {:induction false} NoLaterSamples<S>(ts: seq<Tagged<S>>, w: nat)
    requires forall t :: t in ts ==> t.window != w
    ensures InWindow(ts, w) == []
  {
    if ts != [] {
      assert ts[|ts| - 1] in ts;
      assert forall t :: t in ts[..|ts| - 1] ==> t in ts;
      NoLaterSamples(ts[..|ts| - 1], w);
    }
  }

  lemma InWindowSnoc<S>(ts: seq<Tagged<S>>, t: Tagged<S>, w: nat)
    ensures InWindow(ts + [t], w) == if t.window == w then InWindow(ts, w) + [t.sample] else InWindow(ts, w)
  {
    assert (ts + [t])[..|ts|] == ts;
  }

  /** One more sample of the newest window. */
  lemma GroupByGrows<S>(gs: seq<Group<S>>, ts: seq<Tagged<S>>, t: Tagged<S>)
    requires IsGroupBy(gs, ts) && gs != [] && gs[|gs| - 1].window == t.window
    ensures IsGroupBy(gs[|gs| - 1 := Group(t.window, gs[|gs| - 1].samples + [t.sample])], ts + [t])
  {
    var after := gs[|gs| - 1 := Group(t.window, gs[|gs| - 1].samples + [t.sample])];
    forall i | 0 <= i < |after| ensures after[i].samples != [] && after[i].samples == InWindow(ts + [t], after[i].window) {
      InWindowSnoc(ts, t, after[i].window);
    }
    forall u | u in ts + [t] ensures exists i :: 0 <= i < |after| && after[i].window == u.window {
      var i :| 0 <= i < |gs| && gs[i].window == u.window;
      assert after[i].window == u.window;
    }
  }

  /** The first sample of a window later than all others. */
  lemma GroupByStarts<S>(gs: seq<Group<S>>, ts: seq<Tagged<S>>, t: Tagged<S>)
    requires IsGroupBy(gs, ts) && forall i :: 0 <= i < |gs| ==> gs[i].window < t.window
    ensures IsGroupBy(gs + [Group(t.window, [t.sample])], ts + [t])
  {
    var after := gs + [Group(t.window, [t.sample])];
    NoLaterSamples(ts, t.window);
    forall i | 0 <= i < |after| ensures after[i].samples != [] && after[i].samples == InWindow(ts + [t], after[i].window) {
      InWindowSnoc(ts, t, after[i].window);
    }
    forall u | u in ts + [t] ensures exists i :: 0 <= i < |after| && after[i].window == u.window {
      if u in ts {
        var i :| 0 <= i < |gs| && gs[i].window == u.window;
        assert after[i].window == u.window;
      } else {
        assert after[|gs|].window == u.window;
      }
    }
  }

  /** The newest group is the one of the last sample. */
  ghost predicate EndsWith<S>(gs: seq<Group<S>>, open: Option<Group<S>>, ts: seq<Tagged<S>>) {
    if ts == [] then gs == [] && open.None?
    else gs != [] && open == Some(gs[|gs| - 1]) && open.value.window == ts[|ts| - 1].window
  }

  lemma {:induction false} SplitEndsWith<S>(ts: seq<Tagged<S>>)
    ensures EndsWith(SplitOf(ts).Flushed(), SplitOf(ts).open, ts)
  {
    if ts != [] { SplitEndsWith(ts[..|ts| - 1]); }
  }

  lemma {:induction false} SplitIsGroupByStep<S>(ts: seq<Tagged<S>>)
    requires NonDecreasing(ts)
    ensures IsGroupBy(SplitOf(ts).Flushed(), ts)
  {
    hide IsGroupBy, Feed;
    if ts == [] {
      NothingToGroup(ts);
    } else {
      var front, t := ts[..|ts| - 1], ts[|ts| - 1];
      assert ts == front + [t];
      assert front != [] ==> front[|front| - 1].window <= t.window;
      SplitIsGroupByStep(front);
      SplitEndsWith(front);
      GroupByNext(SplitOf(front), front, t);
    }
  }

  /** One more sample, not of an earlier window than the last. */
  lemma GroupByNext<S>(sp: Split<S>, ts: seq<Tagged<S>>, t: Tagged<S>)
    requires IsGroupBy(sp.Flushed(), ts) && EndsWith(sp.Flushed(), sp.open, ts)
    requires ts != [] ==> ts[|ts| - 1].window <= t.window
    ensures IsGroupBy(Feed(sp, t).Flushed(), ts + [t])
  {
    hide IsGroupBy, Feed, Split.Flushed;
    FlushedAfterFeed(sp, t);
    if ts != [] && t.window == ts[|ts| - 1].window {
      GroupByGrows(sp.Flushed(), ts, t);
    } else {
      if ts != [] { LastGroupIsLatest(sp.Flushed(), ts); }
      GroupByStarts(sp.Flushed(), ts, t);
    }
  }

  lemma FlushedAfterFeed<S>(sp: Split<S>, t: Tagged<S>)
    ensures var gs, after := sp.Flushed(), Feed(sp, t).Flushed();
            if sp.open.Some? && sp.open.value.window == t.window then
              after == gs[|gs| - 1 := Group(t.window, gs[|gs| - 1].samples + [t.sample])]
            else after == gs + [Group(t.window, [t.sample])]
  {
  }

  lemma NothingToGroup<S>(ts: seq<Tagged<S>>)
    requires ts == []
    ensures IsGroupBy<S>([], ts)
  {
  }

  lemma LastGroupIsLatest<S>(gs: seq<Group<S>>, ts: seq<Tagged<S>>)
    requires IsGroupBy(gs, ts) && gs != []
    ensures forall i :: 0 <= i < |gs| ==> gs[i].window <= gs[|gs| - 1].window
  {
  }

  /** The sample came with the group's window. */
  ghost predicate CameWith<S>(ts: seq<Tagged<S>>, window: nat, sample: S) { Tagged(window, sample) in ts }

  /** Whatever the order of the stream, a group's samples are samples of its window. */
  lemma {:induction false} GroupsHoldTheirWindow<S>(ts: seq<Tagged<S>>)
    ensures forall g, x :: g in SplitOf(ts).Flushed() && x in g.samples ==> CameWith(ts, g.window, x)
  {
    if ts != [] {
      var front, t := ts[..|ts| - 1], ts[|ts| - 1];
      GroupsHoldTheirWindow(front);
      FlushedAfterFeed(SplitOf(front), t);
      var before, after := SplitOf(front).Flushed(), SplitOf(ts).Flushed();
      forall g, x | g in after && x in g.samples ensures CameWith(ts, g.window, x) {
        if x == t.sample && g.window == t.window {
          assert ts[|ts| - 1] == Tagged(g.window, x);
        } else if g in before {
          assert CameWith(front, g.window, x);
        } else {
          assert before[|before| - 1] in before;
          assert CameWith(front, g.window, x);
        }
      }
    }
  }

  /** Cutting on the fly is grouping by window when windows never decrease. */
  lemma SplitIsGroupBy<S>(ts: seq<Tagged<S>>)
    requires NonDecreasing(ts)
    ensures IsGroupBy(SplitOf(ts).Flushed(), ts)
  {
    SplitIsGroupByStep(ts);
  }
}
