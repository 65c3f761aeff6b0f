/** The bounded activity history of a profile: newest event first, at most
    HISTORY_LIMIT entries, the oldest dropped from the tail on overflow. */
module History {
  import opened Types

  /** The number of events a history keeps. */
  const HISTORY_LIMIT: nat := 50

  /** The first HISTORY_LIMIT entries of `h`, or all of them when there are fewer
      (the list's `slice(0, 50)`). */
  function Truncate(h: seq<HistoryEvent>): (r: seq<HistoryEvent>)
    ensures |r| == Min(|h|, HISTORY_LIMIT)
    ensures r <= h
    ensures |h| <= HISTORY_LIMIT ==> r == h
  {
    h[..Min(|h|, HISTORY_LIMIT)]
  }

  /** A stored history that is absent counts as the empty history. */
  function HistoryOrEmpty(h: Option<seq<HistoryEvent>>): seq<HistoryEvent>
  {
    match h
    case None => []
    case Some(events) => events
  }

  /** The event recorded for `d`, with the generated `id` and `timestamp`. */
  function NewEvent(d: EventDetails, id: string, timestamp: string): HistoryEvent
  {
    HistoryEvent(id, timestamp, d.kind, d.title, d.details, d.metadata)
  }

  /** Puts `e` in front of `h` and keeps the first HISTORY_LIMIT entries. */
  function PrependEvent(e: HistoryEvent, h: seq<HistoryEvent>): (r: seq<HistoryEvent>)
    ensures |r| == Min(|h| + 1, HISTORY_LIMIT)
    ensures r[0] == e
    ensures r[1..] == h[..|r| - 1]
  {
    Truncate([e] + h)
  }

  /** The history after recording `es[0]`, then `es[1]`, and so on. */
  function AppendEvents(h: seq<HistoryEvent>, es: seq<HistoryEvent>): seq<HistoryEvent>
    decreases |es|
  {
    if es == [] then h else AppendEvents(PrependEvent(es[0], h), es[1..])
  }

  function Reverse(s: seq<HistoryEvent>): seq<HistoryEvent>
  {
    if s == [] then [] else Reverse(s[1..]) + [s[0]]
  }

  /** No two entries of `es` are the same event. */
  ghost predicate Distinct(es: seq<HistoryEvent>)
  {
    forall i, j :: 0 <= i < j < |es| ==> es[i] != es[j]
  }

  /** Truncating a tail before or after prepending gives the same bounded list. */
  lemma TruncateAbsorbs(a: seq<HistoryEvent>, b: seq<HistoryEvent>)
    ensures Truncate(a + Truncate(b)) == Truncate(a + b)
  {
    if |b| > HISTORY_LIMIT {
      var k := Min(|a| + HISTORY_LIMIT, HISTORY_LIMIT);
      assert |Truncate(a + Truncate(b))| == k == |Truncate(a + b)|;
      forall i | 0 <= i < k
        ensures Truncate(a + Truncate(b))[i] == Truncate(a + b)[i]
      {
        if i >= |a| {
          assert (a + Truncate(b))[i] == Truncate(b)[i - |a|] == b[i - |a|];
        }
      }
    }
  }

  /** Recording a non-empty run of events one at a time leaves the run, newest
      first, in front of the old history, bounded to HISTORY_LIMIT entries. */
  lemma {:induction false} AppendEventsIsBoundedReverse(h: seq<HistoryEvent>, es: seq<HistoryEvent>)
    requires es != []
    ensures AppendEvents(h, es) == Truncate(Reverse(es) + h)
    decreases |es|
  {
    var e, rest := es[0], es[1..];
    assert Reverse(es) == Reverse(rest) + [e];
    if rest == [] {
      assert AppendEvents(h, es) == AppendEvents(PrependEvent(e, h), []);
    } else {
      AppendEventsIsBoundedReverse(PrependEvent(e, h), rest);
      TruncateAbsorbs(Reverse(rest), [e] + h);
      assert Reverse(rest) + ([e] + h) == Reverse(es) + h;
    }
  }

  /** Recording one more event after a run is prepending it to the history
      the run left. */
  lemma {:induction false} AppendEventsSnoc(h: seq<HistoryEvent>, es: seq<HistoryEvent>, e: HistoryEvent)
    ensures AppendEvents(h, es + [e]) == PrependEvent(e, AppendEvents(h, es))
    decreases |es|
  {
    if es == [] {
      assert es + [e] == [e] && [e][1..] == [];
    } else {
      assert (es + [e])[0] == es[0] && (es + [e])[1..] == es[1..] + [e];
      AppendEventsSnoc(PrependEvent(es[0], h), es[1..], e);
    }
  }

  /** After recording `es`, the history holds min(|h| + |es|, 50) entries and
      its i-th entry is the i-th most recently recorded event. */
  lemma {:induction false} AppendEventsNewestFirst(h: seq<HistoryEvent>, es: seq<HistoryEvent>)
    requires es != []
    ensures |AppendEvents(h, es)| == Min(|h| + |es|, HISTORY_LIMIT)
    ensures forall i :: 0 <= i < Min(|es|, HISTORY_LIMIT) ==>
      AppendEvents(h, es)[i] == es[|es| - 1 - i]
    decreases |es|
  {
    var init, last := es[..|es| - 1], es[|es| - 1];
    assert es == init + [last];
    AppendEventsSnoc(h, init, last);
    var before := AppendEvents(h, init);
    var after := AppendEvents(h, es);
    assert after == PrependEvent(last, before);
    if init == [] {
      assert before == h;
    } else {
      AppendEventsNewestFirst(h, init);
      forall i | 1 <= i < Min(|es|, HISTORY_LIMIT)
        ensures after[i] == es[|es| - 1 - i]
      {
        assert after[i] == after[1..][i - 1] == before[i - 1];
        assert before[i - 1] == init[|init| - 1 - (i - 1)];
      }
    }
  }

  /** Once more than HISTORY_LIMIT distinct events have been recorded, the
      first of them is no longer in the history. */
  lemma OldestEvicted(h: seq<HistoryEvent>, es: seq<HistoryEvent>)
    requires |es| > HISTORY_LIMIT && Distinct(es)
    ensures |AppendEvents(h, es)| == HISTORY_LIMIT
    ensures es[0] !in AppendEvents(h, es)
  {
    AppendEventsNewestFirst(h, es);
  }
}
