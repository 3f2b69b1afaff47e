/**
 * The reducer behind `CapoeiraService.mergeResults` (capoeira.py): a
 * settled DeferredList is a sequence of (success flag, payload) pairs; the
 * `resultsPage.results` of every successful payload is collected, and every
 * event of every result that has an `event` entry is stored under its `id`,
 * a later event replacing an earlier one with the same id.
 */
module Merge {
  import opened Wrappers
  import opened Data

  /** What a settled DeferredList delivers: one (succeeded, payload) pair per deferred. */
  type Batch = seq<(bool, Json)>

  /** The merged dictionary, from event id to event. */
  type EventMap = map<Json, Json>

  /** `payload['resultsPage']['results']`. */
  function ResultsOf(payload: Json): Result<Json, Error>
  {
    var page :- Index(payload, "resultsPage");
    Index(page, "results")
  }

  /**
   * The list comprehension over the batch: the results of the entries whose
   * flag is True, in batch order; it raises on the first successful payload
   * without results.
   */
  function SuccessfulResults(batch: Batch): (r: Result<seq<Json>, Error>)
    ensures r.Success? ==> |r.value| <= |batch|
    decreases |batch|
  {
    if batch == [] then Success([])
    else if batch[0].0 then
      var first :- ResultsOf(batch[0].1);
      var rest :- SuccessfulResults(batch[1..]);
      Success([first] + rest)
    else SuccessfulResults(batch[1..])
  }

  /** `t` occurs in `s` as a contiguous piece. */
  predicate IsSubstring(t: string, s: string)
    decreases |s|
  {
    |t| <= |s| && (s[..|t|] == t || IsSubstring(t, s[1..]))
  }

  /**
   * `'event' in result`: a key test on a dictionary, an element test on a
   * list, a substring test on a string; TypeError on anything else.
   */
  function HasEvents(result: Json): Result<bool, Error>
  {
    match result
    case JObj(fields) => Success("event" in fields)
    case JArr(items) => Success(JStr("event") in items)
    case JStr(s) => Success(IsSubstring("event", s))
    case _ => Failure(TypeError)
  }

  /**
   * What `for event in result['event']` visits, as far as the loop body can
   * get: the items of a list. Iterating a non-empty dictionary or string
   * yields strings, and `event['id']` on a string raises TypeError; an empty
   * one yields nothing; anything else is not iterable.
   */
  function EventList(v: Json): Result<seq<Json>, Error>
  {
    match v
    case JArr(items) => Success(items)
    case JObj(fields) => if fields == map[] then Success([]) else Failure(TypeError)
    case JStr(s) => if s == "" then Success([]) else Failure(TypeError)
    case _ => Failure(TypeError)
  }

  /** The events a result contributes: none without an `event` entry. */
  function EventsOf(result: Json): Result<seq<Json>, Error>
  {
    var has :- HasEvents(result);
    if has then
      var v :- Index(result, "event");
      EventList(v)
    else Success([])
  }

  /** `event['id']`, which must be hashable to be a dictionary key. */
  function IdOf(event: Json): Result<Json, Error>
  {
    var id :- Index(event, "id");
    if id.JArr? || id.JObj? then Failure(TypeError) else Success(id)
  }

  /** The inner loop: `merged.update({event['id']: event})` for each event in turn. */
  function FoldEvents(m: EventMap, events: seq<Json>): Result<EventMap, Error>
    decreases |events|
  {
    if events == [] then Success(m)
    else
      var id :- IdOf(events[0]);
      FoldEvents(m[id := events[0]], events[1..])
  }

  /** The outer loop over the collected results. */
  function FoldResults(m: EventMap, results: seq<Json>): Result<EventMap, Error>
    decreases |results|
  {
    if results == [] then Success(m)
    else
      var events :- EventsOf(results[0]);
      var m' :- FoldEvents(m, events);
      FoldResults(m', results[1..])
  }

  /** `mergeResults(results)`: the dictionary it returns, or the exception it raises. */
  function MergeSpec(batch: Batch): Result<EventMap, Error>
  {
    var results :- SuccessfulResults(batch);
    FoldResults(map[], results)
  }

  /** Every event of the given results, in result order then event order. */
  function AllEvents(results: seq<Json>): Result<seq<Json>, Error>
    decreases |results|
  {
    if results == [] then Success([])
    else
      var events :- EventsOf(results[0]);
      var rest :- AllEvents(results[1..]);
      Success(events + rest)
  }

  /** Every event of the successful results of a batch, in the order the loops visit them. */
  function MergedEvents(batch: Batch): Result<seq<Json>, Error>
  {
    var results :- SuccessfulResults(batch);
    AllEvents(results)
  }

  // ---------------------------------------------------------------------
  // The fold over events.

  /** Folding two runs of events is folding the first, then the second. */
  lemma {:induction false} FoldEventsAppend(m: EventMap, a: seq<Json>, b: seq<Json>)
    ensures FoldEvents(m, a + b)
         == (match FoldEvents(m, a) case Success(m') => FoldEvents(m', b) case Failure(e) => Failure(e))
    decreases |a|
  {
    if a == [] {
      assert a + b == b;
    } else {
      assert (a + b)[0] == a[0];
      assert (a + b)[1..] == a[1..] + b;
      if IdOf(a[0]).Success? {
        FoldEventsAppend(m[IdOf(a[0]).value := a[0]], a[1..], b);
      }
    }
  }

  /**
   * After a successful fold every event had an id, the keys are the
   * starting keys plus those ids, and an id maps to the last event that
   * carries it (the starting value when no event does).
   */
  lemma {:induction false} FoldEventsValue(m: EventMap, events: seq<Json>, k: Json)
    requires FoldEvents(m, events).Success?
    ensures forall i :: 0 <= i < |events| ==> IdOf(events[i]).Success?
    ensures k in FoldEvents(m, events).value <==>
      k in m || exists i :: 0 <= i < |events| && IdOf(events[i]) == Success(k)
    ensures (exists i :: 0 <= i < |events| && IdOf(events[i]) == Success(k)) ==>
      exists i :: (0 <= i < |events| && IdOf(events[i]) == Success(k)
        && FoldEvents(m, events).value[k] == events[i]
        && forall j :: i < j < |events| ==> IdOf(events[j]) != Success(k))
    ensures (forall i :: 0 <= i < |events| ==> IdOf(events[i]) != Success(k)) && k in m ==>
      FoldEvents(m, events).value[k] == m[k]
    decreases |events|
  {
    if events != [] {
      var id := IdOf(events[0]).value;
      var m' := m[id := events[0]];
      var rest := events[1..];
      FoldEventsValue(m', rest, k);
      assert FoldEvents(m, events) == FoldEvents(m', rest);
      forall i | 0 <= i < |events| ensures IdOf(events[i]).Success? {
        if i > 0 {
          assert events[i] == rest[i - 1];
        }
      }
      if exists i :: 0 <= i < |rest| && IdOf(rest[i]) == Success(k) {
        var i :| 0 <= i < |rest| && IdOf(rest[i]) == Success(k)
          && FoldEvents(m', rest).value[k] == rest[i]
          && forall j :: i < j < |rest| ==> IdOf(rest[j]) != Success(k);
        assert events[i + 1] == rest[i];
        forall j | i + 1 < j < |events| ensures IdOf(events[j]) != Success(k) {
          assert events[j] == rest[j - 1];
        }
      } else if id == k {
        forall j | 0 < j < |events| ensures IdOf(events[j]) != Success(k) {
          assert events[j] == rest[j - 1];
        }
      } else {
        forall i | 0 <= i < |events| ensures IdOf(events[i]) != Success(k) {
          if i > 0 {
            assert events[i] == rest[i - 1];
          }
        }
      }
    }
  }

  /** The fold over events fails exactly when some event has no usable id. */
  lemma {:induction false} FoldEventsSucceeds(m: EventMap, events: seq<Json>)
    ensures FoldEvents(m, events).Success? <==> forall i :: 0 <= i < |events| ==> IdOf(events[i]).Success?
    decreases |events|
  {
    if events != [] {
      if IdOf(events[0]).Success? {
        FoldEventsSucceeds(m[IdOf(events[0]).value := events[0]], events[1..]);
        assert forall i :: 1 <= i < |events| ==> events[i] == events[1..][i - 1];
      }
    }
  }

  // ---------------------------------------------------------------------
  // The fold over results.

  /** The fold over results is the fold over all their events, whenever it succeeds. */
  lemma {:induction false} FoldResultsFlat(m: EventMap, results: seq<Json>)
    requires FoldResults(m, results).Success?
    ensures AllEvents(results).Success?
    ensures FoldResults(m, results) == FoldEvents(m, AllEvents(results).value)
    decreases |results|
  {
    if results != [] {
      var events := EventsOf(results[0]).value;
      var m' := FoldEvents(m, events).value;
      FoldResultsFlat(m', results[1..]);
      FoldEventsAppend(m, events, AllEvents(results[1..]).value);
    }
  }

  /** A result without an `event` entry changes nothing. */
  lemma {:induction false} FoldResultsSkips(m: EventMap, a: seq<Json>, r: Json, b: seq<Json>)
    requires HasEvents(r) == Success(false)
    ensures FoldResults(m, a + [r] + b) == FoldResults(m, a + b)
    decreases |a|
  {
    if a == [] {
      assert a + [r] + b == [r] + b;
      assert ([r] + b)[1..] == b;
      assert a + b == b;
      assert FoldEvents(m, []) == Success(m);
    } else {
      assert (a + [r] + b)[0] == a[0] && (a + b)[0] == a[0];
      assert (a + [r] + b)[1..] == a[1..] + [r] + b;
      assert (a + b)[1..] == a[1..] + b;
      if EventsOf(a[0]).Success? && FoldEvents(m, EventsOf(a[0]).value).Success? {
        FoldResultsSkips(FoldEvents(m, EventsOf(a[0]).value).value, a[1..], r, b);
      }
    }
  }

  /** A batch entry whose flag is not True contributes nothing. */
  lemma {:induction false} SuccessfulResultsSkipFailures(a: Batch, p: Json, b: Batch)
    ensures SuccessfulResults(a + [(false, p)] + b) == SuccessfulResults(a + b)
    decreases |a|
  {
    if a == [] {
      assert a + [(false, p)] + b == [(false, p)] + b;
      assert ([(false, p)] + b)[1..] == b;
      assert a + b == b;
    } else {
      assert (a + [(false, p)] + b)[0] == a[0] && (a + b)[0] == a[0];
      assert (a + [(false, p)] + b)[1..] == a[1..] + [(false, p)] + b;
      assert (a + b)[1..] == a[1..] + b;
      SuccessfulResultsSkipFailures(a[1..], p, b);
    }
  }

  // ---------------------------------------------------------------------
  // `mergeResults`.

  /** `mergeResults` ignores every entry of the batch whose flag is not True. */
  lemma MergeIgnoresFailedEntries(a: Batch, p: Json, b: Batch)
    ensures MergeSpec(a + [(false, p)] + b) == MergeSpec(a + b)
  {
    SuccessfulResultsSkipFailures(a, p, b);
  }

  /** `mergeResults` ignores every successful result without an `event` entry. */
  lemma MergeIgnoresResultsWithoutEvents(a: Batch, p: Json, b: Batch)
    requires ResultsOf(p).Success? && HasEvents(ResultsOf(p).value) == Success(false)
    ensures MergeSpec(a + [(true, p)] + b) == MergeSpec(a + b)
  {
    assert a + [(true, p)] + b == a + ([(true, p)] + b);
    SuccessfulResultsAppend(a, [(true, p)] + b);
    SuccessfulResultsAppend([(true, p)], b);
    SuccessfulResultsAppend(a, b);
    assert SuccessfulResults([(true, p)]) == Success([ResultsOf(p).value]) by {
      assert [(true, p)][1..] == [];
      assert SuccessfulResults([]) == Success([]);
      assert [ResultsOf(p).value] + [] == [ResultsOf(p).value];
    }
    if SuccessfulResults(a).Success? && SuccessfulResults(b).Success? {
      var ra := SuccessfulResults(a).value;
      var rb := SuccessfulResults(b).value;
      assert ra + ([ResultsOf(p).value] + rb) == ra + [ResultsOf(p).value] + rb;
      FoldResultsSkips(map[], ra, ResultsOf(p).value, rb);
    }
  }

  /** Collecting the results of two runs of entries collects each in turn; the first failure wins. */
  lemma {:induction false} SuccessfulResultsAppend(a: Batch, b: Batch)
    ensures SuccessfulResults(a + b)
         == (match SuccessfulResults(a)
             case Failure(e) => Failure(e)
             case Success(ra) =>
               match SuccessfulResults(b)
               case Failure(e) => Failure(e)
               case Success(rb) => Success(ra + rb))
    decreases |a|
  {
    if a == [] {
      assert a + b == b;
      if SuccessfulResults(b).Success? {
        assert [] + SuccessfulResults(b).value == SuccessfulResults(b).value;
      }
    } else {
      assert (a + b)[0] == a[0];
      assert (a + b)[1..] == a[1..] + b;
      SuccessfulResultsAppend(a[1..], b);
      if a[0].0 && ResultsOf(a[0].1).Success? && SuccessfulResults(a[1..]).Success?
         && SuccessfulResults(b).Success? {
        var first := ResultsOf(a[0].1).value;
        var ra := SuccessfulResults(a[1..]).value;
        var rb := SuccessfulResults(b).value;
        assert [first] + (ra + rb) == ([first] + ra) + rb;
      }
    }
  }

  /**
   * The keys of the merged dictionary are exactly the ids of the events of
   * the successful results, and each id maps to the last of those events
   * that carries it.
   */
  lemma MergeKeysAreLastEvents(batch: Batch, k: Json)
    requires MergeSpec(batch).Success?
    ensures MergedEvents(batch).Success?
    ensures var events := MergedEvents(batch).value;
      && (k in MergeSpec(batch).value <==> exists i :: 0 <= i < |events| && IdOf(events[i]) == Success(k))
      && (k in MergeSpec(batch).value ==>
            exists i :: (0 <= i < |events| && IdOf(events[i]) == Success(k)
              && MergeSpec(batch).value[k] == events[i]
              && forall j :: i < j < |events| ==> IdOf(events[j]) != Success(k)))
  {
    var results := SuccessfulResults(batch).value;
    FoldResultsFlat(map[], results);
    FoldEventsValue(map[], AllEvents(results).value, k);
  }

  /** Every value of the merged dictionary is an event carrying its key as `id`. */
  lemma MergeValuesCarryTheirId(batch: Batch, k: Json)
    requires MergeSpec(batch).Success? && k in MergeSpec(batch).value
    ensures IdOf(MergeSpec(batch).value[k]) == Success(k)
  {
    MergeKeysAreLastEvents(batch, k);
  }
}
