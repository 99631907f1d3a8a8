/**
 * `DataHubLogConsumer`: the accumulator that receives each line the
 * ingestion container prints, reclassifies its stream, stores either the
 * structured outputs the line declares or the raw line under the next
 * numeric key, and counts stdout and stderr lines.
 */
module LogConsumer {
  import opened Values
  import opened JavaText

  /** The marker that sends a line to stdout whatever stream it came from. */
  const InfoMarker := "INFO"

  /**
   * `PluginUtilsService.parseOut` bound to the consumer's run context: the
   * outputs a line declares, given the line and its (reclassified) stream.
   * Its parsing rules are not part of this model.
   */
  type Parser = (string, bool) -> Document

  /** A timestamp, as carried by the three-argument `accept`. */
  datatype Instant = Instant(epochSecond: int, nano: nat)

  /** One call of `accept`: the line and the `Boolean isStdErr` argument, which may be null. */
  datatype Delivery = Delivery(line: string, isStdErr: Option<bool>)

  /** `isStdErr` is unboxed only when the line lacks the marker; then it must not be null. */
  predicate Deliverable(d: Delivery)
  {
    Contains(d.line, InfoMarker) || d.isStdErr.Some?
  }

  predicate AllDeliverable(ds: seq<Delivery>)
  {
    forall i :: 0 <= i < |ds| ==> Deliverable(ds[i])
  }

  /** The stream the line is counted on, after the marker overrides the declared one. */
  function StdErrAfterReclassify(d: Delivery): (stdErr: bool)
    requires Deliverable(d)
    ensures stdErr <==> d.isStdErr == Some(true) && !Contains(d.line, InfoMarker)
  {
    if Contains(d.line, InfoMarker) then false else d.isStdErr.value
  }

  /** What the consumer has accumulated: the fields `accept` updates. */
  datatype Accumulated = Accumulated(outputs: Document, counter: nat, stdOutCount: nat, stdErrCount: nat)

  /** A fresh consumer: no outputs, every counter at zero. */
  const Empty := Accumulated(map[], 0, 0, 0)

  /** The effect of one `accept` call on the accumulated state. */
  function Consume(parse: Parser, acc: Accumulated, d: Delivery): (next: Accumulated)
    requires Deliverable(d)
    ensures next.stdOutCount + next.stdErrCount == acc.stdOutCount + acc.stdErrCount + 1
    ensures acc.counter <= next.counter <= acc.counter + 1
    ensures acc.outputs.Keys <= next.outputs.Keys
  {
    var stdErr := StdErrAfterReclassify(d);
    var parsed := parse(d.line, stdErr);
    var stored :=
      if |parsed| == 0 then
        acc.(outputs := acc.outputs[DecimalString(acc.counter + 1) := Str(d.line)], counter := acc.counter + 1)
      else
        acc.(outputs := acc.outputs + parsed);
    if stdErr then stored.(stdErrCount := stored.stdErrCount + 1)
    else stored.(stdOutCount := stored.stdOutCount + 1)
  }

  /** The state of a fresh consumer after the deliveries `ds`, in order. */
  function Replay(parse: Parser, ds: seq<Delivery>): Accumulated
    requires AllDeliverable(ds)
  {
    if |ds| == 0 then Empty else Consume(parse, Replay(parse, ds[..|ds| - 1]), ds[|ds| - 1])
  }

  // ---------------------------------------------------------------------
  // Reference definitions the replayed state is compared with.
  // ---------------------------------------------------------------------

  /** The number of deliveries declared stderr whose text lacks the marker. */
  function ErrorLines(ds: seq<Delivery>): nat
  {
    if |ds| == 0 then 0
    else
      var d := ds[|ds| - 1];
      ErrorLines(ds[..|ds| - 1]) + (if !Contains(d.line, InfoMarker) && d.isStdErr == Some(true) then 1 else 0)
  }

  /** The lines the parser declares nothing for, in delivery order. */
  function Unstructured(parse: Parser, ds: seq<Delivery>): seq<string>
    requires AllDeliverable(ds)
  {
    if |ds| == 0 then []
    else
      var d := ds[|ds| - 1];
      Unstructured(parse, ds[..|ds| - 1]) + (if |parse(d.line, StdErrAfterReclassify(d))| == 0 then [d.line] else [])
  }

  /** The parser never declares an output whose key is a numeral. */
  predicate NoNumeralKeys(parse: Parser, ds: seq<Delivery>)
    requires AllDeliverable(ds)
  {
    forall i, key :: 0 <= i < |ds| && key in parse(ds[i].line, StdErrAfterReclassify(ds[i])) ==> !IsNumeral(key)
  }

  // ---------------------------------------------------------------------
  // Properties of a sequence of accept calls.
  // ---------------------------------------------------------------------

  /** Every call increments exactly one of the two line counters. */
  lemma {:induction false} EveryLineCountedOnce(parse: Parser, ds: seq<Delivery>)
    requires AllDeliverable(ds)
    ensures Replay(parse, ds).stdOutCount + Replay(parse, ds).stdErrCount == |ds|
  {
    if |ds| > 0 {
      EveryLineCountedOnce(parse, ds[..|ds| - 1]);
    }
  }

  /**
   * The stderr counter counts exactly the lines declared stderr that lack
   * the marker; every other line, including a stderr line mentioning INFO,
   * is counted on stdout.
   */
  lemma {:induction false} StdErrCountsUnmarkedErrorLines(parse: Parser, ds: seq<Delivery>)
    requires AllDeliverable(ds)
    ensures Replay(parse, ds).stdErrCount == ErrorLines(ds)
    ensures Replay(parse, ds).stdOutCount == |ds| - ErrorLines(ds)
  {
    if |ds| > 0 {
      StdErrCountsUnmarkedErrorLines(parse, ds[..|ds| - 1]);
    }
  }

  /** A line the parser declares nothing for is stored under the next numeral. */
  lemma ConsumeUnstructured(parse: Parser, acc: Accumulated, d: Delivery)
    requires Deliverable(d) && |parse(d.line, StdErrAfterReclassify(d))| == 0
    ensures Consume(parse, acc, d).counter == acc.counter + 1
    ensures Consume(parse, acc, d).outputs == acc.outputs[DecimalString(acc.counter + 1) := Str(d.line)]
  {
  }

  /** A line the parser declares outputs for merges them, last write winning. */
  lemma ConsumeStructured(parse: Parser, acc: Accumulated, d: Delivery)
    requires Deliverable(d) && |parse(d.line, StdErrAfterReclassify(d))| != 0
    ensures Consume(parse, acc, d).counter == acc.counter
    ensures Consume(parse, acc, d).outputs == acc.outputs + parse(d.line, StdErrAfterReclassify(d))
  {
  }

  /** Any state that differs from `acc` as one `accept` call prescribes is the `Consume` step. */
  lemma ConsumeFields(parse: Parser, acc: Accumulated, d: Delivery, next: Accumulated)
    requires Deliverable(d)
    requires var stdErr := StdErrAfterReclassify(d); var parsed := parse(d.line, stdErr);
      && (|parsed| == 0 ==> next.counter == acc.counter + 1 && next.outputs == acc.outputs[DecimalString(next.counter) := Str(d.line)])
      && (|parsed| != 0 ==> next.counter == acc.counter && next.outputs == acc.outputs + parsed)
      && next.stdErrCount == acc.stdErrCount + (if stdErr then 1 else 0)
      && next.stdOutCount == acc.stdOutCount + (if stdErr then 0 else 1)
    ensures next == Consume(parse, acc, d)
  {
  }

  /** The first two synthetic keys. */
  lemma FirstKeys()
    ensures DecimalString(1) == "1" && DecimalString(2) == "2"
  {
  }

  /** Merging a one-entry map is an update. */
  lemma MergeOne(m: Document, k: string, v: Value)
    ensures m + map[k := v] == m[k := v]
  {
  }

  /** Both parts of a deliverable sequence are deliverable. */
  lemma DeliverableParts(xs: seq<Delivery>, ys: seq<Delivery>)
    requires AllDeliverable(xs + ys)
    ensures AllDeliverable(xs) && AllDeliverable(ys)
  {
    assert forall i :: 0 <= i < |xs| ==> xs[i] == (xs + ys)[i];
    assert forall i :: 0 <= i < |ys| ==> ys[i] == (xs + ys)[|xs| + i];
  }

  /** The counter never decreases as lines arrive. */
  lemma {:induction false} CounterMonotone(parse: Parser, ds: seq<Delivery>, more: seq<Delivery>)
    requires AllDeliverable(ds + more)
    ensures AllDeliverable(ds)
    ensures Replay(parse, ds).counter <= Replay(parse, ds + more).counter
    decreases |more|
  {
    DeliverableParts(ds, more);
    if |more| > 0 {
      var shorter, last := more[..|more| - 1], more[|more| - 1];
      assert ds + more == (ds + shorter) + [last];
      DeliverableParts(ds + shorter, [last]);
      CounterMonotone(parse, ds, shorter);
      ReplayAppend(parse, ds + shorter, last);
    } else {
      assert ds + more == ds;
    }
  }

  /**
   * `outputs` holds the k-th of the lines `raw` under `key(k)`, counting
   * from 1, and no `key(k)` beyond them.
   */
  ghost predicate NumberedBy(outputs: Document, raw: seq<string>, key: nat -> string)
  {
    && (forall k: nat :: 1 <= k <= |raw| ==> key(k) in outputs && outputs[key(k)] == Str(raw[k - 1]))
    && (forall k: nat :: k > |raw| ==> key(k) !in outputs)
  }

  /**
   * Synthetic keys are "1", "2", ... in the order unstructured lines arrive,
   * with no gaps and no repeats: the counter equals the number of
   * unstructured lines `raw`, the k-th of them is stored under
   * `String.valueOf(k)`, and no larger numeral is a key.
   */
  ghost predicate SyntheticKeysNumber(acc: Accumulated, raw: seq<string>)
  {
    acc.counter == |raw| && NumberedBy(acc.outputs, raw, DecimalString)
  }

  /** Storing one more line under the next key of an injective numbering extends it. */
  lemma NumberedByAppend(outputs: Document, raw: seq<string>, line: string, key: nat -> string)
    requires forall a: nat, b: nat :: a != b ==> key(a) != key(b)
    requires NumberedBy(outputs, raw, key)
    ensures NumberedBy(outputs[key(|raw| + 1) := Str(line)], raw + [line], key)
  {
  }

  /** Merging entries that use none of the keys leaves a numbering intact. */
  lemma NumberedByMerge(outputs: Document, raw: seq<string>, parsed: Document, key: nat -> string)
    requires forall k: nat :: k >= 1 ==> key(k) !in parsed
    requires NumberedBy(outputs, raw, key)
    ensures NumberedBy(outputs + parsed, raw, key)
  {
  }

  /** One `accept` call keeps the synthetic keys numbered when the line declares no numeral key. */
  lemma SyntheticKeysStep(parse: Parser, acc: Accumulated, raw: seq<string>, d: Delivery)
    requires Deliverable(d) && SyntheticKeysNumber(acc, raw)
    requires forall key :: key in parse(d.line, StdErrAfterReclassify(d)) ==> !IsNumeral(key)
    ensures var parsed := parse(d.line, StdErrAfterReclassify(d));
      SyntheticKeysNumber(Consume(parse, acc, d), raw + if |parsed| == 0 then [d.line] else [])
  {
    var parsed := parse(d.line, StdErrAfterReclassify(d));
    if |parsed| == 0 {
      ConsumeUnstructured(parse, acc, d);
      forall a: nat, b: nat | a != b ensures DecimalString(a) != DecimalString(b) {
        DecimalDistinct(a, b);
      }
      NumberedByAppend(acc.outputs, raw, d.line, DecimalString);
    } else {
      ConsumeStructured(parse, acc, d);
      forall k: nat | k >= 1 ensures DecimalString(k) !in parsed {
        assert IsNumeral(DecimalString(k));
      }
      NumberedByMerge(acc.outputs, raw, parsed, DecimalString);
      assert raw + [] == raw;
    }
  }

  /** The counter counts the unstructured lines, whatever keys the parser declares. */
  lemma {:induction false} CounterCountsUnstructuredLines(parse: Parser, ds: seq<Delivery>)
    requires AllDeliverable(ds)
    ensures Replay(parse, ds).counter == |Unstructured(parse, ds)|
  {
    if |ds| > 0 {
      var init := ds[..|ds| - 1];
      assert forall i :: 0 <= i < |init| ==> init[i] == ds[i];
      CounterCountsUnstructuredLines(parse, init);
    }
  }

  /**
   * Over a whole run, the unstructured lines are numbered 1, 2, ... with no
   * gaps or repeats, as long as the parser never declares a numeral key
   * itself (one that does overwrites a synthetic entry: last write wins).
   */
  lemma {:induction false} SyntheticKeysNumberUnstructuredLines(parse: Parser, ds: seq<Delivery>)
    requires AllDeliverable(ds)
    requires NoNumeralKeys(parse, ds)
    ensures SyntheticKeysNumber(Replay(parse, ds), Unstructured(parse, ds))
  {
    if |ds| > 0 {
      var init := ds[..|ds| - 1];
      var d := ds[|ds| - 1];
      assert forall i :: 0 <= i < |init| ==> init[i] == ds[i];
      SyntheticKeysNumberUnstructuredLines(parse, init);
      SyntheticKeysStep(parse, Replay(parse, init), Unstructured(parse, init), d);
    }
  }

  /** Delivering one more line applies one `Consume` step to the replayed state. */
  lemma ReplayAppend(parse: Parser, ds: seq<Delivery>, d: Delivery)
    requires AllDeliverable(ds) && Deliverable(d)
    ensures AllDeliverable(ds + [d])
    ensures Replay(parse, ds + [d]) == Consume(parse, Replay(parse, ds), d)
  {
    assert (ds + [d])[..|ds|] == ds;
  }

  /** Replaying three deliveries applies three `Consume` steps to a fresh state. */
  lemma ReplayThree(parse: Parser, d1: Delivery, d2: Delivery, d3: Delivery)
    requires Deliverable(d1) && Deliverable(d2) && Deliverable(d3)
    ensures AllDeliverable([d1, d2, d3])
    ensures Replay(parse, [d1, d2, d3]) == Consume(parse, Consume(parse, Consume(parse, Empty, d1), d2), d3)
  {
    var none: seq<Delivery> := [];
    ReplayAppend(parse, none, d1);
    assert none + [d1] == [d1];
    ReplayAppend(parse, [d1], d2);
    assert [d1] + [d2] == [d1, d2];
    ReplayAppend(parse, [d1, d2], d3);
    assert [d1, d2] + [d3] == [d1, d2, d3];
  }

  /**
   * A line declared stderr that mentions INFO is counted on stdout, and the
   * parser is asked about it as a stdout line.
   */
  lemma InfoLineCountedOnStdout(parse: Parser, ds: seq<Delivery>, line: string)
    requires AllDeliverable(ds) && Contains(line, InfoMarker)
    ensures AllDeliverable(ds + [Delivery(line, Some(true))])
    ensures !StdErrAfterReclassify(Delivery(line, Some(true)))
    ensures var before := Replay(parse, ds); var after := Replay(parse, ds + [Delivery(line, Some(true))]);
      after.stdErrCount == before.stdErrCount && after.stdOutCount == before.stdOutCount + 1
  {
    var all := ds + [Delivery(line, Some(true))];
    assert all[..|all| - 1] == ds;
  }

  /** The three `Consume` steps behind `OneStructuredTwoUnstructured`. */
  lemma ThreeSteps(parse: Parser, da: Delivery, db: Delivery, dc: Delivery, key: string, v: Value)
    requires da.isStdErr == db.isStdErr == dc.isStdErr == Some(false)
    requires parse(da.line, false) == map[] && parse(dc.line, false) == map[]
    requires parse(db.line, false) == map[key := v] && !IsNumeral(key)
    ensures var after := Consume(parse, Consume(parse, Consume(parse, Empty, da), db), dc);
      && after.outputs == map["1" := Str(da.line), key := v, "2" := Str(dc.line)]
      && |after.outputs| == 3
      && after.stdOutCount == 3 && after.stdErrCount == 0
  {
    assert !StdErrAfterReclassify(da) && !StdErrAfterReclassify(db) && !StdErrAfterReclassify(dc);
    var r0 := Empty;
    var r1 := Consume(parse, r0, da);
    var r2 := Consume(parse, r1, db);
    var r3 := Consume(parse, r2, dc);
    FirstKeys();
    assert r1.outputs == map["1" := Str(da.line)] && r1.counter == 1 by {
      ConsumeUnstructured(parse, r0, da);
      assert r0.outputs == map[] && r0.counter + 1 == 1;
    }
    assert r2.outputs == map["1" := Str(da.line), key := v] && r2.counter == 1 by {
      ConsumeStructured(parse, r1, db);
      MergeOne(r1.outputs, key, v);
    }
    assert r3.outputs == map["1" := Str(da.line), key := v, "2" := Str(dc.line)] by {
      ConsumeUnstructured(parse, r2, dc);
      assert r2.counter + 1 == 2;
    }
    assert |r3.outputs| == 3 by {
      assert key != "1" && key != "2" by {
        assert IsNumeral("1") && IsNumeral("2");
      }
      assert "1" != "2";
      assert r3.outputs.Keys == {"1", key, "2"};
    }
  }

  /**
   * An unstructured line, a line declaring output `key`, and another
   * unstructured line leave exactly the keys "1", `key` and "2", and three
   * lines counted on stdout.
   */
  lemma OneStructuredTwoUnstructured(parse: Parser, a: string, b: string, c: string, key: string, v: Value)
    requires parse(a, false) == map[] && parse(c, false) == map[]
    requires parse(b, false) == map[key := v] && !IsNumeral(key)
    ensures var ds := [Delivery(a, Some(false)), Delivery(b, Some(false)), Delivery(c, Some(false))];
      && AllDeliverable(ds)
      && var after := Replay(parse, ds);
      && after.outputs == map["1" := Str(a), key := v, "2" := Str(c)]
      && |after.outputs| == 3
      && after.stdOutCount == 3 && after.stdErrCount == 0
  {
    var da, db, dc := Delivery(a, Some(false)), Delivery(b, Some(false)), Delivery(c, Some(false));
    ThreeSteps(parse, da, db, dc, key, v);
    ReplayThree(parse, da, db, dc);
  }

  /**
   * The consumer the task hands to the Docker log stream. Its fields are
   * those `accept` changes; `delivered` records every call made so far.
   */
  class DataHubLogConsumer {
    const parse: Parser
    var outputs: Document
    var counter: nat
    var stdOutCount: nat
    var stdErrCount: nat
    ghost var delivered: seq<Delivery>

    /** The fields hold exactly what replaying the calls made so far gives. */
    ghost predicate Valid()
      reads this
    {
      AllDeliverable(delivered) && State() == Replay(parse, delivered)
    }

    function State(): Accumulated
      reads this
    {
      Accumulated(outputs, counter, stdOutCount, stdErrCount)
    }

    /** The counter starts at 0; the inherited outputs and line counters start empty. */
    constructor (parse: Parser)
      ensures Valid()
      ensures this.parse == parse && delivered == []
      ensures outputs == map[] && counter == 0 && stdOutCount == 0 && stdErrCount == 0
    {
      this.parse := parse;
      outputs := map[];
      counter := 0;
      stdOutCount := 0;
      stdErrCount := 0;
      delivered := [];
    }

    /**
     * The invariant in the object's own terms: the line counters add up to
     * the number of calls, and the counter is the number of unstructured lines.
     */
    lemma CountsMatchCalls()
      requires Valid()
      ensures stdOutCount + stdErrCount == |delivered|
      ensures counter == |Unstructured(parse, delivered)|
    {
      EveryLineCountedOnce(parse, delivered);
      CounterCountsUnstructuredLines(parse, delivered);
    }

    /** `accept(String line, Boolean isStdErr)`. */
    method Accept(line: string, isStdErr: Option<bool>)
      requires Valid()
      requires Contains(line, InfoMarker) || isStdErr.Some?
      modifies this
      ensures Valid()
      ensures delivered == old(delivered) + [Delivery(line, isStdErr)]
      ensures var stdErr := if Contains(line, InfoMarker) then false else isStdErr.value;
        var parsed := parse(line, stdErr);
        && (|parsed| == 0 ==> counter == old(counter) + 1 && outputs == old(outputs)[DecimalString(counter) := Str(line)])
        && (|parsed| != 0 ==> counter == old(counter) && outputs == old(outputs) + parsed)
        && stdErrCount == old(stdErrCount) + (if stdErr then 1 else 0)
        && stdOutCount == old(stdOutCount) + (if stdErr then 0 else 1)
    {
      ghost var d := Delivery(line, isStdErr);
      ghost var before := State();
      var stdErr := isStdErr;
      if Contains(line, InfoMarker) {
        stdErr := Some(false);
      }
      assert stdErr.value == StdErrAfterReclassify(d);
      var parsed := parse(line, stdErr.value);
      if |parsed| == 0 {
        counter := counter + 1;
        outputs := outputs[DecimalString(counter) := Str(line)];
      } else {
        outputs := outputs + parsed;
      }

      if stdErr.value {
        stdErrCount := stdErrCount + 1;
      } else {
        stdOutCount := stdOutCount + 1;
      }

      ConsumeFields(parse, before, d, State());
      ReplayAppend(parse, delivered, d);
      delivered := delivered + [d];
    }

    /** `accept(String line, Boolean isStdErr, Instant instant)`: the instant is ignored. */
    method AcceptAt(line: string, isStdErr: Option<bool>, instant: Instant)
      requires Valid()
      requires Contains(line, InfoMarker) || isStdErr.Some?
      modifies this
      ensures Valid()
      ensures delivered == old(delivered) + [Delivery(line, isStdErr)]
      ensures State() == Consume(parse, old(State()), Delivery(line, isStdErr))
    {
      Accept(line, isStdErr);
    }
  }
}
