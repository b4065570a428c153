/**
 `show_graph` (DataBaseLogic.py:52-131) after the documents are fetched:
 the two early exits, the aggregation loop, and what is handed to the chart
 and the summary table.

 `Show` is the specification: it reads the outcome off the fold `Run` of
 module Aggregation. `ShowGraph` is the routine itself, a loop over the rows
 with an inner loop over each row's items that updates a dictionary, its key
 order and a warning log in place; its postcondition is `Show`. The lemmas
 after it say what `Show` means for the caller.
 */
module Dashboard {
  import opened Wrappers
  import opened Receipts
  import opened Aggregation

  /** How one call ends. */
  datatype Outcome =
    | NoData                                 // nothing fetched: "No data available in the collection."
    | EmptyFrame                             // the table has no columns: "No valid data to display."
    | NoCategoryData(warnings: seq<Item>)    // no item accepted: "No valid category data to display."
    | Chart(labels: seq<string>, sizes: seq<real>, table: seq<(string, real)>, warnings: seq<Item>)
    | Failed(warnings: seq<Item>)            // an exception other than ValueError reached the outer handler

  /** The chart's labels and sizes, and the rows of the summary table, from the dictionary and its key order. */
  function Render(totals: map<string, real>, order: seq<string>, warnings: seq<Item>): (out: Outcome)
    requires forall k :: 0 <= k < |order| ==> order[k] in totals
    ensures out.Chart? && out.labels == order && out.warnings == warnings
    ensures |out.sizes| == |out.table| == |order|
    ensures forall k :: 0 <= k < |order| ==>
              out.sizes[k] == totals[order[k]] && out.table[k] == (order[k], out.sizes[k])
  {
    var sizes := seq(|order|, k requires 0 <= k < |order| => totals[order[k]]);
    Chart(order, sizes, seq(|order|, k requires 0 <= k < |order| => (order[k], sizes[k])), warnings)
  }

  /** The verdicts on every item of the fetched documents, in processing order. */
  function Stream(docs: seq<Document>, parse: string -> Option<real>): seq<Verdict>
  {
    Verdicts(Rows(docs), parse)
  }

  /** The outcome of `show_graph` on the fetched documents. */
  function Show(docs: seq<Document>, parse: string -> Option<real>): (out: Outcome)
    ensures out == NoData <==> |docs| == 0
    ensures out == EmptyFrame <==> |docs| > 0 && FrameEmpty(docs)
  {
    if |docs| == 0 then NoData
    else if FrameEmpty(docs) then EmptyFrame
    else
      var vs := Stream(docs, parse);
      RunWellFormed(vs);
      match Run(vs)
      case Crashed(w) => Failed(w)
      case Running(totals, order, w) =>
        if |totals| == 0 then NoCategoryData(w) else Render(totals, order, w)
  }

  /** The verdicts of all rows, split around row `i`. */
  lemma VerdictsAround(rows: seq<Option<ItemsValue>>, i: nat, parse: string -> Option<real>)
    requires i < |rows|
    ensures Verdicts(rows, parse)
         == Verdicts(rows[..i], parse) + RowVerdicts(rows[i], parse) + Verdicts(rows[i + 1..], parse)
  {
    assert rows[..i + 1] + rows[i + 1..] == rows;
    VerdictsAppend(rows[..i + 1], rows[i + 1..], parse);
    VerdictsSnoc(rows, i, parse);
  }

  /** Once the rows up to and including row `i` have stopped the run, the
      rows after it change nothing. */
  lemma CrashEndsRun(rows: seq<Option<ItemsValue>>, i: nat, parse: string -> Option<real>)
    requires i < |rows|
    requires Run(Verdicts(rows[..i + 1], parse)).Crashed?
    ensures Run(Verdicts(rows, parse)) == Run(Verdicts(rows[..i + 1], parse))
  {
    assert rows[..i + 1] + rows[i + 1..] == rows;
    VerdictsAppend(rows[..i + 1], rows[i + 1..], parse);
    CrashSticks(Verdicts(rows[..i + 1], parse), Verdicts(rows[i + 1..], parse));
  }

  /** One more verdict of a list, after the verdicts `seen` of the rows before it. */
  lemma PrefixStep(seen: seq<Verdict>, its: seq<Verdict>, j: nat)
    requires j < |its|
    ensures Run(seen + its[..j + 1]) == Step(Run(seen + its[..j]), its[j])
    ensures seen + its == (seen + its[..j + 1]) + its[j + 1..]
  {
    assert its == its[..j + 1] + its[j + 1..];
    assert seen + its[..j + 1] == (seen + its[..j]) + [its[j]];
    RunSnoc(seen + its[..j], its[j]);
  }

  /** The body of the inner loop (DataBaseLogic.py:83-93) on one element of
      an `items` list: `failed` when it raises an exception other than
      ValueError, which leaves the loop. */
  method AddItem(totals: map<string, real>, order: seq<string>, log: seq<Item>, item: Item, parse: string -> Option<real>)
    returns (failed: bool, totals': map<string, real>, order': seq<string>, log': seq<Item>)
    ensures failed <==> Classify(item, parse) == Crash
    ensures failed ==> log' == log
    ensures !failed ==> Step(Running(totals, order, log), Classify(item, parse)) == Running(totals', order', log')
  {
    failed, totals', order', log' := false, totals, order, log;
    match item {
      case NotMapping =>
        // `item.get` raises AttributeError
        failed := true;
      case Entry(category, price) =>
        if category.Text? && category.name != "" && Truthy(price) {
          var conversion := ToFloat(price, parse);
          match conversion {
            case Converted(x) =>
              var c := category.name;
              if c !in totals {
                order' := order + [c];
              }
              totals' := totals[c := (if c in totals then totals[c] else 0.0) + x];
            case ValueError =>
              log' := log + [item];
            case TypeError =>
              failed := true;
          }
        }
    }
  }

  /** The inner loop (DataBaseLogic.py:83-93) over one `items` list, after
      the verdicts `seen` have brought the state to `totals`, `order` and
      `log`: `failed` when an element raises an exception other than
      ValueError, which leaves both loops. */
  method AddItems(totals: map<string, real>, order: seq<string>, log: seq<Item>, xs: seq<Item>,
                  parse: string -> Option<real>, ghost seen: seq<Verdict>)
    returns (failed: bool, totals': map<string, real>, order': seq<string>, log': seq<Item>)
    requires Run(seen) == Running(totals, order, log)
    ensures failed ==> Run(seen + ItemVerdicts(xs, parse)) == Crashed(log')
    ensures !failed ==> Run(seen + ItemVerdicts(xs, parse)) == Running(totals', order', log')
  {
    ghost var its := ItemVerdicts(xs, parse);
    failed, totals', order', log' := false, totals, order, log;
    var j := 0;
    assert seen + its[..0] == seen;
    while j < |xs|
      invariant j <= |xs|
      invariant Run(seen + its[..j]) == Running(totals', order', log')
    {
      assert its[j] == Classify(xs[j], parse);
      PrefixStep(seen, its, j);
      failed, totals', order', log' := AddItem(totals', order', log', xs[j], parse);
      if failed {
        CrashSticks(seen + its[..j + 1], its[j + 1..]);
        return;
      }
      j := j + 1;
    }
    assert its[..|xs|] == its;
  }

  /** `show_graph` from the fetched documents on: the early exits, the
      nested loops that fill `category_total`, and the hand-over to the
      chart and the table. */
  method ShowGraph(docs: seq<Document>, parse: string -> Option<real>) returns (out: Outcome)
    ensures out == Show(docs, parse)
  {
    if |docs| == 0 {
      return NoData;
    }
    if FrameEmpty(docs) {
      return EmptyFrame;
    }
    var rows := Rows(docs);
    var totals: map<string, real> := map[];
    var order: seq<string> := [];
    var log: seq<Item> := [];
    var i := 0;
    ghost var seen: seq<Verdict> := [];
    while i < |rows|
      invariant i <= |rows|
      invariant seen == Verdicts(rows[..i], parse)
      invariant Run(seen) == Running(totals, order, log)
    {
      VerdictsSnoc(rows, i, parse);
      var cell := rows[i];
      if cell.Some? && cell.value.ItemScalar? && cell.value.truthy {
        // iterating a value that is not a list raises TypeError
        RunSnoc(seen, Crash);
        CrashEndsRun(rows, i, parse);
        return Failed(log);
      } else if cell.Some? && cell.value.ItemList? {
        var failed;
        failed, totals, order, log := AddItems(totals, order, log, cell.value.entries, parse, seen);
        if failed {
          CrashEndsRun(rows, i, parse);
          return Failed(log);
        }
      } else {
        // no `items` column, or a falsy value: the row is skipped
        assert RowVerdicts(cell, parse) == [];
        assert seen + [] == seen;
      }
      seen := seen + RowVerdicts(cell, parse);
      i := i + 1;
    }
    assert rows[..|rows|] == rows;
    RunWellFormed(seen);
    if |totals| == 0 {
      return NoCategoryData(log);
    }
    out := Render(totals, order, log);
  }

  // ---------------------------------------------------------------------------
  // What the outcome means

  /** An exception other than ValueError anywhere in the loop ends the call
      with the error banner, after the warnings shown before it. */
  lemma ShowFails(docs: seq<Document>, parse: string -> Option<real>)
    requires |docs| > 0 && !FrameEmpty(docs)
    requires !CrashFree(Stream(docs, parse))
    ensures var vs := Stream(docs, parse); Show(docs, parse) == Failed(Warns(vs[..FirstCrash(vs)]))
  {
    RunCrashes(Stream(docs, parse));
  }

  /** Documents were fetched and the loop finished, but no item was accepted:
      the "no valid category data" outcome, with every ValueError warning. */
  lemma ShowNoCategories(docs: seq<Document>, parse: string -> Option<real>)
    requires |docs| > 0 && !FrameEmpty(docs)
    requires CrashFree(Stream(docs, parse))
    ensures var vs := Stream(docs, parse);
      Show(docs, parse).NoCategoryData? <==> Takes(vs) == []
    ensures var vs := Stream(docs, parse);
      Takes(vs) == [] ==> Show(docs, parse) == NoCategoryData(Warns(vs))
  {
    var vs := Stream(docs, parse);
    RunMeaning(vs);
    var t := Run(vs).totals;
    if Takes(vs) == [] {
      assert t.Keys == {};
    } else {
      assert Categories(Takes(vs))[0] in t;
    }
  }

  /** When some item was accepted, the chart's labels are the accepted
      categories, each once, by first accepted appearance; each size is the
      exact sum of that category's accepted prices; the table lists the same
      (category, total) pairs in the same order. */
  lemma ShowChart(docs: seq<Document>, parse: string -> Option<real>)
    requires |docs| > 0 && !FrameEmpty(docs)
    requires CrashFree(Stream(docs, parse)) && Takes(Stream(docs, parse)) != []
    ensures Show(docs, parse).Chart?
    ensures var out, vs := Show(docs, parse), Stream(docs, parse);
      && FirstAppearanceOrder(out.labels, Categories(Takes(vs)))
      && NoDup(out.labels)
      && |out.sizes| == |out.labels| && |out.table| == |out.labels|
      && (forall k :: 0 <= k < |out.labels| ==>
            out.sizes[k] == SumFor(Takes(vs), out.labels[k]) && out.table[k] == (out.labels[k], out.sizes[k]))
      && out.warnings == Warns(vs)
  {
    var vs := Stream(docs, parse);
    RunMeaning(vs);
    assert Categories(Takes(vs))[0] in Run(vs).totals;
  }

  /** An `items` cell that is absent, an empty list or falsy. */
  predicate Quiet(cell: Option<ItemsValue>)
  {
    cell == None || cell == Some(ItemList([])) || cell == Some(ItemScalar(false))
  }

  lemma {:induction false} QuietRows(rows: seq<Option<ItemsValue>>, parse: string -> Option<real>)
    requires forall k :: 0 <= k < |rows| ==> Quiet(rows[k])
    ensures Verdicts(rows, parse) == []
    decreases |rows|
  {
    if rows != [] {
      QuietRows(rows[..|rows| - 1], parse);
      VerdictsSnoc(rows, |rows| - 1, parse);
      assert rows[..|rows|] == rows;
    }
  }

  /** Documents that all lack `items`, or that all have an empty or falsy
      `items` value, give the "no valid category data" outcome, not the
      "no data" one. */
  lemma NoItemsAnywhere(docs: seq<Document>, parse: string -> Option<real>)
    requires |docs| > 0 && !FrameEmpty(docs)
    requires (forall k :: 0 <= k < |docs| ==> docs[k].items.None?)
          || (forall k :: 0 <= k < |docs| ==> docs[k].items.Some? && Quiet(docs[k].items))
    ensures Show(docs, parse) == NoCategoryData([])
  {
    var rows := Rows(docs);
    forall k | 0 <= k < |rows| ensures Quiet(rows[k]) {
      assert docs[k].items.Some? ==> rows[k] == docs[k].items;
    }
    QuietRows(rows, parse);
  }

  /** Once one document has `items`, a document without the field reaches the
      loop as NaN, and iterating it makes the whole call fail. */
  lemma MissingItemsFails(docs: seq<Document>, k: nat, parse: string -> Option<real>)
    requires k < |docs| && docs[k].items.None?
    requires HasItemsColumn(docs)
    ensures Show(docs, parse).Failed?
  {
    var rows := Rows(docs);
    var vs := Verdicts(rows, parse);
    assert !FrameEmpty(docs);
    assert rows[k] == Some(NaN);
    VerdictsAround(rows, k, parse);
    var a := Verdicts(rows[..k], parse);
    assert vs[|a|] == Crash;
    RunCrashes(vs);
  }
}
