/**
 Concrete calls of `show_graph`, showing how the guard on
 DataBaseLogic.py:86 and `float(...)` on lines 87-93 treat particular
 inputs. `parse` is any parser of decimal text that agrees with Python's
 `float` on the strings used.
 */
module Scenarios {
  import opened Wrappers
  import opened Receipts
  import opened Aggregation
  import opened Dashboard

  function Receipt(items: seq<Item>): Document
  {
    Document(true, Some(ItemList(items)))
  }

  /** Two receipts: "Food" bought for "10" and for 5, and a "Transport" item
      priced "bad". */
  function Groceries(): seq<Document>
  {
    [Receipt([Entry(Text("Food"), PriceText("10")), Entry(Text("Food"), Number(5.0))]),
     Receipt([Entry(Text("Transport"), PriceText("bad"))])]
  }

  lemma GroceriesVerdicts(parse: string -> Option<real>)
    requires parse("10") == Some(10.0) && parse("bad") == None
    ensures Stream(Groceries(), parse)
         == [Take("Food", 10.0), Take("Food", 5.0), Warn(Entry(Text("Transport"), PriceText("bad")))]
  {
    var docs := Groceries();
    var rows := Rows(docs);
    assert rows == [docs[0].items] + [docs[1].items];
    VerdictsAppend([rows[0]], [rows[1]], parse);
    VerdictsSingle(rows[0], parse);
    VerdictsSingle(rows[1], parse);
  }

  lemma GroceriesRun(bad: Item)
    ensures Run([Take("Food", 10.0), Take("Food", 5.0), Warn(bad)])
         == Running(map["Food" := 15.0], ["Food"], [bad])
  {
    var v1 := [Take("Food", 10.0), Take("Food", 5.0)];
    RunSnoc([], v1[0]);
    assert [v1[0]] + [v1[1]] == v1;
    RunSnoc([v1[0]], v1[1]);
    assert v1 + [Warn(bad)] == [Take("Food", 10.0), Take("Food", 5.0), Warn(bad)];
    RunSnoc(v1, Warn(bad));
  }

  /** On the two receipts the chart shows Food at 15; the bad price is warned
      about once and nothing else is lost. */
  lemma FoodAndTransport(parse: string -> Option<real>)
    requires parse("10") == Some(10.0) && parse("bad") == None
    ensures Show(Groceries(), parse)
         == Chart(["Food"], [15.0], [("Food", 15.0)], [Entry(Text("Transport"), PriceText("bad"))])
  {
    var bad := Entry(Text("Transport"), PriceText("bad"));
    GroceriesVerdicts(parse);
    GroceriesRun(bad);
    var out := Render(map["Food" := 15.0], ["Food"], [bad]);
    assert out.sizes == [15.0] && out.table == [("Food", 15.0)];
  }

  /** A price of None, "", 0 or False is skipped by the guard, silently. */
  lemma FalsyPriceSkipped(c: string, p: Price, parse: string -> Option<real>)
    requires p in {NoPrice, PriceText(""), Number(0.0), Flag(false)}
    ensures Show([Receipt([Entry(Text(c), p)])], parse) == NoCategoryData([])
  {
    var docs := [Receipt([Entry(Text(c), p)])];
    assert Rows(docs) == [docs[0].items];
    VerdictsSingle(docs[0].items, parse);
    assert Verdicts(Rows(docs), parse) == [Ignore];
    RunSnoc([], Ignore);
  }

  /** The text "0" is truthy, so it is parsed and creates its category at 0,
      whereas the number 0 is falsy and leaves no entry (FalsyPriceSkipped). */
  lemma ZeroTextCounts(parse: string -> Option<real>)
    requires parse("0") == Some(0.0)
    ensures Show([Receipt([Entry(Text("Food"), PriceText("0"))])], parse)
         == Chart(["Food"], [0.0], [("Food", 0.0)], [])
  {
    var docs := [Receipt([Entry(Text("Food"), PriceText("0"))])];
    assert Rows(docs) == [docs[0].items];
    VerdictsSingle(docs[0].items, parse);
    assert Verdicts(Rows(docs), parse) == [Take("Food", 0.0)];
    RunSnoc([], Take("Food", 0.0));
  }

  /** A category made of blanks is a non-empty str, so it is accepted as it is. */
  lemma BlankCategoryAccepted(parse: string -> Option<real>)
    ensures Show([Receipt([Entry(Text(" "), Number(3.0))])], parse)
         == Chart([" "], [3.0], [(" ", 3.0)], [])
  {
    var docs := [Receipt([Entry(Text(" "), Number(3.0))])];
    assert Rows(docs) == [docs[0].items];
    VerdictsSingle(docs[0].items, parse);
    assert Verdicts(Rows(docs), parse) == [Take(" ", 3.0)];
    RunSnoc([], Take(" ", 3.0));
  }

  /** Non-empty text that parses to a non-zero amount contributes exactly as
      that amount given as a number. */
  lemma TextPriceMatchesNumber(category: Category, s: string, x: real, parse: string -> Option<real>)
    requires s != "" && parse(s) == Some(x) && x != 0.0
    ensures Classify(Entry(category, PriceText(s)), parse) == Classify(Entry(category, Number(x)), parse)
  {
  }

  /** A list element that is not a dict makes the whole call fail, even after valid items. */
  lemma NonDictItemFails(parse: string -> Option<real>)
    ensures Show([Receipt([Entry(Text("Food"), Number(2.0)), NotMapping])], parse) == Failed([])
  {
    var docs := [Receipt([Entry(Text("Food"), Number(2.0)), NotMapping])];
    assert Rows(docs) == [docs[0].items];
    VerdictsSingle(docs[0].items, parse);
    assert Verdicts(Rows(docs), parse) == [Take("Food", 2.0), Crash];
    assert [] + [Take("Food", 2.0)] == [Take("Food", 2.0)];
    RunSnoc([], Take("Food", 2.0));
    assert [Take("Food", 2.0)] + [Crash] == [Take("Food", 2.0), Crash];
    RunSnoc([Take("Food", 2.0)], Crash);
    assert Run([Take("Food", 2.0), Crash]) == Crashed([]);
  }
}
