/**
 The per-category aggregation loop of `show_graph` (DataBaseLogic.py:76-93),
 as a specification.

 Every entry of every `items` list, in order, gets a `Verdict`: added to its
 category's total, skipped silently, skipped with a warning, or the end of
 the run through an exception the loop does not catch. `Run` folds the
 verdicts into the dictionary, its key order and the warning log, one step
 per verdict exactly as the loop body does. The reference definitions
 further down (`Takes`, `Warns`, `SumFor`, `IndexOf`) say what the result
 means without replaying the loop, and `RunMeaning` connects the two.
 */
module Aggregation {
  import opened Wrappers
  import opened Receipts

  /** What the loop does with one element of an `items` list. */
  datatype Verdict =
    | Take(category: string, amount: real)  // added to the category's running total
    | Ignore                                // dropped by the guard, without a word
    | Warn(item: Item)                      // float() raised ValueError: one warning, and on to the next
    | Crash                                 // any other exception: the whole run stops

  /** The guard of the loop body: a dict whose category is a non-empty str and whose price is truthy. */
  predicate PassesGuard(item: Item)
  {
    item.Entry? && item.category.Text? && item.category.name != "" && Truthy(item.price)
  }

  /** The guard and the conversion: the category must be a non-empty str and
      the price truthy; then float() decides. */
  function Classify(item: Item, parse: string -> Option<real>): Verdict
  {
    match item
    case NotMapping => Crash
    case Entry(category, price) =>
      if PassesGuard(item) then
        match ToFloat(price, parse)
        case Converted(x) => Take(category.name, x)
        case ValueError => Warn(item)
        case TypeError => Crash
      else Ignore
  }

  /** The verdict `Classify` gives, case by case: the guard, then float(). */
  lemma ClassifyCases(item: Item, parse: string -> Option<real>)
    // a dict the guard rejects is dropped, whatever its price
    ensures Classify(item, parse) == Ignore <==> item.Entry? && !PassesGuard(item)
    // an accepted item is added under its own category with the value float() gives
    ensures Classify(item, parse).Take? <==> PassesGuard(item) && ToFloat(item.price, parse).Converted?
    ensures Classify(item, parse).Take? ==>
      Classify(item, parse) == Take(item.category.name, ToFloat(item.price, parse).value)
    // ValueError is warned about with the offending item
    ensures Classify(item, parse) == Warn(item) <==> PassesGuard(item) && ToFloat(item.price, parse).ValueError?
    // a non-dict element or a TypeError ends the run
    ensures Classify(item, parse) == Crash <==>
      item.NotMapping? || (PassesGuard(item) && ToFloat(item.price, parse).TypeError?)
  {
  }

  /** The verdicts on the elements of one `items` list, in order. */
  function ItemVerdicts(xs: seq<Item>, parse: string -> Option<real>): (vs: seq<Verdict>)
    ensures |vs| == |xs|
  {
    seq(|xs|, k requires 0 <= k < |xs| => Classify(xs[k], parse))
  }

  /** The verdicts for one row: nothing when the `items` cell is absent or
      falsy, a crash when it is truthy but not a list. */
  function RowVerdicts(row: Option<ItemsValue>, parse: string -> Option<real>): seq<Verdict>
  {
    match row
    case None => []
    case Some(ItemList(xs)) => ItemVerdicts(xs, parse)
    case Some(ItemScalar(truthy)) => if truthy then [Crash] else []
  }

  /** The concatenation of a sequence of sequences. */
  function Flatten<T>(ss: seq<seq<T>>): seq<T>
    decreases |ss|
  {
    if ss == [] then [] else Flatten(ss[..|ss| - 1]) + ss[|ss| - 1]
  }

  /** The verdicts for each row. */
  function PerRow(rows: seq<Option<ItemsValue>>, parse: string -> Option<real>): (r: seq<seq<Verdict>>)
    ensures |r| == |rows|
  {
    seq(|rows|, k requires 0 <= k < |rows| => RowVerdicts(rows[k], parse))
  }

  /** The verdicts for a sequence of rows, in processing order. */
  function Verdicts(rows: seq<Option<ItemsValue>>, parse: string -> Option<real>): seq<Verdict>
  {
    Flatten(PerRow(rows, parse))
  }

  /** The state of the loop: the dictionary, the order in which its keys were
      inserted, and the warnings shown so far; or the run has stopped. */
  datatype Progress =
    | Running(totals: map<string, real>, order: seq<string>, warnings: seq<Item>)
    | Crashed(warnings: seq<Item>)

  /** One pass of the loop body. */
  function Step(p: Progress, v: Verdict): Progress
  {
    match p
    case Crashed(_) => p
    case Running(totals, order, warnings) =>
      match v
      case Take(c, x) =>
        Running(totals[c := (if c in totals then totals[c] else 0.0) + x],
                if c in totals then order else order + [c],
                warnings)
      case Ignore => p
      case Warn(item) => Running(totals, order, warnings + [item])
      case Crash => Crashed(warnings)
  }

  /** What one pass of the loop body does to the state. */
  lemma StepEffect(p: Progress, v: Verdict)
    // a stopped run stays stopped, and a crash stops it with the log as it was
    ensures p.Crashed? ==> Step(p, v) == p
    ensures v.Crash? ==> Step(p, v) == Crashed(p.warnings)
    // otherwise the run goes on and the log only grows, by the item a warning names
    ensures p.Running? && !v.Crash? ==>
      Step(p, v).Running? && Step(p, v).warnings == p.warnings + (if v.Warn? then [v.item] else [])
    // an accepted price changes its own category only, created at 0
    ensures p.Running? && v.Take? ==>
      && Step(p, v).totals.Keys == p.totals.Keys + {v.category}
      && Step(p, v).totals[v.category] == (if v.category in p.totals then p.totals[v.category] else 0.0) + v.amount
      && (forall c :: c in p.totals && c != v.category ==> Step(p, v).totals[c] == p.totals[c])
      && Step(p, v).order == if v.category in p.totals then p.order else p.order + [v.category]
    ensures p.Running? && (v.Ignore? || v.Warn?) ==> Step(p, v).totals == p.totals && Step(p, v).order == p.order
  {
  }

  /** The loop over a sequence of verdicts, starting from an empty dictionary. */
  function Run(vs: seq<Verdict>): Progress
    decreases |vs|
  {
    if vs == [] then Running(map[], [], [])
    else Step(Run(vs[..|vs| - 1]), vs[|vs| - 1])
  }

  // ---------------------------------------------------------------------------
  // Reference definitions: what the result should be, without the loop.

  /** The accepted (category, price) pairs, in order. */
  function Takes(vs: seq<Verdict>): seq<(string, real)>
    decreases |vs|
  {
    if vs == [] then []
    else (if vs[0].Take? then [(vs[0].category, vs[0].amount)] else []) + Takes(vs[1..])
  }

  /** The items whose price float() rejected, in order. */
  function Warns(vs: seq<Verdict>): seq<Item>
    decreases |vs|
  {
    if vs == [] then []
    else (if vs[0].Warn? then [vs[0].item] else []) + Warns(vs[1..])
  }

  predicate CrashFree(vs: seq<Verdict>)
  {
    forall k :: 0 <= k < |vs| ==> !vs[k].Crash?
  }

  /** The sum of the prices paired with category `c`. */
  function SumFor(ps: seq<(string, real)>, c: string): real
    decreases |ps|
  {
    if ps == [] then 0.0
    else (if ps[0].0 == c then ps[0].1 else 0.0) + SumFor(ps[1..], c)
  }

  function Categories(ps: seq<(string, real)>): (cs: seq<string>)
    ensures |cs| == |ps|
  {
    seq(|ps|, k requires 0 <= k < |ps| => ps[k].0)
  }

  /** The dictionary the pairs `ps` should produce: one key per category
      that occurs, mapped to the sum of its prices. */
  ghost function TotalsOf(ps: seq<(string, real)>): map<string, real>
  {
    map c | c in Categories(ps) :: SumFor(ps, c)
  }

  /** The position of the first occurrence of `c` in `cs`. */
  function IndexOf(cs: seq<string>, c: string): (k: nat)
    requires c in cs
    ensures k < |cs| && cs[k] == c && c !in cs[..k]
    decreases |cs|
  {
    if cs[0] == c then 0
    else
      var k := 1 + IndexOf(cs[1..], c);
      assert cs[..k] == [cs[0]] + cs[1..][..k - 1];
      k
  }

  predicate NoDup(s: seq<string>)
  {
    forall i, j :: 0 <= i < j < |s| ==> s[i] != s[j]
  }

  /** `order` holds the distinct elements of `cs`, listed by first appearance in `cs`. */
  ghost predicate FirstAppearanceOrder(order: seq<string>, cs: seq<string>)
  {
    && NoDup(order)
    && (forall c :: c in order <==> c in cs)
    && forall i, j :: 0 <= i < j < |order| && order[i] in cs && order[j] in cs ==>
         IndexOf(cs, order[i]) < IndexOf(cs, order[j])
  }

  /** The first crash verdict, or |vs| when there is none. */
  function FirstCrash(vs: seq<Verdict>): (k: nat)
    ensures k <= |vs| && CrashFree(vs[..k])
    ensures k < |vs| ==> vs[k] == Crash
    decreases |vs|
  {
    if vs == [] || vs[0] == Crash then 0
    else
      var k := 1 + FirstCrash(vs[1..]);
      assert vs[..k] == [vs[0]] + vs[1..][..k - 1];
      k
  }

  /** The dictionary and its key order agree: same keys, none twice. */
  ghost predicate WellFormed(p: Progress)
  {
    p.Running? ==> NoDup(p.order) && forall c :: c in p.totals <==> c in p.order
  }

  /** Inserts `item` at position `n` of the warning log. */
  function Relog(p: Progress, n: nat, item: Item): (q: Progress)
    requires n <= |p.warnings|
    ensures |q.warnings| == |p.warnings| + 1
  {
    match p
    case Running(t, o, w) => Running(t, o, w[..n] + [item] + w[n..])
    case Crashed(w) => Crashed(w[..n] + [item] + w[n..])
  }

  // ---------------------------------------------------------------------------
  // Lemmas

  lemma RunSnoc(vs: seq<Verdict>, v: Verdict)
    ensures Run(vs + [v]) == Step(Run(vs), v)
  {
    assert (vs + [v])[..|vs|] == vs;
  }

  lemma {:induction false} FlattenAppend<T>(a: seq<seq<T>>, b: seq<seq<T>>)
    ensures Flatten(a + b) == Flatten(a) + Flatten(b)
    decreases |b|
  {
    if b == [] {
      assert a + b == a;
    } else {
      var b', r := b[..|b| - 1], b[|b| - 1];
      var ab := a + b;
      assert ab[..|ab| - 1] == a + b' && ab[|ab| - 1] == r;
      FlattenAppend(a, b');
    }
  }

  lemma VerdictsAppend(a: seq<Option<ItemsValue>>, b: seq<Option<ItemsValue>>, parse: string -> Option<real>)
    ensures Verdicts(a + b, parse) == Verdicts(a, parse) + Verdicts(b, parse)
  {
    assert PerRow(a + b, parse) == PerRow(a, parse) + PerRow(b, parse);
    FlattenAppend(PerRow(a, parse), PerRow(b, parse));
  }

  lemma VerdictsSnoc(rows: seq<Option<ItemsValue>>, i: nat, parse: string -> Option<real>)
    requires i < |rows|
    ensures Verdicts(rows[..i + 1], parse) == Verdicts(rows[..i], parse) + RowVerdicts(rows[i], parse)
  {
    var ss := PerRow(rows[..i + 1], parse);
    assert ss[..i] == PerRow(rows[..i], parse);
  }

  /** A row with no `items` column, an empty list or a falsy value adds no
      verdict at all: removing it changes nothing downstream. */
  lemma VerdictsSingle(row: Option<ItemsValue>, parse: string -> Option<real>)
    ensures Verdicts([row], parse) == RowVerdicts(row, parse)
  {
    var e: seq<Option<ItemsValue>> := [];
    VerdictsSnoc([row], 0, parse);
    assert [row][..0] == e && [row][..1] == [row];
  }

  lemma QuietRow(a: seq<Option<ItemsValue>>, row: Option<ItemsValue>, b: seq<Option<ItemsValue>>, parse: string -> Option<real>)
    requires row == None || row == Some(ItemList([])) || row == Some(ItemScalar(false))
    ensures Verdicts(a + [row] + b, parse) == Verdicts(a + b, parse)
  {
    VerdictsAppend(a + [row], b, parse);
    VerdictsAppend(a, [row], parse);
    VerdictsAppend(a, b, parse);
    VerdictsSingle(row, parse);
  }

  /** Once the run has stopped, later verdicts change nothing. */
  lemma {:induction false} CrashSticks(a: seq<Verdict>, b: seq<Verdict>)
    requires Run(a).Crashed?
    ensures Run(a + b) == Run(a)
    decreases |b|
  {
    if b == [] {
      assert a + b == a;
    } else {
      var b', v := b[..|b| - 1], b[|b| - 1];
      CrashSticks(a, b');
      assert a + b == (a + b') + [v];
      RunSnoc(a + b', v);
    }
  }

  lemma {:induction false} TakesAppend(a: seq<Verdict>, b: seq<Verdict>)
    ensures Takes(a + b) == Takes(a) + Takes(b)
    decreases |a|
  {
    if a == [] {
      assert a + b == b;
    } else {
      var ab := a + b;
      assert ab[0] == a[0] && ab[1..] == a[1..] + b;
      TakesAppend(a[1..], b);
      var head := if a[0].Take? then [(a[0].category, a[0].amount)] else [];
      assert Takes(ab) == head + Takes(a[1..] + b);
      assert Takes(a) == head + Takes(a[1..]);
    }
  }

  lemma {:induction false} WarnsAppend(a: seq<Verdict>, b: seq<Verdict>)
    ensures Warns(a + b) == Warns(a) + Warns(b)
    decreases |a|
  {
    if a == [] {
      assert a + b == b;
    } else {
      var ab := a + b;
      assert ab[0] == a[0] && ab[1..] == a[1..] + b;
      WarnsAppend(a[1..], b);
      var head := if a[0].Warn? then [a[0].item] else [];
      assert Warns(ab) == head + Warns(a[1..] + b);
      assert Warns(a) == head + Warns(a[1..]);
    }
  }

  /** Totals distribute over concatenation: the sum of a category does not
      depend on how the pairs are split between records. */
  lemma {:induction false} SumForAppend(p: seq<(string, real)>, q: seq<(string, real)>, c: string)
    ensures SumFor(p + q, c) == SumFor(p, c) + SumFor(q, c)
    decreases |p|
  {
    if p == [] {
      assert p + q == q;
    } else {
      var pq := p + q;
      assert pq[0] == p[0] && pq[1..] == p[1..] + q;
      SumForAppend(p[1..], q, c);
      var head := if p[0].0 == c then p[0].1 else 0.0;
      assert SumFor(pq, c) == head + SumFor(p[1..] + q, c);
      assert SumFor(p, c) == head + SumFor(p[1..], c);
    }
  }

  lemma CategoriesAppend(p: seq<(string, real)>, q: seq<(string, real)>)
    ensures Categories(p + q) == Categories(p) + Categories(q)
  {
  }

  /** Accepting one more pair: its category's entry grows by its price,
      starting from 0 if new; every other entry is unchanged. */
  lemma TotalsOfSnoc(ps: seq<(string, real)>, c: string, x: real)
    ensures var t := TotalsOf(ps);
      TotalsOf(ps + [(c, x)]) == t[c := (if c in t then t[c] else 0.0) + x]
  {
    var t, t' := TotalsOf(ps), TotalsOf(ps + [(c, x)]);
    var u := t[c := (if c in t then t[c] else 0.0) + x];
    CategoriesAppend(ps, [(c, x)]);
    assert Categories([(c, x)]) == [c];
    assert t'.Keys == u.Keys;
    forall k | k in u ensures t'[k] == u[k] {
      SumForAppend(ps, [(c, x)], k);
      assert SumFor([(c, x)], k) == if k == c then x else 0.0 by {
        assert [(c, x)][1..] == [];
      }
      if k == c && c !in t {
        SumForAbsent(ps, c);
      }
    }
  }

  lemma {:induction false} SumForAbsent(ps: seq<(string, real)>, c: string)
    requires c !in Categories(ps)
    ensures SumFor(ps, c) == 0.0
    decreases |ps|
  {
    if ps != [] {
      assert Categories(ps)[0] == ps[0].0;
      assert Categories(ps[1..]) == Categories(ps)[1..];
      SumForAbsent(ps[1..], c);
    }
  }

  /** The first occurrence is unique: any position holding `c` with no `c` before it is IndexOf. */
  lemma FirstIndexUnique(cs: seq<string>, c: string, k: nat)
    requires k < |cs| && cs[k] == c && c !in cs[..k]
    ensures IndexOf(cs, c) == k
  {
  }

  lemma IndexOfSnoc(cs: seq<string>, c: string, x: string)
    requires x in cs
    ensures x in cs + [c] && IndexOf(cs + [c], x) == IndexOf(cs, x)
  {
    var k := IndexOf(cs, x);
    assert (cs + [c])[..k] == cs[..k];
    FirstIndexUnique(cs + [c], x, k);
  }

  /** A category already listed keeps the order as it is. */
  lemma OrderSnocOld(order: seq<string>, cs: seq<string>, c: string)
    requires FirstAppearanceOrder(order, cs) && c in order
    ensures FirstAppearanceOrder(order, cs + [c])
  {
    forall i, j | 0 <= i < j < |order| && order[i] in cs + [c] && order[j] in cs + [c]
      ensures IndexOf(cs + [c], order[i]) < IndexOf(cs + [c], order[j])
    {
      IndexOfSnoc(cs, c, order[i]);
      IndexOfSnoc(cs, c, order[j]);
    }
  }

  /** A new category goes to the end of the order. */
  lemma OrderSnocNew(order: seq<string>, cs: seq<string>, c: string)
    requires FirstAppearanceOrder(order, cs) && c !in order
    ensures FirstAppearanceOrder(order + [c], cs + [c])
  {
    var cs', order' := cs + [c], order + [c];
    assert c !in cs;
    assert cs'[..|cs|] == cs;
    FirstIndexUnique(cs', c, |cs|);
    forall i, j | 0 <= i < j < |order'| && order'[i] in cs' && order'[j] in cs'
      ensures IndexOf(cs', order'[i]) < IndexOf(cs', order'[j])
    {
      assert order'[i] == order[i] && order[i] in cs;
      IndexOfSnoc(cs, c, order[i]);
      if j < |order| {
        assert order'[j] == order[j];
        IndexOfSnoc(cs, c, order[j]);
      }
    }
  }

  /** The dictionary and the key order never disagree. */
  lemma {:induction false} RunWellFormed(vs: seq<Verdict>)
    ensures WellFormed(Run(vs))
    decreases |vs|
  {
    if vs != [] {
      RunWellFormed(vs[..|vs| - 1]);
    }
  }

  /** `p` is what the loop should hold after accepting the pairs `ps` and
      logging the items `ws`. */
  ghost predicate Describes(p: Progress, ps: seq<(string, real)>, ws: seq<Item>)
  {
    && p.Running?
    && p.warnings == ws
    && p.totals == TotalsOf(ps)
    && FirstAppearanceOrder(p.order, Categories(ps))
  }

  lemma TakesSingle(v: Verdict)
    ensures Takes([v]) == if v.Take? then [(v.category, v.amount)] else []
    ensures Warns([v]) == if v.Warn? then [v.item] else []
  {
    assert [v][1..] == [];
  }

  /** Accepting one pair updates that pair's category only. */
  lemma TakeDescribes(p: Progress, ps: seq<(string, real)>, ws: seq<Item>, c: string, x: real)
    requires Describes(p, ps, ws)
    ensures Describes(Step(p, Take(c, x)), ps + [(c, x)], ws)
  {
    var q := Step(p, Take(c, x));
    assert q.warnings == ws;
    assert q.totals == TotalsOf(ps + [(c, x)]) by {
      TotalsOfSnoc(ps, c, x);
    }
    assert FirstAppearanceOrder(q.order, Categories(ps + [(c, x)])) by {
      assert q.order == if c in p.totals then p.order else p.order + [c];
      CategoriesAppend(ps, [(c, x)]);
      assert Categories([(c, x)]) == [c];
      TotalsOfKeys(ps);
      TakeOrder(p.order, Categories(ps), p.totals, c);
    }
  }

  lemma TotalsOfKeys(ps: seq<(string, real)>)
    ensures forall k :: k in TotalsOf(ps) <==> k in Categories(ps)
  {
  }

  /** The key order after accepting `c`: unchanged if `c` is a key, else `c` appended. */
  lemma TakeOrder(order: seq<string>, cs: seq<string>, totals: map<string, real>, c: string)
    requires FirstAppearanceOrder(order, cs)
    requires forall k :: k in totals <==> k in cs
    ensures FirstAppearanceOrder(if c in totals then order else order + [c], cs + [c])
  {
    if c in totals {
      OrderSnocOld(order, cs, c);
    } else {
      OrderSnocNew(order, cs, c);
    }
  }

  lemma StepDescribes(p: Progress, ps: seq<(string, real)>, ws: seq<Item>, v: Verdict)
    requires Describes(p, ps, ws) && !v.Crash?
    ensures Describes(Step(p, v), ps + Takes([v]), ws + Warns([v]))
  {
    TakesSingle(v);
    match v
    case Take(c, x) =>
      assert ws + [] == ws;
      TakeDescribes(p, ps, ws, c, x);
    case Ignore =>
      assert ps + [] == ps && ws + [] == ws;
    case Warn(item) =>
      assert ps + [] == ps;
  }

  /** What the loop computes, stated without the loop: when no verdict is a
      crash, the keys are the accepted categories, each total is the sum of
      that category's accepted prices, the keys are ordered by first
      accepted appearance, and the log holds every rejected price in order. */
  lemma {:induction false} RunMeaning(vs: seq<Verdict>)
    requires CrashFree(vs)
    ensures Run(vs).Running?
    ensures Run(vs).totals == TotalsOf(Takes(vs))
    ensures FirstAppearanceOrder(Run(vs).order, Categories(Takes(vs)))
    ensures Run(vs).warnings == Warns(vs)
  {
    RunDescribes(vs);
  }

  lemma {:induction false} RunDescribes(vs: seq<Verdict>)
    requires CrashFree(vs)
    ensures Describes(Run(vs), Takes(vs), Warns(vs))
    decreases |vs|
  {
    if vs == [] {
      return;
    }
    var init, v := vs[..|vs| - 1], vs[|vs| - 1];
    assert vs == init + [v];
    assert CrashFree(init) by {
      forall k | 0 <= k < |init| ensures !init[k].Crash? {
        assert init[k] == vs[k];
      }
    }
    RunDescribes(init);
    TakesAppend(init, [v]);
    WarnsAppend(init, [v]);
    StepDescribes(Run(init), Takes(init), Warns(init), v);
  }

  /** When some verdict is a crash, the run stops there, with the warnings
      logged before it. */
  lemma RunCrashes(vs: seq<Verdict>)
    requires !CrashFree(vs)
    ensures Run(vs) == Crashed(Warns(vs[..FirstCrash(vs)]))
  {
    var k := FirstCrash(vs);
    var a, b := vs[..k], vs[k + 1..];
    assert vs == (a + [Crash]) + b;
    RunMeaning(a);
    RunSnoc(a, Crash);
    CrashSticks(a + [Crash], b);
  }

  /** A silently skipped item leaves no trace at all. */
  lemma {:induction false} IgnoreIsSilent(a: seq<Verdict>, b: seq<Verdict>)
    ensures Run(a + [Ignore] + b) == Run(a + b)
    decreases |b|
  {
    if b == [] {
      assert a + [Ignore] + b == a + [Ignore];
      assert a + b == a;
      RunSnoc(a, Ignore);
    } else {
      var b', v := b[..|b| - 1], b[|b| - 1];
      IgnoreIsSilent(a, b');
      assert a + [Ignore] + b == (a + [Ignore] + b') + [v];
      assert a + b == (a + b') + [v];
      RunSnoc(a + [Ignore] + b', v);
      RunSnoc(a + b', v);
    }
  }

  /** The warning log only grows. */
  lemma {:induction false} WarningsGrow(a: seq<Verdict>, b: seq<Verdict>)
    ensures |Run(a).warnings| <= |Run(a + b).warnings|
    decreases |b|
  {
    if b == [] {
      assert a + b == a;
    } else {
      var b', v := b[..|b| - 1], b[|b| - 1];
      WarningsGrow(a, b');
      assert a + b == (a + b') + [v];
      RunSnoc(a + b', v);
    }
  }

  lemma StepRelog(p: Progress, n: nat, item: Item, v: Verdict)
    requires n <= |p.warnings|
    ensures n <= |Step(p, v).warnings|
    ensures Step(Relog(p, n, item), v) == Relog(Step(p, v), n, item)
  {
    if p.Running? && v.Warn? {
      var w := p.warnings;
      assert (w + [v.item])[..n] == w[..n];
      assert (w + [v.item])[n..] == w[n..] + [v.item];
    }
  }

  /** An item whose price float() rejects with ValueError behaves as if it
      were not there, except for exactly one warning, logged at the point
      where it was met; later items and records are aggregated as before. */
  lemma {:induction false} WarningIsRecoverable(a: seq<Verdict>, item: Item, b: seq<Verdict>)
    requires Run(a).Running?
    ensures |Run(a).warnings| <= |Run(a + b).warnings|
    ensures Run(a + [Warn(item)] + b) == Relog(Run(a + b), |Run(a).warnings|, item)
    decreases |b|
  {
    var n := |Run(a).warnings|;
    WarningsGrow(a, b);
    if b == [] {
      assert a + [Warn(item)] + b == a + [Warn(item)];
      assert a + b == a;
      RunSnoc(a, Warn(item));
      var w := Run(a).warnings;
      assert w[..n] + [item] + w[n..] == w + [item];
    } else {
      var b', v := b[..|b| - 1], b[|b| - 1];
      WarningIsRecoverable(a, item, b');
      WarningsGrow(a, b');
      assert a + [Warn(item)] + b == (a + [Warn(item)] + b') + [v];
      assert a + b == (a + b') + [v];
      RunSnoc(a + [Warn(item)] + b', v);
      RunSnoc(a + b', v);
      StepRelog(Run(a + b'), n, item, v);
    }
  }

  /** One element of an `items` list, met while the run is going: what it does
      to the dictionary, the key order and the log. */
  lemma ItemEffect(vs: seq<Verdict>, item: Item, parse: string -> Option<real>)
    requires Run(vs).Running?
    // the dictionary changes only for a non-empty str category with a truthy price
    ensures var before, after := Run(vs), Run(vs + [Classify(item, parse)]);
      after.Running? && after.totals != before.totals ==>
        PassesGuard(item)
    // anything else that is a dict is skipped without a trace, whatever its price
    ensures var before, after := Run(vs), Run(vs + [Classify(item, parse)]);
      item.Entry? && !PassesGuard(item) ==>
        after == before
    // an accepted price goes to its own category, created at 0; every other entry is kept
    ensures var before, after := Run(vs), Run(vs + [Classify(item, parse)]);
      Classify(item, parse).Take? ==>
        var c, x := item.category.name, ToFloat(item.price, parse).value;
        && after.Running? && after.warnings == before.warnings
        && after.totals.Keys == before.totals.Keys + {c}
        && after.totals[c] == (if c in before.totals then before.totals[c] else 0.0) + x
        && (forall k :: k in before.totals && k != c ==> after.totals[k] == before.totals[k])
        && after.order == (if c in before.totals then before.order else before.order + [c])
    // a price float() rejects with ValueError: same dictionary, one more warning
    ensures var before, after := Run(vs), Run(vs + [Classify(item, parse)]);
      PassesGuard(item) && ToFloat(item.price, parse).ValueError? ==>
        after == Running(before.totals, before.order, before.warnings + [item])
    // anything else stops the run
    ensures var before, after := Run(vs), Run(vs + [Classify(item, parse)]);
      after.Crashed? <==> item.NotMapping? || (PassesGuard(item) && ToFloat(item.price, parse).TypeError?)
  {
    RunSnoc(vs, Classify(item, parse));
  }

  lemma CrashFreeAppend(a: seq<Verdict>, b: seq<Verdict>)
    ensures CrashFree(a + b) <==> CrashFree(a) && CrashFree(b)
  {
    if CrashFree(a + b) {
      forall k | 0 <= k < |a| ensures !a[k].Crash? { assert a[k] == (a + b)[k]; }
      forall k | 0 <= k < |b| ensures !b[k].Crash? { assert b[k] == (a + b)[|a| + k]; }
    }
    if CrashFree(a) && CrashFree(b) {
      forall k | 0 <= k < |a + b| ensures !(a + b)[k].Crash? {
        if k < |a| { assert (a + b)[k] == a[k]; } else { assert (a + b)[k] == b[k - |a|]; }
      }
    }
  }

  /** The verdicts `x + a + b + y` in four parts, split in their crash-free and accepted-pair parts. */
  lemma Parts(x: seq<Verdict>, a: seq<Verdict>, b: seq<Verdict>, y: seq<Verdict>)
    ensures CrashFree(x + a + b + y) <==> CrashFree(x) && CrashFree(a) && CrashFree(b) && CrashFree(y)
    ensures Takes(x + a + b + y) == Takes(x) + Takes(a) + Takes(b) + Takes(y)
  {
    CrashFreeAppend(x, a);
    CrashFreeAppend(x + a, b);
    CrashFreeAppend(x + a + b, y);
    TakesAppend(x, a);
    TakesAppend(x + a, b);
    TakesAppend(x + a + b, y);
  }

  /** The totals of the accepted pairs do not depend on the order of two adjacent batches. */
  lemma TotalsOfSwap(p: seq<(string, real)>, a: seq<(string, real)>, b: seq<(string, real)>, q: seq<(string, real)>)
    ensures TotalsOf(p + a + b + q) == TotalsOf(p + b + a + q)
  {
    var t1, t2 := TotalsOf(p + a + b + q), TotalsOf(p + b + a + q);
    CategoriesAppend(p, a);
    CategoriesAppend(p + a, b);
    CategoriesAppend(p + a + b, q);
    CategoriesAppend(p, b);
    CategoriesAppend(p + b, a);
    CategoriesAppend(p + b + a, q);
    assert t1.Keys == t2.Keys;
    forall c | c in t1 ensures t1[c] == t2[c] {
      SumForAppend(p, a, c);
      SumForAppend(p + a, b, c);
      SumForAppend(p + a + b, q, c);
      SumForAppend(p, b, c);
      SumForAppend(p + b, a, c);
      SumForAppend(p + b + a, q, c);
    }
  }

  /** The totals do not depend on the order in which two adjacent batches
      of items are met, wherever they stand in a crash-free run (the key
      order does; sums are exact here). Each batch may be a whole receipt or
      a few items of one. */
  lemma RunOrderIrrelevant(x: seq<Verdict>, a: seq<Verdict>, b: seq<Verdict>, y: seq<Verdict>)
    requires CrashFree(x + a + b + y)
    ensures Run(x + a + b + y).Running? && Run(x + b + a + y).Running?
    ensures Run(x + a + b + y).totals == Run(x + b + a + y).totals
  {
    Parts(x, a, b, y);
    Parts(x, b, a, y);
    RunMeaning(x + a + b + y);
    RunMeaning(x + b + a + y);
    TotalsOfSwap(Takes(x), Takes(a), Takes(b), Takes(y));
  }
}
