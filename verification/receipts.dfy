/**
 Receipt documents as the aggregation in DataBaseLogic.py sees them.

 The documents come from a schema-less store, so every field the aggregation
 reads is a tagged value: the shapes Python tells apart at run time (missing,
 a str, a number, a bool, something else) are constructors here. This module
 also gives Python's truthiness and `float(...)` on those values, and the one
 piece of pandas behaviour that decides what the loop sees: how a missing
 `items` field is filled in once all documents share one table.
 */
module Receipts {
  import opened Wrappers

  /** The value of `item.get("category")`. */
  datatype Category =
    | NoCategory            // the key is missing, or its value is None
    | Text(name: string)    // a str, possibly empty or blank
    | NotText               // any other type (number, list, dict, ...)

  /** The value of `item.get("total_price")`. */
  datatype Price =
    | NoPrice                  // the key is missing, or its value is None
    | Number(amount: real)     // an int or a float
    | Flag(flag: bool)         // a bool (a subclass of int in Python)
    | PriceText(text: string)  // a str, to be parsed by float()
    | Unconvertible(truthy: bool)
      // any other value (a list, a dict, ...): float() raises TypeError on it

  /** One element of a document's `items` list. */
  datatype Item =
    | Entry(category: Category, price: Price)  // a dict
    | NotMapping  // an element without `.get` (a str, a number, ...): AttributeError

  /** The value stored under `items`. */
  datatype ItemsValue =
    | ItemList(entries: seq<Item>)
    | ItemScalar(truthy: bool)
      // a value that is not a list: None, a number, NaN, ...; iterating a
      // truthy one raises TypeError (an empty str or dict is falsy too)

  /** A fetched document: whether it has fields other than `items`, and its `items` value if present. */
  datatype Document = Document(otherFields: bool, items: Option<ItemsValue>)

  /** Python's truth value of a price. */
  predicate Truthy(p: Price)
  {
    match p
    case NoPrice => false
    case Number(x) => x != 0.0
    case Flag(b) => b
    case PriceText(s) => s != ""
    case Unconvertible(t) => t
  }

  /** How `float(price)` ends. */
  datatype Conversion = Converted(value: real) | ValueError | TypeError

  /** `float(price)`, where `parse` stands for Python's parser of decimal text:
      it gives None exactly where `float(str)` raises ValueError. */
  function ToFloat(p: Price, parse: string -> Option<real>): (r: Conversion)
  {
    match p
    case NoPrice => TypeError
    case Number(x) => Converted(x)
    case Flag(b) => Converted(if b then 1.0 else 0.0)
    case PriceText(s) => (match parse(s) case Some(x) => Converted(x) case None => ValueError)
    case Unconvertible(_) => TypeError
  }

  /** Python's falsy prices are exactly None, 0, False, "" and the falsy values of other types. */
  lemma FalsyPrices(p: Price)
    ensures !Truthy(p) <==>
      p == NoPrice || p == Number(0.0) || p == Flag(false) || p == PriceText("") || p == Unconvertible(false)
  {
  }

  /** How `float(price)` fails: only text raises ValueError, exactly when it
      does not parse; None and values of other types raise TypeError; a
      truthy number or bool converts to a non-zero amount. */
  lemma FloatOutcomes(p: Price, parse: string -> Option<real>)
    ensures ToFloat(p, parse) == ValueError <==> p.PriceText? && parse(p.text).None?
    ensures ToFloat(p, parse) == TypeError <==> p.NoPrice? || p.Unconvertible?
    ensures Truthy(p) && !p.PriceText? && ToFloat(p, parse).Converted? ==> ToFloat(p, parse).value != 0.0
  {
  }

  /** Some document has an `items` field, so the table built from the documents has an `items` column. */
  predicate HasItemsColumn(docs: seq<Document>)
  {
    exists k :: 0 <= k < |docs| && docs[k].items.Some?
  }

  /** The documents have no fields at all, so the table built from them is empty (`df.empty`). */
  predicate FrameEmpty(docs: seq<Document>)
  {
    forall k :: 0 <= k < |docs| ==> !docs[k].otherFields && docs[k].items.None?
  }

  /** NaN, the value pandas puts in a column for a row whose document lacks that field: it is truthy and not iterable. */
  const NaN: ItemsValue := ItemScalar(true)

  /** The `items` cell of each row of `pd.DataFrame(docs)`: None when there is
      no `items` column; otherwise the document's own value, or NaN for a
      document that lacks the field. */
  function Rows(docs: seq<Document>): (rows: seq<Option<ItemsValue>>)
    ensures |rows| == |docs|
    ensures (forall k :: 0 <= k < |rows| ==> rows[k].None?) <==> !HasItemsColumn(docs)
    ensures forall k :: 0 <= k < |docs| && docs[k].items.Some? ==> rows[k] == docs[k].items
    ensures HasItemsColumn(docs) ==>
              forall k :: 0 <= k < |docs| && docs[k].items.None? ==> rows[k] == Some(NaN)
  {
    var column := HasItemsColumn(docs);
    var rows := seq(|docs|, k requires 0 <= k < |docs| =>
      if docs[k].items.Some? then docs[k].items else if column then Some(NaN) else None);
    assert |docs| > 0 ==> (rows[0].None? ==> !column);
    rows
  }
}
