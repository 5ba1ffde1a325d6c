/**
 * The sale records and the pure list computations of the sales component:
 * coercing and validating a fetched batch, replacing the rows of an updated
 * sale, and removing the rows of a deleted one.
 */
module Sales {
  import opened Js

  /** A sale as the component holds it (the TypeScript `Sale`; `TOTAL` is `total`). */
  datatype Sale = Sale(id: Number, name: string, price: Number, delivery: Number, total: Number)

  /** An element of the fetched JSON array, before coercion. */
  datatype RawSale = RawSale(id: RawValue, name: RawValue, price: RawValue, delivery: RawValue, total: RawValue)

  /** An element after coercion: every field but `name` is a number by now. */
  datatype Coerced = Coerced(id: Number, name: RawValue, price: Number, delivery: Number, total: Number)

  /** The outcome of checking a fetched batch. */
  datatype Validation = Accepted(sales: seq<Sale>) | Rejected(message: string)

  const InvalidFormat := "Invalid sales data format"

  /** The coercion applied to each fetched element: `Number` on the id, `parseFloat` on the amounts. */
  function Coerce(conv: Conversions, item: RawSale): Coerced {
    Coerced(ToNumber(conv, item.id), item.name,
            ParseFloat(conv, item.price), ParseFloat(conv, item.delivery), ParseFloat(conv, item.total))
  }

  /**
   * The per-element check. After coercion `typeof x === 'number'` holds of
   * every numeric field, NaN included, so the id is never what fails: only a
   * non-string name or a NaN price, delivery or total does.
   */
  predicate WellTyped(c: Coerced) {
    c.name.Str? && !IsNaN(c.price) && !IsNaN(c.delivery) && !IsNaN(c.total)
  }

  /** `rawData.map(...)`: coerce every element, in order. */
  function CoerceAll(conv: Conversions, raw: seq<RawSale>): (cs: seq<Coerced>)
    ensures |cs| == |raw|
    ensures forall i :: 0 <= i < |raw| ==> cs[i] == Coerce(conv, raw[i])
  {
    if raw == [] then [] else [Coerce(conv, raw[0])] + CoerceAll(conv, raw[1..])
  }

  /** `data.every(...)`: true exactly when every element passes the check. */
  function AllWellTyped(cs: seq<Coerced>): (ok: bool)
    ensures ok <==> forall i :: 0 <= i < |cs| ==> WellTyped(cs[i])
  {
    cs == [] || (WellTyped(cs[0]) && AllWellTyped(cs[1..]))
  }

  /** The sale a checked element is stored as. */
  function AsSale(c: Coerced): Sale
    requires c.name.Str?
  {
    Sale(c.id, c.name.text, c.price, c.delivery, c.total)
  }

  /**
   * Coerce, then accept the whole batch or reject it: the body of
   * `fetchSales` between the response and the state update.
   */
  function Normalize(conv: Conversions, raw: seq<RawSale>): (v: Validation)
    ensures v.Accepted? <==> forall i :: 0 <= i < |raw| ==> WellTyped(Coerce(conv, raw[i]))
    ensures v.Rejected? ==> v.message == InvalidFormat
    ensures v.Accepted? ==> |v.sales| == |raw|
    ensures v.Accepted? ==> forall i :: 0 <= i < |raw| ==>
              && raw[i].name == Str(v.sales[i].name)
              && v.sales[i].id == ToNumber(conv, raw[i].id)
              && v.sales[i].price == ParseFloat(conv, raw[i].price)
              && v.sales[i].delivery == ParseFloat(conv, raw[i].delivery)
              && v.sales[i].total == ParseFloat(conv, raw[i].total)
    ensures v.Accepted? ==> forall i :: 0 <= i < |v.sales| ==>
              !IsNaN(v.sales[i].price) && !IsNaN(v.sales[i].delivery) && !IsNaN(v.sales[i].total)
  {
    var data := CoerceAll(conv, raw);
    if AllWellTyped(data) then
      Accepted(seq(|data|, i requires 0 <= i < |data| => AsSale(data[i])))
    else
      Rejected(InvalidFormat)
  }

  /** One element that fails the check rejects the whole batch. */
  lemma OneBadElementRejects(conv: Conversions, raw: seq<RawSale>, k: nat)
    requires k < |raw| && !WellTyped(Coerce(conv, raw[k]))
    ensures Normalize(conv, raw) == Rejected(InvalidFormat)
  {
  }

  /**
   * The id never decides acceptance: replacing one element's id by any raw
   * value, one that `Number` turns into NaN included, leaves the verdict as
   * it was, and an accepted batch stores that number as the id.
   */
  lemma {:induction false} IdNeverRejects(conv: Conversions, raw: seq<RawSale>, k: nat, id: RawValue)
    requires k < |raw|
    ensures var raw' := raw[k := raw[k].(id := id)];
            && Normalize(conv, raw').Accepted? == Normalize(conv, raw).Accepted?
            && (Normalize(conv, raw').Accepted? ==> Normalize(conv, raw').sales[k].id == ToNumber(conv, id))
  {
    var raw' := raw[k := raw[k].(id := id)];
    forall i | 0 <= i < |raw|
      ensures WellTyped(Coerce(conv, raw'[i])) == WellTyped(Coerce(conv, raw[i]))
    {
      if i == k {
        assert Coerce(conv, raw'[i]).(id := Coerce(conv, raw[i]).id) == Coerce(conv, raw[i]);
      }
    }
  }

  /** A record whose fields are all text that `Number` and `parseFloat` read is accepted with those numbers. */
  lemma WidgetAccepted(conv: Conversions)
    requires conv.toNumber("1") == Finite(1.0)
    requires conv.parseFloat("9.99") == Finite(9.99)
    requires conv.parseFloat("2.50") == Finite(2.5)
    requires conv.parseFloat("12.49") == Finite(12.49)
    ensures Normalize(conv, [RawSale(Str("1"), Str("Widget"), Str("9.99"), Str("2.50"), Str("12.49"))])
         == Accepted([Sale(Finite(1.0), "Widget", Finite(9.99), Finite(2.5), Finite(12.49))])
  {
  }

  /** A record whose price `parseFloat` reads as NaN is rejected with the format message. */
  lemma WidgetWithNaNPriceRejected(conv: Conversions)
    requires conv.parseFloat("nan") == NaN
    ensures Normalize(conv, [RawSale(Str("1"), Str("Widget"), Str("nan"), Str("2.50"), Str("2.50"))])
         == Rejected(InvalidFormat)
  {
  }

  /** A sale whose amounts are all numbers: what the fetch check guarantees of each row it lets in. */
  predicate Sound(sale: Sale) {
    !IsNaN(sale.price) && !IsNaN(sale.delivery) && !IsNaN(sale.total)
  }

  /** Every row of the list is sound. */
  predicate AllSound(s: seq<Sale>) {
    forall i :: 0 <= i < |s| ==> Sound(s[i])
  }

  /** An accepted batch is sound. */
  lemma NormalizeSound(conv: Conversions, raw: seq<RawSale>)
    requires Normalize(conv, raw).Accepted?
    ensures AllSound(Normalize(conv, raw).sales)
  {
  }

  /** `sales.map(sale => sale.id === id ? data : sale)`. */
  function ReplaceById(s: seq<Sale>, id: Number, data: Sale): (r: seq<Sale>)
    ensures |r| == |s|
    ensures forall i :: 0 <= i < |s| ==> r[i] == if StrictEquals(s[i].id, id) then data else s[i]
  {
    if s == [] then []
    else [if StrictEquals(s[0].id, id) then data else s[0]] + ReplaceById(s[1..], id, data)
  }

  /** A list without a row of that id, a NaN id in particular, is left as it is. */
  lemma ReplaceByIdWithoutMatch(s: seq<Sale>, id: Number, data: Sale)
    requires forall i :: 0 <= i < |s| ==> !StrictEquals(s[i].id, id)
    ensures ReplaceById(s, id, data) == s
  {
  }

  /** Replacing twice with the same response changes nothing more. */
  lemma ReplaceByIdIdempotent(s: seq<Sale>, id: Number, data: Sale)
    ensures ReplaceById(ReplaceById(s, id, data), id, data) == ReplaceById(s, id, data)
  {
  }

  /** Replacing rows of a sound list by a sound response keeps it sound. */
  lemma ReplaceByIdSound(s: seq<Sale>, id: Number, data: Sale)
    requires AllSound(s) && Sound(data)
    ensures AllSound(ReplaceById(s, id, data))
  {
  }

  /** Appending a sound response to a sound list keeps it sound. */
  lemma AppendSound(s: seq<Sale>, data: Sale)
    requires AllSound(s) && Sound(data)
    ensures AllSound(s + [data])
  {
  }

  /** `sales.filter(sale => sale.id !== id)`. */
  function RemoveById(s: seq<Sale>, id: Number): (r: seq<Sale>)
    ensures |r| <= |s|
    ensures forall x :: x in r <==> x in s && !StrictEquals(x.id, id)
  {
    if s == [] then []
    else if StrictEquals(s[0].id, id) then RemoveById(s[1..], id)
    else [s[0]] + RemoveById(s[1..], id)
  }

  /** The rows of a list whose id is `=== id`, in order: what a delete of `id` takes away. */
  function RowsWithId(s: seq<Sale>, id: Number): (r: seq<Sale>)
    ensures forall x :: x in r ==> x in s && StrictEquals(x.id, id)
  {
    if s == [] then []
    else if StrictEquals(s[0].id, id) then [s[0]] + RowsWithId(s[1..], id)
    else RowsWithId(s[1..], id)
  }

  /**
   * Removal takes away exactly the rows with that id, each as often as it
   * occurs: what remains and what went make up the list again.
   */
  lemma {:induction false} RemoveByIdPartition(s: seq<Sale>, id: Number)
    ensures multiset(RemoveById(s, id)) + multiset(RowsWithId(s, id)) == multiset(s)
    ensures |RemoveById(s, id)| + |RowsWithId(s, id)| == |s|
  {
    if s != [] {
      RemoveByIdPartition(s[1..], id);
      assert s == [s[0]] + s[1..];
    }
  }

  /** Removal works piecewise, so the remaining rows keep their relative order. */
  lemma {:induction false} RemoveByIdConcat(a: seq<Sale>, b: seq<Sale>, id: Number)
    ensures RemoveById(a + b, id) == RemoveById(a, id) + RemoveById(b, id)
  {
    if a == [] {
      assert a + b == b;
    } else {
      assert (a + b)[0] == a[0] && (a + b)[1..] == a[1..] + b;
      RemoveByIdConcat(a[1..], b, id);
    }
  }

  /** The list is unchanged exactly when no row has that id; so a NaN id removes nothing. */
  lemma {:induction false} RemoveByIdUnchanged(s: seq<Sale>, id: Number)
    ensures RemoveById(s, id) == s <==> forall i :: 0 <= i < |s| ==> !StrictEquals(s[i].id, id)
  {
    if forall i :: 0 <= i < |s| ==> !StrictEquals(s[i].id, id) {
      if s != [] {
        RemoveByIdUnchanged(s[1..], id);
      }
    } else {
      var i :| 0 <= i < |s| && StrictEquals(s[i].id, id);
      assert s[i] !in RemoveById(s, id);
    }
  }

  /** Removing rows from a sound list keeps it sound. */
  lemma RemoveByIdSound(s: seq<Sale>, id: Number)
    requires AllSound(s)
    ensures AllSound(RemoveById(s, id))
  {
  }

  /** Removing the same id twice is the same as removing it once. */
  lemma {:induction false} RemoveByIdIdempotent(s: seq<Sale>, id: Number)
    ensures RemoveById(RemoveById(s, id), id) == RemoveById(s, id)
  {
    var r := RemoveById(s, id);
    RemoveByIdUnchanged(r, id);
    assert forall i :: 0 <= i < |r| ==> r[i] in r;
  }
}
