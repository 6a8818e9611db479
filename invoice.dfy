/**
 * The invoice aggregate (invoice.go): a business, its address and the ordered
 * line items, with the grand total summed in integer cents.
 */
module Invoice {
  import opened Int64
  import opened InvoiceData

  datatype Invoice = Invoice(name: string, address: string, items: seq<InvoiceData>)

  /** Stores its arguments unchanged; nothing is validated. */
  function CreateInvoice(name: string, address: string, items: seq<InvoiceData>): (inv: Invoice)
    ensures inv.name == name && inv.address == address && inv.items == items
  {
    Invoice(name, address, items)
  }

  /** The exact integer sum of the line totals, in item order. */
  function SumCents(items: seq<InvoiceData>): int
  {
    if items == [] then 0
    else SumCents(items[..|items| - 1]) + CalculateTotalAmount(items[|items| - 1]) as int
  }

  /** The grand total in cents that the int64 accumulator holds after the loop. */
  function InvoiceTotalCents(inv: Invoice): (r: int64)
    ensures Congruent(r as int, SumCents(inv.items))
    ensures InRange(SumCents(inv.items)) ==> r as int == SumCents(inv.items)
  {
    Wrap(SumCents(inv.items))
  }

  /** The grand total display value: the cents divided by 100 once, at the end. */
  function TotalAmount(inv: Invoice): (r: real)
    ensures r * 100.0 == InvoiceTotalCents(inv) as real
  {
    InvoiceTotalCents(inv) as real / 100.0
  }

  /**
   * Adds the line totals in an int64 accumulator (wrapping as Go does), then
   * divides by 100.
   */
  method CalculateInvoiceTotalAmount(inv: Invoice) returns (amount: real)
    ensures amount == TotalAmount(inv)
    ensures amount * 100.0 == InvoiceTotalCents(inv) as real
    ensures InRange(SumCents(inv.items)) ==> amount * 100.0 == SumCents(inv.items) as real
  {
    var invoiceTotalAmount: int64 := 0;
    for i := 0 to |inv.items|
      invariant invoiceTotalAmount == Wrap(SumCents(inv.items[..i]))
    {
      var line := CalculateTotalAmount(inv.items[i]);
      assert inv.items[..i + 1][..i] == inv.items[..i];
      WrapAdd(SumCents(inv.items[..i]), line as int);
      invoiceTotalAmount := Wrap(invoiceTotalAmount as int + line as int);
    }
    assert inv.items[..|inv.items|] == inv.items;
    amount := invoiceTotalAmount as real / 100.0;
  }

  /** Without overflow the grand total is exactly the sum of the line totals, over 100. */
  lemma TotalAmountExact(inv: Invoice)
    requires InRange(SumCents(inv.items))
    ensures TotalAmount(inv) * 100.0 == SumCents(inv.items) as real
  {
  }

  /** Appending an item adds exactly its line total. */
  lemma {:induction false} SumCentsAppend(items: seq<InvoiceData>, d: InvoiceData)
    ensures SumCents(items + [d]) == SumCents(items) + CalculateTotalAmount(d) as int
  {
    assert (items + [d])[..|items|] == items;
  }

  /** The sum over a concatenation is the sum of the sums. */
  lemma {:induction false} SumCentsConcat(a: seq<InvoiceData>, b: seq<InvoiceData>)
    ensures SumCents(a + b) == SumCents(a) + SumCents(b)
    decreases |b|
  {
    if b == [] {
      assert a + b == a;
    } else {
      var b' := b[..|b| - 1];
      var d := b[|b| - 1];
      assert b == b' + [d];
      assert a + b == (a + b') + [d];
      SumCentsAppend(a + b', d);
      SumCentsAppend(b', d);
      SumCentsConcat(a, b');
    }
  }

  lemma SplitAt<T>(b: seq<T>, j: nat)
    requires j < |b|
    ensures b[..j + 1] == b[..j] + [b[j]]
    ensures b == b[..j + 1] + b[j + 1..]
  {
  }

  /** Taking item `j` out of the list takes it out of the multiset. */
  lemma MultisetRemove(b: seq<InvoiceData>, j: nat)
    requires j < |b|
    ensures multiset(b[..j] + b[j + 1..]) == multiset(b) - multiset{b[j]}
  {
    assert b == b[..j] + [b[j]] + b[j + 1..];
  }

  /** Taking item `j` out of the list takes its line total out of the sum. */
  lemma SumCentsRemove(b: seq<InvoiceData>, j: nat)
    requires j < |b|
    ensures SumCents(b) == SumCents(b[..j] + b[j + 1..]) + CalculateTotalAmount(b[j]) as int
  {
    var left, right := b[..j], b[j + 1..];
    SplitAt(b, j);
    SumCentsConcat(left, right);
    SumCentsConcat(b[..j + 1], right);
    SumCentsAppend(left, b[j]);
  }

  /** The total does not depend on the order of the items. */
  lemma {:induction false} SumCentsPermutation(a: seq<InvoiceData>, b: seq<InvoiceData>)
    requires multiset(a) == multiset(b)
    ensures SumCents(a) == SumCents(b)
    decreases |a|
  {
    if a == [] {
      assert |multiset(b)| == 0;
      assert b == [];
    } else {
      var a', x := a[..|a| - 1], a[|a| - 1];
      assert a == a' + [x];
      assert multiset(a') == multiset(a) - multiset{x};
      assert x in multiset(b);
      var j :| 0 <= j < |b| && b[j] == x;
      MultisetRemove(b, j);
      SumCentsRemove(b, j);
      SumCentsPermutation(a', b[..j] + b[j + 1..]);
      SumCentsAppend(a', x);
    }
  }

  /** Reordering the items of an invoice leaves its total unchanged. */
  lemma TotalOrderIndependent(inv: Invoice, items: seq<InvoiceData>)
    requires multiset(items) == multiset(inv.items)
    ensures InvoiceTotalCents(inv.(items := items)) == InvoiceTotalCents(inv)
    ensures TotalAmount(inv.(items := items)) == TotalAmount(inv)
  {
    SumCentsPermutation(items, inv.items);
  }

  /** Appending an item raises the accumulator by that item's line total. */
  lemma AppendItemTotal(inv: Invoice, d: InvoiceData)
    ensures InvoiceTotalCents(inv.(items := inv.items + [d]))
            == Wrap(InvoiceTotalCents(inv) as int + CalculateTotalAmount(d) as int)
    ensures InRange(SumCents(inv.items + [d])) ==>
      InvoiceTotalCents(inv.(items := inv.items + [d])) as int
      == SumCents(inv.items) + CalculateTotalAmount(d) as int
  {
    SumCentsAppend(inv.items, d);
    WrapAdd(SumCents(inv.items), CalculateTotalAmount(d) as int);
  }

  /** An invoice without items totals zero. */
  lemma EmptyInvoiceTotal(name: string, address: string)
    ensures InvoiceTotalCents(CreateInvoice(name, address, [])) == 0
    ensures TotalAmount(CreateInvoice(name, address, [])) == 0.0
  {
  }

  /** The sample invoice: 3000.50 and 200.70, one of each, total 3201.20. */
  lemma SampleInvoiceTotal()
    ensures var shop := NewInvoiceData("Ecommerce application", 1, Float64Price(300050)).value;
            var laptop := NewInvoiceData("Macbook Pro", 1, Float64Price(20070)).value;
            var inv := CreateInvoice("Example Shop1", "Example address", [shop, laptop]);
            InvoiceTotalCents(inv) == 320120 && TotalAmount(inv) == 3201.2
  {
    var shop := NewInvoiceData("Ecommerce application", 1, Float64Price(300050)).value;
    var laptop := NewInvoiceData("Macbook Pro", 1, Float64Price(20070)).value;
    var items := [shop, laptop];
    assert items[..1] == [shop];
    assert SumCents([shop]) == 300050;
    assert SumCents(items) == 320120;
  }
}
