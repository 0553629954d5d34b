/** The quote state store of App.tsx: the initial quote, the operations that
    replace the quote with a new snapshot, and the derived total. */
module QuoteStore {
  import opened Types
  import opened ServiceRow

  /** The ids of the line items. */
  function Ids(s: seq<ServiceItem>): set<string>
  {
    set x | x in s :: x.id
  }

  /** No two line items share an id. */
  predicate DistinctIds(s: seq<ServiceItem>)
  {
    forall i, j | 0 <= i < j < |s| :: s[i].id != s[j].id
  }

  /** The store's invariant: at least one row, and ids identify rows. */
  predicate Valid(q: QuoteData)
  {
    |q.services| >= 1 && DistinctIds(q.services)
  }

  /** A new row: empty description, price 0. */
  function BlankItem(id: string): ServiceItem
  {
    ServiceItem(id, "", Num(0.0))
  }

  // ---------------------------------------------------------------- total

  /** `services.reduce((acc, curr) => acc + (curr.price || 0), 0)`, folded
      from the left as `reduce` does. */
  function Total(s: seq<ServiceItem>): real
  {
    if s == [] then 0.0 else Total(s[..|s| - 1]) + OrZero(s[|s| - 1].price)
  }

  /** The total of a concatenation is the sum of the totals. */
  lemma {:induction false} TotalAppend(a: seq<ServiceItem>, b: seq<ServiceItem>)
    ensures Total(a + b) == Total(a) + Total(b)
    decreases |b|
  {
    if b != [] {
      var b' := b[..|b| - 1];
      assert (a + b)[..|a + b| - 1] == a + b';
      assert (a + b)[|a + b| - 1] == b[|b| - 1];
      TotalAppend(a, b');
    } else {
      assert a + b == a;
    }
  }

  /** The total seen from the front: first price plus the total of the rest. */
  lemma TotalCons(x: ServiceItem, s: seq<ServiceItem>)
    ensures Total([x] + s) == OrZero(x.price) + Total(s)
  {
    TotalAppend([x], s);
    assert [x][..0] == [];
  }

  /** The total without the row at index k. */
  lemma TotalWithout(s: seq<ServiceItem>, k: nat)
    requires k < |s|
    ensures Total(s[..k] + s[k + 1..]) == Total(s) - OrZero(s[k].price)
  {
    TotalAppend(s[..k], s[k + 1..]);
    TotalAppend(s[..k], s[k..]);
    TotalCons(s[k], s[k + 1..]);
    assert s[k..] == [s[k]] + s[k + 1..];
    assert s[..k] + s[k..] == s;
  }

  /** When no price is negative, neither is the total. */
  lemma {:induction false} TotalNonNegative(s: seq<ServiceItem>)
    requires forall i | 0 <= i < |s| :: OrZero(s[i].price) >= 0.0
    ensures Total(s) >= 0.0
  {
    if s != [] {
      TotalNonNegative(s[..|s| - 1]);
    }
  }

  // ---------------------------------------------------------- initial state

  /** The quote the editor starts with: every text field empty and one blank
      row, whose id the caller supplies. */
  function Initial(firstId: string): (q: QuoteData)
    ensures Valid(q) && |q.services| == 1
    ensures q.services[0].id == firstId
    ensures q.services[0].description == "" && q.services[0].price == Num(0.0)
    ensures q.providerName == "" && q.providerWhatsApp == "" && q.pixKey == "" && q.clientName == ""
    ensures Total(q.services) == 0.0
  {
    var q := QuoteData("", "", "", "", [BlankItem(firstId)]);
    assert q.services[..0] == [];
    q
  }

  // ------------------------------------------------------------ addService

  /** `addService`: one blank row at the end; everything before it and the
      total are as they were. */
  function AddService(q: QuoteData, freshId: string): (r: QuoteData)
    requires freshId !in Ids(q.services)
    ensures r == q.(services := r.services)
    ensures |r.services| == |q.services| + 1
    ensures r.services[..|q.services|] == q.services
    ensures r.services[|q.services|] == BlankItem(freshId)
    ensures Total(r.services) == Total(q.services)
    ensures Valid(q) ==> Valid(r)
  {
    var s := q.services + [BlankItem(freshId)];
    assert s[..|s| - 1] == q.services;
    assert forall i | 0 <= i < |q.services| :: q.services[i].id in Ids(q.services);
    q.(services := s)
  }

  // --------------------------------------------------------- removeService

  /** `services.filter(s => s.id !== id)`. */
  function WithoutId(s: seq<ServiceItem>, id: string): (r: seq<ServiceItem>)
    ensures forall x :: x in r <==> x in s && x.id != id
    ensures |r| <= |s|
    ensures id !in Ids(s) ==> r == s
  {
    if s == [] then []
    else
      var rest := WithoutId(s[1..], id);
      assert forall x | x in s[1..] :: x in s;
      assert id !in Ids(s) ==> id !in Ids(s[1..]);
      if s[0].id == id then rest else [s[0]] + rest
  }

  /** With distinct ids, removing the id of row k removes that row alone and
      keeps the others in order. */
  lemma {:induction false} WithoutIdAt(s: seq<ServiceItem>, k: nat)
    requires DistinctIds(s) && k < |s|
    ensures WithoutId(s, s[k].id) == s[..k] + s[k + 1..]
  {
    var id := s[k].id;
    if k == 0 {
      assert forall i | 0 <= i < |s[1..]| :: s[1..][i].id == s[i + 1].id != id;
      assert id !in Ids(s[1..]);
    } else {
      assert DistinctIds(s[1..]) by {
        forall i, j | 0 <= i < j < |s[1..]| ensures s[1..][i].id != s[1..][j].id {
          assert s[1..][i] == s[i + 1] && s[1..][j] == s[j + 1];
        }
      }
      WithoutIdAt(s[1..], k - 1);
      assert s[1..][k - 1] == s[k];
      assert s[0].id != id;
      assert s[..k] == [s[0]] + s[1..][..k - 1];
      assert s[k + 1..] == s[1..][k..];
    }
  }

  /** Deleting one row of a distinct-id list keeps ids distinct. */
  lemma DistinctWithoutAt(s: seq<ServiceItem>, k: nat)
    requires DistinctIds(s) && k < |s|
    ensures DistinctIds(s[..k] + s[k + 1..])
  {
    var t := s[..k] + s[k + 1..];
    forall i, j | 0 <= i < j < |t| ensures t[i].id != t[j].id {
      var i' := if i < k then i else i + 1;
      var j' := if j < k then j else j + 1;
      assert t[i] == s[i'] && t[j] == s[j'];
    }
  }

  /** `removeService`: a no-op on a one-row list, otherwise the rows with
      that id are filtered out. */
  function RemoveService(q: QuoteData, id: string): (r: QuoteData)
    ensures r == q.(services := r.services)
    ensures |q.services| == 1 ==> r == q
    ensures |q.services| != 1 ==> forall x :: x in r.services <==> x in q.services && x.id != id
    ensures id !in Ids(q.services) ==> r == q
    ensures Valid(q) ==> Valid(r)
  {
    if |q.services| == 1 then q
    else
      var r := q.(services := WithoutId(q.services, id));
      if Valid(q) && id in Ids(q.services) then
        var k :| 0 <= k < |q.services| && q.services[k].id == id;
        WithoutIdAt(q.services, k);
        DistinctWithoutAt(q.services, k);
        r
      else r
  }

  /** With distinct ids and at least two rows, removing row k's id drops
      exactly that row and lowers the total by its price. */
  lemma RemoveServiceAt(q: QuoteData, k: nat)
    requires DistinctIds(q.services) && 2 <= |q.services| && k < |q.services|
    ensures var r := RemoveService(q, q.services[k].id);
            r.services == q.services[..k] + q.services[k + 1..] &&
            |r.services| == |q.services| - 1 &&
            Total(r.services) == Total(q.services) - OrZero(q.services[k].price)
  {
    WithoutIdAt(q.services, k);
    TotalWithout(q.services, k);
  }

  /** Ids must be distinct for the one-row guard to keep a row: two rows
      sharing an id are removed together and leave an empty list. */
  lemma SharedIdEmptiesList()
    ensures var q := QuoteData("", "", "", "", [BlankItem("a"), BlankItem("a")]);
            RemoveService(q, "a").services == []
  {
    var s := [BlankItem("a"), BlankItem("a")];
    assert s[1..] == [BlankItem("a")];
    assert s[1..][1..] == [];
  }

  // --------------------------------------------------------- updateService

  /** `{ ...s, [field]: value }`. */
  function Edit(item: ServiceItem, v: FieldValue): ServiceItem
  {
    match v
    case Description(d) => item.(description := d)
    case Price(p) => item.(price := p)
  }

  /** `services.map(s => s.id === id ? { ...s, [field]: value } : s)`. */
  function UpdateItems(s: seq<ServiceItem>, id: string, v: FieldValue): (r: seq<ServiceItem>)
    ensures |r| == |s|
    ensures forall i | 0 <= i < |s| :: r[i].id == s[i].id
    ensures forall i | 0 <= i < |s| :: s[i].id != id ==> r[i] == s[i]
    ensures forall i | 0 <= i < |s| :: s[i].id == id ==> r[i] == Edit(s[i], v)
    ensures id !in Ids(s) ==> r == s
  {
    if s == [] then []
    else
      var head := if s[0].id == id then Edit(s[0], v) else s[0];
      var rest := UpdateItems(s[1..], id, v);
      assert id !in Ids(s) ==> id !in Ids(s[1..]) && s[0].id != id;
      [head] + rest
  }

  /** `updateService`: only the named field of the rows with that id changes;
      length, order and ids stay. */
  function UpdateService(q: QuoteData, id: string, v: FieldValue): (r: QuoteData)
    ensures r == q.(services := r.services)
    ensures |r.services| == |q.services|
    ensures forall i | 0 <= i < |q.services| :: r.services[i].id == q.services[i].id
    ensures forall i | 0 <= i < |q.services| && q.services[i].id == id ::
              match v
              case Description(d) => r.services[i].description == d && r.services[i].price == q.services[i].price
              case Price(p) => r.services[i].price == p && r.services[i].description == q.services[i].description
    ensures forall i | 0 <= i < |q.services| && q.services[i].id != id :: r.services[i] == q.services[i]
    ensures id !in Ids(q.services) ==> r == q
    ensures Valid(q) ==> Valid(r)
  {
    q.(services := UpdateItems(q.services, id, v))
  }

  /** A description edit leaves the total as it was. */
  lemma {:induction false} DescriptionEditKeepsTotal(s: seq<ServiceItem>, id: string, d: string)
    ensures Total(UpdateItems(s, id, Description(d))) == Total(s)
  {
    if s != [] {
      var v := Description(d);
      var r := UpdateItems(s, id, v);
      assert r == [r[0]] + r[1..];
      assert s == [s[0]] + s[1..];
      assert r[1..] == UpdateItems(s[1..], id, v);
      DescriptionEditKeepsTotal(s[1..], id, d);
      TotalCons(r[0], r[1..]);
      TotalCons(s[0], s[1..]);
    }
  }

  /** With distinct ids, setting the price of row k changes the total by the
      difference between the new and the old price. */
  lemma PriceEditTotal(s: seq<ServiceItem>, k: nat, p: Number)
    requires DistinctIds(s) && k < |s|
    ensures Total(UpdateItems(s, s[k].id, Price(p))) == Total(s) - OrZero(s[k].price) + OrZero(p)
  {
    var r := UpdateItems(s, s[k].id, Price(p));
    assert r == r[..k] + [r[k]] + r[k + 1..];
    assert r[..k] == s[..k];
    assert r[k + 1..] == s[k + 1..];
    TotalAppend(r[..k] + [r[k]], r[k + 1..]);
    TotalAppend(r[..k], [r[k]]);
    TotalCons(r[k], []);
    assert [r[k]] + [] == [r[k]];
    TotalWithout(s, k);
    TotalAppend(s[..k], s[k + 1..]);
  }

  // ------------------------------------------------------ top-level fields

  /** The four text inputs of the form. */
  datatype TextField = ProviderName | ProviderWhatsApp | PixKey | ClientName

  function GetText(q: QuoteData, f: TextField): string
  {
    match f
    case ProviderName => q.providerName
    case ProviderWhatsApp => q.providerWhatsApp
    case PixKey => q.pixKey
    case ClientName => q.clientName
  }

  /** `setData(p => ({ ...p, <field>: e.target.value }))`: the field takes the
      typed text, nothing else changes. */
  function SetText(q: QuoteData, f: TextField, text: string): (r: QuoteData)
    ensures GetText(r, f) == text
    ensures forall g :: g != f ==> GetText(r, g) == GetText(q, g)
    ensures r.services == q.services
  {
    match f
    case ProviderName => q.(providerName := text)
    case ProviderWhatsApp => q.(providerWhatsApp := text)
    case PixKey => q.(pixKey := text)
    case ClientName => q.(clientName := text)
  }

  // ------------------------------------------------------- editing sessions

  /** `onUpdate={updateService}` and `onRemove={removeService}`: a row's
      event reaches the store. */
  function Dispatch(q: QuoteData, e: RowEvent): QuoteData
  {
    match e
    case Update(id, v) => UpdateService(q, id, v)
    case Remove(id) => RemoveService(q, id)
  }

  /** An event raised by row k touches row k only: an update keeps every
      other row, a removal (on a list of two or more) drops row k alone. */
  lemma RowEventTouchesOnlyItsRow(q: QuoteData, k: nat, text: string, parsed: Number, e: RowEvent)
    requires Valid(q) && k < |q.services|
    requires var item := q.services[k];
             e == OnDescriptionChange(item, text) || e == OnPriceChange(item, parsed) || e == OnRemoveClick(item)
    ensures var r := Dispatch(q, e);
            if e.Update? then
              |r.services| == |q.services| && r.services[k].id == q.services[k].id &&
              forall j | 0 <= j < |q.services| && j != k :: r.services[j] == q.services[j]
            else if |q.services| == 1 then r == q
            else r.services == q.services[..k] + q.services[k + 1..]
  {
    if e.Remove? && |q.services| > 1 {
      RemoveServiceAt(q, k);
    }
  }

  /** Text typed into row k's description becomes that row's description
      as typed; its id and price, and the total, stay as they were. */
  lemma DescriptionEntryStoresText(q: QuoteData, k: nat, text: string)
    requires k < |q.services|
    ensures var r := Dispatch(q, OnDescriptionChange(q.services[k], text));
            r.services[k] == q.services[k].(description := text) &&
            Total(r.services) == Total(q.services)
  {
    DescriptionEditKeepsTotal(q.services, q.services[k].id, text);
  }

  /** A price typed into row k shows back in that row's input, a NaN or zero
      entry as a blank field. */
  lemma PriceEntryShowsBack(q: QuoteData, k: nat, parsed: Number)
    requires k < |q.services|
    ensures var r := Dispatch(q, OnPriceChange(q.services[k], parsed));
            ShownPrice(r.services[k].price) ==
              (if parsed.Num? && parsed.value != 0.0 then Shows(parsed.value) else Blank)
  {
    PriceRoundTrip(q.services[k], parsed);
  }

  /** What a user can do to the quote. */
  datatype Command = AddRow(freshId: string) | Row(event: RowEvent) | Type(field: TextField, text: string)

  /** Whether a command can run on q: a new row's id must be fresh. */
  predicate Runnable(q: QuoteData, c: Command)
  {
    c.AddRow? ==> c.freshId !in Ids(q.services)
  }

  function Apply(q: QuoteData, c: Command): QuoteData
    requires Runnable(q, c)
  {
    match c
    case AddRow(id) => AddService(q, id)
    case Row(e) => Dispatch(q, e)
    case Type(f, text) => SetText(q, f, text)
  }

  /** Every command of the session is runnable in the state it meets. */
  predicate Admissible(q: QuoteData, cmds: seq<Command>)
    decreases |cmds|
  {
    cmds == [] || (Runnable(q, cmds[0]) && Admissible(Apply(q, cmds[0]), cmds[1..]))
  }

  function Run(q: QuoteData, cmds: seq<Command>): QuoteData
    requires Admissible(q, cmds)
    decreases |cmds|
  {
    if cmds == [] then q else Run(Apply(q, cmds[0]), cmds[1..])
  }

  /** Every session keeps the store valid: at least one row always exists
      and ids stay distinct. */
  lemma {:induction false} RunKeepsValid(q: QuoteData, cmds: seq<Command>)
    requires Valid(q) && Admissible(q, cmds)
    ensures Valid(Run(q, cmds)) && |Run(q, cmds).services| >= 1
    decreases |cmds|
  {
    if cmds != [] {
      var q' := Apply(q, cmds[0]);
      assert Valid(q');
      RunKeepsValid(q', cmds[1..]);
    }
  }

  /** From the initial quote, add two rows and price them 10.5 and 20: the
      total is 30.5. */
  lemma TwoPricedRowsSession()
    ensures var cmds := [AddRow("b"), AddRow("c"),
                         Row(Update("b", Price(Num(10.5)))), Row(Update("c", Price(Num(20.0))))];
            Admissible(Initial("a"), cmds) &&
            Total(Run(Initial("a"), cmds).services) == 30.5
  {
    var c0, c1, c2, c3 := AddRow("b"), AddRow("c"), Row(Update("b", Price(Num(10.5)))), Row(Update("c", Price(Num(20.0))));
    var cmds := [c0, c1, c2, c3];
    var q0 := Initial("a");
    var q1, q2, q3, q4 := SessionSteps();
    assert cmds[1..] == [c1, c2, c3] && cmds[1..][1..] == [c2, c3] && cmds[1..][1..][1..] == [c3];
    assert [c3][1..] == [];
    assert Admissible(q3, [c3]) && Run(q3, [c3]) == q4;
    assert Admissible(q2, [c2, c3]) && Run(q2, [c2, c3]) == q4;
    assert Admissible(q1, [c1, c2, c3]) && Run(q1, [c1, c2, c3]) == q4;
    assert Admissible(q0, cmds) && Run(q0, cmds) == q4;
    SessionTotal(q4.services);
  }

  lemma SessionSteps() returns (q1: QuoteData, q2: QuoteData, q3: QuoteData, q4: QuoteData)
    ensures Runnable(Initial("a"), AddRow("b")) && q1 == Apply(Initial("a"), AddRow("b"))
    ensures Runnable(q1, AddRow("c")) && q2 == Apply(q1, AddRow("c"))
    ensures q3 == Apply(q2, Row(Update("b", Price(Num(10.5)))))
    ensures q4 == Apply(q3, Row(Update("c", Price(Num(20.0)))))
    ensures q4.services == [BlankItem("a"), BlankItem("b").(price := Num(10.5)), BlankItem("c").(price := Num(20.0))]
  {
    var q0 := Initial("a");
    assert "b" !in Ids(q0.services) by {
      assert q0.services == [BlankItem("a")];
    }
    q1 := AddService(q0, "b");
    assert "c" !in Ids(q1.services) by {
      assert q1.services == [BlankItem("a"), BlankItem("b")];
    }
    q2 := AddService(q1, "c");
    var s2 := [BlankItem("a"), BlankItem("b"), BlankItem("c")];
    assert q2.services == s2;
    q3 := UpdateService(q2, "b", Price(Num(10.5)));
    var s3 := [BlankItem("a"), BlankItem("b").(price := Num(10.5)), BlankItem("c")];
    UpdateAtIndexOne(s2, s3, q3.services, "b", Num(10.5));
    q4 := UpdateService(q3, "c", Price(Num(20.0)));
    var s4 := [BlankItem("a"), BlankItem("b").(price := Num(10.5)), BlankItem("c").(price := Num(20.0))];
    UpdateAtIndexTwo(s3, s4, q4.services, "c", Num(20.0));
  }

  lemma UpdateAtIndexOne(s: seq<ServiceItem>, t: seq<ServiceItem>, r: seq<ServiceItem>, id: string, p: Number)
    requires |s| == 3 && s[0].id != id && s[1].id == id && s[2].id != id
    requires r == UpdateItems(s, id, Price(p))
    requires t == [s[0], s[1].(price := p), s[2]]
    ensures r == t
  {
  }

  lemma UpdateAtIndexTwo(s: seq<ServiceItem>, t: seq<ServiceItem>, r: seq<ServiceItem>, id: string, p: Number)
    requires |s| == 3 && s[0].id != id && s[1].id != id && s[2].id == id
    requires r == UpdateItems(s, id, Price(p))
    requires t == [s[0], s[1], s[2].(price := p)]
    ensures r == t
  {
  }

  lemma SessionTotal(s: seq<ServiceItem>)
    requires s == [BlankItem("a"), BlankItem("b").(price := Num(10.5)), BlankItem("c").(price := Num(20.0))]
    ensures Total(s) == 30.5
  {
    var s1, s2 := s[..1], s[..2];
    assert s1[..0] == [] && s2[..1] == s1 && s[..2] == s2;
    assert Total(s1) == 0.0;
    assert Total(s2) == 10.5;
  }
}
