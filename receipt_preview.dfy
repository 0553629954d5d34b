/** The receipt preview (components/ReceiptPreview.tsx): a pure projection of
    the quote into what the receipt shows. Amounts stay numbers here; the
    currency text `formatBRL` makes of them is not part of this model. */
module ReceiptPreview {
  import opened Types
  import QuoteStore

  /** One itemised line: its label and the price shown beside it. */
  datatype Line = Line(text: string, amount: Number)

  /** The "talk to the provider" link at the foot of the receipt. */
  datatype Contact = Contact(href: string, caption: string)

  datatype Receipt = Receipt(
    provider: string,
    pix: Option<string>,
    client: string,
    lines: seq<Line>,
    total: real,
    contact: Option<Contact>)

  // ------------------------------------------------------ decimal numerals

  function DigitChar(d: nat): char
    requires d < 10
  {
    "0123456789"[d]
  }

  function DigitValue(c: char): nat
  {
    if '0' <= c <= '9' then (c as int - '0' as int) as nat else 0
  }

  /** The decimal text of n, as a template literal prints a number. */
  function Decimal(n: nat): (r: string)
    ensures r != []
    ensures forall i | 0 <= i < |r| :: '0' <= r[i] <= '9'
    ensures n > 0 ==> r[0] != '0'
  {
    if n < 10 then [DigitChar(n)] else Decimal(n / 10) + [DigitChar(n % 10)]
  }

  /** The value of a text of decimal digits. */
  function ValueOf(s: string): nat
  {
    if s == [] then 0 else 10 * ValueOf(s[..|s| - 1]) + DigitValue(s[|s| - 1])
  }

  /** Reading back the decimal text of n gives n. */
  lemma {:induction false} DecimalRoundTrip(n: nat)
    ensures ValueOf(Decimal(n)) == n
  {
    var r := Decimal(n);
    if n < 10 {
      assert r[..0] == [];
    } else {
      DecimalRoundTrip(n / 10);
      assert r[..|r| - 1] == Decimal(n / 10);
    }
  }

  // ---------------------------------------------------------------- labels

  const Placeholder := "Serviço Extra #"

  /** `service.description || \`Serviço Extra #${idx + 1}\``. */
  function Label(item: ServiceItem, idx: nat): (r: string)
    ensures r != ""
    ensures item.description != "" ==> r == item.description
    ensures item.description == "" ==> r == Placeholder + Decimal(idx + 1)
  {
    OrElse(item.description, Placeholder + Decimal(idx + 1))
  }

  /** Rows without a description at different positions get different
      labels: the placeholder number is the 1-based position. */
  lemma PlaceholdersDistinct(a: ServiceItem, b: ServiceItem, i: nat, j: nat)
    requires a.description == "" && b.description == "" && i != j
    ensures Label(a, i) != Label(b, j)
  {
    if Label(a, i) == Label(b, j) {
      assert Decimal(i + 1) == Label(a, i)[|Placeholder|..];
      assert Decimal(j + 1) == Label(b, j)[|Placeholder|..];
      DecimalRoundTrip(i + 1);
      DecimalRoundTrip(j + 1);
    }
  }

  /** `data.services.map((service, idx) => …)`, idx counted from start. */
  function LinesFrom(s: seq<ServiceItem>, start: nat): (r: seq<Line>)
    ensures |r| == |s|
    ensures forall i | 0 <= i < |s| :: r[i] == Line(Label(s[i], start + i), s[i].price)
  {
    if s == [] then [] else [Line(Label(s[0], start), s[0].price)] + LinesFrom(s[1..], start + 1)
  }

  /** The sum of the shown line amounts, each falsy amount counted as 0. */
  function SumLines(ls: seq<Line>): real
  {
    if ls == [] then 0.0 else OrZero(ls[0].amount) + SumLines(ls[1..])
  }

  /** The lines add up to the store's total. */
  lemma {:induction false} LinesAddUp(s: seq<ServiceItem>, start: nat)
    ensures SumLines(LinesFrom(s, start)) == QuoteStore.Total(s)
  {
    if s != [] {
      LinesAddUp(s[1..], start + 1);
      QuoteStore.TotalCons(s[0], s[1..]);
      assert [s[0]] + s[1..] == s;
    }
  }

  // ------------------------------------------------------------ first name

  /** `name.split(' ')[0]`: the text before the first space. */
  function FirstWord(name: string): (r: string)
    ensures |r| <= |name| && r == name[..|r|]
    ensures ' ' !in r
    ensures |r| < |name| ==> name[|r|] == ' '
  {
    if name == [] || name[0] == ' ' then [] else [name[0]] + FirstWord(name[1..])
  }

  /** The prefix FirstWord describes is the only one: FirstWord is exactly
      the text up to the first space. */
  lemma {:induction false} FirstWordUnique(name: string, w: string)
    requires |w| <= |name| && w == name[..|w|] && ' ' !in w
    requires |w| < |name| ==> name[|w|] == ' '
    ensures w == FirstWord(name)
  {
    if name != [] && name[0] != ' ' {
      assert |w| > 0;
      assert w[0] == name[0];
      FirstWordUnique(name[1..], w[1..]);
    }
  }

  /** The contact button's name: the first word, or `Prestador`. */
  function ContactName(providerName: string): (r: string)
    ensures r != "" && ' ' !in r
    ensures FirstWord(providerName) != "" ==> r == FirstWord(providerName)
  {
    OrElse(FirstWord(providerName), "Prestador")
  }

  // --------------------------------------------------------------- receipt

  /** The receipt for a quote; `cleanNumber` stands for
      `cleanWhatsAppNumber`, whose definition is not part of this model. */
  function Render(q: QuoteData, cleanNumber: string -> string): (r: Receipt)
    ensures r.provider == OrElse(q.providerName, "Seu Nome Aqui") && r.provider != ""
    ensures r.client == OrElse(q.clientName, "Nome do Cliente") && r.client != ""
    ensures r.pix.Some? <==> q.pixKey != ""
    ensures r.pix.Some? ==> r.pix.value == q.pixKey
    ensures |r.lines| == |q.services|
    ensures forall i | 0 <= i < |q.services| ::
              r.lines[i].text == Label(q.services[i], i) && r.lines[i].amount == q.services[i].price
    ensures r.total == SumLines(r.lines)
    ensures r.contact.Some? <==> q.providerWhatsApp != ""
    ensures r.contact.Some? ==>
              r.contact.value.href == "https://wa.me/" + cleanNumber(q.providerWhatsApp) &&
              r.contact.value.caption == "Falar com " + ContactName(q.providerName)
  {
    var lines := LinesFrom(q.services, 0);
    LinesAddUp(q.services, 0);
    Receipt(
      OrElse(q.providerName, "Seu Nome Aqui"),
      if q.pixKey != "" then Some(q.pixKey) else None,
      OrElse(q.clientName, "Nome do Cliente"),
      lines,
      QuoteStore.Total(q.services),
      if q.providerWhatsApp != ""
      then Some(Contact("https://wa.me/" + cleanNumber(q.providerWhatsApp), "Falar com " + ContactName(q.providerName)))
      else None)
  }

  /** The receipt's total is the editor's total for the same quote. */
  lemma ReceiptTotalMatchesEditor(q: QuoteData, cleanNumber: string -> string)
    ensures Render(q, cleanNumber).total == QuoteStore.Total(q.services)
  {
    LinesAddUp(q.services, 0);
  }
}
