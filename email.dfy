/** The order e-mails of src/lib/email.js: what `sendOrderConfirmation`
    and `sendInvoiceWithPDF` put into the message they hand to the mail
    transport. The message is a record of its fields; its HTML body is the
    sequence of the sections it shows, in document order, with the values
    each one interpolates. Amounts are exact reals. */
module OrderEmail {
  import opened Js

  /** `order.shippingAddress`; every component may be missing. */
  datatype Address = Address(
    street: Option<string>,
    street2: Option<string>,
    city: Option<string>,
    state: Option<string>,
    zip: Option<string>)

  datatype Item = Item(name: string, quantity: int, price: real)

  /** The fields of an order the messages read. `id` is `order._id?.toString()`. */
  datatype Order = Order(
    id: Option<string>,
    email: string,
    title: Option<string>,
    firstName: string,
    lastName: string,
    phone: Option<string>,
    shippingAddress: Option<Address>,
    items: seq<Item>,
    subtotal: real,
    processingFee: Option<real>,
    shippingCost: Option<real>,
    shippingOption: Option<string>,
    total: real,
    notes: Option<string>)

  /** The PDF buffer, passed through untouched. */
  type Bytes = seq<bv8>

  datatype Attachment = Attachment(filename: string, content: Bytes, contentType: string)

  datatype ItemRow = ItemRow(name: string, quantity: int, price: real)

  /** The parts of a message body. */
  datatype Section =
    | Banner(tagline: Option<string>)
    | ThankYou
    | Customer(name: string, email: string, phone: string)
    | ShippingTo(lines: seq<string>)
    | Items(rows: seq<ItemRow>)
    | Subtotal(amount: real)
    | ProcessingFee(amount: real)
    | ShippingCharge(caption: string, amount: real)
    | Total(amount: real)
    | Notes(text: string)
    | Disclaimer
    | InvoiceAttached(number: string, total: real)
    | Contact(address: string)
    | Footer(text: string)

  /** The `mailOptions` handed to the transport. */
  datatype Mail = Mail(
    from: string,
    to: string,
    subject: string,
    body: seq<Section>,
    attachments: seq<Attachment>)

  const SenderName := "BioVibe Peptides"
  const SupportAddress := "support@biovibepeptides.com"
  /** The pieces of the two subject lines. */
  const OrderPrefix := "Order "
  const InvoicePrefix := "Invoice #"
  const BrandSuffix := " - BioVibe Peptides"
  const ResentSuffix := " (Resent)"
  const Copyright := "\U{A9} 2024 BioVibe Peptides. All rights reserved."

  /** The sender line, built around the configured mail account. */
  function FromLine(account: string): string {
    "\"" + SenderName + "\" <" + account + ">"
  }

  /** The sender line is the quoted sender name, then the account in angle brackets. */
  lemma FromLineShape(account: string)
    ensures var line := FromLine(account);
      |line| == |SenderName| + |account| + 5 &&
      line[..|SenderName| + 2] == "\"" + SenderName + "\"" &&
      line[|SenderName| + 2..|SenderName| + 4] == " <" &&
      line[|SenderName| + 4..|line| - 1] == account &&
      line[|line| - 1] == '>'
  {
    var quoted := "\"" + SenderName + "\"";
    assert FromLine(account) == quoted + " <" + account + ">";
    assert FromLine(account)[..|quoted|] == quoted;
  }

  // ------------------------------------------------------------ derived values

  /** `order._id?.toString().slice(-8).toUpperCase() || 'PENDING'`. */
  function OrderNumber(id: Option<string>): (n: string)
    ensures id.None? || id.value == "" ==> n == "PENDING"
    ensures id.Some? && id.value != "" ==>
      |n| == (if |id.value| < 8 then |id.value| else 8) &&
      forall i :: 0 <= i < |n| ==> n[i] == UpperChar(id.value[|id.value| - |n| + i])
  {
    var suffix := match id case None => None case Some(s) => Some(Upper(SliceLast(s, 8)));
    OrElse(suffix, "PENDING")
  }

  /** The order number is never empty and never longer than eight characters. */
  lemma OrderNumberShape(id: Option<string>)
    ensures 0 < |OrderNumber(id)| <= 8
  {
  }

  function OrEmpty(a: Option<Address>): Address {
    match a
    case Some(x) => x
    case None => Address(None, None, None, None, None)
  }

  /** `[city, state, zip].filter(Boolean).join(', ')`. */
  function CityLine(a: Address): (line: string)
    ensures line == "" <==> !Truthy(a.city) && !Truthy(a.state) && !Truthy(a.zip)
  {
    var xs := [a.city, a.state, a.zip];
    assert xs[0] == a.city && xs[1] == a.state && xs[2] == a.zip;
    var parts := Compact(xs);
    assert parts != [] ==> parts[0] != "";
    Join(", ", parts)
  }

  /** `addressParts`: street, street2 and the city line, the empty ones dropped. */
  function AddressLines(a: Option<Address>): (lines: seq<string>)
    ensures |lines| <= 3
    ensures forall i :: 0 <= i < |lines| ==> lines[i] != ""
    ensures |lines| > 0 <==>
      var x := OrEmpty(a);
      Truthy(x.street) || Truthy(x.street2) || Truthy(x.city) || Truthy(x.state) || Truthy(x.zip)
  {
    var x := OrEmpty(a);
    var xs := [x.street, x.street2, Some(CityLine(x))];
    assert xs[0] == x.street && xs[1] == x.street2 && xs[2] == Some(CityLine(x));
    Compact(xs)
  }

  /** The lines come in the order street, street2, city line. */
  lemma AddressLinesOrder(a: Option<Address>)
    ensures var x := OrEmpty(a);
      AddressLines(a) ==
        (if Truthy(x.street) then [x.street.value] else []) +
        (if Truthy(x.street2) then [x.street2.value] else []) +
        (if CityLine(x) != "" then [CityLine(x)] else [])
  {
    var x := OrEmpty(a);
    CompactThree(x.street, x.street2, Some(CityLine(x)));
  }

  /** The city line is the present ones of city, state and zip, in that
      order, joined by ", ". */
  lemma CityLineText(a: Address)
    ensures CityLine(a) == Join(", ", Kept(a.city) + Kept(a.state) + Kept(a.zip))
  {
    CompactThree(a.city, a.state, a.zip);
  }

  /** With all three present the line reads "city, state, zip". */
  lemma CityLineAllParts(a: Address)
    requires Truthy(a.city) && Truthy(a.state) && Truthy(a.zip)
    ensures CityLine(a) == a.city.value + ", " + a.state.value + ", " + a.zip.value
  {
    CityLineText(a);
    var c, s, z := a.city.value, a.state.value, a.zip.value;
    assert [c] + [s] + [z] == [c, s] + [z];
    JoinAppend(", ", [c, s], z);
    assert [c, s] == [c] + [s];
    JoinAppend(", ", [c], s);
  }

  /** A missing middle part is skipped together with its separator. */
  lemma CityLineWithoutState(a: Address)
    requires Truthy(a.city) && !Truthy(a.state) && Truthy(a.zip)
    ensures CityLine(a) == a.city.value + ", " + a.zip.value
  {
    CityLineText(a);
    var c, z := a.city.value, a.zip.value;
    assert [c] + [] + [z] == [c] + [z];
    JoinAppend(", ", [c], z);
  }

  /** `order.processingFee || (order.subtotal * 0.05)`. */
  function Fee(o: Order): (fee: real)
    ensures o.processingFee.Some? && o.processingFee.value != 0.0 ==> fee == o.processingFee.value
    ensures o.processingFee.None? || o.processingFee.value == 0.0 ==> fee == o.subtotal * 5.0 / 100.0
  {
    RealOr(o.processingFee, o.subtotal * 0.05)
  }

  /** `order.shippingCost || 0`. */
  function ShippingCost(o: Order): (cost: real)
    ensures o.shippingCost.Some? ==> cost == o.shippingCost.value
    ensures o.shippingCost.None? ==> cost == 0.0
  {
    RealOr(o.shippingCost, 0.0)
  }

  /** The caption of the shipping row: the option in brackets only when there is one. */
  function ShippingLabel(o: Order): (caption: string)
    ensures Truthy(o.shippingOption) ==> caption == "Shipping (" + o.shippingOption.value + ")"
    ensures !Truthy(o.shippingOption) ==> caption == "Shipping"
  {
    "Shipping" + (if Truthy(o.shippingOption) then " (" + o.shippingOption.value + ")" else "")
  }

  /** The Name row: the title and a space only when there is a title. */
  function CustomerName(o: Order): (name: string)
    ensures Truthy(o.title) ==> name == o.title.value + " " + o.firstName + " " + o.lastName
    ensures !Truthy(o.title) ==> name == o.firstName + " " + o.lastName
  {
    (if Truthy(o.title) then o.title.value + " " else "") + o.firstName + " " + o.lastName
  }

  /** `order.items.map(...)`: one row per item, in order. */
  function ItemRows(items: seq<Item>): (rows: seq<ItemRow>)
    ensures |rows| == |items|
    ensures forall i :: 0 <= i < |items| ==>
      rows[i] == ItemRow(items[i].name, items[i].quantity, items[i].price)
  {
    seq(|items|, i requires 0 <= i < |items| => ItemRow(items[i].name, items[i].quantity, items[i].price))
  }

  // ------------------------------------------------------------ the messages

  const Tagline := "Private Secure Order Invoice"
  const NoPhone := "Not provided"
  const Closing := [Disclaimer, Contact(SupportAddress), Footer(Copyright)]

  /** The header, the thank-you and the customer information. */
  function Opening(o: Order): seq<Section> {
    [Banner(Some(Tagline)), ThankYou, Customer(CustomerName(o), o.email, OrElse(o.phone, NoPhone))]
  }

  /** The Shipping row, only when some address line is left. */
  function AddressPart(o: Order): (part: seq<Section>)
    ensures forall s :: s in part ==> s.ShippingTo?
  {
    var lines := AddressLines(o.shippingAddress);
    if |lines| > 0 then [ShippingTo(lines)] else []
  }

  /** The shipping charge row, only when the cost is positive. */
  function ShippingPart(o: Order): (part: seq<Section>)
    ensures forall s :: s in part ==> s.ShippingCharge?
  {
    var cost := ShippingCost(o);
    if cost > 0.0 then [ShippingCharge(ShippingLabel(o), cost)] else []
  }

  /** The order details: items, subtotal, fee, shipping and total. */
  function Charges(o: Order): seq<Section> {
    [Items(ItemRows(o.items)), Subtotal(o.subtotal), ProcessingFee(Fee(o))] + ShippingPart(o) + [Total(o.total)]
  }

  /** The notes box, only when there are notes. */
  function NotesPart(o: Order): (part: seq<Section>)
    ensures forall s :: s in part ==> s.Notes?
  {
    if Truthy(o.notes) then [Notes(o.notes.value)] else []
  }

  function ConfirmationBody(o: Order): seq<Section> {
    Opening(o) + AddressPart(o) + Charges(o) + NotesPart(o) + Closing
  }

  /** `sendOrderConfirmation(order)`, up to the hand-over to the transport. */
  function Confirmation(o: Order, account: string): (m: Mail)
    ensures m.from == FromLine(account) && m.to == o.email
    ensures m.subject == OrderPrefix + InvoicePrefix + OrderNumber(o.id) + BrandSuffix
    ensures m.attachments == []
  {
    Mail(FromLine(account), o.email,
         OrderPrefix + InvoicePrefix + OrderNumber(o.id) + BrandSuffix,
         ConfirmationBody(o), [])
  }

  /** The opening and closing parts hold none of the conditional sections. */
  lemma FixedPartsHoldNoVariableSection(o: Order)
    ensures forall s :: s in Opening(o) + Closing ==>
      !s.Items? && !s.ShippingTo? && !s.ShippingCharge? && !s.Notes?
  {
  }

  /** The confirmation lists every item, in order, in one Order Details table. */
  lemma ConfirmationItems(o: Order, account: string)
    ensures var b := Confirmation(o, account).body;
      Items(ItemRows(o.items)) in b &&
      forall s :: s in b && s.Items? ==> s.rows == ItemRows(o.items)
  {
    FixedPartsHoldNoVariableSection(o);
    ChargesHoldTheItems(o);
  }

  lemma ChargesHoldTheItems(o: Order)
    ensures Items(ItemRows(o.items)) in Charges(o)
    ensures forall s :: s in Charges(o) && s.Items? ==> s == Items(ItemRows(o.items))
  {
  }

  /** The subtotal, the processing fee and the total are always shown. */
  lemma ConfirmationTotals(o: Order, account: string)
    ensures var b := Confirmation(o, account).body;
      Subtotal(o.subtotal) in b && ProcessingFee(Fee(o)) in b && Total(o.total) in b
  {
    var c := Charges(o);
    assert c[1] == Subtotal(o.subtotal) && c[2] == ProcessingFee(Fee(o));
    assert c[|c| - 1] == Total(o.total);
  }

  /** The message opens with the header, the thank-you and the customer
      row: the name as `CustomerName` gives it, the order's e-mail, and the
      phone or "Not provided" (NoPhone). */
  lemma ConfirmationOpening(o: Order, account: string)
    ensures var b := Confirmation(o, account).body;
      |b| >= 3 && b[0] == Banner(Some(Tagline)) && b[1] == ThankYou &&
      b[2] == Customer(CustomerName(o), o.email, OrElse(o.phone, NoPhone))
  {
    FrontOfBody(Opening(o), AddressPart(o), Charges(o), NotesPart(o), Closing);
  }

  /** The first three sections of a five-part body are those of its first part. */
  lemma FrontOfBody(a: seq<Section>, b: seq<Section>, c: seq<Section>, d: seq<Section>, e: seq<Section>)
    requires |a| == 3
    ensures var s := a + b + c + d + e; |s| >= 3 && s[0] == a[0] && s[1] == a[1] && s[2] == a[2]
  {
  }

  /** The message closes with the disclaimer, the contact line and the footer. */
  lemma ConfirmationClosing(o: Order, account: string)
    ensures var b := Confirmation(o, account).body;
      |b| >= 3 && b[|b| - 3..] == [Disclaimer, Contact(SupportAddress), Footer(Copyright)]
  {
    var b := Confirmation(o, account).body;
    var front := Opening(o) + AddressPart(o) + Charges(o) + NotesPart(o);
    assert b == front + Closing;
    assert b[|front|..] == Closing;
  }

  /** The Shipping row appears exactly when some address component is set,
      and it lists the address lines. */
  lemma ConfirmationAddress(o: Order, account: string)
    ensures var b := Confirmation(o, account).body;
      var lines := AddressLines(o.shippingAddress);
      (|lines| > 0 ==> ShippingTo(lines) in b) &&
      (|lines| == 0 ==> forall s :: s in b ==> !s.ShippingTo?)
  {
    FixedPartsHoldNoVariableSection(o);
    SectionsOfBody(Opening(o), AddressPart(o), Charges(o), NotesPart(o), Closing);
  }

  /** The shipping charge row appears exactly when the shipping cost is
      positive, with the shipping option in its caption. */
  lemma ConfirmationShipping(o: Order, account: string)
    ensures var b := Confirmation(o, account).body;
      (ShippingCost(o) > 0.0 ==> ShippingCharge(ShippingLabel(o), ShippingCost(o)) in b) &&
      (ShippingCost(o) <= 0.0 ==> forall s :: s in b ==> !s.ShippingCharge?)
  {
    FixedPartsHoldNoVariableSection(o);
    SectionsOfBody(Opening(o), AddressPart(o), Charges(o), NotesPart(o), Closing);
  }

  /** The notes box appears exactly when the order has notes. */
  lemma ConfirmationNotes(o: Order, account: string)
    ensures var b := Confirmation(o, account).body;
      (Truthy(o.notes) ==> Notes(o.notes.value) in b) &&
      (!Truthy(o.notes) ==> forall s :: s in b ==> !s.Notes?)
  {
    var rest := Opening(o) + AddressPart(o) + Charges(o);
    ChargesKinds(o);
    FixedPartsHoldNoVariableSection(o);
    NoteSections(rest, NotesPart(o), Closing);
  }

  /** Only the notes part can hold a Notes section. */
  lemma NoteSections(rest: seq<Section>, notes: seq<Section>, closing: seq<Section>)
    requires forall s :: s in rest ==> !s.Notes?
    requires forall s :: s in closing ==> !s.Notes?
    ensures forall s :: s in rest + notes + closing && s.Notes? ==> s in notes
    ensures forall s :: s in notes ==> s in rest + notes + closing
  {
  }

  /** The order details hold only the items, the amounts and the shipping charge. */
  lemma ChargesKinds(o: Order)
    ensures forall s :: s in Charges(o) ==>
      s.Items? || s.Subtotal? || s.ProcessingFee? || s.ShippingCharge? || s.Total?
  {
  }

  /** A section of a five-part body is a section of one of its parts. */
  lemma SectionsOfBody(a: seq<Section>, b: seq<Section>, c: seq<Section>, d: seq<Section>, e: seq<Section>)
    ensures forall s :: s in a + b + c + d + e <==> s in a || s in b || s in c || s in d || s in e
  {
  }

  /** `sendInvoiceWithPDF(order, pdfBuffer)`, up to the hand-over to the transport. */
  function Invoice(o: Order, pdf: Bytes, account: string): (m: Mail)
    ensures m.from == FromLine(account) && m.to == o.email
    ensures m.subject == InvoicePrefix + OrderNumber(o.id) + BrandSuffix + ResentSuffix
    ensures |m.attachments| == 1
    ensures m.attachments[0].filename == "BioVibe_Invoice_" + OrderNumber(o.id) + ".pdf"
    ensures m.attachments[0].content == pdf
    ensures m.attachments[0].contentType == "application/pdf"
    ensures InvoiceAttached(OrderNumber(o.id), o.total) in m.body
  {
    var n := OrderNumber(o.id);
    Mail(FromLine(account), o.email,
         InvoicePrefix + n + BrandSuffix + ResentSuffix,
         [Banner(None), InvoiceAttached(n, o.total), Contact(SupportAddress), Footer(Copyright)],
         [Attachment("BioVibe_Invoice_" + n + ".pdf", pdf, "application/pdf")])
  }

  /** Both messages carry the same order number: the confirmation's
      subject is the invoice's with "Order " in front and without the
      " (Resent)" ending. */
  lemma SubjectsShareOrderNumber(o: Order, pdf: Bytes, account: string)
    ensures var inv := Invoice(o, pdf, account).subject;
      |inv| >= |ResentSuffix| &&
      Confirmation(o, account).subject == OrderPrefix + inv[..|inv| - |ResentSuffix|]
  {
    SubjectPieces(OrderNumber(o.id));
  }

  lemma SubjectPieces(n: string)
    ensures var inv := InvoicePrefix + n + BrandSuffix + ResentSuffix;
      |inv| >= |ResentSuffix| &&
      OrderPrefix + InvoicePrefix + n + BrandSuffix == OrderPrefix + inv[..|inv| - |ResentSuffix|]
  {
    var head := InvoicePrefix + n + BrandSuffix;
    assert (head + ResentSuffix)[..|head|] == head;
  }
}
