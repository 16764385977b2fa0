/**
 * The invoice preview page: the `data` record read from the query string, the
 * display helpers, the VAT and total choices, the e-mail draft and the ordered
 * decision of the "send e-invoice" button.
 */
module PreviewPage {
  import opened Optional
  import opened Text
  import opened FormModel
  import ManualPage

  /** The page's `data` record: a trimmed string per listed key. */
  type Data = map<string, string>

  /** `sp.get(k)`: a query parameter, or `null` when it is absent. */
  function Param(q: Query, k: string): Option<string> {
    if k in q then Some(q[k]) else None
  }

  /** `safe`: `null` becomes the empty string, and the value is trimmed. */
  function Safe(v: Option<string>): string {
    Trim(v.GetOr(""))
  }

  /** `safe` maps a missing parameter to "" and leaves a value with no surrounding whitespace. */
  lemma SafeValue(v: Option<string>)
    ensures v.None? ==> Safe(v) == ""
    ensures v.Some? ==> Safe(v) == Trim(v.value)
    ensures Trimmed(Safe(v))
  {
    if v.None? {
      assert TrimStart("") == "";
    }
  }

  /** The keys the page reads: the manual builder's fields and the pasted notes. */
  const PreviewKeys: seq<string> := ManualPage.ManualKeys + ["sourceNotes"]

  /** A key of one of the groups is read by the page. */
  lemma GroupKeyIsRead(k: string)
    requires k in FlagKeys || k in SellerKeys || k in ManualPage.BuyerKeys || k in ManualPage.InvoiceKeys
      || k in ManualPage.AmountKeys || k in PaymentKeys || k in NoteKeys || k == "sourceNotes"
    ensures k in PreviewKeys
  {
  }

  /** A key in none of the groups is not read by the page. */
  lemma OtherKeyIsNotRead(k: string)
    requires k !in FlagKeys && k !in SellerKeys && k !in ManualPage.BuyerKeys && k !in ManualPage.InvoiceKeys
    requires k !in ManualPage.AmountKeys && k !in PaymentKeys && k !in NoteKeys && k != "sourceNotes"
    ensures k !in PreviewKeys
  {
  }

  /** The record the `forEach` over `keys` builds from the query `q`. */
  function DataOf(keys: seq<string>, q: Query): Data {
    map k | k in keys :: Safe(Param(q, k))
  }

  /** The page's `data`. */
  function PreviewData(q: Query): Data {
    DataOf(PreviewKeys, q)
  }

  /** The `forEach` writing `out[k] = safe(sp.get(k))` for each key in turn. */
  method BuildData(keys: seq<string>, q: Query) returns (out: Data)
    ensures out == DataOf(keys, q)
  {
    out := map[];
    var i := 0;
    while i < |keys|
      invariant 0 <= i <= |keys|
      invariant forall k :: k in out <==> k in keys[..i]
      invariant forall k :: k in out ==> out[k] == Safe(Param(q, k))
    {
      assert keys[..i + 1] == keys[..i] + [keys[i]];
      out := out[keys[i] := Safe(Param(q, keys[i]))];
      i := i + 1;
    }
    assert keys[..i] == keys;
  }

  /** Every value of the record is free of surrounding whitespace. */
  predicate DataTrimmed(d: Data) {
    forall k :: k in d ==> Trimmed(d[k])
  }

  /** The record has exactly the listed keys; each is the trimmed parameter, or "" when absent. */
  lemma DataOfContents(keys: seq<string>, q: Query)
    ensures var d := DataOf(keys, q);
      (forall k :: k in d <==> k in keys)
      && (forall k :: k in d && k in q ==> d[k] == Trim(q[k]))
      && (forall k :: k in d && k !in q ==> d[k] == "")
      && DataTrimmed(d)
  {
    var d := DataOf(keys, q);
    forall k | k in d
      ensures Trimmed(d[k])
    {
      SafeValue(Param(q, k));
    }
  }

  /** Reading a listed key of the record; a key that is not listed reads as "". */
  function At(d: Data, k: string): string {
    if k in d then d[k] else ""
  }

  lemma AtTrimmed(d: Data, k: string)
    requires DataTrimmed(d)
    ensures Trimmed(At(d, k))
  {
  }

  /** JavaScript's `a || b` on two strings. */
  function Or(a: string, b: string): (r: string)
    ensures a != "" ==> r == a
    ensures a == "" ==> r == b
  {
    if a != "" then a else b
  }

  /** `textOrMissing`: the value, or the fallback when it is empty. */
  function TextOrMissing(value: string, fallback: string): (r: string)
    ensures r == value || r == fallback
    ensures r == "" <==> value == "" && fallback == ""
  {
    Or(value, fallback)
  }

  /** `moneyLine`: the fallback for an empty value, else currency and value, trimmed. */
  function MoneyLine(currency: string, value: string, fallback: string): string {
    if value == "" then fallback else Trim(currency + " " + value)
  }

  /** A currency and an amount that are already trimmed, shown with one space between them. */
  function Priced(currency: string, value: string): string {
    if currency == "" then value else currency + " " + value
  }

  /** Two trimmed, non-empty words joined by a space are trimmed. */
  lemma SpacedIsTrimmed(currency: string, value: string)
    requires Trimmed(currency) && Trimmed(value) && currency != "" && value != ""
    ensures Trim(currency + " " + value) == currency + " " + value
  {
    var s := currency + " " + value;
    assert s[0] == currency[0];
    assert s[|s| - 1] == value[|value| - 1];
    TrimOfTrimmed(s);
  }

  /** On trimmed input, `moneyLine` is the fallback for an empty value and otherwise the priced amount. */
  lemma MoneyLineOfTrimmed(currency: string, value: string, fallback: string)
    requires Trimmed(currency) && Trimmed(value)
    ensures value == "" ==> MoneyLine(currency, value, fallback) == fallback
    ensures value != "" ==> MoneyLine(currency, value, fallback) == Priced(currency, value)
  {
    if value != "" {
      if currency == "" {
        assert currency + " " + value == " " + value;
        TrimAfterSpace(value);
      } else {
        SpacedIsTrimmed(currency, value);
      }
    }
  }

  /** The `filter(Boolean)` of `joinParts`: the non-empty parts, and all of them. */
  function NonEmptyParts(parts: seq<string>): (r: seq<string>)
    ensures |r| <= |parts|
    ensures forall i :: 0 <= i < |r| ==> r[i] != "" && r[i] in parts
    ensures forall p :: p in parts && p != "" ==> p in r
    ensures r == [] <==> forall i :: 0 <= i < |parts| ==> parts[i] == ""
  {
    if parts == [] then []
    else if parts[0] == "" then NonEmptyParts(parts[1..])
    else [parts[0]] + NonEmptyParts(parts[1..])
  }

  /** Filtering keeps order and repeats: filtering a concatenation concatenates the filtered halves. */
  lemma {:induction false} NonEmptyPartsConcat(a: seq<string>, b: seq<string>)
    ensures NonEmptyParts(a + b) == NonEmptyParts(a) + NonEmptyParts(b)
    decreases |a|
  {
    if a == [] {
      assert a + b == b;
    } else {
      assert (a + b)[0] == a[0];
      assert (a + b)[1..] == a[1..] + b;
      NonEmptyPartsConcat(a[1..], b);
    }
  }

  /** A single part survives exactly when it is non-empty. */
  lemma NonEmptyPartsSingle(p: string)
    ensures NonEmptyParts([p]) == if p == "" then [] else [p]
  {
  }

  /** `joinParts`: the non-empty parts joined with ", ". */
  function JoinParts(parts: seq<string>): string {
    Join(NonEmptyParts(parts), ", ")
  }

  /** A join whose first part is non-empty is non-empty. */
  lemma JoinStartsWithFirst(parts: seq<string>, sep: string)
    requires parts != []
    ensures parts[0] <= Join(parts, sep)
  {
  }

  /** Two non-empty parts around empty ones are joined by exactly one ", ". */
  lemma JoinPartsAroundEmpty(a: string, b: string, empties: seq<string>)
    requires a != "" && b != "" && forall i :: 0 <= i < |empties| ==> empties[i] == ""
    ensures JoinParts([a] + empties + [b]) == a + ", " + b
  {
    NonEmptyPartsConcat([a] + empties, [b]);
    NonEmptyPartsConcat([a], empties);
    NonEmptyPartsSingle(a);
    NonEmptyPartsSingle(b);
    assert NonEmptyParts(empties) == [];
    assert NonEmptyParts([a] + empties + [b]) == [a, b];
    assert Join([a, b], ", ") == a + ", " + Join([b], ", ");
  }

  /** `joinParts` gives "" exactly when every part is empty, and is a single part when only one is present. */
  lemma JoinPartsEmptyIff(parts: seq<string>)
    ensures JoinParts(parts) == "" <==> forall i :: 0 <= i < |parts| ==> parts[i] == ""
  {
    var r := NonEmptyParts(parts);
    if r != [] {
      JoinStartsWithFirst(r, ", ");
    }
  }

  /** The five address parts of a party ("seller" or "buyer"), joined. */
  function Address(d: Data, party: string): string {
    JoinParts([At(d, party + "Address1"), At(d, party + "Address2"), At(d, party + "City"),
               At(d, party + "Postcode"), At(d, party + "Country")])
  }

  /** An address is shown empty exactly when all five of its parts are. */
  lemma AddressEmptyIff(d: Data, party: string)
    ensures Address(d, party) == "" <==>
      At(d, party + "Address1") == "" && At(d, party + "Address2") == "" && At(d, party + "City") == ""
      && At(d, party + "Postcode") == "" && At(d, party + "Country") == ""
  {
    var parts := [At(d, party + "Address1"), At(d, party + "Address2"), At(d, party + "City"),
                  At(d, party + "Postcode"), At(d, party + "Country")];
    JoinPartsEmptyIff(parts);
    assert (forall i :: 0 <= i < |parts| ==> parts[i] == "") <==>
      parts[0] == "" && parts[1] == "" && parts[2] == "" && parts[3] == "" && parts[4] == "";
  }

  /** `buyerDisplay` */
  function BuyerDisplay(d: Data): string {
    Or(At(d, "buyerName"), "your customer")
  }

  /** `hasEndpoint` */
  predicate HasEndpoint(d: Data) {
    At(d, "buyerEInvoiceId") != ""
  }

  const NoNetText := "No amount added yet"
  const NoVatText := "No VAT amount yet"
  const NotRegisteredText := "Not VAT registered"
  const NoTotalText := "No total yet"

  /** `displayNet` */
  function DisplayNet(d: Data): string {
    MoneyLine(At(d, "currency"), At(d, "netAmount"), NoNetText)
  }

  /** `displayVat` */
  function DisplayVat(d: Data): string {
    if At(d, "vatRegistered") == "yes" then MoneyLine(At(d, "currency"), At(d, "vatAmount"), NoVatText)
    else NotRegisteredText
  }

  /** `displayTotal` */
  function DisplayTotal(d: Data): string {
    MoneyLine(At(d, "currency"), Or(At(d, "totalAmount"), At(d, "netAmount")), NoTotalText)
  }

  /** The net line is the priced net amount, or its fallback. */
  lemma DisplayNetCases(d: Data)
    requires DataTrimmed(d)
    ensures At(d, "netAmount") == "" ==> DisplayNet(d) == NoNetText
    ensures At(d, "netAmount") != "" ==> DisplayNet(d) == Priced(At(d, "currency"), At(d, "netAmount"))
  {
    AtTrimmed(d, "currency");
    AtTrimmed(d, "netAmount");
    MoneyLineOfTrimmed(At(d, "currency"), At(d, "netAmount"), NoNetText);
  }

  /** The VAT line says "Not VAT registered" unless the flag is "yes", and otherwise prices the VAT amount. */
  lemma DisplayVatCases(d: Data)
    requires DataTrimmed(d)
    ensures At(d, "vatRegistered") != "yes" ==> DisplayVat(d) == NotRegisteredText
    ensures At(d, "vatRegistered") == "yes" && At(d, "vatAmount") == "" ==> DisplayVat(d) == NoVatText
    ensures At(d, "vatRegistered") == "yes" && At(d, "vatAmount") != "" ==>
      DisplayVat(d) == Priced(At(d, "currency"), At(d, "vatAmount"))
  {
    AtTrimmed(d, "currency");
    AtTrimmed(d, "vatAmount");
    MoneyLineOfTrimmed(At(d, "currency"), At(d, "vatAmount"), NoVatText);
  }

  /** The total line prices the total amount, falls back to the net amount, and to "No total yet" without either. */
  lemma DisplayTotalCases(d: Data)
    requires DataTrimmed(d)
    ensures At(d, "totalAmount") != "" ==> DisplayTotal(d) == Priced(At(d, "currency"), At(d, "totalAmount"))
    ensures At(d, "totalAmount") == "" && At(d, "netAmount") != "" ==>
      DisplayTotal(d) == Priced(At(d, "currency"), At(d, "netAmount"))
    ensures At(d, "totalAmount") == "" && At(d, "netAmount") == "" ==> DisplayTotal(d) == NoTotalText
  {
    AtTrimmed(d, "currency");
    AtTrimmed(d, "totalAmount");
    AtTrimmed(d, "netAmount");
    MoneyLineOfTrimmed(At(d, "currency"), Or(At(d, "totalAmount"), At(d, "netAmount")), NoTotalText);
  }

  /** The recipient of the e-mail draft. */
  function EmailRecipient(d: Data): string {
    Trim(Or(At(d, "sendToEmail"), Or(At(d, "buyerEmail"), "")))
  }

  /** The recipient is the "send to" address when there is one, and the buyer's address otherwise. */
  lemma EmailRecipientChoice(d: Data)
    requires DataTrimmed(d)
    ensures At(d, "sendToEmail") != "" ==> EmailRecipient(d) == At(d, "sendToEmail")
    ensures At(d, "sendToEmail") == "" ==> EmailRecipient(d) == At(d, "buyerEmail")
  {
    var s := Or(At(d, "sendToEmail"), Or(At(d, "buyerEmail"), ""));
    AtTrimmed(d, "sendToEmail");
    AtTrimmed(d, "buyerEmail");
    assert Trimmed(s);
    TrimmedIff(s);
  }

  /** The subject line, before it is URI-encoded. */
  function EmailSubject(d: Data): string {
    "Invoice " + Or(At(d, "invoiceNo"), "draft") + " from " + Or(At(d, "sellerName"), "your business")
  }

  /** A labelled detail line, present only for a non-empty value. */
  function Detail(caption: string, value: string): seq<string> {
    if value != "" then [caption + value] else []
  }

  const DateLabel := "- Date: "
  const DueLabel := "- Due date: "
  const PoLabel := "- PO number: "
  const DescriptionLabel := "- Description: "
  const TotalLabel := "- Total: "

  const AttachBlock: seq<string> :=
    ["You can attach either:", "1) an e-invoice XML for accounting systems, or", "2) a PDF for human-readable sharing.", ""]

  /** The opening lines, closing with the invoice number. */
  function Header(d: Data): seq<string> {
    ["Hi,", "", "Please find the invoice details below:", "- Invoice: " + Or(At(d, "invoiceNo"), "Draft")]
  }

  /** The optional detail lines, in the order the draft pushes them; `total` is the shown total. */
  function DetailLines(d: Data, total: string): seq<string> {
    Detail(DateLabel, At(d, "issueDate")) + Detail(DueLabel, At(d, "dueDate")) + Detail(PoLabel, At(d, "poNumber"))
    + Detail(DescriptionLabel, At(d, "itemDescription"))
    + (if total != NoTotalText then [TotalLabel + total] else [])
  }

  /** The delivery-ID block, present only when there is an ID. */
  function DeliveryBlock(d: Data): seq<string> {
    if At(d, "buyerEInvoiceId") != "" then ["E-invoice delivery ID: " + At(d, "buyerEInvoiceId"), ""] else []
  }

  /** The notes block, present only when there are notes. */
  function NotesBlock(d: Data): seq<string> {
    if At(d, "notes") != "" then ["Notes:", At(d, "notes"), ""] else []
  }

  /** The sign-off. */
  function SignOff(d: Data): seq<string> {
    ["From,", Or(At(d, "sellerName"), "")]
  }

  /** The body's blocks in order, with the blank line after the details and the fixed attachment block. */
  function Assemble(header: seq<string>, details: seq<string>, delivery: seq<string>, notes: seq<string>, signOff: seq<string>): seq<string> {
    header + details + [""] + delivery + AttachBlock + notes + signOff
  }

  /** The lines of the e-mail body for the record `d` whose shown total is `total`. */
  function EmailLines(d: Data, total: string): seq<string> {
    Assemble(Header(d), DetailLines(d, total), DeliveryBlock(d), NotesBlock(d), SignOff(d))
  }

  /**
   * `openEmailDraft`: the recipient, the subject, and the body lines joined by
   * newlines (URI encoding and the navigation to the `mailto:` address are left out).
   */
  method OpenEmailDraft(d: Data) returns (to: string, subject: string, body: string)
    ensures to == EmailRecipient(d) && subject == EmailSubject(d)
    ensures body == Join(EmailLines(d, DisplayTotal(d)), "\n")
  {
    to := EmailRecipient(d);
    subject := EmailSubject(d);
    var lines := PushEmailLines(d, DisplayTotal(d));
    body := Join(lines, "\n");
  }

  /**
   * The `lines.push` calls of `openEmailDraft`, the consecutive pushes of one
   * block taken together; `total` is the page's `displayTotal`.
   */
  method PushEmailLines(d: Data, total: string) returns (lines: seq<string>)
    ensures lines == EmailLines(d, total)
  {
    lines := [];
    lines := lines + ["Hi,", "", "Please find the invoice details below:", "- Invoice: " + Or(At(d, "invoiceNo"), "Draft")];
    assert lines == Header(d);
    ghost var before := lines;
    if At(d, "issueDate") != "" { lines := lines + [DateLabel + At(d, "issueDate")]; }
    assert lines == before + Detail(DateLabel, At(d, "issueDate"));
    before := lines;
    if At(d, "dueDate") != "" { lines := lines + [DueLabel + At(d, "dueDate")]; }
    assert lines == before + Detail(DueLabel, At(d, "dueDate"));
    before := lines;
    if At(d, "poNumber") != "" { lines := lines + [PoLabel + At(d, "poNumber")]; }
    assert lines == before + Detail(PoLabel, At(d, "poNumber"));
    before := lines;
    if At(d, "itemDescription") != "" { lines := lines + [DescriptionLabel + At(d, "itemDescription")]; }
    assert lines == before + Detail(DescriptionLabel, At(d, "itemDescription"));
    before := lines;
    if total != NoTotalText { lines := lines + [TotalLabel + total]; }
    assert lines == before + (if total != NoTotalText then [TotalLabel + total] else []);
    before := lines;
    lines := lines + [""];
    assert lines == before + [""];
    before := lines;
    if At(d, "buyerEInvoiceId") != "" {
      lines := lines + ["E-invoice delivery ID: " + At(d, "buyerEInvoiceId"), ""];
    }
    assert lines == before + DeliveryBlock(d);
    before := lines;
    lines := lines + ["You can attach either:", "1) an e-invoice XML for accounting systems, or", "2) a PDF for human-readable sharing.", ""];
    assert lines == before + AttachBlock;
    before := lines;
    if At(d, "notes") != "" {
      lines := lines + ["Notes:", At(d, "notes"), ""];
    }
    assert lines == before + NotesBlock(d);
    before := lines;
    lines := lines + ["From,", Or(At(d, "sellerName"), "")];
    assert lines == before + SignOff(d);
    EmailLinesByBlocks(d, total);
  }

  /** `EmailLines` unfolded into one flat concatenation of its blocks: the shape `PushEmailLines` builds push by push. */
  lemma EmailLinesByBlocks(d: Data, total: string)
    ensures EmailLines(d, total) ==
      Header(d) + Detail(DateLabel, At(d, "issueDate")) + Detail(DueLabel, At(d, "dueDate"))
      + Detail(PoLabel, At(d, "poNumber")) + Detail(DescriptionLabel, At(d, "itemDescription"))
      + (if total != NoTotalText then [TotalLabel + total] else []) + [""] + DeliveryBlock(d) + AttachBlock
      + NotesBlock(d) + SignOff(d)
  {
    Regroup(Header(d), Detail(DateLabel, At(d, "issueDate")), Detail(DueLabel, At(d, "dueDate")),
      Detail(PoLabel, At(d, "poNumber")), Detail(DescriptionLabel, At(d, "itemDescription")),
      if total != NoTotalText then [TotalLabel + total] else [], DeliveryBlock(d), NotesBlock(d), SignOff(d));
  }

  lemma Regroup<T>(h: seq<T>, d1: seq<T>, d2: seq<T>, d3: seq<T>, d4: seq<T>, t: seq<T>, del: seq<T>, nb: seq<T>, so: seq<T>)
    ensures h + (d1 + d2 + d3 + d4 + t) == h + d1 + d2 + d3 + d4 + t
  {
  }

  /** Where each block of an assembled body sits, for a four-line header and a two-line sign-off. */
  lemma AssembleLayout(header: seq<string>, details: seq<string>, delivery: seq<string>, notes: seq<string>, signOff: seq<string>)
    requires |header| == 4 && |signOff| == 2
    ensures var lines := Assemble(header, details, delivery, notes, signOff);
      var j := 5 + |details|;
      var m := j + |delivery| + 4;
      |lines| == m + |notes| + 2
      && lines[..4] == header && lines[4..4 + |details|] == details && lines[4 + |details|] == ""
      && lines[j..j + |delivery|] == delivery && lines[j + |delivery|..m] == AttachBlock
      && lines[m..m + |notes|] == notes && lines[m + |notes|..] == signOff
  {
    var a := header + details + [""];
    var b := a + delivery;
    var c := b + AttachBlock;
    var e := c + notes;
    var lines := e + signOff;
    assert lines == Assemble(header, details, delivery, notes, signOff);
    assert lines[..|e|] == e && e[..|c|] == c && c[..|b|] == b && b[..|a|] == a;
  }

  /** The number of detail lines counts one per present detail. */
  function Count(b: bool): nat {
    if b then 1 else 0
  }

  /** The body opens with the greeting, the invoice line, the detail lines and a blank line. */
  lemma EmailOpening(d: Data, total: string)
    ensures var lines := EmailLines(d, total);
      var n := |DetailLines(d, total)|;
      |lines| == 5 + n + |DeliveryBlock(d)| + 4 + |NotesBlock(d)| + 2
      && lines[0] == "Hi," && lines[1] == "" && lines[2] == "Please find the invoice details below:"
      && lines[3] == "- Invoice: " + Or(At(d, "invoiceNo"), "Draft")
      && lines[4..4 + n] == DetailLines(d, total) && lines[4 + n] == ""
  {
    var lines := EmailLines(d, total);
    var h := Header(d);
    AssembleLayout(h, DetailLines(d, total), DeliveryBlock(d), NotesBlock(d), SignOff(d));
    assert lines[0] == lines[..4][0] == h[0];
    assert lines[1] == lines[..4][1] == h[1];
    assert lines[2] == lines[..4][2] == h[2];
    assert lines[3] == lines[..4][3] == h[3];
  }

  /** After the blank line comes the delivery-ID block exactly when there is an ID. */
  lemma EmailDelivery(d: Data, total: string)
    ensures var lines := EmailLines(d, total);
      var j := 5 + |DetailLines(d, total)|;
      j + 2 <= |lines|
      && (At(d, "buyerEInvoiceId") != "" ==> lines[j..j + 2] == ["E-invoice delivery ID: " + At(d, "buyerEInvoiceId"), ""])
      && (At(d, "buyerEInvoiceId") == "" ==> lines[j] == AttachBlock[0])
  {
    var lines := EmailLines(d, total);
    var del := DeliveryBlock(d);
    AssembleLayout(Header(d), DetailLines(d, total), del, NotesBlock(d), SignOff(d));
    var j := 5 + |DetailLines(d, total)|;
    if del == [] {
      assert lines[j..j + 4][0] == lines[j];
    }
  }

  /** The fixed attachment block follows the delivery block. */
  lemma EmailAttachment(d: Data, total: string)
    ensures var lines := EmailLines(d, total);
      var m := 5 + |DetailLines(d, total)| + |DeliveryBlock(d)| + 4;
      m <= |lines| && lines[m - 4..m] == AttachBlock
  {
    AssembleLayout(Header(d), DetailLines(d, total), DeliveryBlock(d), NotesBlock(d), SignOff(d));
  }

  /** Then the notes block exactly when there are notes. */
  lemma EmailNotes(d: Data, total: string)
    ensures var lines := EmailLines(d, total);
      var m := 5 + |DetailLines(d, total)| + |DeliveryBlock(d)| + 4;
      m + 2 <= |lines|
      && (At(d, "notes") != "" ==> lines[m..m + 3] == ["Notes:", At(d, "notes"), ""])
      && (At(d, "notes") == "" ==> lines[m] == "From,")
  {
    var lines := EmailLines(d, total);
    var nb := NotesBlock(d);
    AssembleLayout(Header(d), DetailLines(d, total), DeliveryBlock(d), nb, SignOff(d));
    var m := 5 + |DetailLines(d, total)| + |DeliveryBlock(d)| + 4;
    if nb == [] {
      assert lines[m..][0] == lines[m];
    }
  }

  /** Last come "From," and the seller's name. */
  lemma EmailSignOff(d: Data, total: string)
    ensures var lines := EmailLines(d, total);
      |lines| >= 2 && lines[|lines| - 2..] == ["From,", Or(At(d, "sellerName"), "")]
  {
    AssembleLayout(Header(d), DetailLines(d, total), DeliveryBlock(d), NotesBlock(d), SignOff(d));
  }

  /** Each optional detail line is present exactly when its field is non-empty, and the total line exactly when a total is shown. */
  lemma DetailLinesPresence(d: Data, total: string)
    ensures DateLabel + At(d, "issueDate") in DetailLines(d, total) <==> At(d, "issueDate") != ""
    ensures DueLabel + At(d, "dueDate") in DetailLines(d, total) <==> At(d, "dueDate") != ""
    ensures PoLabel + At(d, "poNumber") in DetailLines(d, total) <==> At(d, "poNumber") != ""
    ensures DescriptionLabel + At(d, "itemDescription") in DetailLines(d, total) <==> At(d, "itemDescription") != ""
    ensures TotalLabel + total in DetailLines(d, total) <==> total != NoTotalText
    ensures |DetailLines(d, total)| == Count(At(d, "issueDate") != "") + Count(At(d, "dueDate") != "")
      + Count(At(d, "poNumber") != "") + Count(At(d, "itemDescription") != "") + Count(total != NoTotalText)
  {
    var date, due, po, desc := At(d, "issueDate"), At(d, "dueDate"), At(d, "poNumber"), At(d, "itemDescription");
    LinesDiffer(date, due, po, desc, total);
    var t := if total != NoTotalText then [TotalLabel + total] else [];
    assert DetailLines(d, total) == Detail(DateLabel, date) + Detail(DueLabel, due) + Detail(PoLabel, po)
      + Detail(DescriptionLabel, desc) + t;
  }

  /** Lines under two different detail labels differ, whatever their values. */
  lemma LinesDiffer(date: string, due: string, po: string, desc: string, total: string)
    ensures DateLabel + date != DueLabel + due && DateLabel + date != PoLabel + po
    ensures DateLabel + date != DescriptionLabel + desc && DateLabel + date != TotalLabel + total
    ensures DueLabel + due != PoLabel + po && DueLabel + due != DescriptionLabel + desc && DueLabel + due != TotalLabel + total
    ensures PoLabel + po != DescriptionLabel + desc && PoLabel + po != TotalLabel + total
    ensures DescriptionLabel + desc != TotalLabel + total
  {
    assert (DateLabel + date)[2] == 'D' && (DateLabel + date)[3] == 'a';
    assert (DueLabel + due)[2] == 'D' && (DueLabel + due)[3] == 'u';
    assert (DescriptionLabel + desc)[2] == 'D' && (DescriptionLabel + desc)[3] == 'e';
    assert (PoLabel + po)[2] == 'P';
    assert (TotalLabel + total)[2] == 'T';
  }

  const NeedsEndpointText :=
    "To transmit direct to the customer\U{2019}s system, you still need their e-invoice delivery ID (sometimes called Endpoint ID or Peppol ID)."
  const NeedsCoreText :=
    "Before transmitting, add the core invoice details: seller name, buyer name, invoice number, invoice date, description and amount."
  const NextStepText :=
    "Direct transmission is the next build step. For now, download the e-invoice XML below and send or upload it using the customer\U{2019}s required route."

  /** The core-field test of `sendEInvoice`, in its order. */
  predicate CoreMissing(d: Data) {
    At(d, "sellerName") == "" || At(d, "buyerName") == "" || At(d, "invoiceNo") == ""
    || At(d, "issueDate") == "" || At(d, "itemDescription") == "" || At(d, "netAmount") == ""
  }

  /** The core fields are the builders' required fields. */
  lemma CoreMissingIff(d: Data)
    ensures CoreMissing(d) <==> exists k :: k in ManualPage.RequiredKeys && At(d, k) == ""
  {
    if CoreMissing(d) {
      if At(d, "sellerName") == "" { assert "sellerName" in ManualPage.RequiredKeys; }
      else if At(d, "buyerName") == "" { assert "buyerName" in ManualPage.RequiredKeys; }
      else if At(d, "invoiceNo") == "" { assert "invoiceNo" in ManualPage.RequiredKeys; }
      else if At(d, "issueDate") == "" { assert "issueDate" in ManualPage.RequiredKeys; }
      else if At(d, "itemDescription") == "" { assert "itemDescription" in ManualPage.RequiredKeys; }
      else { assert "netAmount" in ManualPage.RequiredKeys; }
    }
  }

  /** `sendEInvoice`: the status its ordered early returns set. */
  method SendEInvoice(d: Data) returns (status: string)
    ensures !HasEndpoint(d) ==> status == NeedsEndpointText
    ensures HasEndpoint(d) && CoreMissing(d) ==> status == NeedsCoreText
    ensures status == NextStepText <==> HasEndpoint(d) && !CoreMissing(d)
  {
    if !HasEndpoint(d) {
      status := NeedsEndpointText;
      return;
    }
    if At(d, "sellerName") == "" || At(d, "buyerName") == "" || At(d, "invoiceNo") == ""
      || At(d, "issueDate") == "" || At(d, "itemDescription") == "" || At(d, "netAmount") == "" {
      status := NeedsCoreText;
      return;
    }
    status := NextStepText;
  }
}
