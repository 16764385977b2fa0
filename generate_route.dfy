/**
 * The `POST` handler of the XML route: read four members of the JSON body,
 * answer with a fixed `<invoice>` document of four escaped children, or with
 * status 400 when the body cannot be read.
 */
module GenerateRoute {
  import opened Optional
  import opened XmlEscape

  /** The member values the model gives a request body: strings, `null` and booleans. */
  datatype JsonValue = JString(text: string) | JNull | JBool(flag: bool)

  /** What `await req.json()` yields, as far as the handler can tell. */
  datatype JsonBody =
    | ObjectBody(members: map<string, JsonValue>)
      /** a JSON string, number, boolean or array: destructuring finds none of the four keys */
    | OtherValue
      /** the body did not parse, or was `null` and its destructuring threw; `message` is the error's */
    | Malformed(message: string)

  datatype Header = Header(name: string, value: string)

  datatype Response = Response(status: int, headers: seq<Header>, body: string)

  /** The four element texts the document carries. */
  datatype InvoiceFields = InvoiceFields(seller: string, buyer: string, invoiceNo: string, date: string)

  /** `String(v)` */
  function ToText(v: JsonValue): string {
    match v
    case JString(t) => t
    case JNull => "null"
    case JBool(b) => if b then "true" else "false"
  }

  /** `const { key = "" } = body`: a key the body does not have reads as the empty string. */
  function Member(body: JsonBody, key: string): (r: string)
    ensures (body.ObjectBody? && key in body.members) || r == ""
  {
    if body.ObjectBody? && key in body.members then ToText(body.members[key]) else ""
  }

  /** The keys the handler reads, in the order it writes their elements. */
  const RouteKeys: seq<string> := ["seller", "buyer", "invoiceNo", "date"]

  function FieldsOf(body: JsonBody): InvoiceFields {
    InvoiceFields(Member(body, "seller"), Member(body, "buyer"), Member(body, "invoiceNo"), Member(body, "date"))
  }

  const XmlDeclaration: string := "<?xml version=\"1.0\" encoding=\"UTF-8\"?>"
  const DocumentHead: string := XmlDeclaration + "\n<invoice>\n"
  const DocumentTail: string := "</invoice>\n"

  /** One indented child line of the template. */
  function Child(name: string, text: string): string {
    "  <" + name + ">" + EscapeXml(text) + "</" + name + ">\n"
  }

  /** The template literal of the handler. */
  function InvoiceXml(f: InvoiceFields): string {
    DocumentHead
    + Child("seller", f.seller)
    + Child("buyer", f.buyer)
    + Child("invoiceNo", f.invoiceNo)
    + Child("date", f.date)
    + DocumentTail
  }

  const XmlHeaders: seq<Header> := [
    Header("Content-Type", "application/xml; charset=utf-8"),
    Header("Content-Disposition", "attachment; filename=\"invoice.xml\"")
  ]

  /**
   * The one header of a `Response` made from a string body with no headers given: the
   * Fetch Standard's "extract a body" gives a string the type `text/plain;charset=UTF-8`.
   */
  const PlainTextHeaders: seq<Header> := [Header("Content-Type", "text/plain;charset=UTF-8")]

  /** `POST`: the success branch and the `catch` branch. */
  function Post(body: JsonBody): (r: Response)
    ensures r.status == 200 <==> !body.Malformed?
    ensures r.status == 400 <==> body.Malformed?
    ensures body.Malformed? ==> r.headers == PlainTextHeaders && r.body == (if body.message != "" then body.message else "Bad Request")
    ensures !body.Malformed? ==> r.headers == XmlHeaders && DocumentHead <= r.body
  {
    match body
    case Malformed(m) => Response(400, PlainTextHeaders, if m != "" then m else "Bad Request")
    case _ => Response(200, XmlHeaders, InvoiceXml(FieldsOf(body)))
  }

  /** Splits `s` before its first `<`. */
  function TextBeforeTag(s: string): (r: (string, string))
    ensures r.0 + r.1 == s && '<' !in r.0 && (r.1 == [] || r.1[0] == '<')
    decreases |s|
  {
    if s == [] || s[0] == '<' then ([], s)
    else
      var (t, rest) := TextBeforeTag(s[1..]);
      ([s[0]] + t, rest)
  }

  lemma {:induction false} TextBeforeTagSplit(t: string, u: string)
    requires '<' !in t && u != [] && u[0] == '<'
    ensures TextBeforeTag(t + u) == (t, u)
    decreases |t|
  {
    if t == [] {
      assert t + u == u;
    } else {
      assert t[0] in t;
      assert (t + u)[0] == t[0] && (t + u)[0] != '<';
      assert (t + u)[1..] == t[1..] + u;
      TextBeforeTagSplit(t[1..], u);
      assert [t[0]] + t[1..] == t;
    }
  }

  /** Reads one child element: its decoded text and what follows it. */
  function ParseChild(s: string, name: string): Option<(string, string)> {
    var open := "  <" + name + ">";
    var close := "</" + name + ">\n";
    if !(open <= s) then None
    else
      var (t, rest) := TextBeforeTag(s[|open|..]);
      if close <= rest then Some((Unescape(t), rest[|close|..])) else None
  }

  /** Reads back the four element texts of a document shaped like the template. */
  function ParseInvoiceXml(doc: string): Option<InvoiceFields> {
    if !(DocumentHead <= doc) then None
    else
      match ParseChild(doc[|DocumentHead|..], "seller")
      case None => None
      case Some((seller, r1)) =>
        match ParseChild(r1, "buyer")
        case None => None
        case Some((buyer, r2)) =>
          match ParseChild(r2, "invoiceNo")
          case None => None
          case Some((invoiceNo, r3)) =>
            match ParseChild(r3, "date")
            case None => None
            case Some((date, r4)) =>
              if r4 == DocumentTail then Some(InvoiceFields(seller, buyer, invoiceNo, date)) else None
  }

  lemma ParseChildOfChild(name: string, text: string, rest: string)
    ensures ParseChild(Child(name, text) + rest, name) == Some((text, rest))
  {
    var open := "  <" + name + ">";
    var close := "</" + name + ">\n";
    var e := EscapeXml(text);
    EscapeXmlOutputIsSafe(text);
    assert '<' !in e;
    var s := Child(name, text) + rest;
    assert s == open + (e + (close + rest));
    assert s[|open|..] == e + (close + rest);
    TextBeforeTagSplit(e, close + rest);
    assert (close + rest)[|close|..] == rest;
    UnescapeEscapeXml(text);
  }

  /** The steps `ParseInvoiceXml` takes on a well-formed document. */
  lemma ParseInvoiceXmlSteps(doc: string, f: InvoiceFields, r1: string, r2: string, r3: string)
    requires DocumentHead <= doc
    requires ParseChild(doc[|DocumentHead|..], "seller") == Some((f.seller, r1))
    requires ParseChild(r1, "buyer") == Some((f.buyer, r2))
    requires ParseChild(r2, "invoiceNo") == Some((f.invoiceNo, r3))
    requires ParseChild(r3, "date") == Some((f.date, DocumentTail))
    ensures ParseInvoiceXml(doc) == Some(f)
  {
  }

  lemma Regroup(a: string, b: string, c: string, d: string, e: string, g: string)
    ensures a + b + c + d + e + g == a + (b + (c + (d + (e + g))))
  {
  }

  /** The template as the head followed by a body that ends with the tail. */
  lemma InvoiceXmlShape(f: InvoiceFields)
    ensures InvoiceXml(f) == DocumentHead + (Child("seller", f.seller) + (Child("buyer", f.buyer) + (Child("invoiceNo", f.invoiceNo) + (Child("date", f.date) + DocumentTail))))
  {
    Regroup(DocumentHead, Child("seller", f.seller), Child("buyer", f.buyer), Child("invoiceNo", f.invoiceNo), Child("date", f.date), DocumentTail);
  }

  lemma AfterHead(body: string)
    ensures DocumentHead <= DocumentHead + body && (DocumentHead + body)[|DocumentHead|..] == body
  {
  }

  /**
   * The document is the XML declaration and an `<invoice>` element with exactly
   * four children, seller, buyer, invoiceNo and date in that order, each holding
   * its escaped field: reading it back gives the four fields.
   */
  lemma InvoiceXmlRoundTrip(f: InvoiceFields)
    ensures ParseInvoiceXml(InvoiceXml(f)) == Some(f)
  {
    var r3 := Child("date", f.date) + DocumentTail;
    var r2 := Child("invoiceNo", f.invoiceNo) + r3;
    var r1 := Child("buyer", f.buyer) + r2;
    var body := Child("seller", f.seller) + r1;
    InvoiceXmlShape(f);
    AfterHead(body);
    ParseChildOfChild("seller", f.seller, r1);
    ParseChildOfChild("buyer", f.buyer, r2);
    ParseChildOfChild("invoiceNo", f.invoiceNo, r3);
    ParseChildOfChild("date", f.date, DocumentTail);
    ParseInvoiceXmlSteps(InvoiceXml(f), f, r1, r2, r3);
  }

  /** A body that can be read answers 200 with a document holding its four members. */
  lemma PostDocument(body: JsonBody)
    requires !body.Malformed?
    ensures Post(body).status == 200
    ensures ParseInvoiceXml(Post(body).body) == Some(FieldsOf(body))
  {
    InvoiceXmlRoundTrip(FieldsOf(body));
  }

  /** A key absent from the body gives an empty element, not an error. */
  lemma AbsentKeyGivesEmptyElement(members: map<string, JsonValue>)
    requires "seller" !in members && "buyer" !in members && "date" !in members
    ensures Post(ObjectBody(members)).status == 200
    ensures var f := ParseInvoiceXml(Post(ObjectBody(members)).body);
      f.Some? && f.value.seller == "" && f.value.buyer == "" && f.value.date == ""
  {
    PostDocument(ObjectBody(members));
  }
}
