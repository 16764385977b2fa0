/**
 * What the three invoice forms share: the form record as a map from field
 * name to text, the preview query built from its non-empty fields, and the
 * effect that recomputes the VAT and total amounts.
 */
module FormModel {
  import opened Money

  /** The `form` state record, field name to text. */
  type Fields = map<string, string>

  /** The `URLSearchParams` a page sets, key to value; their wire order and encoding are not modelled. */
  type Query = map<string, string>

  // The groups of fields that the three pages' `FormState` records declare alike.
  const FlagKeys: seq<string> := ["vatRegistered", "showUTR"]
  const SellerKeys: seq<string> := [
    "sellerName", "sellerEmail", "sellerPhone", "sellerVat", "sellerUTR",
    "sellerAddress1", "sellerAddress2", "sellerCity", "sellerPostcode", "sellerCountry"]
  const PaymentKeys: seq<string> := ["paymentMethod", "bankName", "accountName", "sortCode", "accountNumber", "iban", "swift"]
  const NoteKeys: seq<string> := ["notes", "sendToEmail"]

  /** The fields a `params.set` loop sends: only those whose value is non-empty. */
  function NonEmptyFields(form: Fields): Query {
    map k | k in form && form[k] != "" :: form[k]
  }

  /** `Object.keys(form)`: each field name of the form, in some order. */
  method FieldNames(form: Fields) returns (keys: seq<string>)
    ensures forall k :: k in keys <==> k in form
  {
    keys := [];
    var rest := form.Keys;
    while rest != {}
      invariant rest <= form.Keys
      invariant forall k :: k in keys <==> k in form && k !in rest
      decreases |rest|
    {
      var k :| k in rest;
      keys := keys + [k];
      rest := rest - {k};
    }
  }

  /**
   * The loop of the preview handlers over the form's keys, setting a query
   * parameter for each truthy field: the query holds exactly the fields with a
   * non-empty value, each unchanged.
   */
  method BuildQuery(keys: seq<string>, form: Fields) returns (q: Query)
    requires forall k :: k in form <==> k in keys
    ensures q == NonEmptyFields(form)
    ensures forall k :: k in q <==> k in form && form[k] != ""
    ensures forall k :: k in q ==> q[k] == form[k]
  {
    q := map[];
    var i := 0;
    while i < |keys|
      invariant 0 <= i <= |keys|
      invariant forall k :: k in q <==> k in keys[..i] && form[k] != ""
      invariant forall k :: k in q ==> q[k] == form[k]
    {
      var k := keys[i];
      assert keys[..i + 1] == keys[..i] + [k];
      if form[k] != "" {
        q := q[k := form[k]];
      }
      i := i + 1;
    }
    assert keys[..|keys|] == keys;
  }

  predicate HasAmountFields(f: Fields) {
    "netAmount" in f && "vatRate" in f && "vatRegistered" in f
  }

  /**
   * The amounts the recalculation effect writes, as (VAT amount, total): no
   * net amount clears both; a VAT registered form gets `money2(net * rate / 100)`
   * and `money2(net + vat)`; otherwise no VAT amount and `money2(net)`.
   */
  function Amounts(netAmount: string, vatRate: string, vatRegistered: string): (string, string) {
    var net := ToNumber(netAmount);
    var rate := ToNumber(vatRate);
    if netAmount == "" then ("", "")
    else if vatRegistered == "yes" then
      (Money2(Vat(net, rate)), Money2(Total(net, rate)))
    else ("", Money2(net))
  }

  /** `net * (rate / 100)` */
  function Vat(net: real, rate: real): real {
    net * (rate / 100.0)
  }

  /** `net + vat` */
  function Total(net: real, rate: real): real {
    net + Vat(net, rate)
  }

  /** The recalculation effect on the form: only the two computed amounts change. */
  function Recalculated(f: Fields): (r: Fields)
    requires HasAmountFields(f)
    ensures r.Keys == f.Keys + {"vatAmount", "totalAmount"}
    ensures forall k :: k in f && k != "vatAmount" && k != "totalAmount" ==> r[k] == f[k]
    ensures (r["vatAmount"], r["totalAmount"]) == Amounts(f["netAmount"], f["vatRate"], f["vatRegistered"])
  {
    var a := Amounts(f["netAmount"], f["vatRate"], f["vatRegistered"]);
    f["vatAmount" := a.0]["totalAmount" := a.1]
  }

  /** An empty net amount leaves both computed amounts empty. */
  lemma RecalcWithoutNet(vatRate: string, vatRegistered: string)
    ensures Amounts("", vatRate, vatRegistered) == ("", "")
  {
  }

  /** Without VAT registration there is no VAT amount, and the total is the net amount to the nearest cent. */
  lemma RecalcUnregistered(netAmount: string, vatRate: string, vatRegistered: string)
    requires vatRegistered != "yes"
    ensures Amounts(netAmount, vatRate, vatRegistered).0 == ""
    ensures netAmount != "" ==>
      var net := ToNumber(netAmount);
      net - 0.005 < ToNumber(Amounts(netAmount, vatRate, vatRegistered).1) <= net + 0.005
  {
    if netAmount != "" {
      Money2IsNearest(ToNumber(netAmount));
    }
  }

  /** With VAT registration the VAT amount is `net * rate / 100`, rounded to the cent only when printed. */
  lemma RecalcRegisteredVat(netAmount: string, vatRate: string)
    requires netAmount != ""
    ensures var vat := Vat(ToNumber(netAmount), ToNumber(vatRate));
      var printed := ToNumber(Amounts(netAmount, vatRate, "yes").0);
      printed == RoundCents(vat) as real / 100.0 && vat - 0.005 < printed <= vat + 0.005
  {
    VatIsNonNegative(ToNumber(netAmount), ToNumber(vatRate));
    Money2IsNearest(Vat(ToNumber(netAmount), ToNumber(vatRate)));
  }

  /** With VAT registration the total is `net + net * rate / 100`, rounded to the cent only when printed. */
  lemma RecalcRegisteredTotal(netAmount: string, vatRate: string)
    requires netAmount != ""
    ensures var total := Total(ToNumber(netAmount), ToNumber(vatRate));
      var printed := ToNumber(Amounts(netAmount, vatRate, "yes").1);
      printed == RoundCents(total) as real / 100.0 && total - 0.005 < printed <= total + 0.005
  {
    VatIsNonNegative(ToNumber(netAmount), ToNumber(vatRate));
    Money2IsNearest(Total(ToNumber(netAmount), ToNumber(vatRate)));
  }

  lemma VatIsNonNegative(net: real, rate: real)
    requires net >= 0.0 && rate >= 0.0
    ensures Vat(net, rate) >= 0.0 && Total(net, rate) >= 0.0
  {
  }

  /** The effect reads none of the fields it writes, so running it again changes nothing. */
  lemma RecalcIdempotent(f: Fields)
    requires HasAmountFields(f)
    ensures Recalculated(Recalculated(f)) == Recalculated(f)
  {
  }
}
