/**
 * The older single-page builder kept beside the home page. It declares the
 * same 40-field record, initial values, effects and untyped `setField` as the
 * manual builder, which `ManualPage` models; what it does differently is the
 * order of its required-field test.
 */
module BackupPage {
  import opened Optional
  import opened FormModel
  import ManualPage

  /** `requiredMissing`, in this page's order: seller, buyer, number, date, description, amount. */
  predicate RequiredMissing(f: Fields)
    requires ManualPage.HasNamedFields(f)
  {
    f["sellerName"] == "" || f["buyerName"] == "" || f["invoiceNo"] == ""
    || f["issueDate"] == "" || f["itemDescription"] == "" || f["netAmount"] == ""
  }

  /** The two pages test the same six fields: their verdicts agree on every form. */
  lemma SameRequiredTest(f: Fields)
    requires ManualPage.HasNamedFields(f)
    ensures RequiredMissing(f) <==> ManualPage.RequiredMissing(f)
    ensures RequiredMissing(f) <==> exists k :: k in ManualPage.RequiredKeys && f[k] == ""
  {
    ManualPage.RequiredMissingIff(f);
  }

  /** `handlePreview`: the fixed message and no query when a starred field is empty, else the non-empty fields. */
  method Preview(form: Fields) returns (status: string, query: Option<Query>)
    requires form.Keys == ManualPage.ManualKeySet && ManualPage.HasNamedFields(form)
    ensures RequiredMissing(form) ==> status == ManualPage.MissingMessage && query == None
    ensures !RequiredMissing(form) ==> status == "" && query == Some(NonEmptyFields(form))
  {
    status, query := ManualPage.HandlePreview(form, RequiredMissing(form));
  }
}
