/**
 * The manual invoice builder page: its 40-field form record, the issue-date
 * and recalculation effects, the untyped `setField`, the required-field test
 * and the preview handler that refuses to leave with fields missing.
 */
module ManualPage {
  import opened Optional
  import opened FormModel

  // The fields of the page's `FormState`, group by group, in the order of the initial record.
  const BuyerKeys: seq<string> := [
    "buyerName", "buyerEmail", "buyerVat", "buyerEInvoiceId",
    "buyerAddress1", "buyerAddress2", "buyerCity", "buyerPostcode", "buyerCountry"]
  const InvoiceKeys: seq<string> := ["invoiceNo", "issueDate", "dueDate", "currency", "poNumber"]
  const AmountKeys: seq<string> := ["itemDescription", "netAmount", "vatRate", "vatAmount", "totalAmount"]

  const ManualKeys: seq<string> := FlagKeys + SellerKeys + BuyerKeys + InvoiceKeys + AmountKeys + PaymentKeys + NoteKeys

  const ManualKeySet: set<string> := set k | k in ManualKeys

  /** The value a field starts with. */
  function InitialValue(k: string): string {
    if k == "vatRegistered" || k == "showUTR" then "no"
    else if k == "sellerCountry" || k == "buyerCountry" then "UK"
    else if k == "invoiceNo" then "INV-001"
    else if k == "currency" then "GBP"
    else if k == "itemDescription" then "Services"
    else if k == "vatRate" then "20"
    else if k == "paymentMethod" then "Bank transfer"
    else ""
  }

  const InitialForm: Fields := map k | k in ManualKeySet :: InitialValue(k)

  /** The fields the page's rules name. */
  predicate HasNamedFields(f: Fields) {
    "vatRegistered" in f && "sellerName" in f && "buyerName" in f && "invoiceNo" in f && "issueDate" in f
    && "itemDescription" in f && "netAmount" in f && "vatRate" in f && "vatAmount" in f && "totalAmount" in f
  }

  /** A member of one of the groups is a form field. */
  lemma GroupKeyIsFormField(k: string)
    requires k in FlagKeys || k in SellerKeys || k in BuyerKeys || k in InvoiceKeys || k in AmountKeys
      || k in PaymentKeys || k in NoteKeys
    ensures k in ManualKeySet
  {
  }

  lemma PartyAndInvoiceFieldsAreFormFields()
    ensures "vatRegistered" in ManualKeySet && "sellerName" in ManualKeySet && "buyerName" in ManualKeySet
    ensures "invoiceNo" in ManualKeySet && "issueDate" in ManualKeySet
  {
    assert FlagKeys[0] == "vatRegistered" && SellerKeys[0] == "sellerName" && BuyerKeys[0] == "buyerName";
    GroupKeyIsFormField(FlagKeys[0]);
    GroupKeyIsFormField(SellerKeys[0]);
    GroupKeyIsFormField(BuyerKeys[0]);
    assert InvoiceKeys[0] == "invoiceNo" && InvoiceKeys[1] == "issueDate";
    GroupKeyIsFormField(InvoiceKeys[0]);
    GroupKeyIsFormField(InvoiceKeys[1]);
  }

  lemma AmountFieldsAreFormFields()
    ensures "itemDescription" in ManualKeySet && "netAmount" in ManualKeySet && "vatRate" in ManualKeySet
    ensures "vatAmount" in ManualKeySet && "totalAmount" in ManualKeySet
  {
    assert AmountKeys[0] == "itemDescription" && AmountKeys[1] == "netAmount" && AmountKeys[2] == "vatRate";
    assert AmountKeys[3] == "vatAmount" && AmountKeys[4] == "totalAmount";
    GroupKeyIsFormField(AmountKeys[0]);
    GroupKeyIsFormField(AmountKeys[1]);
    GroupKeyIsFormField(AmountKeys[2]);
    GroupKeyIsFormField(AmountKeys[3]);
    GroupKeyIsFormField(AmountKeys[4]);
  }

  /** The fields the page's rules read or write by name are all form fields. */
  lemma NamedFieldsAreFormFields()
    ensures "vatRegistered" in ManualKeySet && "sellerName" in ManualKeySet && "buyerName" in ManualKeySet
    ensures "invoiceNo" in ManualKeySet && "issueDate" in ManualKeySet
    ensures "itemDescription" in ManualKeySet && "netAmount" in ManualKeySet && "vatRate" in ManualKeySet
    ensures "vatAmount" in ManualKeySet && "totalAmount" in ManualKeySet
  {
    PartyAndInvoiceFieldsAreFormFields();
    AmountFieldsAreFormFields();
  }

  lemma FormHasNamedFields(f: Fields)
    requires f.Keys == ManualKeySet
    ensures HasNamedFields(f)
  {
    NamedFieldsAreFormFields();
  }

  /** The six fields marked with a star. */
  const RequiredKeys: set<string> := {"invoiceNo", "issueDate", "itemDescription", "netAmount", "buyerName", "sellerName"}

  /** `requiredMissing`: one of the starred fields is empty, in the page's order. */
  predicate RequiredMissing(f: Fields)
    requires HasNamedFields(f)
  {
    f["invoiceNo"] == "" || f["issueDate"] == "" || f["itemDescription"] == ""
    || f["netAmount"] == "" || f["buyerName"] == "" || f["sellerName"] == ""
  }

  /** A field is missing exactly when some starred field is empty; whitespace counts as filled in. */
  lemma RequiredMissingIff(f: Fields)
    requires HasNamedFields(f)
    ensures RequiredMissing(f) <==> exists k :: k in RequiredKeys && f[k] == ""
  {
    if RequiredMissing(f) {
      if f["invoiceNo"] == "" { assert "invoiceNo" in RequiredKeys; }
      else if f["issueDate"] == "" { assert "issueDate" in RequiredKeys; }
      else if f["itemDescription"] == "" { assert "itemDescription" in RequiredKeys; }
      else if f["netAmount"] == "" { assert "netAmount" in RequiredKeys; }
      else if f["buyerName"] == "" { assert "buyerName" in RequiredKeys; }
      else { assert "sellerName" in RequiredKeys; }
    }
  }

  /** A fresh form, whatever issue date it gets, still misses the buyer, the seller and the amount. */
  lemma InitialFormMissesRequired(issueDate: string)
    ensures HasNamedFields(InitialForm["issueDate" := issueDate])
    ensures RequiredMissing(InitialForm["issueDate" := issueDate])
  {
    NamedFieldsAreFormFields();
    FormHasNamedFields(InitialForm);
  }

  const MissingMessage: string := "Please fill in the required fields marked *."

  /**
   * The preview handlers of this page and of the backup page, given the
   * outcome of their required-field test: fields missing give the fixed
   * status and no query; otherwise the status is cleared and the query holds
   * the non-empty fields.
   */
  method HandlePreview(form: Fields, missing: bool) returns (status: string, query: Option<Query>)
    requires form.Keys == ManualKeySet
    ensures missing ==> status == MissingMessage && query == None
    ensures !missing ==> status == "" && query == Some(NonEmptyFields(form))
  {
    status := "";
    if missing {
      status := MissingMessage;
      return status, None;
    }
    var q := BuildQuery(ManualKeys, form);
    query := Some(q);
  }

  /** The page's state: the form record and the status line. */
  class ManualForm {
    var form: Fields
    var status: string

    predicate Valid()
      reads this
    {
      form.Keys == ManualKeySet && HasNamedFields(form)
    }

    constructor()
      ensures Valid()
      ensures form == InitialForm && status == ""
    {
      FormHasNamedFields(InitialForm);
      form := InitialForm;
      status := "";
    }

    /** The mount effect: an empty issue date becomes today's. */
    method InitIssueDate(today: string)
      requires Valid()
      modifies this
      ensures Valid()
      ensures form == old(form)["issueDate" := if old(form)["issueDate"] != "" then old(form)["issueDate"] else today]
      ensures status == old(status)
    {
      if form["issueDate"] == "" {
        form := form["issueDate" := today];
      }
    }

    /** `setField`: the one field gets the value as given, with no coercion; nothing else changes. */
    method SetField(key: string, value: string)
      requires Valid() && key in ManualKeySet
      modifies this
      ensures Valid()
      ensures form == old(form)[key := value]
      ensures status == old(status)
    {
      form := form[key := value];
    }

    /** The recalculation effect. */
    method Recalc()
      requires Valid()
      modifies this
      ensures Valid()
      ensures form == Recalculated(old(form))
      ensures status == old(status)
    {
      assert Recalculated(form).Keys == form.Keys;
      form := Recalculated(form);
    }

    /** `handlePreview`: with a starred field empty the page stays with the fixed message; otherwise it leaves with the query. */
    method Preview() returns (query: Option<Query>)
      requires Valid()
      modifies this
      ensures Valid() && form == old(form)
      ensures RequiredMissing(form) ==> status == MissingMessage && query == None
      ensures !RequiredMissing(form) ==> status == "" && query == Some(NonEmptyFields(form))
    {
      status, query := HandlePreview(form, RequiredMissing(form));
    }
  }
}
