/**
 * How the pages hand an invoice to one another: the builders' preview query
 * is what the preview page reads its `data` from, and `downloadFrom` posts
 * that `data` to the XML route, whose member names differ from the record's.
 * The builders navigate to `/preview`; these lemmas take that address to
 * render the preview page of `app/preview-off/page.tsx`.
 */
module Handoff {
  import opened Optional
  import opened Text
  import opened FormModel
  import CreatePage
  import ManualPage
  import PreviewPage
  import GenerateRoute

  /** A query built from the non-empty fields of a form gives the preview each listed field trimmed, and "" for the others. */
  lemma PreviewOfFields(f: Fields)
    ensures var d := PreviewPage.PreviewData(NonEmptyFields(f));
      (forall k :: k in d <==> k in PreviewPage.PreviewKeys)
      && (forall k :: k in d && k in f ==> d[k] == Trim(f[k]))
      && (forall k :: k in d && k !in f ==> d[k] == "")
  {
    var q := NonEmptyFields(f);
    PreviewPage.DataOfContents(PreviewPage.PreviewKeys, q);
    assert Trim("") == "" by {
      assert TrimStart("") == "";
    }
  }

  /**
   * The create page's preview: every field the preview reads shows the form's
   * value trimmed, and the pasted notes show trimmed exactly when they are not blank.
   */
  lemma CreateToPreview(f: Fields, pasteText: string)
    requires "sourceNotes" !in f
    ensures var d := PreviewPage.PreviewData(CreatePage.PreviewQuery(f, pasteText));
      (forall k :: k in d && k in f ==> d[k] == Trim(f[k]))
      && "sourceNotes" in d
      && d["sourceNotes"] == (if IsBlank(pasteText) then "" else Trim(pasteText))
  {
    var q := CreatePage.PreviewQuery(f, pasteText);
    var d := PreviewPage.PreviewData(q);
    PreviewPage.DataOfContents(PreviewPage.PreviewKeys, q);
    assert Trim("") == "" by {
      assert TrimStart("") == "";
    }
    SourceNotesRead();
    if !IsBlank(pasteText) {
      TrimIdempotent(pasteText);
    }
  }

  /** The create page's scheme, invoice type, quantity, unit and VAT category are not read by the preview. */
  lemma CreateOnlyFieldsDropped(q: Query)
    ensures var d := PreviewPage.PreviewData(q);
      "buyerEInvoiceScheme" !in d && "invoiceTypeCode" !in d && "quantity" !in d
      && "unitCode" !in d && "vatCategoryCode" !in d
  {
    SchemeNotRead();
    TypeCodeNotRead();
    QuantityNotRead();
    UnitNotRead();
    CategoryNotRead();
  }

  // One key per lemma: each keeps the search through the preview's key list to itself.
  lemma SchemeNotRead() ensures "buyerEInvoiceScheme" !in PreviewPage.PreviewKeys { PreviewPage.OtherKeyIsNotRead("buyerEInvoiceScheme"); }
  lemma TypeCodeNotRead() ensures "invoiceTypeCode" !in PreviewPage.PreviewKeys { PreviewPage.OtherKeyIsNotRead("invoiceTypeCode"); }
  lemma QuantityNotRead() ensures "quantity" !in PreviewPage.PreviewKeys { PreviewPage.OtherKeyIsNotRead("quantity"); }
  lemma UnitNotRead() ensures "unitCode" !in PreviewPage.PreviewKeys { PreviewPage.OtherKeyIsNotRead("unitCode"); }
  lemma CategoryNotRead() ensures "vatCategoryCode" !in PreviewPage.PreviewKeys { PreviewPage.OtherKeyIsNotRead("vatCategoryCode"); }
  lemma SellerNotRead() ensures "seller" !in PreviewPage.PreviewKeys { PreviewPage.OtherKeyIsNotRead("seller"); }
  lemma BuyerNotRead() ensures "buyer" !in PreviewPage.PreviewKeys { PreviewPage.OtherKeyIsNotRead("buyer"); }
  lemma DateNotRead() ensures "date" !in PreviewPage.PreviewKeys { PreviewPage.OtherKeyIsNotRead("date"); }
  lemma SourceNotesRead() ensures "sourceNotes" in PreviewPage.PreviewKeys {
    assert PreviewPage.PreviewKeys[|PreviewPage.PreviewKeys| - 1] == "sourceNotes";
  }
  lemma InvoiceNoRead() ensures "invoiceNo" in PreviewPage.PreviewKeys {
    assert ManualPage.InvoiceKeys[0] == "invoiceNo";
    PreviewPage.GroupKeyIsRead(ManualPage.InvoiceKeys[0]);
  }

  /** `JSON.stringify(data)` as the route reads it back: each entry a string member. */
  function PostedBody(d: PreviewPage.Data): (r: GenerateRoute.JsonBody)
    ensures r.ObjectBody? && r.members.Keys == d.Keys
    ensures forall k :: k in d ==> GenerateRoute.Member(r, k) == d[k]
  {
    GenerateRoute.ObjectBody(map k | k in d :: GenerateRoute.JString(d[k]))
  }

  /**
   * The download posts `data`, whose names are `sellerName`, `buyerName` and
   * `issueDate`: the route answers 200 with empty seller, buyer and date
   * elements, and only the invoice number carried over.
   */
  lemma DownloadLosesNames(q: Query)
    ensures var d := PreviewPage.PreviewData(q);
      var r := GenerateRoute.Post(PostedBody(d));
      r.status == 200
      && GenerateRoute.ParseInvoiceXml(r.body) == Some(GenerateRoute.InvoiceFields("", "", d["invoiceNo"], ""))
  {
    var d := PreviewPage.PreviewData(q);
    SellerNotRead();
    BuyerNotRead();
    DateNotRead();
    InvoiceNoRead();
    GenerateRoute.PostDocument(PostedBody(d));
  }
}
