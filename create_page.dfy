/**
 * The invoice creation page: the 45-field form record, its setters and
 * effects, the auto-fill draft and its merge, the warnings, the "manual work
 * started" test and the preview query.
 */
module CreatePage {
  import opened Optional
  import opened Text
  import opened FormModel

  // The fields of the page's `FormState`, group by group, in the order of the initial record.
  const BuyerKeys: seq<string> := [
    "buyerName", "buyerEmail", "buyerVat", "buyerEInvoiceScheme", "buyerEInvoiceId",
    "buyerAddress1", "buyerAddress2", "buyerCity", "buyerPostcode", "buyerCountry"]
  const InvoiceKeys: seq<string> := ["invoiceNo", "issueDate", "dueDate", "currency", "poNumber", "invoiceTypeCode"]
  const LineKeys: seq<string> := [
    "itemDescription", "quantity", "unitCode", "netAmount", "vatCategoryCode", "vatRate", "vatAmount", "totalAmount"]

  const CreateKeys: seq<string> := FlagKeys + SellerKeys + BuyerKeys + InvoiceKeys + LineKeys + PaymentKeys + NoteKeys

  const CreateKeySet: set<string> := set k | k in CreateKeys

  /** The two `YesNo` fields. */
  predicate IsYesNoKey(k: string) {
    k == "vatRegistered" || k == "showUTR"
  }

  predicate IsYesNo(v: string) {
    v == "yes" || v == "no"
  }

  /** The value a field starts with. */
  function InitialValue(k: string): string {
    if k == "vatRegistered" then "yes"
    else if k == "showUTR" then "no"
    else if k == "sellerCountry" || k == "buyerCountry" then "UK"
    else if k == "invoiceNo" then "INV-001"
    else if k == "currency" then "GBP"
    else if k == "invoiceTypeCode" then "380"
    else if k == "itemDescription" then "Services"
    else if k == "quantity" then "1"
    else if k == "unitCode" then "EA"
    else if k == "vatCategoryCode" then "S"
    else if k == "vatRate" then "20"
    else if k == "paymentMethod" then "Bank transfer"
    else ""
  }

  const InitialForm: Fields := map k | k in CreateKeySet :: InitialValue(k)

  /** The `defaults` of `anyManualWorkStarted`. */
  function WorkDefault(k: string): Option<string> {
    if k == "vatRegistered" then Some("yes")
    else if k == "showUTR" then Some("no")
    else if k == "sellerCountry" then Some("UK")
    else if k == "buyerCountry" then Some("UK")
    else if k == "invoiceNo" then Some("INV-001")
    else if k == "currency" then Some("GBP")
    else if k == "invoiceTypeCode" then Some("380")
    else if k == "itemDescription" then Some("Services")
    else if k == "quantity" then Some("1")
    else if k == "unitCode" then Some("EA")
    else if k == "vatCategoryCode" then Some("S")
    else if k == "vatRate" then Some("20")
    else if k == "paymentMethod" then Some("Bank transfer")
    else None
  }

  /** Every field the form starts non-empty is listed among the defaults with that value. */
  lemma InitialValuesAreWorkDefaults(k: string)
    ensures InitialValue(k) != "" ==> WorkDefault(k) == Some(InitialValue(k))
  {
  }

  /** The named fields are present and the `YesNo` ones hold `"yes"` or `"no"`. */
  predicate Typed(f: Fields) {
    HasNamedFields(f) && IsYesNo(f["vatRegistered"]) && IsYesNo(f["showUTR"])
  }

  /** A member of one of the groups is a form field. */
  lemma GroupKeyIsFormField(k: string)
    requires k in FlagKeys || k in SellerKeys || k in BuyerKeys || k in InvoiceKeys || k in LineKeys
      || k in PaymentKeys || k in NoteKeys
    ensures k in CreateKeySet
  {
  }

  lemma FlagFieldsAreFormFields()
    ensures "vatRegistered" in CreateKeySet && "showUTR" in CreateKeySet
  {
    assert FlagKeys[0] == "vatRegistered" && FlagKeys[1] == "showUTR";
    GroupKeyIsFormField(FlagKeys[0]);
    GroupKeyIsFormField(FlagKeys[1]);
  }

  lemma SellerFieldsAreFormFields()
    ensures "sellerName" in CreateKeySet && "sellerVat" in CreateKeySet
  {
    assert SellerKeys[0] == "sellerName" && SellerKeys[3] == "sellerVat";
    GroupKeyIsFormField(SellerKeys[0]);
    GroupKeyIsFormField(SellerKeys[3]);
  }

  lemma BuyerAndInvoiceFieldsAreFormFields()
    ensures "buyerName" in CreateKeySet && "buyerEInvoiceScheme" in CreateKeySet && "buyerEInvoiceId" in CreateKeySet
    ensures "invoiceNo" in CreateKeySet && "issueDate" in CreateKeySet && "dueDate" in CreateKeySet
  {
    assert BuyerKeys[0] == "buyerName" && BuyerKeys[3] == "buyerEInvoiceScheme" && BuyerKeys[4] == "buyerEInvoiceId";
    GroupKeyIsFormField(BuyerKeys[0]);
    GroupKeyIsFormField(BuyerKeys[3]);
    GroupKeyIsFormField(BuyerKeys[4]);
    assert InvoiceKeys[0] == "invoiceNo" && InvoiceKeys[1] == "issueDate" && InvoiceKeys[2] == "dueDate";
    GroupKeyIsFormField(InvoiceKeys[0]);
    GroupKeyIsFormField(InvoiceKeys[1]);
    GroupKeyIsFormField(InvoiceKeys[2]);
  }

  lemma LineFieldsAreFormFields()
    ensures "itemDescription" in CreateKeySet && "netAmount" in CreateKeySet
    ensures "vatCategoryCode" in CreateKeySet && "vatRate" in CreateKeySet
    ensures "vatAmount" in CreateKeySet && "totalAmount" in CreateKeySet
  {
    assert LineKeys[0] == "itemDescription" && LineKeys[3] == "netAmount" && LineKeys[4] == "vatCategoryCode";
    assert LineKeys[5] == "vatRate" && LineKeys[6] == "vatAmount" && LineKeys[7] == "totalAmount";
    GroupKeyIsFormField(LineKeys[0]);
    GroupKeyIsFormField(LineKeys[3]);
    GroupKeyIsFormField(LineKeys[4]);
    GroupKeyIsFormField(LineKeys[5]);
    GroupKeyIsFormField(LineKeys[6]);
    GroupKeyIsFormField(LineKeys[7]);
  }

  /** The fields the page's rules read or write by name are all form fields. */
  lemma NamedFieldsAreFormFields()
    ensures "vatRegistered" in CreateKeySet && "showUTR" in CreateKeySet
    ensures "sellerName" in CreateKeySet && "sellerVat" in CreateKeySet
    ensures "buyerName" in CreateKeySet && "buyerEInvoiceScheme" in CreateKeySet && "buyerEInvoiceId" in CreateKeySet
    ensures "invoiceNo" in CreateKeySet && "issueDate" in CreateKeySet && "dueDate" in CreateKeySet
    ensures "itemDescription" in CreateKeySet && "netAmount" in CreateKeySet
    ensures "vatCategoryCode" in CreateKeySet && "vatRate" in CreateKeySet
    ensures "vatAmount" in CreateKeySet && "totalAmount" in CreateKeySet
  {
    FlagFieldsAreFormFields();
    SellerFieldsAreFormFields();
    BuyerAndInvoiceFieldsAreFormFields();
    LineFieldsAreFormFields();
  }

  /** The fields the page's rules name, present in a form. */
  predicate HasNamedFields(f: Fields) {
    "vatRegistered" in f && "showUTR" in f && "sellerName" in f && "sellerVat" in f
    && "buyerName" in f && "buyerEInvoiceScheme" in f && "buyerEInvoiceId" in f
    && "invoiceNo" in f && "issueDate" in f && "dueDate" in f && "itemDescription" in f && "netAmount" in f
    && "vatCategoryCode" in f && "vatRate" in f && "vatAmount" in f && "totalAmount" in f
  }

  lemma FormHasNamedFields(f: Fields)
    requires f.Keys == CreateKeySet
    ensures HasNamedFields(f)
  {
    NamedFieldsAreFormFields();
  }

  lemma SourceNotesIsNotAField()
    ensures "sourceNotes" !in CreateKeySet
  {
  }

  /** The initial form has exactly the page's fields and is typed. */
  lemma InitialFormIsTyped()
    ensures InitialForm.Keys == CreateKeySet
    ensures Typed(InitialForm)
  {
    NamedFieldsAreFormFields();
  }

  /** What `setField` stores: a `YesNo` field becomes `"yes"` exactly for `"yes"`, any other field the value itself. */
  function SetFieldValue(key: string, value: string): (r: string)
    ensures IsYesNoKey(key) ==> IsYesNo(r) && (r == "yes" <==> value == "yes")
    ensures !IsYesNoKey(key) ==> r == value
  {
    if IsYesNoKey(key) then (if value == "yes" then "yes" else "no") else value
  }

  /** `toFormValue`: a `YesNo` field keeps `"yes"` or `"no"` and gets `"no"` for anything else. */
  function ToFormValue(key: string, incoming: string): (r: string)
    ensures IsYesNoKey(key) ==> IsYesNo(r) && (IsYesNo(incoming) ==> r == incoming)
    ensures !IsYesNoKey(key) ==> r == incoming
  {
    if IsYesNoKey(key) then (if incoming == "yes" || incoming == "no" then incoming else "no")
    else incoming
  }

  /** The two coercions agree on every key and value. */
  lemma SetFieldAgreesWithToFormValue(key: string, value: string)
    ensures SetFieldValue(key, value) == ToFormValue(key, value)
  {
  }

  predicate HasVatFields(f: Fields) {
    "vatRegistered" in f && "vatCategoryCode" in f && "vatRate" in f && "sellerVat" in f
  }

  /**
   * The effect on a change of `vatRegistered`: a registered form gets category
   * `"S"` and rate `"20"` where those are empty; any other clears the rate and
   * the seller's VAT number and sets category `"O"`.
   */
  function VatToggled(f: Fields): (r: Fields)
    requires HasVatFields(f)
    ensures r.Keys == f.Keys
    ensures forall k :: k in f && k != "vatCategoryCode" && k != "vatRate" && k != "sellerVat" ==> r[k] == f[k]
  {
    if f["vatRegistered"] == "yes" then
      f["vatCategoryCode" := if f["vatCategoryCode"] != "" then f["vatCategoryCode"] else "S"]
       ["vatRate" := if f["vatRate"] != "" then f["vatRate"] else "20"]
    else f["vatCategoryCode" := "O"]["vatRate" := ""]["sellerVat" := ""]
  }

  /** Leaving VAT registration resets category, rate and VAT number. */
  lemma VatToggleUnregistered(f: Fields)
    requires HasVatFields(f) && f["vatRegistered"] != "yes"
    ensures var r := VatToggled(f); r["vatCategoryCode"] == "O" && r["vatRate"] == "" && r["sellerVat"] == ""
  {
  }

  /** A registered form keeps its own category, rate and VAT number, and gets `"S"` and `"20"` only in empty ones. */
  lemma VatToggleRegistered(f: Fields)
    requires HasVatFields(f) && f["vatRegistered"] == "yes"
    ensures var r := VatToggled(f);
      r["sellerVat"] == f["sellerVat"]
      && (f["vatCategoryCode"] != "" ==> r["vatCategoryCode"] == f["vatCategoryCode"])
      && (f["vatCategoryCode"] == "" ==> r["vatCategoryCode"] == "S")
      && (f["vatRate"] != "" ==> r["vatRate"] == f["vatRate"])
      && (f["vatRate"] == "" ==> r["vatRate"] == "20")
  {
  }

  /** Running the effect again changes nothing. */
  lemma VatToggleIdempotent(f: Fields)
    requires HasVatFields(f)
    ensures VatToggled(VatToggled(f)) == VatToggled(f)
  {
  }

  datatype Confidence = Low | Medium | High

  /** An auto-fill draft: some form fields, and the optional `_summary` and `_confidence`. */
  datatype Extracted = Extracted(fields: Fields, summary: Option<string>, confidence: Option<Confidence>)

  datatype MergeMode = BlankOnly | Overwrite

  /** Whether `mergeExtracted` writes the draft's value for `k`. */
  predicate Writes(prev: Fields, raw: Fields, mode: MergeMode, k: string) {
    k in raw && (mode == Overwrite || k !in prev || IsBlank(prev[k]))
  }

  /**
   * The form after `mergeExtracted(mode)`: every draft field is written in
   * `"overwrite"` mode, only the blank ones in `"blankOnly"` mode, each through
   * `toFormValue`; nothing else changes.
   */
  function Merged(prev: Fields, raw: Fields, mode: MergeMode): (r: Fields)
    ensures r.Keys == prev.Keys + raw.Keys
  {
    map k | k in prev.Keys + raw.Keys :: MergedValue(prev, raw, mode, k)
  }

  function MergedValue(prev: Fields, raw: Fields, mode: MergeMode, k: string): string
    requires k in prev || k in raw
  {
    if Writes(prev, raw, mode, k) then ToFormValue(k, raw[k]) else prev[k]
  }

  /** `mergeExtracted`'s loop over the draft's keys. */
  method MergeDraft(prev: Fields, raw: Fields, mode: MergeMode) returns (next: Fields)
    ensures next == Merged(prev, raw, mode)
  {
    next := prev;
    var todo := raw.Keys;
    while todo != {}
      invariant todo <= raw.Keys
      invariant next.Keys == prev.Keys + (raw.Keys - todo)
      invariant forall k :: k in next ==> next[k] == if k in todo then prev[k] else MergedValue(prev, raw, mode, k)
      decreases todo
    {
      var k :| k in todo;
      if mode == Overwrite || k !in prev || IsBlank(prev[k]) {
        next := next[k := ToFormValue(k, raw[k])];
      }
      todo := todo - {k};
    }
  }

  /** In `"overwrite"` mode every draft field is written. */
  lemma MergeOverwrite(prev: Fields, raw: Fields)
    ensures forall k :: k in raw ==> Merged(prev, raw, Overwrite)[k] == ToFormValue(k, raw[k])
  {
  }

  /** In `"blankOnly"` mode a field is written only when it was blank; a field the form lacks counts as blank. */
  lemma MergeBlankOnly(prev: Fields, raw: Fields)
    ensures forall k :: k in prev && k in raw ==>
      Merged(prev, raw, BlankOnly)[k] == (if IsBlank(prev[k]) then ToFormValue(k, raw[k]) else prev[k])
    ensures forall k :: k in raw && k !in prev ==> Merged(prev, raw, BlankOnly)[k] == ToFormValue(k, raw[k])
  {
  }

  /** In either mode a field the draft does not name keeps its value. */
  lemma MergeLeavesOthers(prev: Fields, raw: Fields, mode: MergeMode)
    ensures forall k :: k in prev && k !in raw ==> Merged(prev, raw, mode)[k] == prev[k]
  {
  }

  /** A `YesNo` field holds `"yes"` or `"no"` after a merge if it did before. */
  lemma MergeKeepsYesNo(prev: Fields, raw: Fields, mode: MergeMode, k: string)
    requires IsYesNoKey(k) && k in prev && IsYesNo(prev[k])
    ensures IsYesNo(Merged(prev, raw, mode)[k])
  {
  }

  /** Applying the same draft twice gives what applying it once gives. */
  lemma MergeIdempotent(prev: Fields, raw: Fields, mode: MergeMode)
    ensures Merged(Merged(prev, raw, mode), raw, mode) == Merged(prev, raw, mode)
  {
    var once := Merged(prev, raw, mode);
    forall k | k in raw && mode == BlankOnly && Writes(prev, raw, mode, k)
      ensures Merged(once, raw, mode)[k] == once[k]
    {
      if IsYesNoKey(k) {
        assert once[k] == ToFormValue(k, raw[k]);
      }
    }
  }

  /** The checks of `coreWarnings`, in the order it makes them. */
  datatype Warning =
    | NoSeller | NoBuyer | NoInvoiceNo | NoDate | NoDescription | NoAmount
    | NoVatNumber | NoScheme

  /** A warning's sentence, without its full stop. */
  function Sentence(w: Warning): string {
    match w
    case NoSeller => "Add your business name (seller)"
    case NoBuyer => "Add a customer name (buyer)"
    case NoInvoiceNo => "Add an invoice number"
    case NoDate => "Add an invoice date"
    case NoDescription => "Add a description"
    case NoAmount => "Add an amount (net)"
    case NoVatNumber => "VAT registered: add your VAT number"
    case NoScheme => "You added a buyer Endpoint ID \U{2014} pick an Endpoint scheme (recommended)"
  }

  /** The message pushed for a warning: its sentence and a full stop. */
  function Message(w: Warning): (m: string)
    ensures m != [] && m[|m| - 1] == '.'
  {
    Sentence(w) + "."
  }

  function Messages(ws: seq<Warning>): (ms: seq<string>)
    ensures |ms| == |ws| && forall i :: 0 <= i < |ws| ==> ms[i] == Message(ws[i])
  {
    seq(|ws|, i requires 0 <= i < |ws| => Message(ws[i]))
  }

  predicate HasWarningFields(f: Fields) {
    "sellerName" in f && "buyerName" in f && "invoiceNo" in f && "issueDate" in f
    && "itemDescription" in f && "netAmount" in f && "vatRegistered" in f && "sellerVat" in f
    && "buyerEInvoiceId" in f && "buyerEInvoiceScheme" in f
  }

  predicate NeedsVatNumber(f: Fields)
    requires HasWarningFields(f)
  {
    f["vatRegistered"] == "yes" && IsBlank(f["sellerVat"])
  }

  predicate NeedsScheme(f: Fields)
    requires HasWarningFields(f)
  {
    !IsBlank(f["buyerEInvoiceId"]) && IsBlank(f["buyerEInvoiceScheme"])
  }

  /** `if (c) warnings.push(w)` */
  function Push(ws: seq<Warning>, c: bool, w: Warning): (r: seq<Warning>)
    ensures |r| <= |ws| + 1
  {
    if c then ws + [w] else ws
  }

  /** The warnings for a form: one per failed check, in the order of the checks. */
  function Warnings(f: Fields): (ws: seq<Warning>)
    requires HasWarningFields(f)
    ensures |ws| <= 8
  {
    var ws := Push([], IsBlank(f["sellerName"]), NoSeller);
    var ws := Push(ws, IsBlank(f["buyerName"]), NoBuyer);
    var ws := Push(ws, IsBlank(f["invoiceNo"]), NoInvoiceNo);
    var ws := Push(ws, IsBlank(f["issueDate"]), NoDate);
    var ws := Push(ws, IsBlank(f["itemDescription"]), NoDescription);
    var ws := Push(ws, IsBlank(f["netAmount"]), NoAmount);
    var ws := Push(ws, NeedsVatNumber(f), NoVatNumber);
    Push(ws, NeedsScheme(f), NoScheme)
  }

  /** `coreWarnings`: pushes one warning per failed check, the check's `Warning` standing for its `Message`. */
  method CoreWarnings(f: Fields) returns (warnings: seq<Warning>)
    requires HasWarningFields(f)
    ensures warnings == Warnings(f)
  {
    warnings := [];
    ghost var ws := warnings;
    if IsBlank(f["sellerName"]) { warnings := warnings + [NoSeller]; }
    assert warnings == Push(ws, IsBlank(f["sellerName"]), NoSeller);
    ws := warnings;
    if IsBlank(f["buyerName"]) { warnings := warnings + [NoBuyer]; }
    assert warnings == Push(ws, IsBlank(f["buyerName"]), NoBuyer);
    ws := warnings;
    if IsBlank(f["invoiceNo"]) { warnings := warnings + [NoInvoiceNo]; }
    assert warnings == Push(ws, IsBlank(f["invoiceNo"]), NoInvoiceNo);
    ws := warnings;
    if IsBlank(f["issueDate"]) { warnings := warnings + [NoDate]; }
    assert warnings == Push(ws, IsBlank(f["issueDate"]), NoDate);
    ws := warnings;
    if IsBlank(f["itemDescription"]) { warnings := warnings + [NoDescription]; }
    assert warnings == Push(ws, IsBlank(f["itemDescription"]), NoDescription);
    ws := warnings;
    if IsBlank(f["netAmount"]) { warnings := warnings + [NoAmount]; }
    assert warnings == Push(ws, IsBlank(f["netAmount"]), NoAmount);
    ws := warnings;
    if f["vatRegistered"] == "yes" && IsBlank(f["sellerVat"]) { warnings := warnings + [NoVatNumber]; }
    assert warnings == Push(ws, NeedsVatNumber(f), NoVatNumber);
    ws := warnings;
    if !IsBlank(f["buyerEInvoiceId"]) && IsBlank(f["buyerEInvoiceScheme"]) { warnings := warnings + [NoScheme]; }
    assert warnings == Push(ws, NeedsScheme(f), NoScheme);
  }

  /** The VAT number warning is given exactly for a registered seller without a VAT number. */
  lemma VatNumberWarningIff(f: Fields)
    requires HasWarningFields(f)
    ensures NoVatNumber in Warnings(f) <==> NeedsVatNumber(f)
  {
  }

  /** The scheme warning is given exactly for an endpoint ID without a scheme, and then it comes last. */
  lemma SchemeWarningIff(f: Fields)
    requires HasWarningFields(f)
    ensures NoScheme in Warnings(f) <==> NeedsScheme(f)
    ensures NeedsScheme(f) ==> Warnings(f)[|Warnings(f)| - 1] == NoScheme
  {
  }

  /** A form has no warnings exactly when the six core fields are filled in and neither rule applies. */
  lemma NoWarningsIff(f: Fields)
    requires HasWarningFields(f)
    ensures Warnings(f) == [] <==>
      !IsBlank(f["sellerName"]) && !IsBlank(f["buyerName"]) && !IsBlank(f["invoiceNo"])
      && !IsBlank(f["issueDate"]) && !IsBlank(f["itemDescription"]) && !IsBlank(f["netAmount"])
      && !NeedsVatNumber(f) && !NeedsScheme(f)
  {
  }

  function Min(a: int, b: int): int {
    if a < b then a else b
  }

  const Bullet: string := " \U{2022} "

  /** The status `handlePreview` shows around a joined message list, with an ellipsis when `more`. */
  function StatusText(joined: string, more: bool): string {
    "Draft preview (missing: " + joined + (if more then Bullet + "\U{2026}" else "") + ")"
  }

  /** The status for a non-empty warning list: the first three messages, and an ellipsis for more. */
  function PreviewStatus(ws: seq<Warning>): string
    requires ws != []
  {
    StatusText(Join(Messages(ws[..Min(3, |ws|)]), Bullet), |ws| > 3)
  }

  lemma CharBeforeParen(a: string, b: string)
    requires b != []
    ensures var s := a + b + ")"; |s| >= 2 && s[|s| - 2] == b[|b| - 1]
  {
  }

  /** The character before the closing parenthesis is the ellipsis, or else the last character of the list. */
  lemma StatusTextEnd(joined: string, more: bool)
    requires joined != []
    ensures var s := StatusText(joined, more);
      |s| >= 2 && s[|s| - 2] == if more then '\U{2026}' else joined[|joined| - 1]
  {
    var head := "Draft preview (missing: ";
    if more {
      CharBeforeParen(head + joined, Bullet + "\U{2026}");
    } else {
      assert head + joined + "" == head + joined;
      CharBeforeParen(head, joined);
    }
  }

  /** The status ends in an ellipsis exactly when more than three warnings were found. */
  lemma PreviewStatusEllipsis(ws: seq<Warning>)
    requires ws != []
    ensures var s := PreviewStatus(ws); |s| >= 2 && (s[|s| - 2] == '\U{2026}' <==> |ws| > 3)
  {
    var shown := Messages(ws[..Min(3, |ws|)]);
    JoinLastChar(shown, Bullet);
    StatusTextEnd(Join(shown, Bullet), |ws| > 3);
  }

  /** A field counts as work when it is not blank, not its listed default, and not the issue date. */
  predicate IsMeaningful(k: string, v: string) {
    !IsBlank(v) && WorkDefault(k) != Some(v) && k != "issueDate"
  }

  /** Whether the form's field `k` counts as work. */
  predicate IsWork(f: Fields, k: string) {
    k in f && IsMeaningful(k, f[k])
  }

  predicate MeaningfulAt(keys: seq<string>, f: Fields, i: int)
    requires 0 <= i < |keys|
  {
    IsWork(f, keys[i])
  }

  /** The elements of `xs` that `keep` accepts; only their number is used. */
  function Filter<T>(xs: seq<T>, keep: T -> bool): (r: seq<T>)
    ensures |r| <= |xs|
    ensures forall x :: x in r ==> x in xs && keep(x)
    decreases |xs|
  {
    if xs == [] then []
    else (if keep(xs[0]) then [xs[0]] else []) + Filter(xs[1..], keep)
  }

  /** Something survives the filter exactly when some position is accepted. */
  lemma {:induction false} FilterAtLeastOne<T>(xs: seq<T>, keep: T -> bool)
    ensures |Filter(xs, keep)| >= 1 <==> exists i :: 0 <= i < |xs| && keep(xs[i])
    decreases |xs|
  {
    if xs != [] {
      var rest := xs[1..];
      FilterAtLeastOne(rest, keep);
      if exists i :: 0 <= i < |xs| && keep(xs[i]) {
        var i :| 0 <= i < |xs| && keep(xs[i]);
        if i > 0 {
          assert rest[i - 1] == xs[i];
        }
      }
      if exists i :: 0 <= i < |rest| && keep(rest[i]) {
        var i :| 0 <= i < |rest| && keep(rest[i]);
        assert xs[i + 1] == rest[i];
      }
    }
  }

  /** At least two entries survive the filter exactly when two different positions are accepted. */
  lemma {:induction false} FilterAtLeastTwo<T>(xs: seq<T>, keep: T -> bool)
    ensures |Filter(xs, keep)| >= 2 <==> exists i, j :: 0 <= i < j < |xs| && keep(xs[i]) && keep(xs[j])
    decreases |xs|
  {
    if xs != [] {
      var rest := xs[1..];
      FilterAtLeastTwo(rest, keep);
      FilterAtLeastOne(rest, keep);
      if exists i, j :: 0 <= i < j < |xs| && keep(xs[i]) && keep(xs[j]) {
        var i, j :| 0 <= i < j < |xs| && keep(xs[i]) && keep(xs[j]);
        assert rest[j - 1] == xs[j];
        if i > 0 {
          assert rest[i - 1] == xs[i];
        }
      }
      if keep(xs[0]) && exists j :: 0 <= j < |rest| && keep(rest[j]) {
        var j :| 0 <= j < |rest| && keep(rest[j]);
        assert xs[j + 1] == rest[j];
      }
      if exists i, j :: 0 <= i < j < |rest| && keep(rest[i]) && keep(rest[j]) {
        var i, j :| 0 <= i < j < |rest| && keep(rest[i]) && keep(rest[j]);
        assert xs[i + 1] == rest[i] && xs[j + 1] == rest[j];
      }
    }
  }

  /** The test `anyManualWorkStarted` filters the form's keys with. */
  function WorkIn(f: Fields): string -> bool {
    k => IsWork(f, k)
  }

  /** The `filter` of `anyManualWorkStarted` over the form's keys. */
  function MeaningfulKeys(keys: seq<string>, f: Fields): seq<string> {
    Filter(keys, WorkIn(f))
  }

  /** `anyManualWorkStarted` */
  predicate AnyManualWorkStarted(f: Fields) {
    |MeaningfulKeys(CreateKeys, f)| >= 2
  }

  /** Work has started exactly when two different fields are neither blank, nor their default, nor the issue date. */
  lemma ManualWorkStartedIff(f: Fields)
    ensures AnyManualWorkStarted(f) <==>
      exists i, j :: 0 <= i < j < |CreateKeys| && MeaningfulAt(CreateKeys, f, i) && MeaningfulAt(CreateKeys, f, j)
  {
    FilterAtLeastTwo(CreateKeys, WorkIn(f));
    assert forall i :: 0 <= i < |CreateKeys| ==> (WorkIn(f)(CreateKeys[i]) <==> MeaningfulAt(CreateKeys, f, i));
  }

  /** A field at its initial value is no work. */
  lemma InitialValueIsNoWork(k: string)
    ensures !IsMeaningful(k, InitialValue(k))
  {
    InitialValuesAreWorkDefaults(k);
  }

  /** The initial form, whatever issue date its effect fills in, counts as no work. */
  lemma InitialFormIsNoWork(issueDate: string)
    ensures !AnyManualWorkStarted(InitialForm["issueDate" := issueDate])
  {
    var f := InitialForm["issueDate" := issueDate];
    forall k | k in f
      ensures !IsWork(f, k)
    {
      if k != "issueDate" {
        InitialValueIsNoWork(k);
      }
    }
    FilterAtLeastOne(CreateKeys, WorkIn(f));
  }

  function ConfidenceName(c: Confidence): string {
    match c
    case Low => "low"
    case Medium => "medium"
    case High => "high"
  }

  /** The draft's summary, or `"Draft applied."` when it has none or an empty one. */
  function SummaryText(ex: Extracted): (r: string)
    ensures r != []
    ensures ex.summary.Some? && ex.summary.value != "" ==> r == ex.summary.value
  {
    if ex.summary.Some? && ex.summary.value != "" then ex.summary.value else "Draft applied."
  }

  /** The parenthesised confidence, or nothing. */
  function ConfidenceNote(ex: Extracted): string {
    if ex.confidence.Some? then "(" + ConfidenceName(ex.confidence.value) + " confidence)" else ""
  }

  /** `_summaryLine`: the summary and the confidence note, separated by a space and trimmed. */
  function SummaryLine(ex: Extracted): string {
    Trim(SummaryText(ex) + " " + ConfidenceNote(ex))
  }

  /**
   * Without a confidence the line is the trimmed summary; with one, a summary
   * that is not blank loses its leading whitespace and is followed by the note.
   */
  lemma SummaryLineShape(ex: Extracted)
    ensures ex.confidence.None? ==> SummaryLine(ex) == Trim(SummaryText(ex))
    ensures ex.confidence.Some? && !IsBlank(SummaryText(ex)) ==>
      SummaryLine(ex) == TrimStart(SummaryText(ex)) + " (" + ConfidenceName(ex.confidence.value) + " confidence)"
    ensures ex.confidence.Some? && !IsWhitespace(SummaryText(ex)[0]) ==>
      SummaryLine(ex) == SummaryText(ex) + " (" + ConfidenceName(ex.confidence.value) + " confidence)"
    ensures ex.summary.None? ==> SummaryText(ex) == "Draft applied."
  {
    var text := SummaryText(ex);
    if ex.confidence.None? {
      assert text + " " + "" == text + " ";
      TrimDropsTrailingSpace(text);
    } else {
      var note := " (" + ConfidenceName(ex.confidence.value) + " confidence)";
      assert text + " " + ConfidenceNote(ex) == text + note;
      if !IsBlank(text) {
        BlankIffAllWhitespace(text);
        TrimStartConcat(text, note);
        var start := TrimStart(text);
        assert text[..|text|] == text;
        assert start != [];
        var line := start + note;
        assert line[0] == start[0];
        assert line[|line| - 1] == ')';
        TrimOfTrimmed(line);
        assert TrimStart(line) == line;
      }
    }
  }

  const DemoSummary: string := "Drafted a few fields from your notes (demo mode)."

  /** The VAT hint: the lower-cased notes mention `"vat"` and `"20"` or `"20%"`. */
  predicate VatHint(notes: string) {
    var t := ToLower(notes);
    Contains(t, "vat") && (Contains(t, "20") || Contains(t, "20%"))
  }

  /** The `"20%"` alternative adds nothing: the hint is `"vat"` and `"20"`. */
  lemma VatHintIff(notes: string)
    ensures VatHint(notes) <==> Contains(ToLower(notes), "vat") && Contains(ToLower(notes), "20")
  {
    var t := ToLower(notes);
    if Contains(t, "20%") {
      assert "20%" == "20" + "%";
      ContainsPrefixOfNeedle(t, "20", "%");
    }
  }

  /** The item description chosen by the first keyword the lower-cased notes contain, if any. */
  function KeywordDescription(t: string): Option<string> {
    if Contains(t, "window") then Some("Window cleaning services")
    else if Contains(t, "roof") then Some("Roof repair services")
    else if Contains(t, "plumb") then Some("Plumbing services")
    else if Contains(t, "electric") then Some("Electrical services")
    else None
  }

  /** `if (v) out[k] = v` for an optional value. */
  function PutSome(m: Fields, k: string, v: Option<string>): (r: Fields)
    ensures k in r <==> k in m || v.Some?
  {
    if v.Some? then m[k := v.value] else m
  }

  /** A regular-expression group as the stub tests it: present only when the match succeeded with a non-empty group. */
  function Truthy(capture: Option<string>): (r: Option<string>)
    ensures r.Some? <==> capture.Some? && capture.value != ""
    ensures r.Some? ==> r == capture
  {
    if capture.Some? && capture.value != "" then capture else None
  }

  /**
   * The fields `fakeExtractFromNotes` drafts, in the order it assigns them:
   * the amount, the due date, the keyword description, the buyer, and on the
   * VAT hint the registration, category and rate.
   */
  function ExtractFields(amount: Option<string>, due: Option<string>, description: Option<string>,
                         buyer: Option<string>, hint: bool): Fields {
    var m := PutSome(map[], "netAmount", amount);
    var m := PutSome(m, "dueDate", due);
    var m := PutSome(m, "itemDescription", description);
    var m := PutSome(m, "buyerName", buyer);
    PutVat(m, hint)
  }

  /** The VAT fields a hint drafts. */
  function PutVat(m: Fields, hint: bool): Fields {
    var vat := if hint then Some("yes") else None;
    var category := if hint then Some("S") else None;
    var rate := if hint then Some("20") else None;
    PutSome(PutSome(PutSome(m, "vatRegistered", vat), "vatCategoryCode", category), "vatRate", rate)
  }


  /** The trimmed company group, when it is present. */
  function BuyerOf(companyCapture: Option<string>): (r: Option<string>)
    ensures r.Some? <==> Truthy(companyCapture).Some?
  {
    if Truthy(companyCapture).Some? then Some(Trim(companyCapture.value)) else None
  }

  /**
   * `fakeExtractFromNotes`. The regular-expression matches are parameters:
   * `moneyCapture` and `companyCapture` are the first groups of the money and
   * company patterns when they match, `dueDate` the date `days` ahead of today
   * when the due pattern matches.
   */
  method FakeExtractFromNotes(notes: string, moneyCapture: Option<string>, dueDate: Option<string>, companyCapture: Option<string>)
    returns (out: Extracted)
    ensures out == Extracted(
      ExtractFields(Truthy(moneyCapture), dueDate, KeywordDescription(ToLower(notes)), BuyerOf(companyCapture), VatHint(notes)),
      Some(DemoSummary), Some(if VatHint(notes) then Medium else Low))
  {
    var t := ToLower(notes);
    var fields: Fields := map[];
    var confidence := Low;
    ghost var m := fields;
    if moneyCapture.Some? && moneyCapture.value != "" {
      fields := fields["netAmount" := moneyCapture.value];
    }
    assert fields == PutSome(m, "netAmount", Truthy(moneyCapture));
    m := fields;
    if dueDate.Some? {
      fields := fields["dueDate" := dueDate.value];
    }
    assert fields == PutSome(m, "dueDate", dueDate);
    m := fields;
    var description := KeywordDescription(t);
    if description.Some? {
      fields := fields["itemDescription" := description.value];
    }
    assert fields == PutSome(m, "itemDescription", description);
    m := fields;
    if companyCapture.Some? && companyCapture.value != "" {
      fields := fields["buyerName" := Trim(companyCapture.value)];
    }
    assert fields == PutSome(m, "buyerName", BuyerOf(companyCapture));
    m := fields;
    var hint := Contains(t, "vat") && (Contains(t, "20") || Contains(t, "20%"));
    assert hint == VatHint(notes);
    if hint {
      fields := DraftVat(fields);
      confidence := Medium;
    }
    assert fields == PutVat(m, hint);
    assert fields == ExtractFields(Truthy(moneyCapture), dueDate, description, BuyerOf(companyCapture), hint);
    out := Extracted(fields, Some(DemoSummary), Some(confidence));
  }

  /** The three VAT assignments of a hint. */
  method DraftVat(m: Fields) returns (fields: Fields)
    ensures fields == PutVat(m, true)
  {
    fields := m["vatRegistered" := "yes"]["vatCategoryCode" := "S"]["vatRate" := "20"];
  }

  /** The draft holds only form fields. */
  lemma ExtractFieldsAreFormFields(amount: Option<string>, due: Option<string>, description: Option<string>,
                                   buyer: Option<string>, hint: bool)
    ensures ExtractFields(amount, due, description, buyer, hint).Keys <= CreateKeySet
  {
    NamedFieldsAreFormFields();
  }

  /** The amount, due date, description and buyer are drafted exactly when they were found, and as found. */
  lemma ExtractFound(amount: Option<string>, due: Option<string>, description: Option<string>,
                     buyer: Option<string>, hint: bool)
    ensures var r := ExtractFields(amount, due, description, buyer, hint);
      ("netAmount" in r <==> amount.Some?) && ("netAmount" in r ==> r["netAmount"] == amount.value)
      && ("dueDate" in r <==> due.Some?) && ("dueDate" in r ==> r["dueDate"] == due.value)
      && ("itemDescription" in r <==> description.Some?) && ("itemDescription" in r ==> r["itemDescription"] == description.value)
      && ("buyerName" in r <==> buyer.Some?) && ("buyerName" in r ==> r["buyerName"] == buyer.value)
  {
  }

  /** The VAT fields are drafted, as `"yes"`, `"S"` and `"20"`, exactly on the hint. */
  lemma ExtractVat(amount: Option<string>, due: Option<string>, description: Option<string>,
                   buyer: Option<string>, hint: bool)
    ensures var r := ExtractFields(amount, due, description, buyer, hint);
      ("vatRegistered" in r <==> hint) && ("vatCategoryCode" in r <==> hint) && ("vatRate" in r <==> hint)
      && (hint ==> r["vatRegistered"] == "yes" && r["vatCategoryCode"] == "S" && r["vatRate"] == "20")
  {
  }

  /** The keywords are tried in the order window, roof, plumb, electric, and the first found decides. */
  lemma KeywordPriority(t: string)
    ensures KeywordDescription(t).Some? <==>
      Contains(t, "window") || Contains(t, "roof") || Contains(t, "plumb") || Contains(t, "electric")
    ensures Contains(t, "window") ==> KeywordDescription(t) == Some("Window cleaning services")
    ensures !Contains(t, "window") && Contains(t, "roof") ==> KeywordDescription(t) == Some("Roof repair services")
    ensures !Contains(t, "window") && !Contains(t, "roof") && Contains(t, "plumb") ==>
      KeywordDescription(t) == Some("Plumbing services")
    ensures !Contains(t, "window") && !Contains(t, "roof") && !Contains(t, "plumb") && Contains(t, "electric") ==>
      KeywordDescription(t) == Some("Electrical services")
  {
  }

  /** The query `handlePreview` sends: the non-empty fields, and the trimmed paste text as `sourceNotes` when it is not blank. */
  function PreviewQuery(f: Fields, pasteText: string): Query {
    if IsBlank(pasteText) then NonEmptyFields(f) else NonEmptyFields(f)["sourceNotes" := Trim(pasteText)]
  }

  /** The preview query holds exactly the non-empty form fields, unchanged, and `sourceNotes` exactly for a non-blank paste. */
  lemma PreviewQueryContents(f: Fields, pasteText: string)
    requires f.Keys == CreateKeySet
    ensures var q := PreviewQuery(f, pasteText);
      (forall k :: k in q && k != "sourceNotes" <==> k in f && f[k] != "")
      && (forall k :: k in f && f[k] != "" ==> q[k] == f[k])
      && ("sourceNotes" in q <==> !IsBlank(pasteText))
      && ("sourceNotes" in q ==> q["sourceNotes"] == Trim(pasteText) && q["sourceNotes"] != "")
  {
    SourceNotesIsNotAField();
    BlankIffTrimEmpty(pasteText);
  }

  /** A typed form offers each field that a rule reads. */
  lemma TypedHasWarningFields(f: Fields)
    requires Typed(f)
    ensures HasWarningFields(f)
  {
  }

  /** Setting one form field, a `YesNo` one to `"yes"` or `"no"`, keeps a form typed and its keys. */
  lemma SetKeepsTyped(f: Fields, k: string, v: string)
    requires Typed(f) && k in f && (IsYesNoKey(k) ==> IsYesNo(v))
    ensures Typed(f[k := v]) && f[k := v].Keys == f.Keys
  {
  }

  /** The VAT toggle, the recalculation and a merge of form fields keep a form typed and its keys. */
  lemma VatToggleKeepsTyped(f: Fields)
    requires Typed(f)
    ensures HasVatFields(f) && Typed(VatToggled(f)) && VatToggled(f).Keys == f.Keys
  {
  }

  lemma RecalcKeepsTyped(f: Fields)
    requires Typed(f)
    ensures HasAmountFields(f) && Typed(Recalculated(f)) && Recalculated(f).Keys == f.Keys
  {
    assert Recalculated(f).Keys == f.Keys;
  }

  lemma MergeKeepsTyped(f: Fields, raw: Fields, mode: MergeMode)
    requires Typed(f) && raw.Keys <= f.Keys
    ensures Typed(Merged(f, raw, mode)) && Merged(f, raw, mode).Keys == f.Keys
  {
    var r := Merged(f, raw, mode);
    assert r.Keys == f.Keys;
    MergeKeepsYesNo(f, raw, mode, "vatRegistered");
    MergeKeepsYesNo(f, raw, mode, "showUTR");
  }

  /** The page's state: the form record, the two status lines, the paste box and the auto-fill prompt. */
  class CreateForm {
    var form: Fields
    var status: string
    var aiStatus: string
    var pasteText: string
    var pendingExtract: Option<Extracted>
    var showApplyPrompt: bool
    /** The form's fields, fixed when the page mounts. */
    ghost const keys: set<string>

    /** The form has exactly the fields in `keys` and is typed, and a pending draft holds only form fields. */
    ghost predicate Valid()
      reads this
    {
      form.Keys == keys && Typed(form)
      && (pendingExtract.Some? ==> pendingExtract.value.fields.Keys <= form.Keys)
    }

    constructor()
      ensures Valid() && keys == CreateKeySet
      ensures form == InitialForm && status == "" && aiStatus == "" && pasteText == ""
      ensures pendingExtract.None? && !showApplyPrompt
    {
      InitialFormIsTyped();
      keys := CreateKeySet;
      form := InitialForm;
      status := "";
      aiStatus := "";
      pasteText := "";
      pendingExtract := None;
      showApplyPrompt := false;
    }

    /** The mount effect: an empty issue date becomes today's. */
    method InitIssueDate(today: string)
      requires Valid()
      modifies this
      ensures Valid()
      ensures form == old(form)["issueDate" := if old(form)["issueDate"] != "" then old(form)["issueDate"] else today]
      ensures status == old(status) && aiStatus == old(aiStatus) && pasteText == old(pasteText)
      ensures pendingExtract == old(pendingExtract) && showApplyPrompt == old(showApplyPrompt)
    {
      if form["issueDate"] == "" {
        SetKeepsTyped(form, "issueDate", today);
        form := form["issueDate" := today];
      }
    }

    /** `setField`: the one field gets its coerced value; nothing else changes. */
    method SetField(key: string, value: string)
      requires Valid() && key in form
      modifies this
      ensures Valid()
      ensures form == old(form)[key := SetFieldValue(key, value)]
      ensures status == old(status) && aiStatus == old(aiStatus) && pasteText == old(pasteText)
      ensures pendingExtract == old(pendingExtract) && showApplyPrompt == old(showApplyPrompt)
    {
      if key == "vatRegistered" || key == "showUTR" {
        var v := if value == "yes" then "yes" else "no";
        SetKeepsTyped(form, key, v);
        form := form[key := v];
        return;
      }
      SetKeepsTyped(form, key, value);
      form := form[key := value];
    }

    method SetPasteText(text: string)
      requires Valid()
      modifies this
      ensures Valid()
      ensures pasteText == text
      ensures form == old(form) && status == old(status) && aiStatus == old(aiStatus)
      ensures pendingExtract == old(pendingExtract) && showApplyPrompt == old(showApplyPrompt)
    {
      pasteText := text;
    }

    /** A draft made while manual work had started is held back and the apply prompt shown. */
    method OfferDraft(ex: Extracted)
      requires Valid() && ex.fields.Keys <= form.Keys
      modifies this
      ensures Valid()
      ensures pendingExtract == Some(ex) && showApplyPrompt
      ensures form == old(form) && status == old(status) && aiStatus == old(aiStatus) && pasteText == old(pasteText)
    {
      pendingExtract := Some(ex);
      showApplyPrompt := true;
    }

    /** The VAT toggle effect. */
    method ApplyVatToggle()
      requires Valid()
      modifies this
      ensures Valid() && HasVatFields(old(form))
      ensures form == VatToggled(old(form))
      ensures status == old(status) && aiStatus == old(aiStatus) && pasteText == old(pasteText)
      ensures pendingExtract == old(pendingExtract) && showApplyPrompt == old(showApplyPrompt)
    {
      VatToggleKeepsTyped(form);
      form := VatToggled(form);
    }

    /** The recalculation effect. */
    method Recalc()
      requires Valid()
      modifies this
      ensures Valid() && HasAmountFields(old(form))
      ensures form == Recalculated(old(form))
      ensures status == old(status) && aiStatus == old(aiStatus) && pasteText == old(pasteText)
      ensures pendingExtract == old(pendingExtract) && showApplyPrompt == old(showApplyPrompt)
    {
      RecalcKeepsTyped(form);
      form := Recalculated(form);
    }

    /**
     * `mergeExtracted(mode)`: without a pending draft nothing happens;
     * otherwise its fields are merged, the prompt is closed, the draft is
     * dropped and its summary line shown.
     */
    method MergeExtracted(mode: MergeMode)
      requires Valid()
      modifies this
      ensures Valid()
      ensures old(pendingExtract).None? ==>
        form == old(form) && aiStatus == old(aiStatus) && pendingExtract.None? && showApplyPrompt == old(showApplyPrompt)
      ensures old(pendingExtract).Some? ==>
        form == Merged(old(form), old(pendingExtract).value.fields, mode)
        && aiStatus == SummaryLine(old(pendingExtract).value)
        && pendingExtract.None? && !showApplyPrompt
      ensures status == old(status) && pasteText == old(pasteText)
    {
      if pendingExtract.None? {
        return;
      }
      var ex := pendingExtract.value;
      var next := MergeDraft(form, ex.fields, mode);
      MergeKeepsTyped(form, ex.fields, mode);
      form := next;
      showApplyPrompt := false;
      pendingExtract := None;
      aiStatus := SummaryLine(ex);
    }

    /** `handlePreview`: the status names the first warnings, and the query carries the non-empty fields and the notes. */
    method Preview() returns (query: Query)
      requires Valid()
      modifies this
      ensures Valid()
      ensures HasWarningFields(form)
      ensures status == if Warnings(form) == [] then "" else PreviewStatus(Warnings(form))
      ensures query == PreviewQuery(form, pasteText)
      ensures form == old(form) && aiStatus == old(aiStatus) && pasteText == old(pasteText)
      ensures pendingExtract == old(pendingExtract) && showApplyPrompt == old(showApplyPrompt)
    {
      TypedHasWarningFields(form);
      status := "";
      var warnings := CoreWarnings(form);
      if |warnings| > 0 {
        status := PreviewStatus(warnings);
      }
      var names := FieldNames(form);
      query := BuildQuery(names, form);
      if !IsBlank(pasteText) {
        query := query["sourceNotes" := Trim(pasteText)];
      }
    }
  }
}
