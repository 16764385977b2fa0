# Faffless invoice builder: a Dafny model

Faffless is a Next.js app. It collects a small business's invoice details in a
browser form, shows a preview, drafts an email, and offers an XML download from
an API route. This project models the deterministic logic behind those pages
and proves what that logic promises.

- **The XML route** (`app/api/generate/route.ts`), modules `XmlEscape` and
  `GenerateRoute`.
  - `escapeXml` is the chain of five replacements, `&` first. It is proved equal
    to a per-character map, free of markup characters, with every `&` starting an
    entity, inverted by unescaping, and the identity on plain text.
  - `POST` reads the four members `seller`, `buyer`, `invoiceNo` and `date`
    (absent ones default to `""`). It builds the fixed four-child `<invoice>`
    document and answers 200 with the XML headers. A malformed body gets 400,
    with its message or `"Bad Request"`.
  - A small parser for that document proves the round trip: the fields come back
    from the document.
- **Amounts** (`toNumber`, `money2`), module `Money`.
  - Amounts are exact rationals (`real`). `toNumber` strips everything but
    digits and dots; more than one dot, a lone dot, or no digit at all gives 0.
  - `money2` rounds half up to cents and prints exactly two decimals. Reading
    the printed string back gives the nearest cent.
- **The shared form machinery**, module `FormModel`.
  - The query a preview handler builds holds exactly the non-empty fields, unchanged.
  - The recalculation effect blanks both amounts without a net amount, leaves
    VAT blank when not registered, and otherwise prints VAT and total to the
    nearest cent.
- **The create page** (`app/create/page.tsx`), module `CreatePage`.
  - The class `CreateForm` holds the 45-field record and the page's status
    strings. It also holds the pending auto-fill draft.
  - Its methods are the page's updates: typed `setField` (yes/no coercion), the
    VAT toggle effect, the recalculation effect, `mergeExtracted` in "blank
    only" and "overwrite" mode, and `handlePreview`.
  - Each method keeps the invariant that the record has exactly the page's keys
    and that the yes/no fields hold `"yes"` or `"no"`.
  - Pure parts are proved on their own:
    - the ordered `coreWarnings` (at most 8; the VAT-number and endpoint-scheme
      warnings exactly when their conditions hold);
    - the status line, with `" • …"` exactly when there are more than three warnings;
    - `anyManualWorkStarted` (at least two fields that are non-blank, not a
      default, and not the issue date);
    - the keyword priority and the VAT hint of the auto-fill stub;
    - `_summaryLine`.
- **The manual builder** (`app/start-off/manual/page.tsx`), module `ManualPage`.
  - The class `ManualForm` holds a 40-field record with an untyped `setField`.
  - `handlePreview` either reports the fixed missing-fields message or builds
    the non-empty-field query.
- **The backup page** (`app/page.backup.tsx`), module `BackupPage`.
  - It declares the same record, initial values, `toNumber`, `money2`, effects
    and `setField` as the manual builder, line for line, so `ManualPage` and
    `Money` model those.
  - What differs is the order of the required-field test. It is proved to give
    the same verdict.
- **The preview page** (`app/preview-off/page.tsx`), module `PreviewPage`.
  - `safe` and the `data` builder: every listed key is present and trimmed.
  - `textOrMissing`, `moneyLine` and `joinParts`, plus the net, VAT and total
    display choices.
  - The email recipient, and the `openEmailDraft` body built by successive
    pushes, proved block by block against a specification of the layout.
  - The ordered checks of `sendEInvoice`.
- **How the pages meet**, module `Handoff`.
  - The builders navigate to `/preview?…`. The preview page modelled here is
    `app/preview-off/page.tsx`, and none of the pages modelled serves `/preview`.
    `Handoff` therefore assumes that `/preview` renders this page; under that
    assumption the following hold.
  - The create page's query arrives in the preview trimmed, with `sourceNotes`
    exactly for a non-blank paste.
  - The create page's scheme, invoice-type, quantity, unit and VAT-category
    fields are not read by the preview.
  - The preview's download posts `data`, whose members are named `sellerName`,
    `buyerName` and `issueDate`, but the route reads `seller`, `buyer` and
    `date`. The document therefore comes back with those three elements empty
    and only the invoice number filled. The model reproduces this as written.

The route builds a deliberately simple four-child `<invoice>` document; its own
comment (app/api/generate/route.ts:7) leaves the schema to be edited, and the
model follows the document as written.

Everything the browser, the clock or the regular-expression engine supplies is a
parameter of the model:
- today's date;
- the due-in-N-days date;
- the money and company captures of the auto-fill stub;
- the parsed request body of the route.

## Model

| member | source | states |
|---|---|---|
| XmlEscape.EscapeXmlIsPerCharacter | app/api/generate/route.ts:29-36 | the chain of five replacements, `&` first, equals mapping each character to its entity or itself |
| XmlEscape.EscapeOfEntityText | app/api/generate/route.ts:31-35 | `&lt;` is escaped once to `&amp;lt;`: no double processing |
| XmlEscape.EscapeXmlConcat | app/api/generate/route.ts:29-36 | escaping distributes over concatenation |
| XmlEscape.EscapeXmlOutputIsSafe | app/api/generate/route.ts:29-36 | the output has no `<`, `>`, `"` or `'`, and every `&` in it starts one of the five entities |
| XmlEscape.UnescapeEscapeXml | app/api/generate/route.ts:29-36 | unescaping the five entities gives back the input |
| XmlEscape.EscapeXmlPlain | app/api/generate/route.ts:30-35 | text without the five special characters is returned unchanged |
| GenerateRoute.Member | app/api/generate/route.ts:5 | a member that is absent (or a body that is not an object) reads as `""` |
| GenerateRoute.Post | app/api/generate/route.ts:3-27 | 200 exactly when the body parses, with the XML content type and attachment headers and the document head; 400 otherwise, with the message or `"Bad Request"` and the `text/plain;charset=UTF-8` content type a string body gets by default |
| GenerateRoute.InvoiceXmlRoundTrip | app/api/generate/route.ts:8-15 | the document is the declaration and `<invoice>` with seller, buyer, invoiceNo and date children in that order; parsing it returns the four fields |
| GenerateRoute.PostDocument | app/api/generate/route.ts:4-23 | a parsed body gets status 200 and a document whose children are the body's four members |
| GenerateRoute.AbsentKeyGivesEmptyElement | app/api/generate/route.ts:5 | seller, buyer and date absent from the body give empty elements, not an error |
| Money.KeepNumeric | app/start-off/manual/page.tsx:58 | the kept string has only digits and dots, each taken from the input, and is the input itself when that is already numeric |
| Money.ToNumber | app/start-off/manual/page.tsx:57-60 | the number is never negative |
| Money.ToNumberOnlySeesNumeric | app/start-off/manual/page.tsx:58 | stripping is idempotent and the number depends only on the stripped string |
| Money.NumberOfNaN | app/start-off/manual/page.tsx:58-59 | the stripped string is not a number exactly when it has more than one dot or is a lone dot |
| Money.ToNumberOfManyDots | app/start-off/manual/page.tsx:57-60 | more than one dot gives 0 |
| Money.ToNumberOfNoDigits | app/start-off/manual/page.tsx:57-60 | a string with no digit gives 0 |
| Money.ToNumberOfNumeral | app/start-off/manual/page.tsx:57-60 | a printed whole number reads back as itself |
| Money.RoundCents | app/start-off/manual/page.tsx:63 | the cents are the nearest integer to 100 times the amount, halves rounded up |
| Money.Money2 | app/start-off/manual/page.tsx:62-64 | the result ends in a dot and exactly two digits, has no other dot, and starts with `-` exactly for negative cents |
| Money.Money2RoundTrip | app/start-off/manual/page.tsx:62-64 | reading the printed string back gives the magnitude of the rounded cents |
| Money.Money2IsNearest | app/start-off/manual/page.tsx:62-64 | for a non-negative amount, the printed value read back is the rounded amount, within half a cent |
| FormModel.FieldNames | app/create/page.tsx:428 | `Object.keys(form)` lists a key exactly when it is a field of the form |
| FormModel.BuildQuery | app/start-off/manual/page.tsx:188-191 | the loop's query holds exactly the fields with a non-empty value, each unchanged |
| FormModel.Recalculated | app/start-off/manual/page.tsx:143-168 | only `vatAmount` and `totalAmount` change, and they become the amounts computed from net, rate and registration |
| FormModel.RecalcWithoutNet | app/start-off/manual/page.tsx:147-150 | an empty net amount makes both amounts `""` |
| FormModel.RecalcUnregistered | app/start-off/manual/page.tsx:160-166 | when not registered the VAT amount is `""` and the total prints the net to within half a cent |
| FormModel.RecalcRegisteredVat | app/start-off/manual/page.tsx:152-159 | when registered the VAT amount prints net × rate / 100 rounded to the nearest cent |
| FormModel.RecalcRegisteredTotal | app/start-off/manual/page.tsx:152-159 | when registered the total prints net + net × rate / 100 rounded to the nearest cent |
| FormModel.VatIsNonNegative | app/start-off/manual/page.tsx:153-154 | VAT and total of non-negative amounts are non-negative |
| FormModel.RecalcIdempotent | app/start-off/manual/page.tsx:143-168 | running the effect again after it settled changes nothing |
| CreatePage.InitialFormIsTyped | app/create/page.tsx:189-241 | the initial record has exactly the page's keys, and its yes/no fields hold yes or no |
| CreatePage.SourceNotesIsNotAField | app/create/page.tsx:8-64 | `sourceNotes` is not a field of the record |
| CreatePage.SetFieldValue | app/create/page.tsx:278-286 | a yes/no key stores `"yes"` exactly when the value is `"yes"`, else `"no"`; any other key stores the value verbatim |
| CreatePage.ToFormValue | app/create/page.tsx:358-364 | a yes/no key receives only yes or no, keeping a yes/no input; any other key the value verbatim |
| CreatePage.SetFieldAgreesWithToFormValue | app/create/page.tsx:358-364 | typed setting and draft conversion agree on every string |
| CreatePage.VatToggled | app/create/page.tsx:249-256 | the toggle changes only the category, rate and seller VAT number |
| CreatePage.VatToggleUnregistered | app/create/page.tsx:254-255 | not registered: category `"O"`, rate and seller VAT number `""` |
| CreatePage.VatToggleRegistered | app/create/page.tsx:250-253 | registered: category and rate kept when set, else `"S"` and `"20"`; seller VAT number kept |
| CreatePage.VatToggleIdempotent | app/create/page.tsx:249-256 | a second run of the effect changes nothing |
| CreatePage.Merged | app/create/page.tsx:366-388 | the merged record's keys are the record's plus the draft's |
| CreatePage.MergeDraft | app/create/page.tsx:371-384 | the loop over the draft's keys computes the merged record |
| CreatePage.MergeOverwrite | app/create/page.tsx:377-380 | overwrite mode writes every draft key, converted |
| CreatePage.MergeBlankOnly | app/create/page.tsx:382-384 | blank-only mode writes a key exactly when its previous value is blank after trimming, and always writes a key the form lacks (`isEmpty(undefined)` holds) |
| CreatePage.MergeLeavesOthers | app/create/page.tsx:370-384 | in either mode, a field the draft does not name keeps its previous value |
| CreatePage.MergeKeepsYesNo | app/create/page.tsx:358-384 | a yes/no field holds yes or no after either merge |
| CreatePage.MergeIdempotent | app/create/page.tsx:366-388 | merging the same draft twice is merging it once |
| CreatePage.Message | app/create/page.tsx:299-307 | every warning message is a sentence ending in a full stop |
| CreatePage.Messages | app/create/page.tsx:299-307 | the messages are the warnings' sentences, in order |
| CreatePage.Warnings | app/create/page.tsx:297-311 | there are at most 8 warnings |
| CreatePage.CoreWarnings | app/create/page.tsx:297-311 | the pushes build the warning list in the fixed order |
| CreatePage.VatNumberWarningIff | app/create/page.tsx:305 | the VAT-number warning is present exactly when registered and the seller VAT number is blank |
| CreatePage.SchemeWarningIff | app/create/page.tsx:306-307 | the scheme warning is present exactly when an endpoint ID is given without a scheme, and it is then the last |
| CreatePage.NoWarningsIff | app/create/page.tsx:297-311 | no warnings exactly when the six core fields are non-blank and neither conditional warning applies |
| CreatePage.PreviewStatusEllipsis | app/create/page.tsx:421-425 | the status ends in `" • …)"` exactly when there are more than three warnings |
| CreatePage.Filter | app/create/page.tsx:346-353 | the kept keys are among the keys and all pass the test, and there are no more of them than keys |
| CreatePage.FilterAtLeastTwo | app/create/page.tsx:346-354 | at least two keys are kept exactly when two distinct positions pass the test |
| CreatePage.ManualWorkStartedIff | app/create/page.tsx:328-355 | work has started exactly when two distinct fields are non-blank, differ from their default and are not the issue date |
| CreatePage.InitialValueIsNoWork | app/create/page.tsx:329-343 | no initial value counts as work |
| CreatePage.InitialFormIsNoWork | app/create/page.tsx:328-355 | the initial record, whatever its issue date, shows no work started |
| CreatePage.SummaryText | app/create/page.tsx:324 | the summary is the draft's summary when it is non-empty, and never empty |
| CreatePage.SummaryLineShape | app/create/page.tsx:322-326 | without a confidence, the trimmed summary; with one, a non-blank summary without its leading whitespace, a space and the `(… confidence)` note; `Draft applied.` without a summary |
| CreatePage.VatHintIff | app/create/page.tsx:156 | the VAT hint holds exactly when the lower-cased notes contain `vat` and `20` (`20%` adds nothing) |
| CreatePage.KeywordPriority | app/create/page.tsx:148-151 | window, roof, plumb and electric are tried in that order and the first match decides the description |
| CreatePage.Truthy | app/create/page.tsx:136 | a capture is used exactly when it is non-empty |
| CreatePage.BuyerOf | app/create/page.tsx:153-154 | a buyer is drafted exactly when the company capture is non-empty |
| CreatePage.FakeExtractFromNotes | app/create/page.tsx:125-161 | the step-by-step draft is the specified one: the fields found, the demo summary, and medium confidence exactly for the VAT hint, else low |
| CreatePage.DraftVat | app/create/page.tsx:156-160 | the VAT hint sets VAT registration, category and rate |
| CreatePage.ExtractFieldsAreFormFields | app/create/page.tsx:125-161 | the draft only names fields of the record |
| CreatePage.ExtractFound | app/create/page.tsx:133-154 | net amount, due date, description and buyer are drafted exactly when found, with the found values |
| CreatePage.ExtractVat | app/create/page.tsx:156-161 | the VAT fields are drafted exactly for the VAT hint, as yes, S and 20 |
| CreatePage.PreviewQueryContents | app/create/page.tsx:427-432 | the query holds exactly the non-empty fields, unchanged, and `sourceNotes` exactly for a non-blank paste, trimmed |
| CreatePage.SetKeepsTyped | app/create/page.tsx:278-286 | setting a key keeps the keys and keeps yes/no fields typed |
| CreatePage.VatToggleKeepsTyped | app/create/page.tsx:249-256 | the toggle keeps the keys and the typing |
| CreatePage.RecalcKeepsTyped | app/create/page.tsx:259-276 | the recalculation keeps the keys and the typing |
| CreatePage.MergeKeepsTyped | app/create/page.tsx:366-388 | merging a draft over the record's keys keeps the keys and the typing |
| CreatePage.CreateForm.constructor | app/create/page.tsx:167-241 | empty statuses, no pending draft, and the initial record, whose 45 keys are fixed as the form's key set |
| CreatePage.CreateForm.InitIssueDate | app/create/page.tsx:244-246 | the issue date becomes today only when it is empty; nothing else changes |
| CreatePage.CreateForm.SetField | app/create/page.tsx:278-286 | only the named field changes, to its typed value |
| CreatePage.CreateForm.SetPasteText | app/create/page.tsx:506-507 | the paste text becomes the typed text; nothing else changes |
| CreatePage.CreateForm.ApplyVatToggle | app/create/page.tsx:249-256 | the record becomes the toggled record; nothing else changes |
| CreatePage.CreateForm.Recalc | app/create/page.tsx:259-276 | the record becomes the recalculated record; nothing else changes |
| CreatePage.CreateForm.OfferDraft | app/create/page.tsx:406-410 | the draft is pending and the apply prompt is shown |
| CreatePage.CreateForm.MergeExtracted | app/create/page.tsx:366-394 | nothing happens without a draft; otherwise the record is merged, the draft cleared, the prompt hidden and the summary line shown |
| CreatePage.CreateForm.Preview | app/create/page.tsx:418-435 | the status is empty without warnings, else the draft-preview status; the query is the preview query; the state is unchanged |
| ManualPage.NamedFieldsAreFormFields | app/start-off/manual/page.tsx:6-47 | the fields the rules read are fields of the record |
| ManualPage.RequiredMissingIff | app/start-off/manual/page.tsx:174-180 | a required field is missing exactly when one of the six starred fields is empty |
| ManualPage.InitialFormMissesRequired | app/start-off/manual/page.tsx:96-137 | the initial record misses required fields, whatever its issue date |
| ManualPage.HandlePreview | app/start-off/manual/page.tsx:182-193 | missing fields give the fixed message and no query; otherwise an empty status and the non-empty-field query |
| ManualPage.ManualForm.constructor | app/start-off/manual/page.tsx:96-137 | the initial record and an empty status |
| ManualPage.ManualForm.InitIssueDate | app/start-off/manual/page.tsx:139-141 | the issue date becomes today only when it is empty |
| ManualPage.ManualForm.SetField | app/start-off/manual/page.tsx:170-172 | only the named key changes, to the value verbatim |
| ManualPage.ManualForm.Recalc | app/start-off/manual/page.tsx:143-168 | the record becomes the recalculated record |
| ManualPage.ManualForm.Preview | app/start-off/manual/page.tsx:182-193 | the handler's status and query for this record; the record is unchanged |
| BackupPage.SameRequiredTest | app/page.backup.tsx:218-224 | this page's required test agrees with the manual page's: one of the same six fields is empty |
| BackupPage.Preview | app/page.backup.tsx:226-240 | missing fields give the fixed message and no query; otherwise the non-empty-field query |
| PreviewPage.SafeValue | app/preview-off/page.tsx:9-11 | a missing parameter is `""`, a present one is trimmed, and the result is always trimmed |
| PreviewPage.GroupKeyIsRead | app/preview-off/page.tsx:85-133 | the record's fields and `sourceNotes` are read by the preview |
| PreviewPage.OtherKeyIsNotRead | app/preview-off/page.tsx:85-133 | any other name is not read |
| PreviewPage.BuildData | app/preview-off/page.tsx:135-137 | the loop writes `safe` of each listed parameter |
| PreviewPage.DataOfContents | app/preview-off/page.tsx:84-138 | the data has exactly the listed keys, each the trimmed parameter or `""` |
| PreviewPage.AtTrimmed | app/preview-off/page.tsx:84-138 | every value read from the data is trimmed |
| PreviewPage.Or | app/preview-off/page.tsx:140 | the fallback of two strings: the first when non-empty, else the second |
| PreviewPage.TextOrMissing | app/preview-off/page.tsx:26-28 | the value or the fallback, empty only when both are |
| PreviewPage.MoneyLineOfTrimmed | app/preview-off/page.tsx:30-33 | an empty value gives the fallback; otherwise currency, space and value, trimmed |
| PreviewPage.NonEmptyParts | app/preview-off/page.tsx:36 | every kept part is a non-empty part, every non-empty part is kept, and none is kept exactly when all are empty |
| PreviewPage.NonEmptyPartsConcat | app/preview-off/page.tsx:36 | filtering keeps order and repeats: filtering a concatenation concatenates the two filtered halves |
| PreviewPage.NonEmptyPartsSingle | app/preview-off/page.tsx:36 | a single part survives exactly when it is non-empty |
| PreviewPage.JoinPartsAroundEmpty | app/preview-off/page.tsx:35-37 | two non-empty parts with only empty parts between them are joined by exactly one `", "` |
| PreviewPage.JoinPartsEmptyIff | app/preview-off/page.tsx:35-37 | the join is `""` exactly when every part is empty |
| PreviewPage.AddressEmptyIff | app/preview-off/page.tsx:143-157 | an address is empty exactly when its five parts are |
| PreviewPage.DisplayNetCases | app/preview-off/page.tsx:159 | the net line is the priced net, or `No amount added yet` |
| PreviewPage.DisplayVatCases | app/preview-off/page.tsx:160-163 | `Not VAT registered` unless registered; then the priced VAT amount or `No VAT amount yet` |
| PreviewPage.DisplayTotalCases | app/preview-off/page.tsx:164-168 | the priced total, else the priced net, else `No total yet` |
| PreviewPage.EmailRecipientChoice | app/preview-off/page.tsx:204 | the recipient is the send-to address when given, else the buyer's address (possibly empty) |
| PreviewPage.PushEmailLines | app/preview-off/page.tsx:209-238 | the successive pushes build the specified body lines |
| PreviewPage.OpenEmailDraft | app/preview-off/page.tsx:203-244 | recipient, subject and the body lines joined by newlines |
| PreviewPage.EmailLinesByBlocks | app/preview-off/page.tsx:209-238 | an unfolding step for `PushEmailLines`: `EmailLines` regrouped as one concatenation of its blocks, matching the pushes one by one; the block contents are stated by `EmailOpening` … `EmailSignOff` |
| PreviewPage.EmailOpening | app/preview-off/page.tsx:210-219 | the body starts with `Hi,`, a blank line, the fixed sentence and `- Invoice: <no or Draft>`, then the details and a blank line |
| PreviewPage.EmailDelivery | app/preview-off/page.tsx:221-224 | the delivery-ID line and a blank line follow exactly when there is an ID |
| PreviewPage.EmailAttachment | app/preview-off/page.tsx:226-229 | the four attachment lines come next |
| PreviewPage.EmailNotes | app/preview-off/page.tsx:231-235 | `Notes:`, the notes and a blank line follow exactly when there are notes; otherwise the sign-off follows |
| PreviewPage.EmailSignOff | app/preview-off/page.tsx:237-238 | the body ends with `From,` and the seller's name |
| PreviewPage.DetailLinesPresence | app/preview-off/page.tsx:214-218 | each of the date, due, PO and description lines appears exactly when its field is non-empty; the Total line exactly when a total is shown |
| PreviewPage.LinesDiffer | app/preview-off/page.tsx:214-218 | the five detail lines are distinct, whatever their values |
| PreviewPage.CoreMissingIff | app/preview-off/page.tsx:254-261 | core details are missing exactly when one of the six core fields is empty |
| PreviewPage.SendEInvoice | app/preview-off/page.tsx:246-271 | the endpoint is checked first, then the core fields; the next-step message exactly when both pass |
| Handoff.PreviewOfFields | app/preview-off/page.tsx:84-138 | a query of non-empty form fields gives the preview each listed field trimmed and `""` for the others |
| Handoff.CreateToPreview | app/create/page.tsx:427-432 | every field the preview reads from the create page shows trimmed; `sourceNotes` is the trimmed paste, or `""` for a blank paste |
| Handoff.CreateOnlyFieldsDropped | app/preview-off/page.tsx:85-133 | scheme, invoice type, quantity, unit and VAT category are not in the preview's data |
| Handoff.PostedBody | app/preview-off/page.tsx:181 | the posted body has exactly the data's members, as strings |
| Handoff.DownloadLosesNames | app/preview-off/page.tsx:175-182 | posting the preview's data answers 200 with empty seller, buyer and date elements and only the invoice number filled |
| Text.Trim | app/preview-off/page.tsx:10 | the trimmed string is no longer and neither starts nor ends with whitespace |
| Text.TrimIsMiddle | app/preview-off/page.tsx:10 | the trimmed string is the middle of the input, with only whitespace cut before and after it |
| Text.TrimmedIff | app/preview-off/page.tsx:10 | a string is trimmed exactly when trimming leaves it unchanged |
| Text.TrimIdempotent | app/create/page.tsx:432 | trimming twice is trimming once |
| Text.BlankIffTrimEmpty | app/create/page.tsx:117-119 | `isEmpty` holds exactly when trimming leaves nothing |
| Text.ContainsPrefixOfNeedle | app/create/page.tsx:156 | text containing `a + b` contains `a` |
| Text.ToLower | app/create/page.tsx:126 | lower-casing keeps the length |
| Text.NatToStringValue | app/start-off/manual/page.tsx:63 | a printed whole number has the value printed |

## Left out

- JSX markup, images, CSS, panel open/closed state, scrolling, and the presentational pages (`app/page.tsx`, `app/layout.tsx`, `app/privacy/page.tsx`, `app/start-off/ai/page.tsx`): no logic to model.
- `window.location` navigation and the `mailto:` address: browser I/O. `OpenEmailDraft` returns the recipient, subject and body it would encode.
- `URLSearchParams` and `encodeURIComponent` wire encodings: the query is modelled as the map of keys and values that are set. The order of `Object.keys` is not modelled.
- FormModel.FieldNames: lists the form's keys in some order, not in the insertion order `Object.keys` gives; the query it feeds is a map, so the order does not reach it.
- `fetch`, `Blob` and `URL.createObjectURL` in `downloadFrom`, and its status messages: browser I/O. The posted body is modelled by `Handoff.PostedBody`.
- `todayISO` and the due-in-N-days date arithmetic: they read the clock. Today's date and the drafted due date are parameters.
- The regular-expression money and company matches of `fakeExtractFromNotes`: they depend on the regex engine. Their captures are parameters.
- `handleAutoFill`: its stale read of `pendingExtract` is React scheduling, not logic. Its parts are modelled (`FakeExtractFromNotes`, `ManualWorkStartedIff`, `OfferDraft`, `MergeExtracted`).
- `handleFiles`: it only reports a file count in the status line.
- Handoff: the builders navigate to `/preview` (app/create/page.tsx:434, app/start-off/manual/page.tsx:192, app/page.backup.tsx:239), while the preview page modelled is `app/preview-off/page.tsx`, which the App Router serves at `/preview-off`. None of the pages modelled serves `/preview`, so the lemmas of `Handoff` hold only if `/preview` renders that page.
- IEEE-754 behaviour of `Number()`, `Math.round` and `toFixed`, including overflow to Infinity: amounts are exact rationals.
- Money.ToNumber: its own contract states only that the number is never negative, and the overflow of a very long numeral to Infinity (read as 0) is not modelled; the digit-and-dot behaviour is stated by `ToNumberOnlySeesNumeric`, `NumberOfNaN`, `ToNumberOfManyDots` and `ToNumberOfNoDigits`.
- Text.ToLower: lower-cases ASCII `A`–`Z` only, not the whole of Unicode.
- The route's request body is a parameter: a JSON object of string, null or boolean members, another JSON value, or a parse failure with its message. Number, array and object member values are not modelled.
- `Response` objects and their `statusText`: the route's result is status, headers and body; the headers are the ones the handler passes or, where it passes none, the default `Content-Type` of a string body. Headers Next.js adds on the way out are not modelled.
- The UBL Invoice-2 / Peppol document and the PDF endpoint: neither is implemented in these files.
