# Ton Cota quote editor — a Dafny model

Ton Cota is a single-page form where a service provider fills in their name, WhatsApp number and Pix key, the client's name, and a list of priced services. A receipt preview is shown live. The receipt can be downloaded as a PDF or shared through WhatsApp.

This project models the logic of that editor and proves properties of it:

- **Store.** The quote store keeps the initial quote. It adds, removes and updates line items, sets the text fields, and computes the derived total.
- **Service row.** Each input of a row becomes an update or a remove event.
- **Receipt preview.** A pure projection of the quote into the receipt's fields and lines.
- **Export.** This covers the download file name, the share message (including its `.trim()`), and the choice between native share, link only, and download plus link.
- **Editor state.** A class holds the `data` quote and the `isGenerating` flag. Both export handlers run in two steps: a click starts the export, and the return of PDF generation finishes it.

Modules, one per source file:

| module | file | source |
|---|---|---|
| `Types` | types.dfy | types.ts |
| `ServiceRow` | service_row.dfy | components/ServiceRow.tsx |
| `QuoteStore` | quote_store.dfy | App.tsx, the state operations |
| `ReceiptPreview` | receipt_preview.dfy | components/ReceiptPreview.tsx |
| `Export` | export.dfy | App.tsx, the export handlers |
| `App` | app.dfy | App.tsx, the component state |

Numbers:

- A JavaScript number is `Num(real) | NaN`. This lets `price || 0` and `parseFloat(…) || 0` keep their meaning: NaN and 0 are falsy.
- Finite values are exact reals.
- `formatBRL`, `cleanWhatsAppNumber` and `encodeURIComponent` are function parameters. Their definitions (utils/formatters and the browser) are not part of this model.

Where the code and the design description differ, the model follows the code:

- **Price coercion.** `updateService` stores whatever value it receives. The coercion of unparsable prices to 0 happens in the row's handler (components/ServiceRow.tsx:27). The total also counts a NaN price as 0 (App.tsx:52).
- **Removal.** `removeService` removes *every* row with the given id, not just one. With distinct ids this is one row, and `SharedIdEmptiesList` shows the list can end up empty when two rows share an id.
- **File names.** The share handler's fallback download is named `Orcamento_TonCota.pdf`, not after the client. Only the download button uses `Recibo_<client>.pdf`.
- **No error state.** The export has no separate error state. A failed generation just leaves the flag down and, on download, saves nothing.

## Model

| member | source | states |
|---|---|---|
| `ServiceRow.CoercePrice` | components/ServiceRow.tsx:27 | `parseFloat(..) \|\| 0`: a non-zero parsed number is kept; NaN and 0 give 0 |
| `ServiceRow.ShownPrice` | components/ServiceRow.tsx:26 | the price input is blank exactly when the price is 0 or NaN, otherwise it shows the price |
| `ServiceRow.EventsCarryRowId` | components/ServiceRow.tsx:18-33 | every event a row raises (description, price, remove) carries that row's id |
| `ServiceRow.PriceRoundTrip` | components/ServiceRow.tsx:26-27 | a price entry is an update that never carries NaN; the typed price shows back as typed, a NaN or zero entry shows blank |
| `QuoteStore.TotalAppend` | App.tsx:52 | the total of a concatenation is the sum of the totals (the total is additive over line items) |
| `QuoteStore.TotalNonNegative` | App.tsx:52 | with no negative price the total is not negative |
| `QuoteStore.Initial` | App.tsx:19-25 | the initial quote is valid, has one row with empty description and price 0, all text fields empty, total 0 |
| `QuoteStore.AddService` | App.tsx:30-35 | one blank row with the fresh id is appended; the earlier rows, the text fields and the total are unchanged; validity is kept |
| `QuoteStore.WithoutId` | App.tsx:41 | the filter keeps exactly the rows whose id differs; an unknown id leaves the list as it was |
| `QuoteStore.WithoutIdAt` | App.tsx:41 | with distinct ids, filtering out row k's id gives the list without row k, the others in order |
| `QuoteStore.RemoveService` | App.tsx:37-43 | a one-row list is left as it was; otherwise exactly the rows with other ids remain; an unknown id changes nothing; validity (at least one row, distinct ids) is kept |
| `QuoteStore.RemoveServiceAt` | App.tsx:37-43 | with distinct ids and two or more rows, removing row k's id drops that row alone and lowers the total by its price |
| `QuoteStore.SharedIdEmptiesList` | App.tsx:37-43 | two rows sharing an id are removed together and leave no row, so distinct ids are needed for the one-row guarantee |
| `QuoteStore.UpdateItems` | App.tsx:48 | the map keeps length and ids, changes the rows with the id by the field edit, and leaves the others equal |
| `QuoteStore.UpdateService` | App.tsx:45-50 | only the named field of matching rows changes; length, order, ids and the text fields stay; an unknown id changes nothing; validity is kept |
| `QuoteStore.DescriptionEditKeepsTotal` | App.tsx:48-52 | a description update leaves the total unchanged |
| `QuoteStore.PriceEditTotal` | App.tsx:48-52 | with distinct ids, a price update of row k changes the total by new price minus old price, falsy prices counted as 0 |
| `QuoteStore.SetText` | App.tsx:160-204 | a text input sets its own field to the typed text; the other fields and the services are unchanged |
| `QuoteStore.RowEventTouchesOnlyItsRow` | components/ServiceRow.tsx:18-33 | an event from row k, once dispatched to the store, changes row k only: updates keep the other rows, removal drops row k alone or nothing on a one-row list |
| `QuoteStore.DescriptionEntryStoresText` | components/ServiceRow.tsx:18 | text typed into row k's description, once dispatched, becomes that row's description as typed; its id, its price and the total stay |
| `QuoteStore.PriceEntryShowsBack` | components/ServiceRow.tsx:26-27 | a price typed into row k and dispatched shows back in row k's input, NaN or zero as blank |
| `QuoteStore.RunKeepsValid` | App.tsx:30-50 | every session of adds, row events and text edits keeps at least one row and distinct ids |
| `QuoteStore.TwoPricedRowsSession` | App.tsx:30-52 | from the initial quote, adding two rows and pricing them 10.5 and 20 gives total 30.5 |
| `ReceiptPreview.Decimal` | components/ReceiptPreview.tsx:60 | the placeholder number is a non-empty run of decimal digits without a leading zero |
| `ReceiptPreview.DecimalRoundTrip` | components/ReceiptPreview.tsx:60 | reading the decimal text of n back gives n |
| `ReceiptPreview.Label` | components/ReceiptPreview.tsx:60 | a line's label is its description when non-empty, else `Serviço Extra #` and the 1-based position; it is never empty |
| `ReceiptPreview.PlaceholdersDistinct` | components/ReceiptPreview.tsx:57-60 | rows without a description at different positions get different labels |
| `ReceiptPreview.LinesFrom` | components/ReceiptPreview.tsx:57-66 | one line per service, in order, labelled by position and showing that service's price |
| `ReceiptPreview.LinesAddUp` | components/ReceiptPreview.tsx:12 | the receipt's line amounts, falsy ones as 0, add up to the store's total |
| `ReceiptPreview.FirstWord` | components/ReceiptPreview.tsx:85 | `split(' ')[0]` is the prefix before the first space: a prefix, with no space, followed by a space or the end |
| `ReceiptPreview.FirstWordUnique` | components/ReceiptPreview.tsx:85 | that prefix is unique, so FirstWord is exactly the text up to the first space |
| `ReceiptPreview.ContactName` | components/ReceiptPreview.tsx:85 | the contact name is the first word or `Prestador`; never empty, never with a space |
| `ReceiptPreview.Render` | components/ReceiptPreview.tsx:11-92 | provider and client fall back to `Seu Nome Aqui` and `Nome do Cliente`; a Pix line iff a Pix key; one line per service in order; the total is the sum of the lines; a contact link iff a WhatsApp number, with href `https://wa.me/` plus the cleaned number and caption `Falar com` plus the contact name |
| `ReceiptPreview.ReceiptTotalMatchesEditor` | components/ReceiptPreview.tsx:12 | the receipt's total equals the editor's total for the same quote |
| `Export.DownloadName` | App.tsx:86 | the file name is `Recibo_` + stem + `.pdf`; the stem is the client's name, or `TonCota` when blank |
| `Export.TrimStart` | App.tsx:105 | removes exactly the leading JavaScript whitespace |
| `Export.TrimEnd` | App.tsx:105 | removes exactly the trailing JavaScript whitespace |
| `Export.TrimKeepsBoundedText` | App.tsx:105 | trimming text with no whitespace at either end changes nothing |
| `Export.MessageLines` | App.tsx:97-105 | nine lines: header with provider or `Prestador`, greeting with client or `Cliente`, the formatted total on line 3, the Pix line or an empty line on line 4 |
| `Export.PixLineIffKey` | App.tsx:101 | the message has a Pix line exactly when the Pix key is non-empty, and it carries that key |
| `Export.MessageEdges` | App.tsx:97-105 | the template starts with `O` and ends with `a` |
| `Export.JoinLinesEdges` | App.tsx:97-105 | joined lines start with the first line's first character and end with the last line's last character |
| `Export.ShareMessage` | App.tsx:97-105 | the trimmed message equals the joined template, so the trim changes nothing |
| `Export.MessageIgnoresDescriptions` | App.tsx:97-105 | a description edit leaves the share message unchanged |
| `Export.DownloadEffects` | App.tsx:79-91 | the file is saved under the client file name exactly when a blob was produced; otherwise nothing is saved |
| `Export.ShareEffects` | App.tsx:107-133 | native share is attempted iff blob, share API and mobile; the text-only wa.me link opens iff native share was not attempted or was rejected; a download happens iff there is a blob and native share is not attempted; no other action occurs; at most two actions, none repeated; whenever the link opens it is the last action |
| `App.QuoteEditor.constructor` | App.tsx:19-27 | the editor starts with the initial quote, the flag down and no export waiting |
| `App.QuoteEditor.AddService` | App.tsx:30-35 | data becomes the store's addService snapshot; one row more; total and flag unchanged; validity kept |
| `App.QuoteEditor.RemoveService` | App.tsx:37-43 | data becomes the removeService snapshot; at least one row remains; a one-row list is unchanged |
| `App.QuoteEditor.UpdateService` | App.tsx:45-50 | data becomes the updateService snapshot; length kept; a description edit keeps the total |
| `App.QuoteEditor.SetText` | App.tsx:160-204 | data becomes the text-field snapshot; services unchanged |
| `App.QuoteEditor.ClickDownload` | App.tsx:79-81 | a click while exporting does nothing; otherwise the flag goes up and the export waits, holding the client name |
| `App.QuoteEditor.FinishDownload` | App.tsx:81-91 | once generation returns, the delivery is the download decision and the flag goes down; data is unchanged |
| `App.QuoteEditor.ClickShare` | App.tsx:93-107 | a click while exporting does nothing; otherwise the flag goes up and the composed message is held |
| `App.QuoteEditor.FinishShare` | App.tsx:107-134 | once generation returns, the delivery is the share decision for the held message and the flag goes down |
| `App.OverlappingClicks` | App.tsx:239-256 | with a download waiting, a share click and a second download click both start nothing; the delivery is the first click's download for the quote as it was, and the flag goes down |

## Left out

- PDF generation (App.tsx:10-16, 54-77) is left out because the library loading, canvas capture, scale factor and `pdf.output` are foreign code. Generation is reduced to whether a blob was produced. A missing receipt element and a thrown error both count as "no blob".
- Browser side effects are actions the model returns as `Effect` values, not performed. This covers `URL.createObjectURL`/`revokeObjectURL`, the anchor and its `click()`, `window.open`, `navigator.share`, and the `console.error` logging of a failed generation (App.tsx:74).
- The user-agent test `/Android|iPhone|iPad|iPod/i` and the presence of `navigator.share` are boolean inputs (`Export.Device`). The regex is not modelled.
- `formatBRL`, `cleanWhatsAppNumber` and `encodeURIComponent` are function parameters. Their definitions are not part of this model, so properties that depend on their output (such as `R$ 0,00`) are not stated.
- `parseFloat` is represented by the number it returns. Parsing of the input text is not modelled. Infinity and floating-point rounding are not modelled; prices are exact reals.
- Id generation with `Math.random` (App.tsx:24, 33) is replaced by a caller-supplied id. `addService` requires the id to be fresh; collisions of random ids are not modelled.
- `updateService` with field `id`: the `keyof ServiceItem` type allows it, but no caller passes it, so it is not modelled. Values of the wrong type for a field (`value: any`) are not modelled either.
- React scheduling is not modelled: each `setData` is one synchronous replacement. `removeService` checks the length on the rendered `data` but filters `prev`, and `isGenerating` only disables the buttons after a re-render. Clicks that land before a re-render could see stale state; the model has none.
- Presentation is not modelled: JSX layout, CSS (including the upper-casing of names on the receipt), SVG, and components/Banner.tsx, which is static markup.
- `ReceiptPreview.Render` keeps line amounts and the total as numbers. Their currency text comes from `formatBRL`, which is not part of this model.
