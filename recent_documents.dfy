/**
 * The recent-documents list: one entry per stored invoice, quotation and
 * receipt that names a client, assembled in that order, and deletion by id.
 */
module RecentDocuments {
  import opened Wrappers
  import opened Fallbacks
  import opened StoredDocuments
  import Sequences
  import Receipt
  import Quotation

  datatype DocumentKind = InvoiceDoc | QuotationDoc | ReceiptDoc

  /** The position of a kind in the list. */
  function Rank(kind: DocumentKind): nat {
    match kind
    case InvoiceDoc => 0
    case QuotationDoc => 1
    case ReceiptDoc => 2
  }

  /** A list entry; the display date is not modelled. */
  datatype Document = Document(id: string, kind: DocumentKind, title: string, client: string, amount: real, reference: string)

  /** `doc.clientInfo?.name`, with a missing name read as "". */
  function ClientName(doc: StoredDocument): string {
    ClientText(doc.clientInfo, (cl: StoredClient) => cl.name)
  }

  /** The entry of a stored invoice or quotation: present exactly when the
      blob exists and names a client; its amount is the raw item sum. */
  function BlobEntry(blob: Option<StoredDocument>, id: string, kind: DocumentKind, title: string): (e: Option<Document>)
    ensures e.Some? <==> blob.Some? && ClientName(blob.value) != ""
    ensures e.Some? ==>
              && e.value.id == id && e.value.kind == kind && e.value.title == title
              && e.value.client == ClientName(blob.value) && e.value.client != ""
              && e.value.amount == Subtotal(blob.value.items)
              && e.value.reference == TextOr(blob.value.referenceNumber, "N/A") && e.value.reference != ""
  {
    if blob.None? || ClientName(blob.value) == "" then None
    else
      var doc := blob.value;
      Some(Document(id, kind, title, ClientName(doc), Subtotal(doc.items), TextOr(doc.referenceNumber, "N/A")))
  }

  /** The invoice's entry: "invoice-1", present exactly when the invoice names a client. */
  function InvoiceEntry(invoice: Option<StoredDocument>): (e: Option<Document>)
    ensures e.Some? <==> invoice.Some? && ClientName(invoice.value) != ""
    ensures e.Some? ==> e.value.id == "invoice-1" && e.value.kind == InvoiceDoc && e.value.amount == Subtotal(invoice.value.items)
  {
    BlobEntry(invoice, "invoice-1", InvoiceDoc, "Invoice")
  }

  /** The quotation's entry: "quotation-1", present exactly when the quotation names a client. */
  function QuotationEntry(quotation: Option<StoredDocument>): (e: Option<Document>)
    ensures e.Some? <==> quotation.Some? && ClientName(quotation.value) != ""
    ensures e.Some? ==> e.value.id == "quotation-1" && e.value.kind == QuotationDoc && e.value.amount == Subtotal(quotation.value.items)
  {
    BlobEntry(quotation, "quotation-1", QuotationDoc, "Quotation")
  }

  /** The entry of a stored receipt: present exactly when it names a
      customer; its amount is the recorded payment, 0 when none is. */
  function ReceiptEntry(receipt: Option<StoredReceipt>): (e: Option<Document>)
    ensures e.Some? <==> receipt.Some? && receipt.value.customerInfo.Some? && receipt.value.customerInfo.value.name != ""
    ensures e.Some? ==>
              && e.value.id == "receipt-1" && e.value.kind == ReceiptDoc && e.value.title == "Receipt"
              && e.value.client == receipt.value.customerInfo.value.name
              && e.value.amount == (if receipt.value.paymentInfo.Some? then receipt.value.paymentInfo.value.amount else 0.0)
              && e.value.reference == TextOr(receipt.value.receiptNumber, "N/A") && e.value.reference != ""
  {
    if receipt.None? || receipt.value.customerInfo.None? || receipt.value.customerInfo.value.name == "" then None
    else
      var r := receipt.value;
      var amount := if r.paymentInfo.None? then 0.0 else NumberOr(Some(r.paymentInfo.value.amount), 0.0);
      Some(Document("receipt-1", ReceiptDoc, "Receipt", r.customerInfo.value.name, amount, TextOr(r.receiptNumber, "N/A")))
  }

  function Present(e: Option<Document>): (r: seq<Document>)
    ensures |r| <= 1
  {
    if e.Some? then [e.value] else []
  }

  predicate DistinctIds(docs: seq<Document>) {
    forall i, j :: 0 <= i < j < |docs| ==> docs[i].id != docs[j].id
  }

  /** The entries listed for the three blobs, in the order invoice, quotation, receipt. */
  function Listed(invoice: Option<StoredDocument>, quotation: Option<StoredDocument>, receipt: Option<StoredReceipt>): (r: seq<Document>)
    ensures |r| <= 3
    ensures InvoiceEntry(invoice).Some? ==> |r| >= 1 && r[0] == InvoiceEntry(invoice).value
    ensures ReceiptEntry(receipt).Some? ==> |r| >= 1 && r[|r| - 1] == ReceiptEntry(receipt).value
    ensures QuotationEntry(quotation).Some? ==> QuotationEntry(quotation).value in r
    ensures forall d :: d in r ==> Some(d) == InvoiceEntry(invoice) || Some(d) == QuotationEntry(quotation) || Some(d) == ReceiptEntry(receipt)
    ensures r == [] <==> InvoiceEntry(invoice).None? && QuotationEntry(quotation).None? && ReceiptEntry(receipt).None?
  {
    Present(InvoiceEntry(invoice)) + Present(QuotationEntry(quotation)) + Present(ReceiptEntry(receipt))
  }

  /** The fixed id of each kind's entry. */
  function IdOf(kind: DocumentKind): string {
    match kind
    case InvoiceDoc => "invoice-1"
    case QuotationDoc => "quotation-1"
    case ReceiptDoc => "receipt-1"
  }

  /** Every entry of `docs` is of kind `kind`, carries its id and names a client. */
  predicate Tagged(docs: seq<Document>, kind: DocumentKind) {
    forall k :: 0 <= k < |docs| ==> docs[k].kind == kind && docs[k].id == IdOf(kind) && docs[k].client != ""
  }

  /** The entries come in strictly increasing kind order. */
  predicate InKindOrder(docs: seq<Document>) {
    forall i, j :: 0 <= i < j < |docs| ==> Rank(docs[i].kind) < Rank(docs[j].kind)
  }

  predicate NamesClients(docs: seq<Document>) {
    forall k :: 0 <= k < |docs| ==> docs[k].client != ""
  }

  lemma PresentTagged(e: Option<Document>, kind: DocumentKind)
    requires e.Some? ==> e.value.kind == kind && e.value.id == IdOf(kind) && e.value.client != ""
    ensures Tagged(Present(e), kind)
  {
  }

  /** Three lists of at most one entry each, of increasing kinds, make a list
      in kind order whose ids are the kinds' ids. */
  lemma ConcatTagged(a: seq<Document>, b: seq<Document>, c: seq<Document>)
    requires |a| <= 1 && |b| <= 1 && |c| <= 1
    requires Tagged(a, InvoiceDoc) && Tagged(b, QuotationDoc) && Tagged(c, ReceiptDoc)
    ensures var docs := a + b + c;
            && InKindOrder(docs) && NamesClients(docs)
            && (forall k :: 0 <= k < |docs| ==> docs[k].id == IdOf(docs[k].kind))
  {
    var docs := a + b + c;
    forall i, j | 0 <= i < j < |docs|
      ensures Rank(docs[i].kind) < Rank(docs[j].kind)
    {
      if i < |a| {
        assert docs[i] == a[i];
        assert j >= |a|;
      } else {
        assert i < |a| + |b| && docs[i] == b[i - |a|];
        assert j >= |a| + |b| && docs[j] == c[j - |a| - |b|];
      }
    }
  }

  /** Entries in kind order that carry their kinds' ids have distinct ids. */
  lemma OrderedKindsHaveDistinctIds(docs: seq<Document>)
    requires InKindOrder(docs)
    requires forall k :: 0 <= k < |docs| ==> docs[k].id == IdOf(docs[k].kind)
    ensures DistinctIds(docs)
  {
    forall i, j | 0 <= i < j < |docs|
      ensures docs[i].id != docs[j].id
    {
      assert Rank(docs[i].kind) < Rank(docs[j].kind);
    }
  }

  /** At most three entries, one per kind in kind order, each naming a client. */
  lemma ListedShape(invoice: Option<StoredDocument>, quotation: Option<StoredDocument>, receipt: Option<StoredReceipt>)
    ensures var docs := Listed(invoice, quotation, receipt);
            |docs| <= 3 && DistinctIds(docs) && InKindOrder(docs) && NamesClients(docs)
  {
    var a, b, c := Present(InvoiceEntry(invoice)), Present(QuotationEntry(quotation)), Present(ReceiptEntry(receipt));
    PresentTagged(InvoiceEntry(invoice), InvoiceDoc);
    PresentTagged(QuotationEntry(quotation), QuotationDoc);
    PresentTagged(ReceiptEntry(receipt), ReceiptDoc);
    ConcatTagged(a, b, c);
    OrderedKindsHaveDistinctIds(a + b + c);
  }

  /** `loadRecentDocuments`, given the three parsed blobs (None when absent):
      each blob's entry, when it has one, is pushed in turn. */
  method LoadRecentDocuments(invoice: Option<StoredDocument>, quotation: Option<StoredDocument>, receipt: Option<StoredReceipt>)
    returns (docs: seq<Document>)
    ensures docs == Listed(invoice, quotation, receipt)
    ensures |docs| <= 3 && DistinctIds(docs) && InKindOrder(docs) && NamesClients(docs)
  {
    docs := [];
    var entry := InvoiceEntry(invoice);
    if entry.Some? {
      docs := docs + [entry.value];
    }
    assert docs == Present(InvoiceEntry(invoice));
    entry := QuotationEntry(quotation);
    var before := docs;
    if entry.Some? {
      docs := docs + [entry.value];
    }
    assert docs == before + Present(QuotationEntry(quotation));
    entry := ReceiptEntry(receipt);
    before := docs;
    if entry.Some? {
      docs := docs + [entry.value];
    }
    assert docs == before + Present(ReceiptEntry(receipt));
    ListedShape(invoice, quotation, receipt);
  }

  /** `deleteDocument`: every entry with the id goes, the rest keep their order. */
  function DeleteDocument(docs: seq<Document>, id: string): (r: seq<Document>)
    ensures |r| <= |docs|
    ensures forall k :: 0 <= k < |r| ==> r[k].id != id && r[k] in docs
    ensures forall k :: 0 <= k < |docs| && docs[k].id != id ==> docs[k] in r
    ensures (forall k :: 0 <= k < |docs| ==> docs[k].id != id) ==> r == docs
  {
    Sequences.Filter(docs, (d: Document) => d.id != id)
  }

  lemma DeleteKeepsOrder(a: seq<Document>, b: seq<Document>, id: string)
    ensures DeleteDocument(a + b, id) == DeleteDocument(a, id) + DeleteDocument(b, id)
  {
    Sequences.FilterAppend(a, b, (d: Document) => d.id != id);
  }

  /** With distinct ids, deleting a listed id removes exactly one entry. */
  lemma DeleteListedRemovesOne(docs: seq<Document>, k: nat)
    requires DistinctIds(docs) && k < |docs|
    ensures |DeleteDocument(docs, docs[k].id)| == |docs| - 1
  {
    var id := docs[k].id;
    var a, b := docs[..k], docs[k + 1..];
    assert docs == a + ([docs[k]] + b);
    DeleteKeepsOrder(a, [docs[k]] + b, id);
    DeleteKeepsOrder([docs[k]], b, id);
    assert forall j :: 0 <= j < |a| ==> a[j].id != id by {
      forall j | 0 <= j < |a| ensures a[j].id != id {
        assert a[j] == docs[j];
      }
    }
    assert forall j :: 0 <= j < |b| ==> b[j].id != id by {
      forall j | 0 <= j < |b| ensures b[j].id != id {
        assert b[j] == docs[k + 1 + j];
      }
    }
    assert DeleteDocument([docs[k]], id) == [];
  }

  /** The list shows an invoice's raw item sum: that is the amount a receipt
      made from it asks for only without discount and tax, and a full
      discount on a non-zero sum makes the two differ. */
  lemma RecentAmountIgnoresRates(invoice: StoredDocument)
    requires ClientName(invoice) != ""
    ensures InvoiceEntry(Some(invoice)).value.amount == Subtotal(invoice.items)
    ensures (invoice.discount.None? || invoice.discount == Some(0.0)) && (invoice.taxRate.None? || invoice.taxRate == Some(0.0)) ==>
              InvoiceEntry(Some(invoice)).value.amount == Receipt.ReceiptAmount(invoice)
    ensures invoice.discount == Some(100.0) && Subtotal(invoice.items) != 0.0 ==>
              InvoiceEntry(Some(invoice)).value.amount != Receipt.ReceiptAmount(invoice)
  {
    if (invoice.discount.None? || invoice.discount == Some(0.0)) && (invoice.taxRate.None? || invoice.taxRate == Some(0.0)) {
      Receipt.NoRatesMeansSubtotal(invoice);
    }
  }

  /** The stored form of the quotation's items. */
  function StoredItems(items: seq<Quotation.Item>): (r: seq<StoredItem>)
    ensures |r| == |items| && forall k :: 0 <= k < |items| ==> r[k] == StoredItem(Some(items[k].amount))
    ensures forall k :: 0 <= k < |r| ==> NumberOr(r[k].amount, 0.0) == items[k].amount
  {
    seq(|items|, k requires 0 <= k < |items| => StoredItem(Some(items[k].amount)))
  }

  /** Summing the stored items gives the quotation total. */
  lemma {:induction false} StoredItemsSumIsTotal(items: seq<Quotation.Item>)
    ensures ItemsSum(StoredItems(items)) == Quotation.Total(items)
    decreases |items|
  {
    if items != [] {
      var init, last := items[..|items| - 1], items[|items| - 1];
      assert items == init + [last];
      assert StoredItems(items)[..|items| - 1] == StoredItems(init);
      StoredItemsSumIsTotal(init);
      Quotation.TotalAppend(init, [last]);
      Quotation.TotalCons(last, []);
    }
  }

  /** A quotation saved by the quotation creator is listed with its total. */
  lemma QuotationListedWithTotal(quotation: StoredDocument, items: seq<Quotation.Item>)
    requires quotation.items == Some(StoredItems(items)) && ClientName(quotation) != ""
    ensures QuotationEntry(Some(quotation)).value.amount == Quotation.Total(items)
  {
    StoredItemsSumIsTotal(items);
  }

  /** A receipt saved by the receipt builder is listed with its payment
      amount and its receipt number (or "N/A" when the number is empty). */
  lemma ReceiptListedWithPayment(form: Receipt.ReceiptForm)
    requires form.customerInfo.name != ""
    ensures ReceiptEntry(Some(Receipt.Saved(form))).Some?
    ensures ReceiptEntry(Some(Receipt.Saved(form))).value.amount == form.paymentInfo.amount
    ensures ReceiptEntry(Some(Receipt.Saved(form))).value.reference == TextOr(Some(form.receiptNumber), "N/A")
  {
  }

  /** Loading a receipt from an invoice keeps the client the list shows for
      that invoice: the receipt's customer is the invoice's client. */
  lemma LoadedCustomerIsListedClient(invoice: StoredDocument)
    ensures Receipt.CustomerFromInvoice(invoice).name == ClientName(invoice)
    ensures InvoiceEntry(Some(invoice)).Some? ==>
              InvoiceEntry(Some(invoice)).value.client == Receipt.CustomerFromInvoice(invoice).name
  {
  }
}
