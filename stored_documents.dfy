/**
 * The parsed shapes of the documents the editors keep in the browser's
 * local store, as far as the receipt builder and the recent-documents list
 * read them.  A field that may be missing from the stored JSON is an Option.
 */
module StoredDocuments {
  import opened Wrappers
  import opened Fallbacks

  datatype StoredClient = StoredClient(name: Option<string>, email: Option<string>, phone: Option<string>)

  datatype StoredItem = StoredItem(amount: Option<real>)

  /** A stored invoice or quotation. */
  datatype StoredDocument = StoredDocument(
    clientInfo: Option<StoredClient>,
    items: Option<seq<StoredItem>>,
    discount: Option<real>,
    taxRate: Option<real>,
    referenceNumber: Option<string>)

  datatype CustomerInfo = CustomerInfo(name: string, email: string, phone: string)

  datatype PaymentInfo = PaymentInfo(amount: real, paymentMethod: string, reference: string, description: string)

  datatype DocumentStyle = DocumentStyle(font: string, fontSize: string)

  /** A stored receipt, as the receipt builder saves it. */
  datatype StoredReceipt = StoredReceipt(
    template: Option<string>,
    receiptNumber: Option<string>,
    customerInfo: Option<CustomerInfo>,
    paymentInfo: Option<PaymentInfo>,
    signature: Option<string>,
    logo: Option<string>,
    documentStyle: Option<DocumentStyle>,
    additionalNotes: Option<string>)

  /** `client?.name || ""` and friends: a text field of a client that may be
      missing, read as "" when the client or the field is missing or empty. */
  function ClientText(client: Option<StoredClient>, field: StoredClient -> Option<string>): (r: string)
    ensures client.None? ==> r == ""
    ensures client.Some? ==> r == field(client.value).GetOr("")
    ensures r != "" ==> client.Some? && field(client.value) == Some(r)
  {
    TextOr(if client.None? then None else field(client.value), "")
  }

  /** `items.reduce((sum, item) => sum + (item.amount || 0), 0)`, folding from the left. */
  function ItemsSum(items: seq<StoredItem>): (r: real)
    ensures items == [] ==> r == 0.0
    ensures |items| == 1 ==> r == NumberOr(items[0].amount, 0.0)
  {
    if items == [] then 0.0
    else ItemsSum(items[..|items| - 1]) + NumberOr(items[|items| - 1].amount, 0.0)
  }

  /** `items?.reduce(...) || 0`: no item list counts as 0. */
  function Subtotal(items: Option<seq<StoredItem>>): (r: real)
    ensures items.None? ==> r == 0.0
    ensures items.Some? ==> r == ItemsSum(items.value)
    ensures (items.Some? ==> forall k :: 0 <= k < |items.value| ==> items.value[k].amount.GetOr(0.0) >= 0.0) ==> r >= 0.0
  {
    if items.None? then 0.0
    else
      assert (forall k :: 0 <= k < |items.value| ==> items.value[k].amount.GetOr(0.0) >= 0.0) ==> ItemsSum(items.value) >= 0.0 by {
        if forall k :: 0 <= k < |items.value| ==> items.value[k].amount.GetOr(0.0) >= 0.0 {
          ItemsSumNonNegative(items.value);
        }
      }
      ItemsSum(items.value)
  }

  lemma {:induction false} ItemsSumAppend(a: seq<StoredItem>, b: seq<StoredItem>)
    ensures ItemsSum(a + b) == ItemsSum(a) + ItemsSum(b)
    decreases |b|
  {
    if b == [] {
      assert a + b == a;
    } else {
      var b' := b[..|b| - 1];
      assert (a + b)[..|a + b| - 1] == a + b';
      ItemsSumAppend(a, b');
    }
  }

  /** Items whose amount is missing add nothing; with all amounts missing the sum is 0. */
  lemma {:induction false} MissingAmountsSumToZero(items: seq<StoredItem>)
    requires forall k :: 0 <= k < |items| ==> items[k].amount.None?
    ensures ItemsSum(items) == 0.0
    decreases |items|
  {
    if items != [] {
      MissingAmountsSumToZero(items[..|items| - 1]);
    }
  }

  /** Amounts that are all at least 0 sum to at least 0. */
  lemma {:induction false} ItemsSumNonNegative(items: seq<StoredItem>)
    requires forall k :: 0 <= k < |items| ==> items[k].amount.GetOr(0.0) >= 0.0
    ensures ItemsSum(items) >= 0.0
    decreases |items|
  {
    if items != [] {
      ItemsSumNonNegative(items[..|items| - 1]);
    }
  }
}
