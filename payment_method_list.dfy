/**
 * The logic inside src/components/PaymentMethodList.js: the list update
 * after a confirmed delete, the refresh after an add, and how each method
 * is displayed.
 */
module PaymentMethodList {
  import opened Wrappers
  import opened Domain

  /** `methods.filter(method => method.id !== methodId)`. */
  function WithoutId(methods: seq<PaymentMethod>, id: Id): (r: seq<PaymentMethod>)
    ensures forall m :: m in r <==> m in methods && m.id != id
    ensures |r| <= |methods|
  {
    if methods == [] then []
    else (if methods[0].id != id then [methods[0]] else []) + WithoutId(methods[1..], id)
  }

  /** The filter keeps order: it works segment by segment. */
  lemma {:induction false} WithoutIdAppend(a: seq<PaymentMethod>, b: seq<PaymentMethod>, id: Id)
    ensures WithoutId(a + b, id) == WithoutId(a, id) + WithoutId(b, id)
  {
    if a != [] {
      assert (a + b)[1..] == a[1..] + b;
      WithoutIdAppend(a[1..], b, id);
    } else {
      assert a + b == b;
    }
  }

  /** Every method with another id survives, as many times as it occurred. */
  lemma {:induction false} WithoutIdKeepsOthers(methods: seq<PaymentMethod>, id: Id, m: PaymentMethod)
    requires m.id != id
    ensures multiset(WithoutId(methods, id))[m] == multiset(methods)[m]
  {
    if methods != [] {
      assert methods == [methods[0]] + methods[1..];
      WithoutIdKeepsOthers(methods[1..], id, m);
    }
  }

  /** Deleting an id that no method has leaves the list as it was. */
  lemma {:induction false} WithoutIdAbsent(methods: seq<PaymentMethod>, id: Id)
    requires forall m :: m in methods ==> m.id != id
    ensures WithoutId(methods, id) == methods
  {
    if methods != [] {
      assert methods == [methods[0]] + methods[1..];
      WithoutIdAbsent(methods[1..], id);
    }
  }

  /** Filtering the same id twice is filtering it once. */
  lemma WithoutIdIdempotent(methods: seq<PaymentMethod>, id: Id)
    ensures WithoutId(WithoutId(methods, id), id) == WithoutId(methods, id)
  {
    WithoutIdAbsent(WithoutId(methods, id), id);
  }

  /** The mask written before the last digits. */
  const MaskPrefix: string := "**** **** **** "

  const EmptyMessage: string := "No payment methods available."

  /** `**** **** **** {lastDigits}`: the mask, from which the digits can be read back. */
  function MaskedDigits(lastDigits: string): (s: string)
    ensures |s| == |MaskPrefix| + |lastDigits|
    ensures s[..|MaskPrefix|] == MaskPrefix && s[|MaskPrefix|..] == lastDigits
  {
    MaskPrefix + lastDigits
  }

  /** One displayed method: its name and its masked digits. */
  datatype Row = Row(name: string, digits: string)

  /** What the list shows: the empty-state message, or one row per method. */
  datatype Listing = Empty(message: string) | Items(rows: seq<Row>)

  /** The list's rendering: the empty-state message exactly when there are no methods, else a row per method in order. */
  function Render(methods: seq<PaymentMethod>): (v: Listing)
    ensures v.Empty? <==> methods == []
    ensures v.Empty? ==> v.message == EmptyMessage
    ensures v.Items? ==> |v.rows| == |methods|
    ensures v.Items? ==> forall i :: 0 <= i < |methods| ==>
      && v.rows[i].name == methods[i].name
      && |MaskPrefix| <= |v.rows[i].digits|
      && v.rows[i].digits[..|MaskPrefix|] == MaskPrefix
      && v.rows[i].digits[|MaskPrefix|..] == methods[i].lastDigits
  {
    if |methods| > 0 then Items(seq(|methods|, i requires 0 <= i < |methods| => Row(methods[i].name, MaskedDigits(methods[i].lastDigits))))
    else Empty(EmptyMessage)
  }

  /** The component's state: the fetched methods and whether the add form is open. */
  class PaymentMethodListView {
    var paymentMethods: seq<PaymentMethod>
    var showNewForm: bool

    constructor ()
      ensures paymentMethods == [] && !showNewForm
    {
      paymentMethods, showNewForm := [], false;
    }

    /**
     * handleDelete: asks for confirmation; only when confirmed is the delete
     * issued, and only when it succeeds does the list lose every method
     * with that id. A denied confirmation or a failed delete changes nothing.
     */
    method HandleDelete(methodId: Id, confirmed: bool, deleteSucceeds: bool) returns (deleteIssued: bool)
      modifies this
      ensures deleteIssued == confirmed
      ensures confirmed && deleteSucceeds ==> paymentMethods == WithoutId(old(paymentMethods), methodId)
      ensures !(confirmed && deleteSucceeds) ==> paymentMethods == old(paymentMethods)
      ensures showNewForm == old(showNewForm)
    {
      deleteIssued := false;
      if confirmed {
        deleteIssued := true;
        if deleteSucceeds {
          paymentMethods := WithoutId(paymentMethods, methodId);
        }
      }
    }

    /**
     * handlePaymentMethodAdded: the refetched list replaces the current one
     * and the form closes; a failed refetch is caught and changes nothing.
     */
    method HandlePaymentMethodAdded(refetched: Option<seq<PaymentMethod>>)
      modifies this
      ensures refetched.Some? ==> paymentMethods == refetched.value && !showNewForm
      ensures refetched.None? ==> paymentMethods == old(paymentMethods) && showNewForm == old(showNewForm)
    {
      if refetched.Some? {
        paymentMethods := refetched.value;
        showNewForm := false;
      }
    }
  }

  /**
   * Add a "Visa" ending in 1234: it shows as "**** **** **** 1234"; delete
   * it: the empty-state message shows; a second, denied delete issues no
   * request and changes nothing.
   */
  method AddThenDelete(visa: PaymentMethod) returns (added: Listing, deleted: Listing, again: Listing, issued: bool)
    requires visa.name == "Visa" && visa.lastDigits == "1234"
    ensures added == Items([Row("Visa", "**** **** **** 1234")])
    ensures deleted == Empty("No payment methods available.") && again == deleted
    ensures !issued
  {
    var view := new PaymentMethodListView();
    view.HandlePaymentMethodAdded(Some([visa]));
    added := Render(view.paymentMethods);
    assert MaskedDigits("1234") == "**** **** **** 1234";
    assert added.rows == [Row("Visa", "**** **** **** 1234")];
    var _ := view.HandleDelete(visa.id, true, true);
    deleted := Render(view.paymentMethods);
    issued := view.HandleDelete(visa.id, false, true);
    again := Render(view.paymentMethods);
  }
}
