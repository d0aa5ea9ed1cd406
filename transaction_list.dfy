/**
 * The logic inside src/components/TransactionList.js: grouping transactions
 * into per-day buckets, looking up a category's colour, and the view state
 * changed by submitting the new-transaction form.
 */
module TransactionList {
  import opened Wrappers
  import opened Domain

  /** `date.substring(0, 10)`: the first ten characters, or the whole string when shorter. */
  function DayKey(date: string): (k: string)
    ensures k <= date
    ensures |k| == if |date| < 10 then |date| else 10
  {
    if |date| <= 10 then date else date[..10]
  }

  /** The transactions of `ts` whose day key is `k`, in input order. */
  function Bucket(ts: seq<Transaction>, k: string): seq<Transaction>
  {
    if ts == [] then []
    else Bucket(ts[..|ts| - 1], k) + (if DayKey(ts[|ts| - 1].date) == k then [ts[|ts| - 1]] else [])
  }

  /** The distinct day keys of `ts`, in order of first occurrence. */
  function DayKeys(ts: seq<Transaction>): seq<string>
  {
    if ts == [] then []
    else
      var keys := DayKeys(ts[..|ts| - 1]);
      var k := DayKey(ts[|ts| - 1].date);
      if k in keys then keys else keys + [k]
  }

  /** The buckets of `keys`, concatenated in the order of `keys`. */
  function Flatten(keys: seq<string>, ts: seq<Transaction>): seq<Transaction>
  {
    if keys == [] then [] else Flatten(keys[..|keys| - 1], ts) + Bucket(ts, keys[|keys| - 1])
  }

  /**
   * The `groupedTransactions` reduce: walks the transactions once, opening
   * a bucket the first time a day key is seen and appending to it. The
   * keys come out in first-occurrence order and each bucket holds exactly
   * that day's transactions in input order.
   */
  method GroupByDay(transactions: seq<Transaction>) returns (keys: seq<string>, groups: map<string, seq<Transaction>>)
    ensures keys == DayKeys(transactions)
    ensures forall k :: k in groups <==> k in keys
    ensures forall k :: k in groups ==> groups[k] == Bucket(transactions, k)
    ensures forall t :: t in transactions ==> DayKey(t.date) in groups && t in groups[DayKey(t.date)]
    ensures forall k :: k in groups ==> groups[k] != []
  {
    keys, groups := [], map[];
    var i := 0;
    while i < |transactions|
      invariant 0 <= i <= |transactions|
      invariant keys == DayKeys(transactions[..i])
      invariant forall k :: k in groups <==> k in keys
      invariant forall k :: k in groups ==> groups[k] == Bucket(transactions[..i], k)
    {
      var t := transactions[i];
      var day := DayKey(t.date);
      assert transactions[..i + 1][..i] == transactions[..i];
      if day !in groups {
        BucketEmptyIffAbsent(transactions[..i], day);
        groups := groups[day := []];
        keys := keys + [day];
      }
      groups := groups[day := groups[day] + [t]];
      i := i + 1;
    }
    assert transactions[..i] == transactions;
    forall t | t in transactions
      ensures DayKey(t.date) in groups && t in groups[DayKey(t.date)]
    {
      BucketMembers(transactions, DayKey(t.date), t);
      BucketEmptyIffAbsent(transactions, DayKey(t.date));
    }
    forall k | k in groups
      ensures groups[k] != []
    {
      BucketEmptyIffAbsent(transactions, k);
    }
  }

  /** A transaction is in bucket `k` exactly when it is one of the input's and its day key is `k`. */
  lemma {:induction false} BucketMembers(ts: seq<Transaction>, k: string, t: Transaction)
    ensures t in Bucket(ts, k) <==> t in ts && DayKey(t.date) == k
  {
    if ts != [] {
      var init, last := ts[..|ts| - 1], ts[|ts| - 1];
      assert ts == init + [last];
      BucketMembers(init, k, t);
    }
  }

  /** A bucket is empty exactly when its key is not among the day keys: no listed bucket is empty. */
  lemma {:induction false} BucketEmptyIffAbsent(ts: seq<Transaction>, k: string)
    ensures Bucket(ts, k) == [] <==> k !in DayKeys(ts)
  {
    if ts != [] {
      BucketEmptyIffAbsent(ts[..|ts| - 1], k);
    }
  }

  /** Grouping distributes over concatenation: earlier transactions stay ahead of later ones in their bucket. */
  lemma {:induction false} BucketAppend(a: seq<Transaction>, b: seq<Transaction>, k: string)
    ensures Bucket(a + b, k) == Bucket(a, k) + Bucket(b, k)
  {
    if b == [] {
      assert a + b == a;
    } else {
      var init, last := b[..|b| - 1], b[|b| - 1];
      assert (a + b)[..|a + b| - 1] == a + init;
      BucketAppend(a, init, k);
    }
  }

  /** Every day key occurs once. */
  lemma {:induction false} DayKeysDistinct(ts: seq<Transaction>)
    ensures forall i, j :: 0 <= i < j < |DayKeys(ts)| ==> DayKeys(ts)[i] != DayKeys(ts)[j]
  {
    if ts != [] {
      DayKeysDistinct(ts[..|ts| - 1]);
    }
  }

  /** A key is listed exactly when some transaction has it as its day key. */
  lemma {:induction false} DayKeysCover(ts: seq<Transaction>, k: string)
    ensures k in DayKeys(ts) <==> exists t :: t in ts && DayKey(t.date) == k
  {
    BucketEmptyIffAbsent(ts, k);
    if k in DayKeys(ts) {
      var t := Bucket(ts, k)[0];
      BucketMembers(ts, k, t);
    } else {
      forall t | t in ts && DayKey(t.date) == k
        ensures false
      {
        BucketMembers(ts, k, t);
      }
    }
  }

  /**
   * Keys are ordered by first occurrence, not by date: the keys of a prefix
   * of the input are a prefix of the keys of the whole input.
   */
  lemma {:induction false} DayKeysPrefix(a: seq<Transaction>, b: seq<Transaction>)
    ensures DayKeys(a) <= DayKeys(a + b)
  {
    if b == [] {
      assert a + b == a;
    } else {
      var init := b[..|b| - 1];
      assert (a + b)[..|a + b| - 1] == a + init;
      DayKeysPrefix(a, init);
    }
  }

  /** Adding a transaction adds it once to the flattened buckets of any distinct keys that include its day. */
  lemma {:induction false} FlattenSnoc(keys: seq<string>, ts: seq<Transaction>, t: Transaction)
    requires forall i, j :: 0 <= i < j < |keys| ==> keys[i] != keys[j]
    ensures multiset(Flatten(keys, ts + [t])) ==
      multiset(Flatten(keys, ts)) + if DayKey(t.date) in keys then multiset{t} else multiset{}
  {
    if keys != [] {
      var init, last := keys[..|keys| - 1], keys[|keys| - 1];
      assert keys == init + [last];
      FlattenSnoc(init, ts, t);
      assert (ts + [t])[..|ts|] == ts;
      assert DayKey(t.date) in keys <==> DayKey(t.date) in init || DayKey(t.date) == last;
    }
  }

  /** Appending a transaction adds exactly that transaction to the grouped result. */
  lemma GroupingSnoc(init: seq<Transaction>, t: Transaction)
    ensures multiset(Flatten(DayKeys(init + [t]), init + [t])) == multiset(Flatten(DayKeys(init), init)) + multiset{t}
  {
    var ts := init + [t];
    assert ts[..|ts| - 1] == init;
    var k := DayKey(t.date);
    DayKeysDistinct(init);
    FlattenSnoc(DayKeys(init), init, t);
    if k !in DayKeys(init) {
      var keys := DayKeys(init) + [k];
      assert DayKeys(ts) == keys;
      assert keys[..|keys| - 1] == DayKeys(init);
      assert Flatten(keys, ts) == Flatten(DayKeys(init), ts) + Bucket(ts, k);
      BucketEmptyIffAbsent(init, k);
      assert Bucket(ts, k) == [t];
    } else {
      assert DayKeys(ts) == DayKeys(init);
    }
  }

  /** The buckets, concatenated in key order, are a permutation of the input: nothing lost, nothing duplicated. */
  lemma {:induction false} GroupingIsPermutation(ts: seq<Transaction>)
    ensures multiset(Flatten(DayKeys(ts), ts)) == multiset(ts)
    ensures |Flatten(DayKeys(ts), ts)| == |ts|
  {
    if ts != [] {
      var init, t := ts[..|ts| - 1], ts[|ts| - 1];
      assert ts == init + [t];
      GroupingIsPermutation(init);
      GroupingSnoc(init, t);
    }
    assert |multiset(Flatten(DayKeys(ts), ts))| == |multiset(ts)|;
  }

  /** Two timestamps of the same day share the bucket "2024-01-02". */
  lemma SameDaySameBucket(t1: Transaction, t2: Transaction)
    requires t1.date == "2024-01-02T10:00" && t2.date == "2024-01-02T23:00"
    ensures DayKeys([t1, t2]) == ["2024-01-02"]
    ensures Bucket([t1, t2], "2024-01-02") == [t1, t2]
  {
    assert [t1, t2][..1] == [t1] && [t1][..0] == [];
    assert DayKey(t1.date) == "2024-01-02" by { assert t1.date[..10] == "2024-01-02"; }
    assert DayKey(t2.date) == "2024-01-02" by { assert t2.date[..10] == "2024-01-02"; }
    assert DayKeys([t1]) == ["2024-01-02"];
    assert Bucket([t1], "2024-01-02") == [t1];
  }

  /** Buckets are not sorted: a later day seen first comes first. */
  lemma NotChronological(t1: Transaction, t2: Transaction)
    requires t1.date == "2024-01-02" && t2.date == "2024-01-01"
    ensures DayKeys([t1, t2]) == ["2024-01-02", "2024-01-01"]
  {
    assert [t1, t2][..1] == [t1] && [t1][..0] == [];
    assert DayKey(t1.date) == t1.date && DayKey(t2.date) == t2.date;
    assert DayKeys([t1]) == [t1.date];
  }

  /** The colour shown when no category matches. */
  const Gray: string := "#gray"

  /** `categories.find(c => c.id === categoryId)`, as the index of the first category with that id. */
  function FindCategory(categories: seq<Category>, id: Id): (r: Option<nat>)
    ensures r.Some? ==> r.value < |categories| && categories[r.value].id == id
    ensures r.Some? ==> forall j :: 0 <= j < r.value ==> categories[j].id != id
    ensures r.None? <==> forall j :: 0 <= j < |categories| ==> categories[j].id != id
  {
    if categories == [] then None
    else if categories[0].id == id then Some(0)
    else match FindCategory(categories[1..], id)
      case None => None
      case Some(i) => Some(i + 1)
  }

  /** getCategoryColor: the colour of the first category whose id strictly equals `id`, else "#gray". */
  function CategoryColor(categories: seq<Category>, id: Id): (color: string)
    ensures (forall c :: c in categories ==> c.id != id) ==> color == Gray
    ensures forall i ::
              0 <= i < |categories| && categories[i].id == id && (forall j :: 0 <= j < i ==> categories[j].id != id)
              ==> color == categories[i].color
  {
    match FindCategory(categories, id)
    case None => Gray
    case Some(i) => categories[i].color
  }

  /** Strict equality: a numeric category id never matches the same digits as a string. */
  lemma StrictIdMatch(food: Category)
    requires food.id == Num(3) && food.color == "#f00"
    ensures CategoryColor([food], Num(3)) == "#f00"
    ensures CategoryColor([food], Str("3")) == Gray
  {
  }

  /** The new-transaction form's fields, as strings from the inputs. */
  datatype FormData = FormData(
    title: string,
    description: string,
    amount: string,
    date: string,
    categoryId: string,
    paymentMethodId: string)

  /** The empty form, dated `today` (the clock is an input). */
  function BlankForm(today: string): FormData
  {
    FormData("", "", "", today, "", "")
  }

  /** The component's state: the fetched lists, the two modal flags and the form. */
  class TransactionListView {
    var transactions: seq<Transaction>
    var categories: seq<Category>
    var paymentMethods: seq<PaymentMethod>
    var showNewForm: bool
    var showPaymentMethodModal: bool
    var formData: FormData

    constructor (today: string)
      ensures transactions == [] && categories == [] && paymentMethods == []
      ensures !showNewForm && !showPaymentMethodModal && formData == BlankForm(today)
    {
      transactions, categories, paymentMethods := [], [], [];
      showNewForm, showPaymentMethodModal := false, false;
      formData := BlankForm(today);
    }

    /**
     * handleSubmit: sends the form; when the create and the refetch both
     * succeed, the list becomes the refetched one, the form closes and is
     * reset to blank fields dated today. When either throws, nothing
     * changes (a created transaction whose refetch failed stays unlisted).
     */
    method HandleSubmit(created: bool, refetched: Option<seq<Transaction>>, today: string) returns (submitted: FormData)
      modifies this
      ensures submitted == old(formData)
      ensures created && refetched.Some? ==>
        transactions == refetched.value && !showNewForm && formData == BlankForm(today)
      ensures !(created && refetched.Some?) ==>
        transactions == old(transactions) && showNewForm == old(showNewForm) && formData == old(formData)
      ensures categories == old(categories) && paymentMethods == old(paymentMethods)
      ensures showPaymentMethodModal == old(showPaymentMethodModal)
    {
      submitted := formData;
      if !created {
        return;
      }
      if refetched.None? {
        return;
      }
      transactions := refetched.value;
      showNewForm := false;
      formData := BlankForm(today);
    }

    /**
     * handlePaymentMethodAdded: replaces the payment methods with the
     * refetched list and closes the payment-method modal; it catches
     * nothing, so a failed refetch rejects with the state unchanged.
     */
    method HandlePaymentMethodAdded(refetched: Option<seq<PaymentMethod>>) returns (rejected: bool)
      modifies this
      ensures rejected <==> refetched.None?
      ensures !rejected ==> paymentMethods == refetched.value && !showPaymentMethodModal
      ensures rejected ==> paymentMethods == old(paymentMethods) && showPaymentMethodModal == old(showPaymentMethodModal)
      ensures transactions == old(transactions) && categories == old(categories)
      ensures showNewForm == old(showNewForm) && formData == old(formData)
    {
      if refetched.None? {
        return true;
      }
      paymentMethods := refetched.value;
      showPaymentMethodModal := false;
      return false;
    }
  }
}
