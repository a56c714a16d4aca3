/**
 * The main view: the scoped query over the store, the snapshot callback
 * that collects the documents into a list and sorts it newest first, the
 * loading flag, and the choice between skeletons and the table.
 */
module MainApp {
  import opened Wrappers
  import opened Types
  import TransactionTable

  /** One document of a query snapshot. */
  datatype SnapshotDoc = SnapshotDoc(id: string, doc: StoredDoc)

  /** `{ id: doc.id, ...doc.data() }`. */
  function FromDoc(d: SnapshotDoc): (t: Transaction)
    ensures t.id == d.id && t.createdAt == d.doc.createdAt
    ensures t.userId == d.doc.data.userId && t.month == d.doc.data.month
    ensures t.description == d.doc.data.description && t.amount == d.doc.data.amount
    ensures t.txType == d.doc.data.txType && t.isPaid == d.doc.data.isPaid
    ensures t.account == d.doc.data.account && t.card == d.doc.data.card
    ensures t.installments == d.doc.data.installments
  {
    var x := d.doc.data;
    Transaction(d.id, x.description, x.amount, x.txType, x.isPaid, x.account, x.card,
                x.installments, x.month, x.userId, d.doc.createdAt)
  }

  /** The records of a snapshot in delivery order, before sorting. */
  function Records(snapshot: seq<SnapshotDoc>): (ts: seq<Transaction>)
    ensures |ts| == |snapshot|
    ensures forall i :: 0 <= i < |snapshot| ==> ts[i] == FromDoc(snapshot[i])
  {
    seq(|snapshot|, i requires 0 <= i < |snapshot| => FromDoc(snapshot[i]))
  }

  /** `where("userId", "==", uid)` and `where("month", "==", month)`. */
  predicate InScope(d: StoredDoc, uid: string, month: string)
  {
    d.data.userId == uid && d.data.month == month
  }

  /** The ids the query selects: a filter over the store. */
  function Query(store: map<string, StoredDoc>, uid: string, month: string): (q: set<string>)
    ensures q <= store.Keys
    ensures forall id :: id in q <==> id in store && InScope(store[id], uid, month)
  {
    set id | id in store && InScope(store[id], uid, month)
  }

  /** A snapshot of the query: each selected document once, as stored. */
  ghost predicate IsSnapshotOf(snapshot: seq<SnapshotDoc>, store: map<string, StoredDoc>, uid: string, month: string)
  {
    && (forall i :: 0 <= i < |snapshot| ==> snapshot[i].id in store && store[snapshot[i].id] == snapshot[i].doc)
    && (set i | 0 <= i < |snapshot| :: snapshot[i].id) == Query(store, uid, month)
    && (forall i, j :: 0 <= i < j < |snapshot| ==> snapshot[i].id != snapshot[j].id)
  }

  /** Ordered by `createdAt`, newest first. */
  predicate NewestFirst(ts: seq<Transaction>)
  {
    forall i, j :: 0 <= i < j < |ts| ==> ts[i].createdAt >= ts[j].createdAt
  }

  /** `s[lo..hi]` is ordered newest first. */
  predicate NewestFirstBetween(s: seq<Transaction>, lo: int, hi: int)
    requires 0 <= lo <= hi <= |s|
  {
    forall k, m :: lo <= k < m < hi ==> s[k].createdAt >= s[m].createdAt
  }

  /** `s` with the records at `j` and `j + 1` exchanged. */
  function Swap<T>(s: seq<T>, j: int): (r: seq<T>)
    requires 0 <= j < |s| - 1
    ensures |r| == |s| && r[j] == s[j + 1] && r[j + 1] == s[j]
    ensures forall k :: 0 <= k < |s| && k != j && k != j + 1 ==> r[k] == s[k]
  {
    s[j := s[j + 1]][j + 1 := s[j]]
  }

  /**
   * Halfway through inserting the record at `i`: it sits at `j`, everything
   * before it and everything from it to `i` is ordered, and everything
   * before it is at least as new as everything after it up to `i`.
   */
  predicate Inserting(s: seq<Transaction>, j: int, i: int)
    requires 0 <= j <= i < |s|
  {
    && NewestFirstBetween(s, 0, j)
    && NewestFirstBetween(s, j, i + 1)
    && forall k, m :: 0 <= k < j < m <= i ==> s[k].createdAt >= s[m].createdAt
  }

  lemma SwapKeepsMultiset<T>(s: seq<T>, j: int)
    requires 0 <= j < |s| - 1
    ensures multiset(Swap(s, j)) == multiset(s)
  {
    var r := Swap(s, j);
    var front, back := s[..j], s[j + 2..];
    assert s == front + [s[j], s[j + 1]] + back;
    assert r == front + [s[j + 1], s[j]] + back;
    assert multiset([s[j], s[j + 1]]) == multiset([s[j + 1], s[j]]);
  }

  /** Moving the record one place left past a strictly older one keeps `Inserting`. */
  lemma SwapStep(s: seq<Transaction>, j: int, i: int)
    requires 0 < j <= i < |s|
    requires Inserting(s, j, i)
    requires s[j - 1].createdAt < s[j].createdAt
    ensures Inserting(Swap(s, j - 1), j - 1, i)
  {
    var r := Swap(s, j - 1);
    forall k, m | j - 1 <= k < m <= i ensures r[k].createdAt >= r[m].createdAt {
      if k == j - 1 && m > j {
        assert r[k] == s[j] && r[m] == s[m];
      }
    }
  }

  /** Once the record is at `j` with nothing strictly older just before it, `s[..i + 1]` is ordered. */
  lemma InsertDone(s: seq<Transaction>, j: int, i: int)
    requires 0 <= j <= i < |s|
    requires Inserting(s, j, i)
    requires j == 0 || s[j - 1].createdAt >= s[j].createdAt
    ensures NewestFirstBetween(s, 0, i + 1)
  {
    forall k, m | 0 <= k < m <= i ensures s[k].createdAt >= s[m].createdAt {
      if k < j && m == j {
        assert s[k].createdAt >= s[j - 1].createdAt;
      }
    }
  }

  /**
   * One pass of the insertion: the record at `i` moves left past every
   * strictly older record, so `a[..i + 1]` becomes ordered.
   */
  method InsertAt(a: array<Transaction>, i: int)
    requires 0 <= i < a.Length
    requires NewestFirstBetween(a[..], 0, i)
    modifies a
    ensures NewestFirstBetween(a[..], 0, i + 1)
    ensures multiset(a[..]) == multiset(old(a[..]))
  {
    var j := i;
    while j > 0 && a[j - 1].createdAt < a[j].createdAt
      invariant 0 <= j <= i
      invariant Inserting(a[..], j, i)
      invariant multiset(a[..]) == multiset(old(a[..]))
    {
      ghost var s := a[..];
      SwapStep(s, j, i);
      SwapKeepsMultiset(s, j - 1);
      a[j - 1], a[j] := a[j], a[j - 1];
      assert a[..] == Swap(s, j - 1);
      j := j - 1;
    }
    InsertDone(a[..], j, i);
  }

  /**
   * `transactionsData.sort((a, b) => b.createdAt.toMillis() - a.createdAt.toMillis())`,
   * as an insertion sort.
   */
  method SortNewestFirst(a: array<Transaction>)
    modifies a
    ensures NewestFirst(a[..])
    ensures multiset(a[..]) == multiset(old(a[..]))
  {
    var i := 0;
    while i < a.Length
      invariant 0 <= i <= a.Length
      invariant NewestFirstBetween(a[..], 0, i)
      invariant multiset(a[..]) == multiset(old(a[..]))
    {
      InsertAt(a, i);
      i := i + 1;
    }
  }

  /**
   * The snapshot callback's list: each document pushed in delivery order,
   * then sorted in place.
   */
  method CollectSnapshot(snapshot: seq<SnapshotDoc>) returns (list: seq<Transaction>)
    ensures NewestFirst(list)
    ensures multiset(list) == multiset(Records(snapshot))
  {
    var data := new Transaction[|snapshot|];
    var i := 0;
    while i < |snapshot|
      invariant 0 <= i <= |snapshot|
      invariant data[..i] == Records(snapshot)[..i]
    {
      data[i] := FromDoc(snapshot[i]);
      i := i + 1;
    }
    assert data[..] == Records(snapshot);
    SortNewestFirst(data);
    list := data[..];
  }

  /** Every record of the list came from one document of the snapshot, with that document's id. */
  lemma ListRecordsComeFromDocs(snapshot: seq<SnapshotDoc>, list: seq<Transaction>)
    requires multiset(list) == multiset(Records(snapshot))
    ensures |list| == |snapshot|
    ensures forall t :: t in list ==> exists i :: 0 <= i < |snapshot| && t == FromDoc(snapshot[i]) && t.id == snapshot[i].id
  {
    assert |list| == |multiset(list)| == |multiset(Records(snapshot))| == |snapshot|;
    forall t | t in list
      ensures exists i :: 0 <= i < |snapshot| && t == FromDoc(snapshot[i]) && t.id == snapshot[i].id
    {
      assert t in multiset(list);
      assert t in Records(snapshot);
    }
  }

  /** Every delivered record belongs to the signed-in user and the selected month, and is stored. */
  lemma DeliveredRecordsInScope(snapshot: seq<SnapshotDoc>, store: map<string, StoredDoc>,
                                uid: string, month: string, list: seq<Transaction>)
    requires IsSnapshotOf(snapshot, store, uid, month)
    requires multiset(list) == multiset(Records(snapshot))
    ensures forall t :: t in list ==> t.userId == uid && t.month == month && t.id in Query(store, uid, month)
  {
    ListRecordsComeFromDocs(snapshot, list);
    forall t | t in list ensures t.userId == uid && t.month == month && t.id in Query(store, uid, month) {
      var i :| 0 <= i < |snapshot| && t == FromDoc(snapshot[i]);
      assert snapshot[i].id in (set k | 0 <= k < |snapshot| :: snapshot[k].id);
      assert snapshot[i].id in Query(store, uid, month);
      assert InScope(store[snapshot[i].id], uid, month);
    }
  }

  /** The query a subscription is open on. */
  datatype Scope = Scope(uid: string, month: string)

  /** What the content area shows: skeleton rows while loading, the table after. */
  datatype Content = SkeletonRows | TableOf(view: TransactionTable.TableView)

  function ContentView(ts: seq<Transaction>, isDataLoading: bool): (c: Content)
    ensures c.SkeletonRows? <==> isDataLoading
    ensures c.TableOf? ==> c.view == TransactionTable.Table(ts)
  {
    if isDataLoading then SkeletonRows else TableOf(TransactionTable.Table(ts))
  }

  /** The state of `MainApp`: its list, its loading flag and its open subscription. */
  class MainAppState {
    var transactions: seq<Transaction>
    var isDataLoading: bool
    var subscription: Option<Scope>

    /** `useState([])` and `useState(true)`. */
    constructor ()
      ensures transactions == [] && isDataLoading && subscription == None
    {
      transactions := [];
      isDataLoading := true;
      subscription := None;
    }

    /**
     * The effect run for `(user, selectedMonth)`: loading again, and a query
     * opened only when there is a user.
     */
    method StartEffect(user: Option<User>, selectedMonth: string)
      modifies this
      ensures isDataLoading && transactions == old(transactions)
      ensures subscription == if user.Some? then Some(Scope(user.value.uid, selectedMonth)) else None
    {
      isDataLoading := true;
      subscription := None;
      if user.None? {
        return;
      }
      subscription := Some(Scope(user.value.uid, selectedMonth));
    }

    /** The `onSnapshot` callback; snapshots arrive only on an open subscription. */
    method OnSnapshot(snapshot: seq<SnapshotDoc>)
      requires subscription.Some?
      modifies this
      ensures !isDataLoading && subscription == old(subscription)
      ensures NewestFirst(transactions)
      ensures multiset(transactions) == multiset(Records(snapshot))
    {
      var transactionsData := CollectSnapshot(snapshot);
      transactions := transactionsData;
      isDataLoading := false;
    }

    function Content(): (c: Content)
      reads this
      ensures c.TableOf? <==> !isDataLoading
    {
      ContentView(transactions, isDataLoading)
    }
  }
}
