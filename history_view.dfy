/**
  A tenant's payment history screen: the stored records (none when the
  tenant has no history yet), listed newest first by a stable sort on the
  record dates, each with a delete action for that record.
*/
module HistoryView {
  import opened Wrappers
  import opened Records

  /** `tenant.paymentHistory || []`. */
  function HistoryOf(t: Tenant): (r: seq<PaymentRecord>)
    ensures r == [] <==> t.paymentHistory.None? || t.paymentHistory.value == []
  {
    match t.paymentHistory
    case Some(records) => records
    case None => []
  }

  /** Records in order of non-increasing date. */
  ghost predicate NewestFirst(s: seq<PaymentRecord>) {
    forall i, j :: 0 <= i < j < |s| ==> s[i].date >= s[j].date
  }

  /** The records of `s` dated `d`, in their order in `s`. */
  function DatedOn(s: seq<PaymentRecord>, d: int): seq<PaymentRecord> {
    if s == [] then []
    else (if s[0].date == d then [s[0]] else []) + DatedOn(s[1..], d)
  }

  /** Places `r` in a newest-first list ahead of every record not newer than
      it, so that it precedes the records of its own date. */
  function Insert(r: PaymentRecord, s: seq<PaymentRecord>): (out: seq<PaymentRecord>)
    ensures |out| == |s| + 1
  {
    if s == [] || s[0].date <= r.date then [r] + s else [s[0]] + Insert(r, s[1..])
  }

  /** The comparator sort `(a, b) => time(b) - time(a)` on a copy of the
      history: stable, newest first. */
  function SortByDateDesc(s: seq<PaymentRecord>): (r: seq<PaymentRecord>)
    ensures |r| == |s|
  {
    if s == [] then [] else Insert(s[0], SortByDateDesc(s[1..]))
  }

  lemma {:induction false} InsertKeepsRecords(r: PaymentRecord, s: seq<PaymentRecord>)
    ensures multiset(Insert(r, s)) == multiset(s) + multiset{r}
    ensures |Insert(r, s)| == |s| + 1
  {
    if s != [] && s[0].date > r.date {
      InsertKeepsRecords(r, s[1..]);
      assert s == [s[0]] + s[1..];
    }
  }

  lemma {:induction false} InsertKeepsOrder(r: PaymentRecord, s: seq<PaymentRecord>)
    requires NewestFirst(s)
    ensures NewestFirst(Insert(r, s))
  {
    if s != [] && s[0].date > r.date {
      InsertKeepsOrder(r, s[1..]);
      InsertKeepsRecords(r, s[1..]);
      var t := Insert(r, s[1..]);
      forall k | 0 <= k < |t|
        ensures s[0].date >= t[k].date
      {
        assert t[k] in multiset(t);
        assert t[k] == r || t[k] in multiset(s[1..]);
        if t[k] != r {
          var m :| 0 <= m < |s[1..]| && s[1..][m] == t[k];
          assert s[m + 1] == t[k];
        }
      }
    }
  }

  /** Inserting `r` puts it ahead of the records of its own date and leaves
      the records of other dates where they were. */
  lemma {:induction false} InsertDatedOn(r: PaymentRecord, s: seq<PaymentRecord>, d: int)
    ensures DatedOn(Insert(r, s), d) == (if r.date == d then [r] else []) + DatedOn(s, d)
  {
    if s == [] || s[0].date <= r.date {
      assert ([r] + s)[1..] == s;
    } else {
      var rest := Insert(r, s[1..]);
      InsertDatedOn(r, s[1..], d);
      assert ([s[0]] + rest)[1..] == rest;
      assert DatedOn(s, d) == (if s[0].date == d then [s[0]] else []) + DatedOn(s[1..], d);
      if r.date == d {
        assert s[0].date != d;
        assert DatedOn(s, d) == DatedOn(s[1..], d);
      } else {
        assert DatedOn(rest, d) == DatedOn(s[1..], d);
      }
    }
  }

  /** The sort lists exactly the stored records. */
  lemma {:induction false} SortKeepsRecords(s: seq<PaymentRecord>)
    ensures multiset(SortByDateDesc(s)) == multiset(s)
    ensures |SortByDateDesc(s)| == |s|
  {
    if s != [] {
      SortKeepsRecords(s[1..]);
      InsertKeepsRecords(s[0], SortByDateDesc(s[1..]));
      assert s == [s[0]] + s[1..];
    }
  }

  /** The sort lists the newest record first. */
  lemma {:induction false} SortIsNewestFirst(s: seq<PaymentRecord>)
    ensures NewestFirst(SortByDateDesc(s))
  {
    if s != [] {
      SortIsNewestFirst(s[1..]);
      InsertKeepsOrder(s[0], SortByDateDesc(s[1..]));
    }
  }

  /** The sort is stable: records of the same date keep their stored order. */
  lemma {:induction false} SortIsStable(s: seq<PaymentRecord>, d: int)
    ensures DatedOn(SortByDateDesc(s), d) == DatedOn(s, d)
  {
    if s != [] {
      SortIsStable(s[1..], d);
      InsertDatedOn(s[0], SortByDateDesc(s[1..]), d);
    }
  }

  /** One listed record: the record, whether its extra-charges row is shown,
      and its delete action. */
  datatype Entry = Entry(record: PaymentRecord, showsExtra: bool, delete: DirectoryCall)

  /** What the screen shows: the empty state, or the sorted listing. */
  datatype HistoryScreen = NoHistory | Listing(entries: seq<Entry>)

  /** The record's row. Its delete action is the call with the tenant's and
      the record's ids; the session does not provide that operation, so the
      call is recorded here but has no effect. */
  function EntryFor(t: Tenant, r: PaymentRecord): Entry {
    Entry(r, r.extraAmount > 0.0, DeletePaymentRecord(t.id, r.id))
  }

  function EntriesFor(t: Tenant, rs: seq<PaymentRecord>): (es: seq<Entry>)
    ensures |es| == |rs|
    ensures forall i :: 0 <= i < |rs| ==> es[i] == EntryFor(t, rs[i])
  {
    if rs == [] then [] else [EntryFor(t, rs[0])] + EntriesFor(t, rs[1..])
  }

  function ShowHistory(t: Tenant): (r: HistoryScreen)
    ensures r.NoHistory? <==> HistoryOf(t) == []
    ensures r.Listing? ==> |r.entries| == |HistoryOf(t)|
  {
    var sorted := SortByDateDesc(HistoryOf(t));
    if |sorted| == 0 then NoHistory else Listing(EntriesFor(t, sorted))
  }

  /** The screen is empty exactly when the tenant has no stored records;
      otherwise it lists every stored record once, newest first, records of
      one date in stored order, each with the extra row exactly when its
      extras are positive and a delete action for that tenant and record. */
  lemma ShowHistorySpec(t: Tenant)
    ensures ShowHistory(t).NoHistory? <==> (t.paymentHistory.None? || t.paymentHistory.value == [])
    ensures ShowHistory(t).Listing? ==>
      var es := ShowHistory(t).entries;
      var rs := SortByDateDesc(HistoryOf(t));
      && |es| == |rs|
      && multiset(rs) == multiset(HistoryOf(t))
      && NewestFirst(rs)
      && (forall d :: DatedOn(rs, d) == DatedOn(HistoryOf(t), d))
      && (forall i :: 0 <= i < |es| ==>
            && es[i].record == rs[i]
            && (es[i].showsExtra <==> rs[i].extraAmount > 0.0)
            && es[i].delete == DeletePaymentRecord(t.id, rs[i].id))
  {
    var h := HistoryOf(t);
    SortKeepsRecords(h);
    SortIsNewestFirst(h);
    forall d
      ensures DatedOn(SortByDateDesc(h), d) == DatedOn(h, d)
    {
      SortIsStable(h, d);
    }
  }
}
