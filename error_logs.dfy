/** The processor's `error_messages`: a defaultdict(list) from message text to the row
    numbers that raised it, whose keys keep first-insertion order. */
module ErrorLogs {

  /** One key of the dict and its list. */
  datatype Logged = Logged(message: string, rows: seq<nat>)

  /** The dict as its items, in key order. */
  datatype ErrorLog = ErrorLog(items: seq<Logged>) {

    /** `list(error_messages.keys())` */
    function Keys(): (ks: seq<string>)
      ensures |ks| == |items|
      ensures forall k :: 0 <= k < |items| ==> ks[k] == items[k].message
    {
      seq(|items|, k requires 0 <= k < |items| => items[k].message)
    }

    /** No message is a key twice. */
    ghost predicate Distinct() {
      forall i, j :: 0 <= i < j < |items| ==> items[i].message != items[j].message
    }

    /** Truthiness of the dict. */
    predicate IsEmpty() {
      items == []
    }
  }

  const Empty: ErrorLog := ErrorLog([])

  /** Position of `message` among the keys, or the number of keys when it is not one. */
  function IndexOf(items: seq<Logged>, message: string): (k: nat)
    ensures k <= |items|
    ensures forall i :: 0 <= i < k ==> items[i].message != message
    ensures k < |items| ==> items[k].message == message
    decreases |items|
  {
    if items == [] || items[0].message == message then 0
    else 1 + IndexOf(items[1..], message)
  }

  /** `message in error_messages` */
  predicate Has(log: ErrorLog, message: string)
    ensures Has(log, message) <==> message in log.Keys()
  {
    var k := IndexOf(log.items, message);
    assert k < |log.items| ==> log.Keys()[k] == message;
    k < |log.items|
  }

  /** `error_messages[message]` on the defaultdict: the empty list for a message that is
      not a key. */
  function RowsFor(log: ErrorLog, message: string): seq<nat> {
    var k := IndexOf(log.items, message);
    if k < |log.items| then log.items[k].rows else []
  }

  /** `error_messages[message].append(row)`: the row joins the message's list, a new
      message becomes the last key, and no other key or list changes. */
  function Add(log: ErrorLog, message: string, row: nat): (r: ErrorLog)
    ensures Has(r, message) && !r.IsEmpty()
    ensures RowsFor(r, message) == RowsFor(log, message) + [row]
    ensures forall m :: m != message ==> (Has(r, m) <==> Has(log, m)) && RowsFor(r, m) == RowsFor(log, m)
    ensures r.Keys() == if Has(log, message) then log.Keys() else log.Keys() + [message]
  {
    var k := IndexOf(log.items, message);
    if k < |log.items| then
      var r := ErrorLog(log.items[k := Logged(message, log.items[k].rows + [row])]);
      assert r.Keys() == log.Keys();
      forall m ensures IndexOf(r.items, m) == IndexOf(log.items, m) {
        IndexOfUnique(r.items, m, IndexOf(log.items, m));
      }
      r
    else
      var r := ErrorLog(log.items + [Logged(message, [row])]);
      assert r.Keys() == log.Keys() + [message];
      forall m ensures IndexOf(r.items, m) ==
        if m == message || IndexOf(log.items, m) < |log.items| then IndexOf(log.items, m) else |r.items|
      {
        IndexOfUnique(r.items, m,
          if m == message || IndexOf(log.items, m) < |log.items| then IndexOf(log.items, m) else |r.items|);
      }
      r
  }

  /** The position found by IndexOf is the only one with its two properties. */
  lemma IndexOfUnique(items: seq<Logged>, message: string, k: nat)
    requires k <= |items|
    requires forall i :: 0 <= i < k ==> items[i].message != message
    requires k < |items| ==> items[k].message == message
    ensures IndexOf(items, message) == k
  {
  }

  /** add_error keeps the message keys distinct. */
  lemma AddKeepsDistinct(log: ErrorLog, message: string, row: nat)
    requires log.Distinct()
    ensures Add(log, message, row).Distinct()
  {
    var r := Add(log, message, row);
    assert forall i :: 0 <= i < |r.items| ==> r.items[i].message == r.Keys()[i];
    assert forall i :: 0 <= i < |log.items| ==> log.items[i].message == log.Keys()[i];
  }

  /** A message/row pair to be added. */
  datatype Report = Report(message: string, row: nat)

  /** Adding a sequence of reports, in order. */
  function AddAll(log: ErrorLog, reports: seq<Report>): (r: ErrorLog)
    decreases |reports|
  {
    if reports == [] then log
    else AddAll(Add(log, reports[0].message, reports[0].row), reports[1..])
  }

  lemma AddAllCons(log: ErrorLog, first: Report, reports: seq<Report>)
    ensures AddAll(log, [first] + reports) == AddAll(Add(log, first.message, first.row), reports)
  {
    assert ([first] + reports)[1..] == reports;
  }

  lemma {:induction false} AddAllAppend(log: ErrorLog, xs: seq<Report>, ys: seq<Report>)
    ensures AddAll(log, xs + ys) == AddAll(AddAll(log, xs), ys)
    decreases |xs|
  {
    if xs != [] {
      assert (xs + ys)[0] == xs[0];
      assert (xs + ys)[1..] == xs[1..] + ys;
      AddAllAppend(Add(log, xs[0].message, xs[0].row), xs[1..], ys);
    } else {
      assert xs + ys == ys;
    }
  }

  lemma {:induction false} AddAllSnoc(log: ErrorLog, reports: seq<Report>, last: Report)
    ensures AddAll(log, reports + [last]) == Add(AddAll(log, reports), last.message, last.row)
    decreases |reports|
  {
    if reports == [] {
      assert [] + [last] == [last];
    } else {
      assert (reports + [last])[0] == reports[0];
      assert (reports + [last])[1..] == reports[1..] + [last];
      AddAllSnoc(Add(log, reports[0].message, reports[0].row), reports[1..], last);
    }
  }

  /** The messages of a sequence of reports. */
  function Messages(reports: seq<Report>): (ms: set<string>)
    ensures forall k :: 0 <= k < |reports| ==> reports[k].message in ms
    decreases |reports|
  {
    if reports == [] then {} else {reports[0].message} + Messages(reports[1..])
  }

  /** After adding `reports`, a message is a key iff it was one or was reported; the
      old keys keep their places; the log is non-empty iff it was or something was
      reported; and the keys stay distinct. */
  lemma {:induction false} AddAllKeys(log: ErrorLog, reports: seq<Report>)
    ensures forall m :: Has(AddAll(log, reports), m) <==> Has(log, m) || m in Messages(reports)
    ensures log.Keys() <= AddAll(log, reports).Keys()
    ensures AddAll(log, reports).IsEmpty() <==> (log.IsEmpty() && reports == [])
    ensures log.Distinct() ==> AddAll(log, reports).Distinct()
    decreases |reports|
  {
    if reports != [] {
      var next := Add(log, reports[0].message, reports[0].row);
      AddAllKeys(next, reports[1..]);
      if log.Distinct() {
        AddKeepsDistinct(log, reports[0].message, reports[0].row);
      }
      assert Messages(reports) == {reports[0].message} + Messages(reports[1..]);
    }
  }
}
