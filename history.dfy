/** The classification history of utils/history.js: a list kept in local storage, newest
    entry first, never longer than one hundred entries. */
module History {
  import opened Util

  /** How many entries the history keeps. */
  const MaxEntries: nat := 100

  /** What a caller hands to `addHistoryItem`; fields it leaves out are `None`. */
  datatype NewItem = NewItem(title: Option<string>, url: Option<string>,
                             category: Option<string>, status: Option<string>)

  /** A stored history entry. */
  datatype Entry = Entry(id: string, timestamp: nat, title: Option<string>, url: Option<string>,
                         category: Option<string>, status: string)

  /** The stored form of an item: the id is the decimal spelling of one clock reading, the
      timestamp a second reading, and a falsy status becomes `'success'`. */
  function MakeEntry(item: NewItem, idClock: nat, clock: nat): (e: Entry)
    ensures (forall i :: 0 <= i < |e.id| ==> '0' <= e.id[i] <= '9') && ParseDecimal(e.id) == idClock
    ensures e.timestamp == clock
    ensures e.title == item.title && e.url == item.url && e.category == item.category
    ensures e.status == (if Truthy(item.status) then item.status.value else "success")
  {
    DecimalRoundTrip(idClock);
    Entry(Decimal(idClock), clock, item.title, item.url, item.category, Or(item.status, "success"))
  }

  /** The first `MaxEntries` elements of a list (`history.length = 100` when it is longer). */
  function Window(s: seq<Entry>): (r: seq<Entry>)
    ensures |r| == if |s| > MaxEntries then MaxEntries else |s|
    ensures r <= s
  {
    if |s| > MaxEntries then s[..MaxEntries] else s
  }

  /** The history after one addition: the new entry in front, the oldest one dropped when
      the list would exceed the limit. */
  function Prepend(history: seq<Entry>, e: Entry): (r: seq<Entry>)
    ensures |r| == if |history| < MaxEntries then |history| + 1 else MaxEntries
    ensures r[0] == e
    ensures r[1..] == history[..|r| - 1]
  {
    Window([e] + history)
  }

  /** The history after several additions, given in the order they happened. */
  function PrependAll(history: seq<Entry>, entries: seq<Entry>): seq<Entry>
    decreases |entries|
  {
    if entries == [] then history else PrependAll(Prepend(history, entries[0]), entries[1..])
  }

  function Reverse(s: seq<Entry>): (r: seq<Entry>)
    ensures |r| == |s|
  {
    if s == [] then [] else Reverse(s[1..]) + [s[0]]
  }

  lemma {:induction false} ReverseAt(s: seq<Entry>, i: nat)
    requires i < |s|
    ensures Reverse(s)[i] == s[|s| - 1 - i]
  {
    if i < |s| - 1 {
      ReverseAt(s[1..], i);
    }
  }

  /** Cutting the tail before or after putting entries in front gives the same window. */
  lemma {:induction false} WindowConcat(a: seq<Entry>, b: seq<Entry>)
    ensures Window(a + Window(b)) == Window(a + b)
  {
    if |b| > MaxEntries {
      var x := Window(a + Window(b));
      var y := Window(a + b);
      assert |x| == |y| == MaxEntries;
      forall i | 0 <= i < MaxEntries ensures x[i] == y[i] {
        if i >= |a| { assert x[i] == Window(b)[i - |a|] == b[i - |a|]; }
      }
    }
  }

  /** Any run of additions leaves the newest `MaxEntries` of all entries, newest first. */
  lemma {:induction false} PrependAllWindow(history: seq<Entry>, entries: seq<Entry>)
    requires |history| <= MaxEntries
    ensures PrependAll(history, entries) == Window(Reverse(entries) + history)
    decreases |entries|
  {
    if entries == [] {
      assert Reverse(entries) + history == history;
    } else {
      var e := entries[0];
      var older := Reverse(entries[1..]);
      PrependAllWindow(Prepend(history, e), entries[1..]);
      calc {
        PrependAll(history, entries);
        PrependAll(Prepend(history, e), entries[1..]);
        Window(older + Window([e] + history));
        { WindowConcat(older, [e] + history); }
        Window(older + ([e] + history));
        { assert older + ([e] + history) == (older + [e]) + history; }
        Window(Reverse(entries) + history);
      }
    }
  }

  /** Starting from an empty history, however many entries were recorded, the history holds
      the last `MaxEntries` of them (all of them when there were fewer), newest first. */
  lemma {:induction false} KeepsNewest(entries: seq<Entry>)
    ensures var h := PrependAll([], entries);
      var n := if |entries| < MaxEntries then |entries| else MaxEntries;
      h == Reverse(entries[|entries| - n..])
  {
    PrependAllWindow([], entries);
    assert Reverse(entries) + [] == Reverse(entries);
    WindowOfReverse(entries);
  }

  lemma {:induction false} WindowOfReverse(entries: seq<Entry>)
    ensures var n := if |entries| < MaxEntries then |entries| else MaxEntries;
      Window(Reverse(entries)) == Reverse(entries[|entries| - n..])
  {
    if |entries| <= MaxEntries {
      assert entries[0..] == entries;
    } else {
      var all := Reverse(entries);
      var last := entries[|entries| - MaxEntries..];
      var tail := Reverse(last);
      forall i | 0 <= i < MaxEntries ensures all[i] == tail[i] {
        ReverseAt(entries, i);
        ReverseAt(last, i);
      }
      assert all[..MaxEntries] == tail;
    }
  }

  /** The history as the extension's local storage holds it. */
  class HistoryLog {
    var items: seq<Entry>

    /** Storage read with the default `{ history: [] }`: an absent list is empty. */
    constructor()
      ensures items == []
    {
      items := [];
    }

    predicate Bounded()
      reads this
    {
      |items| <= MaxEntries
    }

    /** `addHistoryItem`: reads the list, puts the new entry in front, cuts the list to the
        limit and writes it back. */
    method AddHistoryItem(item: NewItem, idClock: nat, clock: nat)
      modifies this
      ensures items == Prepend(old(items), MakeEntry(item, idClock, clock))
      ensures Bounded()
    {
      var history := items;
      history := [MakeEntry(item, idClock, clock)] + history;
      if |history| > MaxEntries {
        history := history[..MaxEntries];
      }
      items := history;
    }

    /** `getHistoryItems`. */
    method GetHistoryItems() returns (history: seq<Entry>)
      ensures history == items
    {
      history := items;
    }

    /** `clearHistory`. */
    method ClearHistory()
      modifies this
      ensures items == []
    {
      items := [];
    }
  }
}
