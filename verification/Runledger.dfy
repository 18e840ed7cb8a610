/**
 The monthly event ledger: one append-only file per month, and a replay that reads the files back
 newest first. An entry is named by its kind, its timestamp and everything else it carries.
 */
module Runledger {
  import opened Prelude
  import opened Calendar

  datatype Entry = Entry(kind: string, ts: int, body: string)

  datatype Line = Written(entry: Entry) | Unreadable

  /** `handle` is the month whose file is open; `log` records every entry appended successfully. */
  datatype Ledger = Ledger(
    current: Option<Month>, handle: Option<Month>, files: map<Month, seq<Line>>, log: seq<Entry>)

  const EMPTY := Ledger(None, None, map[], [])

  // ----- appending -----

  predicate NeedsFile(l: Ledger, m: Month) {
    l.current != Some(m) || l.handle.None?
  }

  function FileOpened(l: Ledger, m: Month): Ledger {
    Ledger(Some(m), Some(m), l.files[m := GetOr(l.files, m, [])], l.log)
  }

  function LineWritten(l: Ledger, e: Entry): Ledger
    requires l.handle.Some?
  {
    var m := l.handle.value;
    l.(files := l.files[m := GetOr(l.files, m, []) + [Written(e)]], log := l.log + [e])
  }

  function Appended(l: Ledger, e: Entry, canOpen: bool, canWrite: bool): Ledger {
    var m := YmdMonth(e.ts);
    if NeedsFile(l, m) && !canOpen then l
    else
      var ready := if NeedsFile(l, m) then FileOpened(l, m) else l;
      if canWrite then LineWritten(ready, e) else ready
  }

  // ----- replaying -----

  predicate MatchesGlob(pattern: string, kind: string) {
    if pattern != "" && pattern[|pattern| - 1] == '*' then pattern[..|pattern| - 1] <= kind else pattern == kind
  }

  function Keep(since: int, kinds: Option<seq<string>>): Entry -> bool {
    (e: Entry) => e.ts >= since && (kinds.None? || exists k :: k in kinds.value && MatchesGlob(k, e.kind))
  }

  /** Not older than asked for, and of one of the kinds asked for: the kind itself, or any that goes on
      from what stands before a final star. */
  ghost predicate Selects(since: int, kinds: Option<seq<string>>, e: Entry) {
    && since <= e.ts
    && (kinds.Some? ==>
          exists k :: k in kinds.value
                      && (k == e.kind || exists stem, rest :: k == stem + "*" && e.kind == stem + rest))
  }

  lemma GlobExactly(k: string, kind: string)
    ensures MatchesGlob(k, kind) <==> k == kind || exists stem, rest :: k == stem + "*" && kind == stem + rest
  {
    if k != "" && k[|k| - 1] == '*' {
      var stem := k[..|k| - 1];
      assert k == stem + "*";
      if stem <= kind {
        assert kind == stem + kind[|stem|..];
      }
    }
    forall stem, rest | k == stem + "*" && kind == stem + rest
      ensures MatchesGlob(k, kind)
    {
      assert k[..|k| - 1] == stem;
    }
  }

  lemma KeepExactly(since: int, kinds: Option<seq<string>>, e: Entry)
    ensures Keep(since, kinds)(e) <==> Selects(since, kinds, e)
  {
    if kinds.Some? {
      forall k | k in kinds.value
        ensures MatchesGlob(k, e.kind) <==>
                k == e.kind || exists stem, rest :: k == stem + "*" && e.kind == stem + rest
      {
        GlobExactly(k, e.kind);
      }
    }
  }

  function EntriesOf(lines: seq<Line>): seq<Entry> {
    if lines == [] then []
    else
      var last := lines[|lines| - 1];
      EntriesOf(lines[..|lines| - 1]) + if last.Written? then [last.entry] else []
  }

  /** Files that cannot be read (None) are passed over. */
  function AllEntries(read: seq<Option<seq<Line>>>): seq<Entry> {
    if read == [] then []
    else
      var last := read[|read| - 1];
      AllEntries(read[..|read| - 1]) + if last.Some? then EntriesOf(last.value) else []
  }

  /** The stable sort by descending timestamp. */
  function Insert(s: seq<Entry>, e: Entry): seq<Entry> {
    if s == [] then [e]
    else if s[0].ts >= e.ts then [s[0]] + Insert(s[1..], e)
    else [e] + s
  }

  function NewestFirst(s: seq<Entry>): seq<Entry> {
    if s == [] then [] else Insert(NewestFirst(s[..|s| - 1]), s[|s| - 1])
  }

  function Truncated(s: seq<Entry>, limit: Option<nat>): seq<Entry> {
    if limit.Some? && limit.value < |s| then s[..limit.value] else s
  }

  // ----- the object -----

  class LedgerFiles {
    var current: Option<Month>
    var handle: Option<Month>
    var files: map<Month, seq<Line>>
    var log: seq<Entry>

    function View(): Ledger
      reads this
    {
      Ledger(current, handle, files, log)
    }

    constructor ()
      ensures View() == EMPTY
    {
      current, handle, files, log := None, None, map[], [];
    }

    /** `canOpen` and `canWrite` say whether the operating system lets the file be opened and
        written. */
    method Append(e: Entry, canOpen: bool, canWrite: bool) returns (ok: bool)
      requires handle.Some? ==> current == handle
      modifies this
      ensures handle.Some? ==> current == handle
      ensures View() == Appended(old(View()), e, canOpen, canWrite)
      ensures ok <==> canWrite && (canOpen || (old(current) == Some(YmdMonth(e.ts)) && old(handle).Some?))
      ensures ok ==> log == old(log) + [e]
                     && files == old(files)[YmdMonth(e.ts) := GetOr(old(files), YmdMonth(e.ts), []) + [Written(e)]]
      ensures !ok ==> log == old(log) && forall m :: GetOr(files, m, []) == GetOr(old(files), m, [])
    {
      var month := YmdMonth(e.ts);
      if current != Some(month) || handle.None? {
        if !canOpen {
          return false;
        }
        files := files[month := GetOr(files, month, [])];
        handle := Some(month);
        current := Some(month);
      }
      if !canWrite {
        return false;
      }
      files := files[handle.value := GetOr(files, handle.value, []) + [Written(e)]];
      log := log + [e];
      ok := true;
    }

    /** `read` is what reading each file of the directory gives, in path order; None when the
        directory itself cannot be read. */
    static method Replay(
        read: Option<seq<Option<seq<Line>>>>, since: int, kinds: Option<seq<string>>, limit: Option<nat>)
      returns (entries: seq<Entry>, total: nat)
      ensures
        var kept := if read.Some? then Filter(AllEntries(read.value), Keep(since, kinds)) else [];
        total == |kept| && entries == Truncated(NewestFirst(kept), limit)
        && entries <= NewestFirst(kept)
        && |entries| == if limit.Some? && limit.value < total then limit.value else total
    {
      entries := [];
      if read.None? {
        return entries, 0;
      }
      var keep := Keep(since, kinds);
      var i := 0;
      while i < |read.value|
        invariant 0 <= i <= |read.value|
        invariant entries == Filter(AllEntries(read.value[..i]), keep)
      {
        assert read.value[..i + 1][..i] == read.value[..i];
        var before := entries;
        if read.value[i].Some? {
          var lines := read.value[i].value;
          var kept := KeepLines(lines, since, kinds);
          FilterConcat(AllEntries(read.value[..i]), EntriesOf(lines), keep);
          entries := entries + kept;
        } else {
          assert AllEntries(read.value[..i]) + [] == AllEntries(read.value[..i]);
        }
        i := i + 1;
      }
      assert read.value[..i] == read.value;
      total := |entries|;
      entries := NewestFirst(entries);
      SortKeepsLength(Filter(AllEntries(read.value), keep));
      if limit.Some? && limit.value < |entries| {
        entries := entries[..limit.value];
      }
    }

    static method KeepLines(lines: seq<Line>, since: int, kinds: Option<seq<string>>) returns (kept: seq<Entry>)
      ensures kept == Filter(EntriesOf(lines), Keep(since, kinds))
    {
      kept := [];
      var i := 0;
      while i < |lines|
        invariant 0 <= i <= |lines|
        invariant kept == Filter(EntriesOf(lines[..i]), Keep(since, kinds))
      {
        KeepOne(lines, i, Keep(since, kinds));
        if lines[i].Written? {
          var e := lines[i].entry;
          if e.ts >= since {
            if kinds.None? || exists k :: k in kinds.value && MatchesGlob(k, e.kind) {
              kept := kept + [e];
            }
          }
        }
        i := i + 1;
      }
      assert lines[..i] == lines;
    }
  }

  lemma KeepOne(lines: seq<Line>, i: nat, keep: Entry -> bool)
    requires i < |lines|
    ensures Filter(EntriesOf(lines[..i + 1]), keep)
            == if lines[i].Written? && keep(lines[i].entry)
               then Filter(EntriesOf(lines[..i]), keep) + [lines[i].entry]
               else Filter(EntriesOf(lines[..i]), keep)
  {
    assert lines[..i + 1][..i] == lines[..i];
    var before := EntriesOf(lines[..i]);
    if lines[i].Written? {
      FilterConcat(before, [lines[i].entry], keep);
      FilterHead([lines[i].entry], keep);
      AppendNothing(Filter(before, keep));
    } else {
      AppendNothing(before);
    }
  }

  lemma {:induction false} InsertLength(s: seq<Entry>, e: Entry)
    ensures |Insert(s, e)| == |s| + 1
  {
    if s == [] {
    } else {
      InsertLength(s[1..], e);
    }
  }

  lemma {:induction false} SortKeepsLength(s: seq<Entry>)
    ensures |NewestFirst(s)| == |s|
  {
    if s == [] {
    } else {
      SortKeepsLength(s[..|s| - 1]);
      InsertLength(NewestFirst(s[..|s| - 1]), s[|s| - 1]);
    }
  }

  // ----- what the sort means -----

  ghost predicate Descending(s: seq<Entry>) {
    forall i, j :: 0 <= i < j < |s| ==> s[i].ts >= s[j].ts
  }

  function At(ts: int): Entry -> bool {
    (e: Entry) => e.ts == ts
  }

  lemma {:induction false} InsertExactly(s: seq<Entry>, e: Entry, x: Entry)
    ensures x in Insert(s, e) <==> x in s || x == e
  {
    if s == [] {
    } else {
      InsertExactly(s[1..], e, x);
      assert forall y :: y in s <==> y == s[0] || y in s[1..];
    }
  }

  lemma {:induction false} InsertDescending(s: seq<Entry>, e: Entry)
    requires Descending(s)
    ensures Descending(Insert(s, e))
  {
    if s == [] {
    } else {
      if s[0].ts >= e.ts {
        InsertDescending(s[1..], e);
        forall x | x in Insert(s[1..], e)
          ensures x.ts <= s[0].ts
        {
          InsertExactly(s[1..], e, x);
        }
      }
    }
  }

  lemma InsertAtHead(s: seq<Entry>, e: Entry, t: int)
    requires Descending(s) && s != [] && s[0].ts < e.ts
    ensures Filter([e] + s, At(t)) == Filter(s, At(t)) + if e.ts == t then [e] else []
  {
    LowerHasNone(s, e.ts, t);
    FilterConcat([e], s, At(t));
    AppendNothing(Filter(s, At(t)));
  }

  lemma BehindHead(x: Entry, before: seq<Entry>, after: seq<Entry>, more: seq<Entry>, t: int)
    requires Filter(after, At(t)) == Filter(before, At(t)) + more
    ensures Filter([x] + after, At(t)) == Filter([x] + before, At(t)) + more
  {
    FilterCons(x, before, At(t));
    FilterCons(x, after, At(t));
    ConcatAssoc([x], Filter(before, At(t)), more);
  }

  lemma {:induction false} InsertAt(s: seq<Entry>, e: Entry, t: int)
    requires Descending(s)
    ensures Filter(Insert(s, e), At(t)) == Filter(s, At(t)) + if e.ts == t then [e] else []
  {
    if s == [] {
    } else if s[0].ts >= e.ts {
      InsertAt(s[1..], e, t);
      BehindHead(s[0], s[1..], Insert(s[1..], e), if e.ts == t then [e] else [], t);
      assert s == [s[0]] + s[1..];
    } else {
      InsertAtHead(s, e, t);
    }
  }

  lemma LowerHasNone(s: seq<Entry>, ts: int, t: int)
    requires Descending(s) && s != [] && s[0].ts < ts
    ensures t == ts ==> Filter(s, At(t)) == []
  {
  }

  /** Sorting orders by descending time and keeps, for every timestamp, the entries and their
      order. */
  lemma {:induction false} SortIsStable(s: seq<Entry>, t: int)
    ensures Descending(NewestFirst(s)) && Filter(NewestFirst(s), At(t)) == Filter(s, At(t))
  {
    if s == [] {
    } else {
      var before, last := s[..|s| - 1], s[|s| - 1];
      SortIsStable(before, t);
      InsertDescending(NewestFirst(before), last);
      InsertAt(NewestFirst(before), last, t);
      FilterSnoc(s, |s| - 1, At(t));
      assert s[..|s|] == s;
    }
  }

  /** There is only one way to be so sorted. */
  lemma {:induction false} SortedIsUnique(a: seq<Entry>, b: seq<Entry>)
    requires Descending(a) && Descending(b)
    requires forall t: int :: Filter(a, At(t)) == Filter(b, At(t))
    ensures a == b
  {
    if a == [] {
      EmptyToo(b);
    } else if b == [] {
      EmptyToo(a);
    } else {
      SameHead(a, b);
      forall t: int
        ensures Filter(a[1..], At(t)) == Filter(b[1..], At(t))
      {
        FilterHead(a, At(t));
        FilterHead(b, At(t));
        assert Filter(a, At(t)) == Filter(b, At(t));
        if a[0].ts == t {
          assert Filter(a, At(t))[1..] == Filter(a[1..], At(t));
          assert Filter(b, At(t))[1..] == Filter(b[1..], At(t));
        }
      }
      SortedIsUnique(a[1..], b[1..]);
      assert a == [a[0]] + a[1..] && b == [b[0]] + b[1..];
    }
  }

  lemma EmptyToo(b: seq<Entry>)
    requires forall t: int :: Filter<Entry>([], At(t)) == Filter(b, At(t))
    ensures b == []
  {
    if b != [] {
      FilteredHead(b);
    }
  }

  lemma FilteredHead(s: seq<Entry>)
    requires s != []
    ensures Filter(s, At(s[0].ts)) != [] && Filter(s, At(s[0].ts))[0] == s[0]
  {
  }

  lemma SameHead(a: seq<Entry>, b: seq<Entry>)
    requires a != [] && b != [] && Descending(a) && Descending(b)
    requires forall t: int :: Filter(a, At(t)) == Filter(b, At(t))
    ensures a[0] == b[0]
  {
    HeadAtMost(a, b);
    HeadAtMost(b, a);
    FilteredHead(a);
    FilteredHead(b);
    assert Filter(a, At(a[0].ts)) == Filter(b, At(a[0].ts));
  }

  lemma HeadAtMost(a: seq<Entry>, b: seq<Entry>)
    requires a != [] && b != [] && Descending(b)
    requires forall t: int :: Filter(a, At(t)) == Filter(b, At(t))
    ensures a[0].ts <= b[0].ts
  {
    var t := a[0].ts;
    assert Filter(a, At(t)) == Filter(b, At(t));
    FilterHead(a, At(t));
    FilterMembers(b, At(t));
    assert a[0] in Filter(b, At(t));
  }

  // ----- every run of appends -----

  datatype Attempt = Attempt(entry: Entry, canOpen: bool, canWrite: bool)

  function RunOf(attempts: seq<Attempt>): Ledger {
    if attempts == [] then EMPTY
    else
      var a := attempts[|attempts| - 1];
      Appended(RunOf(attempts[..|attempts| - 1]), a.entry, a.canOpen, a.canWrite)
  }

  function In(m: Month): Entry -> bool {
    (e: Entry) => YmdMonth(e.ts) == m
  }

  function Lines(es: seq<Entry>): seq<Line> {
    seq(|es|, i requires 0 <= i < |es| => Written(es[i]))
  }

  /** Each file holds exactly the entries of its month, in the order they were appended. */
  ghost predicate Sound(l: Ledger) {
    && (l.handle.Some? ==> l.handle == l.current && l.handle.value in l.files)
    && (forall m :: m in l.files ==> l.files[m] == Lines(Filter(l.log, In(m))))
    && (forall e :: e in l.log ==> YmdMonth(e.ts) in l.files)
  }

  lemma OpenedSound(l: Ledger, m: Month)
    requires Sound(l)
    ensures Sound(FileOpened(l, m))
  {
    if m !in l.files {
      forall e | e in l.log
        ensures !In(m)(e)
      {
        assert YmdMonth(e.ts) in l.files;
      }
      FilterNone(l.log, In(m));
      assert Lines([]) == [];
    }
  }

  lemma WrittenSound(l: Ledger, e: Entry)
    requires Sound(l) && l.handle == Some(YmdMonth(e.ts))
    ensures Sound(LineWritten(l, e))
  {
    forall m | m in l.files
      ensures LineWritten(l, e).files[m] == Lines(Filter(l.log + [e], In(m)))
    {
      WrittenFile(l, e, m);
    }
  }

  lemma LinesSnoc(es: seq<Entry>, e: Entry)
    ensures Lines(es + [e]) == Lines(es) + [Written(e)]
  {
  }

  lemma WrittenFile(l: Ledger, e: Entry, m: Month)
    requires Sound(l) && l.handle == Some(YmdMonth(e.ts)) && m in l.files
    ensures LineWritten(l, e).files[m] == Lines(Filter(l.log + [e], In(m)))
  {
    FilterConcat(l.log, [e], In(m));
    FilterHead([e], In(m));
    AppendNothing(Filter(l.log, In(m)));
    LinesSnoc(Filter(l.log, In(m)), e);
  }

  lemma {:induction false} AlwaysSound(attempts: seq<Attempt>)
    ensures Sound(RunOf(attempts))
  {
    if attempts == [] {
    } else {
      var l, a := RunOf(attempts[..|attempts| - 1]), attempts[|attempts| - 1];
      var m := YmdMonth(a.entry.ts);
      AlwaysSound(attempts[..|attempts| - 1]);
      OpenedSound(l, m);
      if !NeedsFile(l, m) || a.canOpen {
        var ready := if NeedsFile(l, m) then FileOpened(l, m) else l;
        WrittenSound(ready, a.entry);
      }
    }
  }

  // ----- what is read -----

  lemma {:induction false} EntriesExactly(lines: seq<Line>, e: Entry)
    ensures e in EntriesOf(lines) <==> Written(e) in lines
  {
    if lines == [] {
    } else {
      var n := |lines| - 1;
      EntriesExactly(lines[..n], e);
      assert forall l :: l in lines <==> l in lines[..n] || l == lines[n];
    }
  }

  lemma {:induction false} AllExactly(read: seq<Option<seq<Line>>>, e: Entry)
    ensures e in AllEntries(read) <==> exists lines :: Some(lines) in read && Written(e) in lines
  {
    if read == [] {
    } else {
      var n := |read| - 1;
      AllExactly(read[..n], e);
      assert forall f :: f in read <==> f in read[..n] || f == read[n];
      if read[n].Some? {
        EntriesExactly(read[n].value, e);
      }
    }
  }

  lemma {:induction false} SortMembers(s: seq<Entry>, e: Entry)
    ensures e in NewestFirst(s) <==> e in s
  {
    if s == [] {
    } else {
      var n := |s| - 1;
      SortMembers(s[..n], e);
      InsertExactly(NewestFirst(s[..n]), s[n], e);
      assert forall x :: x in s <==> x in s[..n] || x == s[n];
    }
  }

  /** Before the cut, a replay has exactly the entries written on some readable line that it selects. */
  lemma ReplayExactly(read: seq<Option<seq<Line>>>, since: int, kinds: Option<seq<string>>, e: Entry)
    ensures e in NewestFirst(Filter(AllEntries(read), Keep(since, kinds))) <==>
            Selects(since, kinds, e) && exists lines :: Some(lines) in read && Written(e) in lines
  {
    FilterMembers(AllEntries(read), Keep(since, kinds));
    SortMembers(Filter(AllEntries(read), Keep(since, kinds)), e);
    AllExactly(read, e);
    KeepExactly(since, kinds, e);
    assert e in Filter(AllEntries(read), Keep(since, kinds)) <==> e in AllEntries(read) && Keep(since, kinds)(e);
  }

  // ----- replay gives back the log -----

  /** Reading the listed months. */
  function ReadMonths(l: Ledger, months: seq<Month>): seq<Option<seq<Line>>> {
    seq(|months|, i requires 0 <= i < |months| => Some(GetOr(l.files, months[i], [])))
  }

  lemma {:induction false} EntriesOfLines(es: seq<Entry>)
    ensures EntriesOf(Lines(es)) == es
  {
    if es == [] {
    } else {
      var before := es[..|es| - 1];
      EntriesOfLines(before);
      assert Lines(es)[..|es| - 1] == Lines(before);
      assert before + [es[|es| - 1]] == es;
    }
  }

  lemma MonthFile(l: Ledger, m: Month, t: int)
    requires Sound(l)
    ensures Filter(EntriesOf(GetOr(l.files, m, [])), At(t)) == if YmdMonth(t) == m then Filter(l.log, At(t)) else []
  {
    if m in l.files {
      EntriesOfLines(Filter(l.log, In(m)));
      FilterMembers(l.log, In(m));
      if YmdMonth(t) == m {
        FilterTwice(l.log, In(m), At(t), At(t));
      } else {
        forall e | e in Filter(l.log, In(m))
          ensures !At(t)(e)
        {
          assert In(m)(e);
        }
        FilterNone(Filter(l.log, In(m)), At(t));
      }
    } else if YmdMonth(t) == m {
      forall e | e in l.log
        ensures !At(t)(e)
      {
        assert YmdMonth(e.ts) in l.files;
      }
      FilterNone(l.log, At(t));
    }
  }

  lemma {:induction false} MonthsAt(l: Ledger, months: seq<Month>, t: int)
    requires Sound(l) && Distinct(months)
    ensures Filter(AllEntries(ReadMonths(l, months)), At(t))
            == if YmdMonth(t) in months then Filter(l.log, At(t)) else []
  {
    if months == [] {
    } else {
      var before, m := months[..|months| - 1], months[|months| - 1];
      MonthsAt(l, before, t);
      MonthFile(l, m, t);
      LastMonth(l, months, before, m);
      FilterConcat(AllEntries(ReadMonths(l, before)), EntriesOf(GetOr(l.files, m, [])), At(t));
      AppendNothing(Filter(l.log, At(t)));
    }
  }

  lemma LastMonth(l: Ledger, months: seq<Month>, before: seq<Month>, m: Month)
    requires months != [] && before == months[..|months| - 1] && m == months[|months| - 1]
    ensures AllEntries(ReadMonths(l, months)) == AllEntries(ReadMonths(l, before)) + EntriesOf(GetOr(l.files, m, []))
    ensures forall x :: x in months <==> x in before || x == m
  {
    assert ReadMonths(l, months)[..|months| - 1] == ReadMonths(l, before);
  }

  lemma KeptAt(l: Ledger, months: seq<Month>, since: int, kinds: Option<seq<string>>, t: int)
    requires Sound(l) && Distinct(months)
    requires forall m :: m in l.files && Index(m) >= Index(YmdMonth(since)) ==> m in months
    ensures Filter(Filter(AllEntries(ReadMonths(l, months)), Keep(since, kinds)), At(t))
            == Filter(Filter(l.log, Keep(since, kinds)), At(t))
  {
    var keep, all := Keep(since, kinds), AllEntries(ReadMonths(l, months));
    FilterSwap(all, keep, At(t));
    FilterSwap(l.log, keep, At(t));
    MonthsAt(l, months, t);
    if YmdMonth(t) !in months {
      forall e | e in Filter(l.log, At(t))
        ensures !keep(e)
      {
        FilterMembers(l.log, At(t));
        assert At(t)(e) && YmdMonth(e.ts) in l.files;
        if t >= since {
          MonthIsMonotone(since, t);
        }
      }
      FilterNone(Filter(l.log, At(t)), keep);
    }
  }

  /** Replay gives back the log: whatever order the files are read in, and whether or not the months
      before `since` are read at all, the result is the appended entries that pass the filter,
      newest first, entries of one instant in the order they were appended. */
  lemma ReplayIsTheLog(attempts: seq<Attempt>, months: seq<Month>, since: int, kinds: Option<seq<string>>)
    requires Distinct(months)
    requires forall m :: m in RunOf(attempts).files && Index(m) >= Index(YmdMonth(since)) ==> m in months
    ensures var l := RunOf(attempts);
            NewestFirst(Filter(AllEntries(ReadMonths(l, months)), Keep(since, kinds)))
            == NewestFirst(Filter(l.log, Keep(since, kinds)))
  {
    var l := RunOf(attempts);
    AlwaysSound(attempts);
    var a := Filter(AllEntries(ReadMonths(l, months)), Keep(since, kinds));
    var b := Filter(l.log, Keep(since, kinds));
    forall t: int
      ensures Filter(NewestFirst(a), At(t)) == Filter(NewestFirst(b), At(t))
    {
      KeptAt(l, months, since, kinds, t);
      SortIsStable(a, t);
      SortIsStable(b, t);
    }
    SortIsStable(a, 0);
    SortIsStable(b, 0);
    SortedIsUnique(NewestFirst(a), NewestFirst(b));
  }
}
