/**
 dump-db and fill-db (v2/lens3/admintool.go): the databases as text, an entry
 being a line with the key and an indented line with the value.
 */
module DbDump {
  import opened Records

  /** The three databases (v2/lens3/table.go). */
  datatype Db = Setting | Storage | Process

  datatype Databases = Databases(setting: map<string, string>, storage: map<string, string>, process: map<string, string>)

  const Nothing := Databases(map[], map[], map[])

  const SettingPrefixes := {"cf:", "uu:", "um:"}
  const StoragePrefixes := {"po:", "bd:", "px:", "sx:", "bk:"}
  const ProcessPrefixes := {"mu:", "dx:", "de:", "tn:", "ps:", "pt:", "ut:"}

  /** The database of a key, by the first three characters. */
  function DbOf(key: string): Option<Db> {
    if |key| < 3 then None
    else if key[..3] in SettingPrefixes then Some(Setting)
    else if key[..3] in StoragePrefixes then Some(Storage)
    else if key[..3] in ProcessPrefixes then Some(Process)
    else None
  }

  function Set(d: Databases, db: Db, k: string, v: string): Databases {
    match db
    case Setting => d.(setting := d.setting[k := v])
    case Storage => d.(storage := d.storage[k := v])
    case Process => d.(process := d.process[k := v])
  }

  type Entry = (string, string)

  const INDENT := "    "

  /** print_db_entries, without its banner. */
  function Print(entries: seq<Entry>): string {
    if entries == [] then ""
    else entries[0].0 + "\n" + INDENT + entries[0].1 + "\n" + Print(entries[1..])
  }

  const RULE := "//----"

  function Banner(title: string): string {
    RULE + "\n" + "// " + title + "\n" + RULE + "\n"
  }

  /** dump-db. */
  function Dump(setting: seq<Entry>, storage: seq<Entry>, process: seq<Entry>): string {
    Banner("Setting") + (Print(setting) + Banner("Storage") + Print(storage) + Banner("Process") + Print(process))
  }

  // ---- reading ----

  /** A line loses one trailing carriage return, as bufio.ScanLines has it. */
  function DropCr(line: string): string {
    if line != "" && line[|line| - 1] == '\r' then line[..|line| - 1] else line
  }

  /** Up to and without the first newline. */
  function FirstLine(text: string): string {
    if text == "" || text[0] == '\n' then "" else [text[0]] + FirstLine(text[1..])
  }

  lemma {:induction false} FirstLineLength(text: string)
    ensures |FirstLine(text)| <= |text|
    ensures '\n' !in FirstLine(text)
  {
    if text != "" && text[0] != '\n' {
      FirstLineLength(text[1..]);
    }
  }

  /** What follows the first line. */
  function AfterLine(text: string): (rest: string)
    ensures text != "" ==> |rest| < |text|
  {
    if text == "" then "" else if text[0] == '\n' then text[1..] else AfterLine(text[1..])
  }

  function ScanLines(text: string): seq<string>
    decreases |text|
  {
    if text == "" then [] else [DropCr(FirstLine(text))] + ScanLines(AfterLine(text))
  }

  function TrimLeft(s: string): string {
    if s != "" && s[0] == ' ' then TrimLeft(s[1..]) else s
  }

  predicate HasIndent(s: string) { |s| >= 4 && s[..4] == INDENT }

  /** set_db_raw: an empty key or value or an unknown prefix is a `panic(nil)`. */
  function SetRaw(d: Databases, k: string, v: string): (Databases, Status) {
    if k == "" || v == "" || DbOf(k).None? then (d, Fatal) else (Set(d, DbOf(k).value, k, v), Okay)
  }

  /** fill-db on lines taken two by two; a last odd line is ignored. */
  function Fill(d: Databases, lines: seq<string>): (Databases, Status)
    decreases |lines|
  {
    if |lines| < 2 then (d, Okay)
    else if !HasIndent(lines[1]) then (d, Fatal)
    else
      var (d1, s) := SetRaw(d, lines[0], TrimLeft(lines[1]));
      if !s.Okay? then (d1, s) else Fill(d1, lines[2..])
  }

  /** adm_fill_db as it is written: a toggle and a buffer of two lines. */
  method FillDb(start: Databases, lines: seq<string>) returns (d: Databases, s: Status)
    ensures (d, s) == Fill(start, lines)
  {
    d, s := start, Okay;
    var evenodd := 0;
    var key, value := "", "";
    var i := 0;
    while i < |lines|
      invariant 0 <= i <= |lines| && evenodd == i % 2
      invariant s.Okay?
      invariant evenodd == 1 ==> key == lines[i - 1]
      invariant Fill(start, lines) == Fill(d, lines[i - evenodd..])
    {
      if evenodd == 0 {
        key := lines[i];
        evenodd := 1;
      } else {
        ghost var pending := lines[i - 1..];
        assert pending[0] == key && pending[1] == lines[i] && pending[2..] == lines[i + 1..];
        value := lines[i];
        if !HasIndent(value) {
          return d, Fatal;
        }
        value := TrimLeft(value);
        var stored := SetRaw(d, key, value);
        d, s := stored.0, stored.1;
        if !s.Okay? {
          return;
        }
        key, value := "", "";
        evenodd := 0;
      }
      i := i + 1;
    }
  }

  // ---- the round trip ----

  /** An entry that survives being printed and read. */
  predicate Printable(e: Entry) {
    && DbOf(e.0).Some? && e.1 != ""
    && '\n' !in e.0 && '\n' !in e.1
    && e.1[0] != ' '
    && e.0[|e.0| - 1] != '\r' && e.1[|e.1| - 1] != '\r'
  }

  predicate OneLine(e: Entry) { '\n' !in e.0 && '\n' !in e.1 }

  /** What reading makes of a printed entry, and of several. */
  function Reread(e: Entry): Entry { (DropCr(e.0), TrimLeft(DropCr(e.1))) }

  function RereadAll(entries: seq<Entry>): (r: seq<Entry>)
    ensures |r| == |entries| && forall i | 0 <= i < |r| :: r[i] == Reread(entries[i])
  {
    if entries == [] then [] else [Reread(entries[0])] + RereadAll(entries[1..])
  }

  predicate Storable(e: Entry) { DbOf(e.0).Some? && e.1 != "" }

  predicate AllPrintable(entries: seq<Entry>) { forall i | 0 <= i < |entries| :: Printable(entries[i]) }
  predicate AllOneLine(entries: seq<Entry>) { forall i | 0 <= i < |entries| :: OneLine(entries[i]) }
  predicate AllStorable(entries: seq<Entry>) { forall i | 0 <= i < |entries| :: Storable(entries[i]) }

  /** Entries put one by one into the databases of their prefixes. */
  function SetAll(d: Databases, entries: seq<Entry>): Databases
    decreases |entries|
  {
    if entries == [] then d
    else if DbOf(entries[0].0).None? then SetAll(d, entries[1..])
    else SetAll(Set(d, DbOf(entries[0].0).value, entries[0].0, entries[0].1), entries[1..])
  }

  lemma {:induction false} LineOf(line: string, rest: string)
    requires '\n' !in line
    ensures FirstLine(line + "\n" + rest) == line && AfterLine(line + "\n" + rest) == rest
  {
    var text := line + "\n" + rest;
    if line == "" {
      assert text[0] == '\n' && text[1..] == rest;
    } else {
      assert text[0] == line[0] && text[1..] == line[1..] + "\n" + rest;
      LineOf(line[1..], rest);
      assert [line[0]] + line[1..] == line;
    }
  }

  lemma ScanOne(line: string, rest: string)
    requires '\n' !in line
    ensures ScanLines(line + "\n" + rest) == [DropCr(line)] + ScanLines(rest)
  {
    LineOf(line, rest);
  }

  /** An entry without newlines is read as two lines. */
  lemma ScanEntry(e: Entry, rest: string)
    requires '\n' !in e.0 && '\n' !in e.1
    ensures ScanLines(e.0 + "\n" + INDENT + e.1 + "\n" + rest) ==
            [DropCr(e.0), DropCr(INDENT + e.1)] + ScanLines(rest)
  {
    assert e.0 + "\n" + INDENT + e.1 + "\n" + rest == e.0 + "\n" + ((INDENT + e.1) + "\n" + rest);
    ScanOne(e.0, (INDENT + e.1) + "\n" + rest);
    ScanOne(INDENT + e.1, rest);
  }

  lemma {:induction false} TrimSpaces(n: nat, s: string)
    ensures TrimLeft(seq(n, _ => ' ') + s) == TrimLeft(s)
  {
    var t := seq(n, _ => ' ') + s;
    if n == 0 {
      assert t == s;
    } else {
      assert t[1..] == seq(n - 1, _ => ' ') + s;
      TrimSpaces(n - 1, s);
    }
  }

  lemma TrimIndent(v: string)
    ensures HasIndent(INDENT + v) && TrimLeft(INDENT + v) == TrimLeft(v)
  {
    assert INDENT == seq(4, _ => ' ');
    TrimSpaces(4, v);
    assert (INDENT + v)[..4] == INDENT;
  }

  lemma {:induction false} TrimKeeps(s: string)
    ensures forall c | c in TrimLeft(s) :: c in s
    ensures TrimLeft(s) == s <==> s == "" || s[0] != ' '
    ensures |TrimLeft(s)| <= |s|
  {
    if s != "" && s[0] == ' ' {
      TrimKeeps(s[1..]);
    }
  }

  /** Entries are unchanged by printing and reading exactly when they are printable. */
  lemma RereadIs(e: Entry)
    requires OneLine(e)
    ensures Reread(e) == e && Storable(e) <==> Printable(e)
  {
    TrimKeeps(DropCr(e.1));
  }

  lemma RereadAllIs(entries: seq<Entry>)
    requires AllOneLine(entries)
    ensures RereadAll(entries) == entries && AllStorable(entries) <==> AllPrintable(entries)
  {
    hide Reread, Storable, Printable, OneLine;
    forall i | 0 <= i < |entries| ensures Reread(entries[i]) == entries[i] && Storable(entries[i]) <==> Printable(entries[i]) {
      RereadIs(entries[i]);
    }
    if AllPrintable(entries) {
      assert RereadAll(entries) == entries;
    }
  }

  lemma PrintableIsOneLine(entries: seq<Entry>)
    requires AllPrintable(entries)
    ensures AllOneLine(entries)
  {
    hide DbOf;
  }

  /** Reading printed entries sets each of them as it is reread, or panics at one
      that cannot be stored. */
  lemma {:induction false} FillPrinted(d: Databases, entries: seq<Entry>)
    requires AllOneLine(entries)
    ensures var r := Fill(d, ScanLines(Print(entries))); var es := RereadAll(entries);
            && (r.1.Okay? <==> AllStorable(es))
            && (r.1.Okay? ==> r.0 == SetAll(d, es))
    decreases |entries|
  {
    assert ScanLines("") == [];
    hide OneLine, ScanLines, DropCr, TrimLeft, HasIndent, DbOf, Set;
    if entries != [] {
      var e, rest := entries[0], entries[1..];
      FirstPair(e, rest);
      var lines, es := ScanLines(Print(entries)), RereadAll(entries);
      assert entries == [e] + rest && es[1..] == RereadAll(rest);
      hide Print, Reread;
      var (d1, s) := SetRaw(d, es[0].0, es[0].1);
      StorableIs(d, es[0]);
      hide Storable;
      assert AllStorable(es) <==> Storable(es[0]) && AllStorable(es[1..]);
      if s.Okay? {
        FillPrinted(d1, rest);
      }
    }
  }

  lemma StorableIs(d: Databases, e: Entry)
    ensures SetRaw(d, e.0, e.1).1.Okay? <==> Storable(e)
  {
  }

  lemma FirstPair(e: Entry, rest: seq<Entry>)
    requires OneLine(e)
    ensures var lines := ScanLines(Print([e] + rest));
            && |lines| >= 2 && HasIndent(lines[1])
            && (lines[0], TrimLeft(lines[1])) == Reread(e) && lines[2..] == ScanLines(Print(rest))
  {
    hide ScanLines;
    ScanEntry(e, Print(rest));
    assert ([e] + rest)[1..] == rest;
    assert DropCr(INDENT + e.1) == INDENT + DropCr(e.1);
    TrimIndent(DropCr(e.1));
  }

  // ---- the three databases as one map ----

  /** Every key is in the database of its prefix. */
  ghost predicate Sorted(d: Databases) {
    && (forall k | k in d.setting :: DbOf(k) == Some(Setting))
    && (forall k | k in d.storage :: DbOf(k) == Some(Storage))
    && (forall k | k in d.process :: DbOf(k) == Some(Process))
  }

  function All(d: Databases): map<string, string> {
    d.setting + d.storage + d.process
  }

  /** The entries as a map, the last one of a key counting. */
  function MapOf(m: map<string, string>, entries: seq<Entry>): map<string, string>
    decreases |entries|
  {
    if entries == [] then m else MapOf(m[entries[0].0 := entries[0].1], entries[1..])
  }

  /** Entries that list a map, each key once, in any order. */
  ghost predicate Lists(entries: seq<Entry>, m: map<string, string>) {
    && (forall i, j | 0 <= i < j < |entries| :: entries[i].0 != entries[j].0)
    && (forall i | 0 <= i < |entries| :: entries[i].0 in m && m[entries[i].0] == entries[i].1)
    && (forall k | k in m :: (k, m[k]) in entries)
  }

  lemma SetIs(d: Databases, k: string, v: string)
    requires Sorted(d) && DbOf(k).Some?
    ensures var r := Set(d, DbOf(k).value, k, v); Sorted(r) && All(r) == All(d)[k := v]
  {
    hide DbOf;
    SumUpdate(d.setting, d.storage, d.process, k, v);
  }

  lemma SumUpdate(a: map<string, string>, b: map<string, string>, c: map<string, string>, k: string, v: string)
    ensures k !in b && k !in c ==> a[k := v] + b + c == (a + b + c)[k := v]
    ensures k !in c ==> a + b[k := v] + c == (a + b + c)[k := v]
    ensures a + b + c[k := v] == (a + b + c)[k := v]
  {
  }

  lemma {:induction false} SetAllIs(d: Databases, entries: seq<Entry>)
    requires Sorted(d) && AllStorable(entries)
    ensures Sorted(SetAll(d, entries)) && All(SetAll(d, entries)) == MapOf(All(d), entries)
    decreases |entries|
  {
    hide DbOf, Sorted, All, Set;
    if entries != [] {
      var e := entries[0];
      assert Storable(e);
      SetIs(d, e.0, e.1);
      SetAllIs(Set(d, DbOf(e.0).value, e.0, e.1), entries[1..]);
    }
  }

  lemma SortedByAll(d: Databases, e: Databases)
    requires Sorted(d) && Sorted(e) && All(d) == All(e)
    ensures d == e
  {
    hide DbOf;
    assert forall k :: k in d.setting || k in d.storage || k in d.process <==> k in All(d);
    assert forall k :: k in e.setting || k in e.storage || k in e.process <==> k in All(e);
    forall k | k in d.setting ensures k in e.setting && e.setting[k] == d.setting[k] {
      assert All(d)[k] == d.setting[k];
    }
    forall k | k in d.storage ensures k in e.storage && e.storage[k] == d.storage[k] {
      assert All(d)[k] == d.storage[k];
    }
    forall k | k in d.process ensures k in e.process && e.process[k] == d.process[k] {
      assert All(d)[k] == d.process[k];
    }
    assert d.setting == e.setting && d.storage == e.storage && d.process == e.process;
  }

  lemma {:induction false} MapOfIs(m: map<string, string>, entries: seq<Entry>)
    requires forall i, j | 0 <= i < j < |entries| :: entries[i].0 != entries[j].0
    ensures forall i | 0 <= i < |entries| ::
              entries[i].0 in MapOf(m, entries) && MapOf(m, entries)[entries[i].0] == entries[i].1
    ensures forall k | k in m && (forall i | 0 <= i < |entries| :: entries[i].0 != k) ::
              k in MapOf(m, entries) && MapOf(m, entries)[k] == m[k]
    decreases |entries|
  {
    if entries != [] {
      var e, rest := entries[0], entries[1..];
      MapOfIs(m[e.0 := e.1], rest);
      assert forall i | 0 <= i < |rest| :: rest[i] == entries[i + 1];
      assert forall i | 0 <= i < |rest| :: rest[i].0 != e.0;
      assert e.0 in m[e.0 := e.1];
    }
  }

  /** A key of the map comes from one of the entries. */
  lemma {:induction false} MapOfKeys(m: map<string, string>, entries: seq<Entry>, k: string) returns (i: nat)
    requires k in MapOf(m, entries) && k !in m
    ensures i < |entries| && entries[i].0 == k
    decreases |entries|
  {
    if entries[0].0 == k {
      i := 0;
    } else {
      i := MapOfKeys(m[entries[0].0 := entries[0].1], entries[1..], k);
      i := i + 1;
    }
  }

  lemma ListedIs(entries: seq<Entry>, m: map<string, string>)
    requires Lists(entries, m)
    ensures MapOf(map[], entries) == m
  {
    MapOfIs(map[], entries);
    var r := MapOf(map[], entries);
    forall k ensures k in r <==> k in m {
      if k in r {
        var i := MapOfKeys(map[], entries, k);
      }
      assert k in m ==> (k, m[k]) in entries;
    }
    forall k | k in m ensures r[k] == m[k] {
      assert (k, m[k]) in entries;
    }
  }

  // ---- which databases survive ----

  /** Printable entries are restored. */
  lemma PrintableIsRestored(d: Databases, entries: seq<Entry>)
    requires Sorted(d) && Lists(entries, All(d)) && AllPrintable(entries)
    ensures Fill(Nothing, ScanLines(Print(entries))) == (d, Okay)
  {
    NothingIs();
    hide AllPrintable, AllOneLine, AllStorable, Fill, ScanLines, Print, SetAll, Sorted, All, Lists;
    PrintableIsOneLine(entries);
    RereadAllIs(entries);
    FillPrinted(Nothing, entries);
    SetAllIs(Nothing, entries);
    ListedIs(entries, All(d));
    SortedByAll(SetAll(Nothing, entries), d);
  }

  lemma NothingIs()
    ensures Sorted(Nothing) && All(Nothing) == map[]
  {
  }

  lemma {:induction false} ScannedHasNoNewline(text: string)
    ensures forall line | line in ScanLines(text) :: '\n' !in line
    decreases |text|
  {
    if text != "" {
      FirstLineLength(text);
      ScannedHasNoNewline(AfterLine(text));
    }
  }

  ghost predicate OneLineMap(m: map<string, string>) {
    forall k | k in m :: '\n' !in k && '\n' !in m[k]
  }

  lemma {:induction false} FillIsOneLine(d: Databases, lines: seq<string>)
    requires Sorted(d) && OneLineMap(All(d)) && forall line | line in lines :: '\n' !in line
    ensures OneLineMap(All(Fill(d, lines).0))
    decreases |lines|
  {
    hide DbOf, All, Set, Sorted;
    if |lines| >= 2 && HasIndent(lines[1]) {
      TrimKeeps(lines[1]);
      assert lines[0] in lines && lines[1] in lines;
      var (d1, s) := SetRaw(d, lines[0], TrimLeft(lines[1]));
      if s.Okay? {
        SetIs(d, lines[0], TrimLeft(lines[1]));
        FillIsOneLine(d1, lines[2..]);
      }
    }
  }

  /** The key is what reading makes of some key. */
  ghost predicate Sourced(entries: seq<Entry>, key: string) {
    exists k | 0 <= k < |entries| :: DropCr(entries[k].0) == key
  }

  /** When rereading gives back the same keys, none of them ends in a carriage
      return: else there would be ever longer ones. */
  lemma {:induction false} NoKeyLosesCr(entries: seq<Entry>, j: nat, bound: nat)
    requires j < |entries| && forall i | 0 <= i < |entries| :: |entries[i].0| <= bound
    requires forall i | 0 <= i < |entries| :: Sourced(entries, entries[i].0)
    ensures DropCr(entries[j].0) == entries[j].0
    decreases bound - |entries[j].0|
  {
    var k :| 0 <= k < |entries| && DropCr(entries[k].0) == entries[j].0;
    if |entries[k].0| > |entries[j].0| {
      NoKeyLosesCr(entries, k, bound);
    }
  }

  lemma {:induction false} Longest(entries: seq<Entry>) returns (bound: nat)
    ensures forall i | 0 <= i < |entries| :: |entries[i].0| <= bound
  {
    bound := 0;
    if entries != [] {
      bound := Longest(entries[1..]);
      assert forall i | 1 <= i < |entries| :: entries[i] == entries[1..][i - 1];
      if bound < |entries[0].0| {
        bound := |entries[0].0|;
      }
    }
  }

  /** Entries that list the same map after rereading were not changed by it. */
  lemma RereadRestores(entries: seq<Entry>, m: map<string, string>)
    requires Lists(entries, m) && MapOf(map[], RereadAll(entries)) == m
    ensures RereadAll(entries) == entries
  {
    hide DropCr, TrimLeft, MapOf, Sourced;
    var es := RereadAll(entries);
    var bound := Longest(entries);
    forall i | 0 <= i < |entries| ensures Sourced(entries, entries[i].0) {
      var k := MapOfKeys(map[], es, entries[i].0);
      SourcedAt(entries, k);
    }
    forall i | 0 <= i < |entries| ensures es[i].0 == entries[i].0 {
      NoKeyLosesCr(entries, i, bound);
    }
    MapOfIs(map[], es);
    forall i | 0 <= i < |entries| ensures es[i] == entries[i] {
      assert m[es[i].0] == es[i].1 && m[entries[i].0] == entries[i].1;
    }
  }

  lemma SourcedAt(entries: seq<Entry>, k: nat)
    requires k < |entries|
    ensures Sourced(entries, DropCr(entries[k].0))
  {
  }

  lemma RestoredIsOneLine(d: Databases, entries: seq<Entry>)
    requires Lists(entries, All(d)) && Fill(Nothing, ScanLines(Print(entries))) == (d, Okay)
    ensures AllOneLine(entries)
  {
    NothingIs();
    ScannedHasNoNewline(Print(entries));
    FillIsOneLine(Nothing, ScanLines(Print(entries)));
    hide All, Fill, ScanLines, Print;
  }

  /** Restored entries are printable. */
  lemma RestoredIsPrintable(d: Databases, entries: seq<Entry>)
    requires Lists(entries, All(d)) && Fill(Nothing, ScanLines(Print(entries))) == (d, Okay)
    ensures AllPrintable(entries)
  {
    NothingIs();
    hide AllPrintable, AllOneLine, AllStorable, Fill, ScanLines, Print, SetAll, Sorted, All, Lists, MapOf;
    RestoredIsOneLine(d, entries);
    FillPrinted(Nothing, entries);
    SetAllIs(Nothing, RereadAll(entries));
    RereadRestores(entries, All(d));
    RereadAllIs(entries);
  }

  /** Printing all entries of the three databases and reading the lines into empty
      databases restores them exactly when every entry is printable: no newline in
      it, no carriage return at an end, and a value that is not empty and does not
      start with a blank. */
  lemma RoundTrip(d: Databases, entries: seq<Entry>)
    requires Sorted(d) && Lists(entries, All(d))
    ensures Fill(Nothing, ScanLines(Print(entries))) == (d, Okay) <==>
            forall i | 0 <= i < |entries| :: Printable(entries[i])
  {
    hide Printable, Fill, ScanLines, Print, Sorted, Lists, All;
    if AllPrintable(entries) {
      PrintableIsRestored(d, entries);
    }
    if Fill(Nothing, ScanLines(Print(entries))) == (d, Okay) {
      RestoredIsPrintable(d, entries);
    }
  }

  /** The administrator's guide has fill-db read what dump-db wrote.  It never
      does: the first banner stops it before anything is set. */
  lemma DumpIsNotReadable(setting: seq<Entry>, storage: seq<Entry>, process: seq<Entry>, d: Databases)
    ensures Fill(d, ScanLines(Dump(setting, storage, process))) == (d, Fatal)
  {
    BannerStopsFill(d, "Setting", Print(setting) + Banner("Storage") + Print(storage) + Banner("Process") + Print(process));
  }

  lemma BannerStopsFill(d: Databases, title: string, rest: string)
    requires '\n' !in title && (title == "" || title[|title| - 1] != '\r')
    ensures Fill(d, ScanLines(Banner(title) + rest)) == (d, Fatal)
  {
    var head, tail := "// " + title, RULE + "\n" + rest;
    assert Banner(title) + rest == RULE + "\n" + (head + "\n" + tail);
    ScanOne(RULE, head + "\n" + tail);
    ScanOne(head, tail);
    assert DropCr(head) == head && head[0] == '/';
    assert !HasIndent(head) by { assert INDENT[0] == ' '; }
  }
}
