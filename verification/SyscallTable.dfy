// From the kernel's system call tables to names, numbers and switches
// (tools/parse_syscall_tables.py, class TableParser).
module SyscallTable {
  import opened Common

  datatype Entry = Entry(nr: nat, abi: string, name: string)

  /** A line of a table file: comments, empty and short lines are skipped; the
      columns after the third play no role for what is generated. */
  datatype Line = Skipped | Fields(nr: nat, abi: string, name: string)

  /** str.lstrip("_") */
  function StripUnderscores(s: string): string {
    if s != [] && s[0] == '_' then StripUnderscores(s[1..]) else s
  }

  function EntryOf(l: Line): Entry
    requires l.Fields?
  {
    Entry(l.nr, l.abi, StripUnderscores(l.name))
  }

  /** The entries of one ABI column value, in file order. */
  function EntriesOf(lines: seq<Line>, abi: string): seq<Entry> {
    if lines == [] then []
    else
      var before, l := EntriesOf(lines[..|lines| - 1], abi), lines[|lines| - 1];
      if l.Fields? && l.abi == abi then before + [EntryOf(l)] else before
  }

  /** A name as the tables have it: no underscore is left in front. */
  predicate IsBare(name: string) { name == [] || name[0] != '_' }

  lemma {:induction false} StrippedIsBare(s: string)
    ensures IsBare(StripUnderscores(s))
  {
    if s != [] && s[0] == '_' { StrippedIsBare(s[1..]); }
  }

  /** Only underscores were taken away, and only from the front. */
  lemma {:induction false} StrippedExactly(s: string)
    ensures var n := |s| - |StripUnderscores(s)|;
      && 0 <= n && StripUnderscores(s) == s[n..] && forall i | 0 <= i < n :: s[i] == '_'
  {
    if s != [] && s[0] == '_' { StrippedExactly(s[1..]); }
  }

  lemma {:induction false} EntriesAreBare(lines: seq<Line>, abi: string)
    ensures forall e | e in EntriesOf(lines, abi) :: IsBare(e.name)
  {
    if lines != [] {
      EntriesAreBare(lines[..|lines| - 1], abi);
      var l := lines[|lines| - 1];
      if l.Fields? { StrippedIsBare(l.name); }
    }
  }

  /** Whatever a table file contains. */
  lemma TableIsBare(lines: seq<Line>, table: map<string, seq<Entry>>, abi: string)
    requires IsTable(lines, table) && abi in table
    ensures forall e | e in table[abi] :: IsBare(e.name)
  {
    EntriesAreBare(lines, abi);
  }

  ghost predicate IsTable(lines: seq<Line>, table: map<string, seq<Entry>>) {
    forall abi: string ::
      if EntriesOf(lines, abi) == [] then abi !in table
      else abi in table && table[abi] == EntriesOf(lines, abi)
  }

  method ProcessTable(lines: seq<Line>) returns (table: map<string, seq<Entry>>)
    ensures IsTable(lines, table)
  {
    table := map[];
    for i := 0 to |lines|
      invariant IsTable(lines[..i], table)
    {
      assert lines[..i + 1][..i] == lines[..i];
      if lines[i].Skipped? {
        continue;
      }
      var entry := EntryOf(lines[i]);
      var calls := if entry.abi in table then table[entry.abi] else [];
      assert calls == EntriesOf(lines[..i], entry.abi);
      table := table[entry.abi := calls + [entry]];
    }
    assert lines[..|lines|] == lines;
  }

  // ----- what a table is, by the lines of the file

  /** The lines that belong to a column, by position. */
  function LinesOf(lines: seq<Line>, abi: string): (at: seq<nat>)
    ensures forall k | 0 <= k < |at| :: at[k] < |lines|
    ensures forall i, j | 0 <= i < j < |at| :: at[i] < at[j]
  {
    if lines == [] then []
    else
      var (before, l) := (LinesOf(lines[..|lines| - 1], abi), lines[|lines| - 1]);
      if l.Fields? && l.abi == abi then before + [|lines| - 1] else before
  }

  /** The same name without the underscores in front. */
  predicate Bares(s: string, t: string) {
    && IsBare(t) && |t| <= |s| && t == s[|s| - |t|..]
    && forall i | 0 <= i < |s| - |t| :: s[i] == '_'
  }

  predicate Renders(l: Line, e: Entry) { l.Fields? && e.nr == l.nr && e.abi == l.abi && Bares(l.name, e.name) }

  lemma {:induction false} LinesOfExactly(lines: seq<Line>, abi: string, i: nat)
    ensures i in LinesOf(lines, abi) <==> i < |lines| && lines[i].Fields? && lines[i].abi == abi
  {
    if lines != [] {
      LinesOfExactly(lines[..|lines| - 1], abi, i);
    }
  }

  lemma {:induction false} EntriesAreLines(lines: seq<Line>, abi: string)
    ensures var (at, entries) := (LinesOf(lines, abi), EntriesOf(lines, abi));
      && |at| == |entries|
      && (forall k | 0 <= k < |at| :: at[k] < |lines| && Renders(lines[at[k]], entries[k]))
  {
    if lines != [] {
      EntriesAreLines(lines[..|lines| - 1], abi);
      var l := lines[|lines| - 1];
      if l.Fields? {
        StrippedIsBare(l.name);
        StrippedExactly(l.name);
      }
    }
  }

  /** Whatever a table file contains: a column is in the table iff a line has it, and
      its entries are its lines, one for one and in the file's order. */
  lemma TableIsLines(lines: seq<Line>, table: map<string, seq<Entry>>, abi: string)
    requires IsTable(lines, table)
    ensures var at := LinesOf(lines, abi);
      && (abi in table <==> at != [])
      && (forall i: nat :: i in at <==> i < |lines| && lines[i].Fields? && lines[i].abi == abi)
      && (forall i, j | 0 <= i < j < |at| :: at[i] < at[j])
      && (abi in table ==>
            |table[abi]| == |at|
            && forall k | 0 <= k < |at| :: at[k] < |lines| && Renders(lines[at[k]], table[abi][k]))
  {
    EntriesAreLines(lines, abi);
    forall i: nat ensures i in LinesOf(lines, abi) <==> i < |lines| && lines[i].Fields? && lines[i].abi == abi {
      LinesOfExactly(lines, abi, i);
    }
  }

  // ----- sorting by number

  function Insert(e: Entry, sorted: seq<Entry>): (r: seq<Entry>)
    ensures multiset(r) == multiset{e} + multiset(sorted)
  {
    if sorted == [] then [e]
    else if e.nr < sorted[0].nr then [e] + sorted
    else
      var r := [sorted[0]] + Insert(e, sorted[1..]);
      assert sorted == [sorted[0]] + sorted[1..];
      r
  }

  /** list.sort(key=nr), which is stable. */
  function SortByNr(entries: seq<Entry>): (r: seq<Entry>)
    ensures multiset(r) == multiset(entries)
  {
    if entries == [] then []
    else
      var r := Insert(entries[|entries| - 1], SortByNr(entries[..|entries| - 1]));
      assert entries == entries[..|entries| - 1] + [entries[|entries| - 1]];
      r
  }

  predicate Ascending(entries: seq<Entry>) {
    forall i, j | 0 <= i < j < |entries| :: entries[i].nr <= entries[j].nr
  }

  lemma {:induction false} InsertAscending(e: Entry, sorted: seq<Entry>)
    requires Ascending(sorted)
    ensures Ascending(Insert(e, sorted))
  {
    if sorted != [] && e.nr >= sorted[0].nr {
      InsertAscending(e, sorted[1..]);
      var rest := Insert(e, sorted[1..]);
      forall j | 0 <= j < |rest| ensures sorted[0].nr <= rest[j].nr {
        assert rest[j] in multiset(rest);
        if rest[j] != e {
          var k :| 0 <= k < |sorted[1..]| && sorted[1..][k] == rest[j];
        }
      }
    }
  }

  lemma {:induction false} SortAscending(entries: seq<Entry>)
    ensures Ascending(SortByNr(entries))
  {
    if entries != [] {
      SortAscending(entries[..|entries| - 1]);
      InsertAscending(entries[|entries| - 1], SortByNr(entries[..|entries| - 1]));
    }
  }

  /** The entries with one number, in order. */
  function OfNr(entries: seq<Entry>, nr: nat): seq<Entry> {
    if entries == [] then []
    else (if entries[0].nr == nr then [entries[0]] else []) + OfNr(entries[1..], nr)
  }

  lemma {:induction false} OfNrAppended(entries: seq<Entry>, e: Entry, nr: nat)
    ensures OfNr(entries + [e], nr) == OfNr(entries, nr) + if e.nr == nr then [e] else []
  {
    if entries != [] {
      assert (entries + [e])[1..] == entries[1..] + [e];
      OfNrAppended(entries[1..], e, nr);
    }
  }

  lemma {:induction false} InsertStable(e: Entry, sorted: seq<Entry>, nr: nat)
    requires Ascending(sorted)
    ensures OfNr(Insert(e, sorted), nr) == OfNr(sorted, nr) + if e.nr == nr then [e] else []
  {
    if sorted != [] {
      if e.nr < sorted[0].nr {
        if e.nr == nr { NoneOfNr(sorted, nr); }
      } else {
        InsertStable(e, sorted[1..], nr);
      }
    }
  }

  lemma {:induction false} NoneOfNr(entries: seq<Entry>, nr: nat)
    requires forall e | e in entries :: e.nr != nr
    ensures OfNr(entries, nr) == []
  {
    if entries != [] { NoneOfNr(entries[1..], nr); }
  }

  /** Entries with the same number keep their order. */
  lemma {:induction false} SortStable(entries: seq<Entry>, nr: nat)
    ensures OfNr(SortByNr(entries), nr) == OfNr(entries, nr)
  {
    hide Insert, Ascending;
    if entries != [] {
      var (before, last) := (entries[..|entries| - 1], entries[|entries| - 1]);
      SortStable(before, nr);
      SortAscending(before);
      InsertStable(last, SortByNr(before), nr);
      OfNrAppended(before, last, nr);
      assert entries == before + [last];
    }
  }

  // ----- transformABIs()

  type Table = map<string, seq<Entry>>

  /** The tables of the parsed architectures, and the lists per ABI made of them. */
  datatype Parsed = Parsed(x86_32: Option<Table>, x86_64: Option<Table>, aarch64: Option<Table>)
  datatype Abis = Abis(i386: Option<seq<Entry>>, x64: Option<seq<Entry>>, x32: Option<seq<Entry>>,
                       aarch64: Option<seq<Entry>>)

  const AARCH64_ABIS := ["64", "common", "renameat", "rlimit", "memfd_secret"]

  function Concatenated(table: Table, abis: seq<string>): seq<Entry>
    requires HasAll(table, abis)
  {
    if abis == [] then [] else Concatenated(table, abis[..|abis| - 1]) + table[abis[|abis| - 1]]
  }

  predicate HasAll(table: Table, abis: seq<string>) { forall a | a in abis :: a in table }

  /** How often an entry is in some columns, taken together. */
  function Times(table: Table, abis: seq<string>, e: Entry): nat
    requires HasAll(table, abis)
  {
    if abis == [] then 0 else Times(table, abis[..|abis| - 1], e) + multiset(table[abis[|abis| - 1]])[e]
  }

  /** An ABI's list has each entry of its columns, as often as they have it, and no
      other, in the order of numbers. */
  lemma {:induction false} ColumnsAreWhole(table: Table, abis: seq<string>, e: Entry)
    requires HasAll(table, abis)
    ensures multiset(SortByNr(Concatenated(table, abis)))[e] == Times(table, abis, e)
    ensures e in Concatenated(table, abis) <==> exists a :: a in abis && e in table[a]
    ensures Ascending(SortByNr(Concatenated(table, abis)))
  {
    hide SortByNr, Ascending;
    SortAscending(Concatenated(table, abis));
    if abis != [] {
      var last := abis[|abis| - 1];
      assert abis == abis[..|abis| - 1] + [last];
      ColumnsAreWhole(table, abis[..|abis| - 1], e);
    }
  }

  /** entries.extend(abi_dict[abi]) for each; a missing column value is a KeyError. */
  method Collect(table: Table, abis: seq<string>) returns (entries: Option<seq<Entry>>)
    ensures entries == if HasAll(table, abis) then Some(SortByNr(Concatenated(table, abis))) else None
  {
    var all := [];
    for i := 0 to |abis|
      invariant HasAll(table, abis[..i]) && all == Concatenated(table, abis[..i])
    {
      assert abis[..i + 1][..i] == abis[..i];
      if abis[i] !in table {
        return None;
      }
      all := all + table[abis[i]];
    }
    assert abis[..|abis|] == abis;
    return Some(SortByNr(all));
  }

  /** An ABI's list: whole when the architecture was parsed. */
  function Completed(parsed: Option<Table>, abis: seq<string>): Option<seq<Entry>>
    requires parsed.Some? ==> HasAll(parsed.value, abis)
  {
    if parsed.None? then None else Some(SortByNr(Concatenated(parsed.value, abis)))
  }

  predicate Complete(p: Parsed) {
    && (p.x86_32.Some? ==> "i386" in p.x86_32.value)
    && (p.x86_64.Some? ==> HasAll(p.x86_64.value, ["common", "64"]) && HasAll(p.x86_64.value, ["common", "x32"]))
    && (p.aarch64.Some? ==> HasAll(p.aarch64.value, AARCH64_ABIS))
  }

  method TransformABIs(p: Parsed) returns (abis: Option<Abis>)
    ensures abis.Some? <==> Complete(p)
    ensures abis.Some? ==>
      abis.value == Abis(if p.x86_32.Some? then Some(p.x86_32.value["i386"]) else None,
                         Completed(p.x86_64, ["common", "64"]), Completed(p.x86_64, ["common", "x32"]),
                         Completed(p.aarch64, ["64", "common", "renameat", "rlimit", "memfd_secret"]))
  {
    var r := Abis(None, None, None, None);
    if p.x86_32.Some? {
      if "i386" !in p.x86_32.value {
        return None;
      }
      r := r.(i386 := Some(p.x86_32.value["i386"]));
    }
    if p.x86_64.Some? {
      var x64 := Collect(p.x86_64.value, ["common", "64"]);
      var x32 := Collect(p.x86_64.value, ["common", "x32"]);
      if x64.None? || x32.None? {
        return None;
      }
      r := r.(x64 := x64, x32 := x32);
    }
    if p.aarch64.Some? {
      var entries := Collect(p.aarch64.value, AARCH64_ABIS);
      if entries.None? {
        return None;
      }
      r := r.(aarch64 := entries);
    }
    return Some(r);
  }
}
