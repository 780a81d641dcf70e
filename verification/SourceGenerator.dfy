// The C++ sources generated from the system call tables: enums, a name array, a
// name map and one switch per ABI (tools/parse_syscall_tables.py, class
// SourceGenerator), and what those sources mean to a C++ program.
module SourceGenerator {
  import opened Common
  import opened SyscallTable

  // ----- sorted(names)

  /** Strings compare by their first difference. */
  predicate Less(a: string, b: string) {
    b != [] && (a == [] || a[0] < b[0] || (a[0] == b[0] && Less(a[1..], b[1..])))
  }

  lemma {:induction false} LessTotal(a: string, b: string)
    ensures Less(a, b) || a == b || Less(b, a)
    ensures !(Less(a, b) && Less(b, a)) && !(Less(a, b) && a == b)
  {
    if a != [] && b != [] && a[0] == b[0] {
      LessTotal(a[1..], b[1..]);
      assert a == [a[0]] + a[1..] && b == [b[0]] + b[1..];
    }
  }

  lemma {:induction false} LessTransitive(a: string, b: string, c: string)
    requires Less(a, b) && Less(b, c)
    ensures Less(a, c)
  {
    if a != [] && a[0] == b[0] == c[0] { LessTransitive(a[1..], b[1..], c[1..]); }
  }

  function InsertName(n: string, names: seq<string>): (r: seq<string>)
    ensures forall s :: s in r <==> s == n || s in names
  {
    if names == [] then [n]
    else if n == names[0] then names
    else if Less(n, names[0]) then [n] + names
    else
      var r := [names[0]] + InsertName(n, names[1..]);
      assert names == [names[0]] + names[1..];
      r
  }

  ghost predicate Sorted(names: seq<string>) {
    forall i, j | 0 <= i < j < |names| :: Less(names[i], names[j])
  }

  lemma {:induction false} InsertSorted(n: string, names: seq<string>)
    requires Sorted(names)
    ensures Sorted(InsertName(n, names))
  {
    if names != [] {
      LessTotal(n, names[0]);
      if n == names[0] {
      } else if Less(n, names[0]) {
        forall j | 0 < j < |names| ensures Less(n, names[j]) { LessTransitive(n, names[0], names[j]); }
      } else {
        InsertSorted(n, names[1..]);
        var rest := InsertName(n, names[1..]);
        forall j | 0 <= j < |rest| ensures Less(names[0], rest[j]) {
          assert rest[j] in rest;
        }
      }
    }
  }

  /** recordSyscallNames(), and the order the writers go through its keys. */
  method RecordSyscallNames(tables: seq<seq<Entry>>) returns (names: seq<string>)
    ensures Sorted(names)
    ensures forall s :: s in names <==> exists t, e :: t in tables && e in t && e.name == s
  {
    names := [];
    for i := 0 to |tables|
      invariant Sorted(names)
      invariant forall s :: s in names <==> exists t, e :: t in tables[..i] && e in t && e.name == s
    {
      ghost var before := names;
      for j := 0 to |tables[i]|
        invariant Sorted(names)
        invariant forall s :: s in names <==> s in before || exists e :: e in tables[i][..j] && e.name == s
      {
        InsertSorted(tables[i][j].name, names);
        names := InsertName(tables[i][j].name, names);
        assert tables[i][..j + 1] == tables[i][..j] + [tables[i][j]];
      }
      assert tables[i][..|tables[i]|] == tables[i];
      assert tables[..i + 1] == tables[..i] + [tables[i]];
    }
    assert tables[..|tables|] == tables;
  }

  // ----- identifiers

  function UpperChar(c: char): char {
    if 'a' <= c <= 'z' then (c as int - 32) as char else c
  }

  function Upper(s: string): (r: string)
    ensures |r| == |s| && forall i | 0 <= i < |s| :: r[i] == UpperChar(s[i])
  {
    seq(|s|, i requires 0 <= i < |s| => UpperChar(s[i]))
  }

  const CLASHING := {"FUTEX_REQUEUE", "FUTEX_WAIT", "FUTEX_WAKE"}

  /** getSyscallIdent() */
  function Ident(name: string): string {
    if Upper(name) in CLASHING then "_" + Upper(name) else Upper(name)
  }

  /** Two names get the same identifier exactly if they differ at most in case;
      the prefix of the clashing ones takes no other's place. No name gets an
      identifier that the enums use for something else, but for "unknown". */
  lemma IdentExactly(a: string, b: string)
    requires IsBare(a) && IsBare(b)
    ensures Ident(a) == Ident(b) <==> Upper(a) == Upper(b)
    ensures Ident(a) == "UNKNOWN" <==> Upper(a) == "UNKNOWN"
    ensures Ident(a) != "_FIRST" && Ident(a) != "_LAST"
  {
    assert forall s: string {:trigger "_" + s} :: ("_" + s)[0] == '_' && ("_" + s)[1..] == s;
    assert Upper(a) != [] ==> Upper(a)[0] != '_';
    assert Upper(b) != [] ==> Upper(b)[0] != '_';
    if Upper(a) in CLASHING {
      assert |"_" + Upper(a)| > 8;
    }
  }

  /** A letter becomes the capital at its place in the alphabet, and everything
      else stays as it is. */
  predicate Capitalises(from: char, to: char) {
    if 'a' <= from <= 'z' then 'A' <= to <= 'Z' && from as int - 'a' as int == to as int - 'A' as int
    else to == from
  }

  /** An identifier is the name in capitals, after an underscore exactly for the
      names that system headers define as macros; no identifier is such a macro. */
  lemma IdentExpands(name: string)
    ensures var macro := Upper(name) in {"FUTEX_REQUEUE", "FUTEX_WAIT", "FUTEX_WAKE"};
      var n := if macro then 1 else 0;
      && |Ident(name)| == |name| + n
      && (macro ==> Ident(name)[0] == '_')
      && (forall i | 0 <= i < |name| :: Capitalises(name[i], Ident(name)[i + n]))
      && Ident(name) !in {"FUTEX_REQUEUE", "FUTEX_WAIT", "FUTEX_WAKE"}
  {
    forall i | 0 <= i < |name| ensures Capitalises(name[i], Upper(name)[i]) {
      assert Upper(name)[i] == UpperChar(name[i]);
    }
    assert "FUTEX_REQUEUE"[0] == 'F' && "FUTEX_WAIT"[0] == 'F' && "FUTEX_WAKE"[0] == 'F';
  }

  ghost predicate AllBare(names: seq<string>) { forall n | n in names :: IsBare(n) }

  /** The recorded names are bare, since those of the tables are. */
  lemma RecordedAreBare(tables: seq<seq<Entry>>, names: seq<string>)
    requires forall t, e | t in tables && e in t :: IsBare(e.name)
    requires forall s :: s in names <==> exists t, e :: t in tables && e in t && e.name == s
    ensures AllBare(names)
  {
    forall s | s in names ensures IsBare(s) {
      var t, e :| t in tables && e in t && e.name == s;
    }
  }

  /** Stripping the underscores is what makes this so: with them, two names of
      which one is a clashing one would share an identifier. */
  lemma UnderscoresWouldClash()
    ensures Ident("_futex_wait") == Ident("futex_wait")
  {
    assert Upper("futex_wait") == "FUTEX_WAIT";
    assert Upper("_futex_wait") == "_FUTEX_WAIT";
    assert "_FUTEX_WAIT"[0] == '_' && "FUTEX_WAIT"[0] == 'F';
  }

  // ----- what is written

  /** An enumerator with its value, a name map entry, and a case of a switch. */
  datatype Enumerator = Enumerator(ident: string, value: nat)
  datatype MapEntry = MapEntry(name: string, ident: string)
  datatype Case = Case(nativeIdent: string, ident: string)

  const X32_SYSCALL_BIT := 0x4000_0000

  /** getABISysNr() */
  function NativeNr(x32: bool, e: Entry): nat { if x32 then X32_SYSCALL_BIT + e.nr else e.nr }

  function Idents(names: seq<string>): (r: seq<string>)
    ensures |r| == |names| && forall i | 0 <= i < |names| :: r[i] == Ident(names[i])
  {
    seq(|names|, i requires 0 <= i < |names| => Ident(names[i]))
  }

  function Cases(entries: seq<Entry>): (r: seq<Case>)
    ensures |r| == |entries|
    ensures forall i | 0 <= i < |r| :: r[i] == Case(Ident(entries[i].name), Ident(entries[i].name))
  {
    seq(|entries|, i requires 0 <= i < |entries| => Case(Ident(entries[i].name), Ident(entries[i].name)))
  }

  function Enumerators(x32: bool, entries: seq<Entry>): (r: seq<Enumerator>)
    ensures |r| == |entries|
    ensures forall i | 0 <= i < |r| :: r[i] == Enumerator(Ident(entries[i].name), NativeNr(x32, entries[i]))
  {
    seq(|entries|, i requires 0 <= i < |entries| => Enumerator(Ident(entries[i].name), NativeNr(x32, entries[i])))
  }

  /** The generic enum: C++ numbers the enumerators from the first, UNKNOWN = 0. */
  function GenericEnum(names: seq<string>): seq<string> { ["UNKNOWN"] + Idents(names) }

  function NameArray(names: seq<string>): seq<string> { ["unknown"] + names }

  function NameMap(names: seq<string>): (r: seq<MapEntry>)
    ensures |r| == |names| && forall i | 0 <= i < |r| :: r[i] == MapEntry(names[i], Ident(names[i]))
  {
    seq(|names|, i requires 0 <= i < |names| => MapEntry(names[i], Ident(names[i])))
  }

  function AbiEnum(x32: bool, entries: seq<Entry>): seq<Enumerator>
    requires entries != []
  {
    var all := Enumerators(x32, entries);
    [Enumerator("_FIRST", all[0].value)] + all + [Enumerator("_LAST", all[|all| - 1].value)]
  }

  method WriteGenericHeader(names: seq<string>) returns (enumerators: seq<string>, count: nat)
    ensures enumerators == GenericEnum(names) && count == |NameArray(names)|
  {
    hide Ident;
    enumerators := ["UNKNOWN"];
    for i := 0 to |names|
      invariant enumerators == ["UNKNOWN"] + Idents(names)[..i]
    {
      enumerators := enumerators + [Ident(names[i])];
    }
    count := |names| + 1;
  }

  method WriteGenericUnit(names: seq<string>) returns (nameArray: seq<string>, nameMap: seq<MapEntry>)
    ensures nameArray == NameArray(names) && nameMap == NameMap(names)
  {
    hide Ident;
    nameArray := ["unknown"];
    for i := 0 to |names|
      invariant nameArray == ["unknown"] + names[..i]
    {
      nameArray := nameArray + [names[i]];
    }
    nameMap := [];
    for i := 0 to |names|
      invariant nameMap == NameMap(names)[..i]
    {
      nameMap := nameMap + [MapEntry(names[i], Ident(names[i]))];
    }
  }

  /** The enum of native numbers; after the loop the last number is still there. */
  method WriteABIHeader(x32: bool, table: seq<Entry>) returns (enumerators: seq<Enumerator>)
    requires table != []
    ensures enumerators == AbiEnum(x32, SortByNr(table))
  {
    hide Ident, NativeNr, SortByNr;
    var entries := SortByNr(table);
    assert |multiset(entries)| == |multiset(table)| > 0;
    ghost var all := Enumerators(x32, entries);
    enumerators := [];
    var first := true;
    var nr := 0;
    for i := 0 to |entries|
      invariant first == (i == 0)
      invariant i > 0 ==> nr == NativeNr(x32, entries[i - 1])
      invariant enumerators == WithFirst(all[..i])
    {
      assert all[..i + 1] == all[..i] + [all[i]];
      nr := NativeNr(x32, entries[i]);
      if first {
        enumerators := enumerators + [Enumerator("_FIRST", nr)];
        first := false;
      }
      enumerators := enumerators + [Enumerator(Ident(entries[i].name), nr)];
    }
    assert all[..|entries|] == all;
    enumerators := enumerators + [Enumerator("_LAST", nr)];
  }

  /** The enumerators after some turns of that loop. */
  function WithFirst(done: seq<Enumerator>): seq<Enumerator> {
    if done == [] then [] else [Enumerator("_FIRST", done[0].value)] + done
  }

  method WriteABIUnit(table: seq<Entry>) returns (cases: seq<Case>)
    ensures cases == Cases(SortByNr(table))
  {
    hide Ident, SortByNr;
    var entries := SortByNr(table);
    cases := [];
    for i := 0 to |entries|
      invariant cases == Cases(entries)[..i]
    {
      cases := cases + [Case(Ident(entries[i].name), Ident(entries[i].name))];
    }
  }

  // ----- what it means

  function ValueIn(enumerators: seq<Enumerator>, ident: string): Option<nat> {
    if enumerators == [] then None
    else if enumerators[0].ident == ident then Some(enumerators[0].value)
    else ValueIn(enumerators[1..], ident)
  }

  /** The position of a name or identifier; UNKNOWN's where there is none. */
  function PositionOf(s: string, list: seq<string>): (i: nat)
    ensures i < |list| ==> list[i] == s && forall k | 0 <= k < i :: list[k] != s
    ensures i == |list| ==> s !in list
    ensures i <= |list|
  {
    if list == [] || list[0] == s then 0 else 1 + PositionOf(s, list[1..])
  }

  const UNKNOWN := 0

  /** The generated to_generic(): the first case whose label has this number. */
  function ToGeneric(cases: seq<Case>, native: seq<Enumerator>, generic: seq<string>, nr: nat): nat {
    if cases == [] then UNKNOWN
    else if ValueIn(native, cases[0].nativeIdent) == Some(nr) then PositionOf(cases[0].ident, generic)
    else ToGeneric(cases[1..], native, generic, nr)
  }

  /** A lookup in SYSTEM_CALL_NAME_MAP. */
  function Lookup(nameMap: seq<MapEntry>, name: string): Option<string> {
    if nameMap == [] then None
    else if nameMap[0].name == name then Some(nameMap[0].ident)
    else Lookup(nameMap[1..], name)
  }

  ghost predicate DistinctNumbers(entries: seq<Entry>) {
    forall i, j | 0 <= i < j < |entries| :: entries[i].nr != entries[j].nr
  }

  /** Also without regard to case. */
  ghost predicate DistinctNames(entries: seq<Entry>) {
    forall i, j | 0 <= i < j < |entries| :: Upper(entries[i].name) != Upper(entries[j].name)
  }

  ghost predicate BareNames(entries: seq<Entry>) { forall e | e in entries :: IsBare(e.name) }

  ghost predicate CaseDiffers(names: seq<string>) {
    forall i, j | 0 <= i < j < |names| :: Upper(names[i]) != Upper(names[j])
  }

  /** No two of the names differ in case only, and none is "unknown". */
  ghost predicate Tellable(names: seq<string>) {
    && CaseDiffers(names)
    && (forall i | 0 <= i < |names| :: Upper(names[i]) != "UNKNOWN")
  }

  ghost predicate GoodNames(names: seq<string>) { Sorted(names) && AllBare(names) && Tellable(names) }

  // ----- whether the enums compile

  ghost predicate AllDiffer(s: seq<string>) { forall i, j | 0 <= i < j < |s| :: s[i] != s[j] }

  lemma FirstDiffers(x: string, s: seq<string>)
    ensures AllDiffer([x] + s) <==> x !in s && AllDiffer(s)
  {
    var all := [x] + s;
    assert forall i | 0 <= i < |s| :: all[i + 1] == s[i];
    if AllDiffer(all) {
      forall i, j | 0 <= i < j < |s| ensures s[i] != s[j] { assert all[i + 1] != all[j + 1]; }
      forall i | 0 <= i < |s| ensures s[i] != x { assert all[0] != all[i + 1]; }
    } else {
      var i, j :| 0 <= i < j < |all| && all[i] == all[j];
      assert all[j] == s[j - 1];
      if i > 0 { assert all[i] == s[i - 1]; }
    }
  }

  lemma LastDiffers(s: seq<string>, x: string)
    ensures AllDiffer(s + [x]) <==> x !in s && AllDiffer(s)
  {
    var all := s + [x];
    assert forall i | 0 <= i < |s| :: all[i] == s[i];
    if AllDiffer(all) {
      forall i | 0 <= i < |s| ensures s[i] != x { assert all[i] != all[|s|]; }
    }
  }

  lemma IdentsDiffer(names: seq<string>)
    requires AllBare(names)
    ensures AllDiffer(Idents(names)) <==> CaseDiffers(names)
    ensures "_FIRST" !in Idents(names) && "_LAST" !in Idents(names)
    ensures "UNKNOWN" in Idents(names) <==> exists i :: 0 <= i < |names| && Upper(names[i]) == "UNKNOWN"
  {
    hide Ident, Upper;
    forall i, j | 0 <= i < |names| && 0 <= j < |names|
      ensures Idents(names)[i] == Idents(names)[j] <==> Upper(names[i]) == Upper(names[j])
      ensures Idents(names)[i] == "UNKNOWN" <==> Upper(names[i]) == "UNKNOWN"
      ensures Idents(names)[i] != "_FIRST" && Idents(names)[i] != "_LAST"
    {
      assert names[i] in names && names[j] in names;
      IdentExactly(names[i], names[j]);
    }
  }

  /** The generic enum has no identifier twice, and so compiles, exactly if the
      names can be told apart without regard to case, from "unknown" too. */
  lemma GenericIdentifiersDifferExactly(names: seq<string>)
    requires AllBare(names)
    ensures AllDiffer(GenericEnum(names)) <==> Tellable(names)
  {
    hide Ident, Upper, AllDiffer;
    FirstDiffers("UNKNOWN", Idents(names));
    IdentsDiffer(names);
  }

  function Names(entries: seq<Entry>): (r: seq<string>)
    ensures |r| == |entries| && forall i | 0 <= i < |r| :: r[i] == entries[i].name
  {
    seq(|entries|, i requires 0 <= i < |entries| => entries[i].name)
  }

  function Labels(enumerators: seq<Enumerator>): (r: seq<string>)
    ensures |r| == |enumerators| && forall i | 0 <= i < |r| :: r[i] == enumerators[i].ident
  {
    seq(|enumerators|, i requires 0 <= i < |enumerators| => enumerators[i].ident)
  }

  /** A native enum has no identifier twice exactly if that ABI's names can. */
  lemma NativeIdentifiersDifferExactly(x32: bool, table: seq<Entry>)
    requires table != [] && BareNames(table)
    ensures AllDiffer(Labels(AbiEnum(x32, table))) <==> DistinctNames(table)
  {
    hide Ident, Upper, AllDiffer, NativeNr;
    var idents := Idents(Names(table));
    assert Labels(AbiEnum(x32, table)) == ["_FIRST"] + (idents + ["_LAST"]);
    FirstDiffers("_FIRST", idents + ["_LAST"]);
    LastDiffers(idents, "_LAST");
    IdentsDiffer(Names(table));
  }

  lemma SortedEnds(table: seq<Entry>)
    requires table != []
    ensures var sorted := SortByNr(table);
      && sorted != [] && sorted[0] in table && sorted[|sorted| - 1] in table
      && forall e | e in table :: sorted[0].nr <= e.nr <= sorted[|sorted| - 1].nr
  {
    hide SortByNr;
    var sorted := SortByNr(table);
    assert |multiset(sorted)| == |multiset(table)| > 0;
    SortAscending(table);
    assert sorted[0] in multiset(sorted) && sorted[|sorted| - 1] in multiset(sorted);
    forall e | e in table ensures sorted[0].nr <= e.nr <= sorted[|sorted| - 1].nr {
      assert e in multiset(sorted);
      var k :| 0 <= k < |sorted| && sorted[k] == e;
    }
  }

  /** The frame of a native enum: the least and the greatest number there is. */
  lemma FrameIsRange(x32: bool, table: seq<Entry>)
    requires table != []
    ensures SortByNr(table) != []
    ensures var native := AbiEnum(x32, SortByNr(table));
      var offset := if x32 then 0x4000_0000 else 0;
      && native[0].ident == "_FIRST" && native[|native| - 1].ident == "_LAST"
      && (exists e | e in table :: native[0].value == offset + e.nr)
      && (exists e | e in table :: native[|native| - 1].value == offset + e.nr)
      && (forall e | e in table :: native[0].value <= offset + e.nr <= native[|native| - 1].value)
  {
    hide Ident, SortByNr;
    SortedEnds(table);
    var sorted := SortByNr(table);
    var all := Enumerators(x32, sorted);
    assert AbiEnum(x32, sorted)[|all| + 1].value == all[|all| - 1].value;
  }

  // ----- positions, names and numbers

  /** The value of a generic enumerator is the position of its name in the array. */
  lemma EnumeratorIsPosition(names: seq<string>, k: nat)
    requires GoodNames(names) && k < |names|
    ensures PositionOf(Ident(names[k]), GenericEnum(names)) == k + 1
    ensures NameArray(names)[k + 1] == names[k]
  {
    hide Ident, Upper, Less, PositionOf, AllDiffer;
    GenericIdentifiersDifferExactly(names);
    assert GenericEnum(names)[k + 1] == Ident(names[k]);
    PositionIfDifferent(GenericEnum(names), k + 1);
  }

  lemma PositionIfDifferent(list: seq<string>, k: nat)
    requires AllDiffer(list) && k < |list|
    ensures PositionOf(list[k], list) == k
  {
    hide PositionOf;
    var p := PositionOf(list[k], list);
    assert list[k] in list;
  }

  lemma {:induction false} LookupFinds(names: seq<string>, k: nat)
    requires Sorted(names) && k < |names|
    ensures Lookup(NameMap(names), names[k]) == Some(Ident(names[k]))
    decreases |names|
  {
    if k > 0 {
      LessTotal(names[0], names[k]);
      assert NameMap(names)[1..] == NameMap(names[1..]);
      LookupFinds(names[1..], k - 1);
    }
  }

  lemma {:induction false} LookupOnlyNames(names: seq<string>, s: string)
    requires s !in names
    ensures Lookup(NameMap(names), s) == None
  {
    if names != [] {
      assert NameMap(names)[1..] == NameMap(names[1..]);
      LookupOnlyNames(names[1..], s);
    }
  }

  /** The name map inverts the name array. */
  lemma NameMapInvertsArray(names: seq<string>, s: string)
    requires GoodNames(names)
    ensures var ident := Lookup(NameMap(names), s);
      && (ident.Some? <==> s in names)
      && (ident.Some? ==> var v := PositionOf(ident.value, GenericEnum(names));
                          0 < v < |NameArray(names)| && NameArray(names)[v] == s)
  {
    if s in names {
      var k :| 0 <= k < |names| && names[k] == s;
      LookupFinds(names, k);
      EnumeratorIsPosition(names, k);
    } else {
      LookupOnlyNames(names, s);
    }
  }

  ghost predicate GoodTable(entries: seq<Entry>, names: seq<string>) {
    && DistinctNumbers(entries) && DistinctNames(entries)
    && GoodNames(names) && forall e | e in entries :: e.name in names
  }

  lemma {:induction false} ValueOfEntry(x32: bool, entries: seq<Entry>, k: nat, rest: seq<Enumerator>)
    requires DistinctNames(entries) && k < |entries| && BareNames(entries)
    ensures ValueIn(Enumerators(x32, entries) + rest, Ident(entries[k].name)) == Some(NativeNr(x32, entries[k]))
    decreases |entries|
  {
    var all := Enumerators(x32, entries) + rest;
    assert all[0] == Enumerator(Ident(entries[0].name), NativeNr(x32, entries[0]));
    if k > 0 {
      IdentExactly(entries[0].name, entries[k].name);
      assert all[1..] == Enumerators(x32, entries[1..]) + rest;
      ValueOfEntry(x32, entries[1..], k - 1, rest);
    }
  }

  lemma NativeValue(x32: bool, entries: seq<Entry>, k: nat)
    requires DistinctNames(entries) && k < |entries| && BareNames(entries)
    ensures ValueIn(AbiEnum(x32, entries), Ident(entries[k].name)) == Some(NativeNr(x32, entries[k]))
  {
    var all := Enumerators(x32, entries);
    var native := AbiEnum(x32, entries);
    var last := [Enumerator("_LAST", all[|all| - 1].value)];
    assert native[1..] == all + last;
    assert native[0].ident == "_FIRST";
    IdentExactly(entries[k].name, entries[k].name);
    ValueOfEntry(x32, entries, k, last);
  }

  /** The generic number g stands for the entry's name. */
  predicate Means(names: seq<string>, g: nat, e: Entry) {
    0 < g < |NameArray(names)| && NameArray(names)[g] == e.name
  }

  lemma IdentMeans(names: seq<string>, e: Entry)
    requires GoodNames(names) && e.name in names
    ensures Means(names, PositionOf(Ident(e.name), GenericEnum(names)), e)
  {
    hide Ident, Less, GenericEnum, PositionOf;
    var i :| 0 <= i < |names| && names[i] == e.name;
    EnumeratorIsPosition(names, i);
  }

  /** One case of the switch. */
  lemma CaseMeans(x32: bool, entries: seq<Entry>, names: seq<string>, j: nat, nr: nat)
    requires GoodTable(entries, names) && entries != [] && j < |entries|
    ensures var (cases, native, generic) := (Cases(entries), AbiEnum(x32, entries), GenericEnum(names));
      var g := ToGeneric(cases[j..], native, generic, nr);
      if NativeNr(x32, entries[j]) == nr then Means(names, g, entries[j])
      else g == ToGeneric(cases[j + 1..], native, generic, nr)
  {
    hide Ident, Less, AbiEnum, GenericEnum, DistinctNames, Sorted, NativeNr, PositionOf, Means;
    assert Cases(entries)[j..][1..] == Cases(entries)[j + 1..];
    assert entries[j] in entries;
    NativeValue(x32, entries, j);
    IdentMeans(names, entries[j]);
  }

  /** Where the switch ends up from its j-th case on. */
  lemma {:induction false} SwitchFrom(x32: bool, entries: seq<Entry>, names: seq<string>, j: nat, nr: nat)
    requires GoodTable(entries, names) && entries != [] && j <= |entries|
    ensures var g := ToGeneric(Cases(entries)[j..], AbiEnum(x32, entries), GenericEnum(names), nr);
      && (forall k | j <= k < |entries| && NativeNr(x32, entries[k]) == nr :: Means(names, g, entries[k]))
      && ((forall k | j <= k < |entries| :: NativeNr(x32, entries[k]) != nr) ==> g == UNKNOWN)
    decreases |entries| - j
  {
    if j < |entries| {
      hide AbiEnum, GenericEnum, DistinctNames, GoodNames, NativeNr, Means, ToGeneric;
      CaseMeans(x32, entries, names, j, nr);
      SwitchFrom(x32, entries, names, j + 1, nr);
      forall k | j < k < |entries| && NativeNr(x32, entries[j]) == nr ensures NativeNr(x32, entries[k]) != nr {
        DifferentNumbers(x32, entries, j, k);
      }
    }
  }

  lemma DifferentNumbers(x32: bool, entries: seq<Entry>, j: nat, k: nat)
    requires DistinctNumbers(entries) && j < k < |entries|
    ensures NativeNr(x32, entries[j]) != NativeNr(x32, entries[k])
  {}

  lemma {:induction false} PermutationOf(a: seq<Entry>, b: seq<Entry>, names: seq<string>)
    requires multiset(a) == multiset(b) && GoodTable(a, names)
    ensures GoodTable(b, names)
  {
    forall e | e in b ensures e.name in names {
      assert e in multiset(b);
      assert e in a;
    }
    forall i, j | 0 <= i < j < |b| ensures b[i].nr != b[j].nr && Upper(b[i].name) != Upper(b[j].name) {
      DifferentInA(a, b, i, j);
    }
  }

  lemma OccursOnce(a: seq<Entry>, k: nat)
    requires DistinctNumbers(a) && k < |a|
    ensures multiset(a)[a[k]] == 1
  {
    assert a == a[..k] + [a[k]] + a[k + 1..];
    assert a[k] !in a[..k] && a[k] !in a[k + 1..];
  }

  lemma OccursTwice(b: seq<Entry>, i: nat, j: nat)
    requires i < j < |b| && b[i] == b[j]
    ensures multiset(b)[b[i]] >= 2
  {
    assert b == b[..i] + [b[i]] + b[i + 1..j] + [b[j]] + b[j + 1..];
  }

  lemma DifferentInA(a: seq<Entry>, b: seq<Entry>, i: nat, j: nat)
    requires multiset(a) == multiset(b) && DistinctNumbers(a) && DistinctNames(a) && i < j < |b|
    ensures b[i].nr != b[j].nr && Upper(b[i].name) != Upper(b[j].name)
  {
    assert b[i] in multiset(b) && b[j] in multiset(b);
    var k :| 0 <= k < |a| && a[k] == b[i];
    var l :| 0 <= l < |a| && a[l] == b[j];
    OccursOnce(a, k);
    if b[i] == b[j] { OccursTwice(b, i, j); }
  }

  /** Main result, for every table with distinct numbers and names per ABI, in
      whatever order the file has them: to_generic() takes each native number to
      the value under which the name array holds that entry's name, and every
      other number to UNKNOWN. */
  lemma ToGenericIsRight(x32: bool, table: seq<Entry>, names: seq<string>)
    requires GoodTable(table, names) && table != []
    ensures var sorted := SortByNr(table);
      && sorted != []
      && (forall e | e in table ::
            var nr := if x32 then 0x4000_0000 + e.nr else e.nr;
            var g := ToGeneric(Cases(sorted), AbiEnum(x32, sorted), GenericEnum(names), nr);
            0 < g <= |names| && (["unknown"] + names)[g] == e.name)
      && (forall nr: nat | (forall e | e in table :: nr != if x32 then 0x4000_0000 + e.nr else e.nr) ::
            ToGeneric(Cases(sorted), AbiEnum(x32, sorted), GenericEnum(names), nr) == 0)
    ensures NameArray(names)[0] == "unknown" && GenericEnum(names)[0] == "UNKNOWN"
  {
    var sorted := SortByNr(table);
    assert |multiset(sorted)| == |multiset(table)| > 0;
    PermutationOf(table, sorted, names);
    assert Cases(sorted)[0..] == Cases(sorted);
    forall e | e in table
      ensures var nr := if x32 then 0x4000_0000 + e.nr else e.nr;
        var g := ToGeneric(Cases(sorted), AbiEnum(x32, sorted), GenericEnum(names), nr);
        0 < g <= |names| && (["unknown"] + names)[g] == e.name
    {
      assert e in multiset(sorted);
      var k :| 0 <= k < |sorted| && sorted[k] == e;
      SwitchFrom(x32, sorted, names, 0, NativeNr(x32, e));
    }
    forall nr: nat | (forall e | e in table :: nr != if x32 then 0x4000_0000 + e.nr else e.nr)
      ensures ToGeneric(Cases(sorted), AbiEnum(x32, sorted), GenericEnum(names), nr) == UNKNOWN
    {
      forall k | 0 <= k < |sorted| ensures NativeNr(x32, sorted[k]) != nr {
        assert sorted[k] in multiset(sorted);
        assert sorted[k] in table;
      }
      SwitchFrom(x32, sorted, names, 0, nr);
    }
  }
}
