// How the terminal tracer prints a call's parameters in two halves: the inputs
// up to the first non-input on entry, the rest on exit
// (src/termtracer/TermTracer.cxx).
module ParameterPrinting {
  datatype Par = Par(text: string, used: bool, isIn: bool)

  const COMMA := ", "

  predicate IsLast(pars: seq<Par>, i: nat) { i == |pars| - 1 }

  /** A parameter as both loops print it. */
  function Printed(pars: seq<Par>, i: nat): string
    requires i < |pars|
  {
    pars[i].text + if IsLast(pars, i) then "" else COMMA
  }

  function EntryFrom(pars: seq<Par>, i: nat): string
    requires i <= |pars|
    decreases |pars| - i
  {
    if i == |pars| then ""
    else if !pars[i].used then EntryFrom(pars, i + 1)
    else if !pars[i].isIn then ""
    else Printed(pars, i) + EntryFrom(pars, i + 1)
  }

  function ExitFrom(pars: seq<Par>, i: nat, seenNonInput: bool): string
    requires i <= |pars|
    decreases |pars| - i
  {
    if i == |pars| then ""
    else if !pars[i].used || (!seenNonInput && pars[i].isIn) then ExitFrom(pars, i + 1, seenNonInput)
    else Printed(pars, i) + ExitFrom(pars, i + 1, true)
  }

  method PrintParsOnEntry(pars: seq<Par>) returns (trace: string)
    ensures trace == EntryFrom(pars, 0)
  {
    trace := "";
    for i := 0 to |pars|
      invariant trace + EntryFrom(pars, i) == EntryFrom(pars, 0)
    {
      if !pars[i].used {
        continue;
      } else if !pars[i].isIn {
        break;
      }
      trace := trace + pars[i].text;
      if !IsLast(pars, i) { trace := trace + COMMA; }
    }
  }

  method PrintParsOnExit(pars: seq<Par>) returns (trace: string)
    ensures trace == ExitFrom(pars, 0, false)
  {
    trace := "";
    var seenNonInput := false;
    for i := 0 to |pars|
      invariant trace + ExitFrom(pars, i, seenNonInput) == ExitFrom(pars, 0, false)
    {
      if !pars[i].used {
        continue;
      } else if !seenNonInput {
        if pars[i].isIn { continue; }
        seenNonInput := true;
      }
      trace := trace + pars[i].text;
      if !IsLast(pars, i) { trace := trace + COMMA; }
    }
  }

  /** The texts of the used parameters from the i-th on, in order. */
  function Used(pars: seq<Par>, i: nat): seq<string>
    requires i <= |pars|
    decreases |pars| - i
  {
    if i == |pars| then []
    else (if pars[i].used then [pars[i].text] else []) + Used(pars, i + 1)
  }

  function Join(texts: seq<string>): string {
    if texts == [] then "" else if |texts| == 1 then texts[0] else texts[0] + COMMA + Join(texts[1..])
  }

  /** What both halves print together, from the i-th parameter on. */
  function Whole(pars: seq<Par>, i: nat): string
    requires i <= |pars|
    decreases |pars| - i
  {
    if i == |pars| then ""
    else (if pars[i].used then Printed(pars, i) else "") + Whole(pars, i + 1)
  }

  lemma {:induction false} RestOnExit(pars: seq<Par>, i: nat)
    requires i <= |pars|
    ensures ExitFrom(pars, i, true) == Whole(pars, i)
    decreases |pars| - i
  {
    if i < |pars| { RestOnExit(pars, i + 1); }
  }

  lemma {:induction false} HalvesMakeWhole(pars: seq<Par>, i: nat)
    requires i <= |pars|
    ensures EntryFrom(pars, i) + ExitFrom(pars, i, false) == Whole(pars, i)
    decreases |pars| - i
  {
    if i < |pars| {
      if pars[i].used && !pars[i].isIn {
        RestOnExit(pars, i + 1);
      } else {
        HalvesMakeWhole(pars, i + 1);
        assert (Printed(pars, i) + EntryFrom(pars, i + 1)) + ExitFrom(pars, i + 1, false)
            == Printed(pars, i) + (EntryFrom(pars, i + 1) + ExitFrom(pars, i + 1, false));
      }
    }
  }

  /** The first parameter whose value is not known before the call was made. */
  predicate IsSplit(pars: seq<Par>, n: nat) {
    && n <= |pars| && (n < |pars| ==> pars[n].used && !pars[n].isIn)
    && forall k | 0 <= k < n && pars[k].used :: pars[k].isIn
  }

  /** The used parameters from the i-th up to the n-th, each with its comma. */
  function Between(pars: seq<Par>, i: nat, n: nat): string
    requires i <= n <= |pars|
    decreases n - i
  {
    if i == n then ""
    else (if pars[i].used then pars[i].text + (if i + 1 < |pars| then ", " else "") else "") + Between(pars, i + 1, n)
  }

  lemma {:induction false} HalvesFrom(pars: seq<Par>, i: nat, n: nat)
    requires IsSplit(pars, n) && i <= n
    ensures EntryFrom(pars, i) == Between(pars, i, n)
    ensures ExitFrom(pars, i, false) == Between(pars, n, |pars|)
    decreases n - i
  {
    if i < n {
      HalvesFrom(pars, i + 1, n);
    } else if n < |pars| {
      RestIsBetween(pars, n + 1);
    }
  }

  lemma {:induction false} RestIsBetween(pars: seq<Par>, i: nat)
    requires i <= |pars|
    ensures ExitFrom(pars, i, true) == Between(pars, i, |pars|)
    decreases |pars| - i
  {
    if i < |pars| { RestIsBetween(pars, i + 1); }
  }

  /** Entry prints exactly what comes before the first used non-input, and exit
      prints exactly the rest. */
  lemma SplitAtFirstNonInput(pars: seq<Par>, n: nat)
    requires IsSplit(pars, n)
    ensures EntryFrom(pars, 0) == Between(pars, 0, n)
    ensures ExitFrom(pars, 0, false) == Between(pars, n, |pars|)
  {
    HalvesFrom(pars, 0, n);
  }

  predicate LastUsed(pars: seq<Par>) { pars != [] && pars[|pars| - 1].used }

  lemma {:induction false} WholeIsJoined(pars: seq<Par>, i: nat)
    requires i <= |pars|
    ensures Whole(pars, i)
         == Join(Used(pars, i)) + if i < |pars| && !LastUsed(pars) && Used(pars, i) != [] then COMMA else ""
    ensures i < |pars| && LastUsed(pars) ==> Used(pars, i) != []
    decreases |pars| - i
  {
    if i < |pars| {
      WholeIsJoined(pars, i + 1);
      if pars[i].used {
        var (text, rest) := (pars[i].text, Join(Used(pars, i + 1)));
        var tail := if !LastUsed(pars) && Used(pars, i + 1) != [] then COMMA else "";
        assert Used(pars, i) == [text] + Used(pars, i + 1) && Used(pars, i)[1..] == Used(pars, i + 1);
        if IsLast(pars, i) {
          assert Whole(pars, i) == text == Join(Used(pars, i));
        } else if Used(pars, i + 1) == [] {
          assert Whole(pars, i) == text + COMMA == Join(Used(pars, i)) + COMMA;
        } else {
          assert (text + COMMA) + (rest + tail) == (text + COMMA + rest) + tail;
        }
      } else {
        assert Whole(pars, i) == Whole(pars, i + 1) && Used(pars, i) == Used(pars, i + 1);
      }
    }
  }

  /** Entry and exit output together are the comma separated list of all used
      parameters, each once and in order, exactly if the last parameter is used
      or none is; otherwise a comma is left over. */
  lemma SplitPrinting(pars: seq<Par>)
    ensures var both := EntryFrom(pars, 0) + ExitFrom(pars, 0, false);
      && (both == Join(Used(pars, 0)) <==> LastUsed(pars) || Used(pars, 0) == [])
      && (both != Join(Used(pars, 0)) ==> both == Join(Used(pars, 0)) + COMMA)
  {
    HalvesMakeWhole(pars, 0);
    WholeIsJoined(pars, 0);
    assert |Join(Used(pars, 0)) + COMMA| > |Join(Used(pars, 0))|;
  }
}
