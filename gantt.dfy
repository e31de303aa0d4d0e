/** The timeline text of src/utils.cpp: the colour a label is drawn in (`color`) and the CSV
    that `export_gantt_csv` writes. Both work on `std::string`, that is signed bytes. */
module Gantt {
  import opened CText

  datatype Option<T> = None | Some(value: T)

  const Esc: CChar := 27
  const LetterM: CChar := 109

  /** The labels `color` treats specially. */
  function Idle(): CString { Lit("IDLE") }
  function ContextSwitch(): CString { Lit("CS") }

  /* ---------------------------------------------------------------------------------------- */
  /* Colour.                                                                                  */

  /** C++'s `a % 6`: the remainder takes the sign of `a`, unlike Dafny's `%`, but leaves the same
      residue. */
  function CRem6(a: int): (r: int)
    ensures -6 < r < 6 && r % 6 == a % 6
    ensures (a >= 0 ==> r >= 0) && (a <= 0 ==> r <= 0)
  {
    if a >= 0 then a % 6 else -((-a) % 6)
  }

  /** `hash` after the loop of src/utils.cpp:39 has consumed `pid`. */
  function Hash(pid: CString): (h: int)
    ensures -6 < h < 6
  {
    if pid == [] then 0 else CRem6(Hash(pid[..|pid| - 1]) + pid[|pid| - 1])
  }

  /** The `switch (hash)`: cases 0..4 select 31..35; anything else, negative values included,
      falls to the default 36. */
  function Bucket(h: int): nat {
    if 0 <= h <= 4 then 31 + h else 36
  }

  /** The SGR colour number for a label: grey for IDLE and white for CS before any hashing,
      otherwise the bucket of the hash. */
  function Code(pid: CString): nat {
    if pid == Idle() then 90 else if pid == ContextSwitch() then 37 else Bucket(Hash(pid))
  }

  /** The escape sequence `ESC [ <code> m`. */
  function Sgr(code: nat): CString {
    [Esc] + Lit("[") + Decimal(code) + Lit("m")
  }

  function Reset(): CString { Sgr(0) }

  /** What `color` returns: the label wrapped in its colour and the reset sequence. */
  function Colored(pid: CString): CString {
    Sgr(Code(pid)) + pid + Reset()
  }

  /** The two fixed strings of `color` are the special labels in their colours. */
  lemma SpecialLiterals()
    ensures [Esc] + Lit("[90mIDLE") + [Esc] + Lit("[0m") == Colored(Idle())
    ensures [Esc] + Lit("[37mCS") + [Esc] + Lit("[0m") == Colored(ContextSwitch())
  {
    ResetLiteral();
    IdleLiteral();
    CsLiteral();
  }

  lemma ResetLiteral()
    ensures [Esc] + Lit("[0m") == Reset()
  {
    assert Decimal(0) == [48];
  }

  lemma IdleLiteral()
    ensures [Esc] + Lit("[90mIDLE") == Sgr(90) + Idle()
  {
    assert Decimal(90) == [57, 48];
  }

  lemma CsLiteral()
    ensures [Esc] + Lit("[37mCS") == Sgr(37) + ContextSwitch()
  {
    assert Decimal(37) == [51, 55];
  }

  /** The escape sequences of the `switch` are the SGR sequences for 31..36 and 0. */
  lemma ColorLiterals()
    ensures [Esc] + Lit("[31m") == Sgr(31) && [Esc] + Lit("[32m") == Sgr(32)
    ensures [Esc] + Lit("[33m") == Sgr(33) && [Esc] + Lit("[34m") == Sgr(34)
    ensures [Esc] + Lit("[35m") == Sgr(35) && [Esc] + Lit("[36m") == Sgr(36)
    ensures [Esc] + Lit("[0m") == Reset()
  {
    assert Decimal(31) == [51, 49];
    assert Decimal(32) == [51, 50];
    assert Decimal(33) == [51, 51];
    assert Decimal(34) == [51, 52];
    assert Decimal(35) == [51, 53];
    assert Decimal(36) == [51, 54];
    assert Decimal(0) == [48];
  }

  /** `color` as the source writes it: the two special labels first, then the fold and the
      `switch`. `Sgr(n)` is the source's `"\033[<n>m"` (`SpecialLiterals`, `ColorLiterals`). */
  method Color(pid: CString) returns (r: CString)
    ensures r == Colored(pid)
  {
    if pid == Idle() {
      return Sgr(90) + Idle() + Reset();
    }
    if pid == ContextSwitch() {
      return Sgr(37) + ContextSwitch() + Reset();
    }
    var hash := 0;
    for i := 0 to |pid|
      invariant hash == Hash(pid[..i])
    {
      assert pid[..i + 1][..i] == pid[..i];
      hash := CRem6(hash + pid[i]);
    }
    assert pid[..|pid|] == pid;
    var prefix: CString;
    if hash == 0 {
      prefix := Sgr(31);
    } else if hash == 1 {
      prefix := Sgr(32);
    } else if hash == 2 {
      prefix := Sgr(33);
    } else if hash == 3 {
      prefix := Sgr(34);
    } else if hash == 4 {
      prefix := Sgr(35);
    } else {
      prefix := Sgr(36);
    }
    r := prefix + pid + Reset();
  }

  /** Every label gets one of the eight colours. */
  lemma CodeRange(pid: CString)
    ensures 31 <= Code(pid) <= 37 || Code(pid) == 90
    ensures Code(pid) == 37 ==> pid == ContextSwitch()
    ensures Code(pid) == 90 <==> pid == Idle()
  {
  }

  function Sum(pid: CString): int {
    if pid == [] then 0 else Sum(pid[..|pid| - 1]) + pid[|pid| - 1]
  }

  /** For labels of non-negative bytes, folding `(hash + c) % 6` is the byte sum modulo 6. */
  lemma {:induction false} HashOfNonNegative(pid: CString)
    requires forall i :: 0 <= i < |pid| ==> pid[i] >= 0
    ensures Hash(pid) == Sum(pid) % 6 && Sum(pid) >= 0
  {
    if pid != [] {
      var init := pid[..|pid| - 1];
      HashOfNonNegative(init);
      var c := pid[|pid| - 1];
      ModSixAdd(Sum(init), c);
    }
  }

  /** Reducing the left operand modulo 6 first does not change a sum modulo 6. */
  lemma ModSixAdd(s: int, c: int)
    ensures (s % 6 + c) % 6 == (s + c) % 6
  {
    assert s == 6 * (s / 6) + s % 6;
    assert s + c == (s % 6 + c) + 6 * (s / 6);
  }

  /** So a label of non-negative bytes other than IDLE and CS is coloured 31 + (byte sum mod 6). */
  lemma CodeOfNonNegative(pid: CString)
    requires forall i :: 0 <= i < |pid| ==> pid[i] >= 0
    requires pid != Idle() && pid != ContextSwitch()
    ensures Code(pid) == 31 + Sum(pid) % 6
  {
    HashOfNonNegative(pid);
  }

  /** A label other than IDLE and CS whose folded hash is negative gets the default colour. */
  lemma NegativeHashTakesDefault(pid: CString)
    requires pid != Idle() && pid != ContextSwitch() && Hash(pid) < 0
    ensures Code(pid) == 36
  {
  }

  /** A byte above 0x7F is negative as a `char`, and a negative hash falls to the default
      colour: the single byte 0xC2 gets 36, where its byte sum modulo 6 would give 35. */
  lemma NegativeByteTakesDefault()
    ensures Hash([-62]) == -2 && Code([-62]) == 36 && 31 + Sum([-62]) % 6 == 35
  {
    assert Hash([-62]) == CRem6(Hash([]) + -62);
  }

  /** Reads a label back: drops everything up to the first `m` and the trailing reset. */
  function Uncolor(s: CString): Option<CString> {
    var k := IndexOf(s, LetterM);
    if k < |s| && |s| - (k + 1) >= |Reset()| && s[|s| - |Reset()|..] == Reset()
    then Some(s[k + 1..|s| - |Reset()|])
    else None
  }

  /** `color` keeps the label text: it can be read back from the coloured string. */
  lemma ColorRoundTrip(pid: CString)
    ensures Uncolor(Colored(pid)) == Some(pid)
  {
    var a := [Esc] + Lit("[") + Decimal(Code(pid));
    var b := pid + Reset();
    assert Colored(pid) == a + [LetterM] + b;
    IndexOfAfter(a, LetterM, b);
    var s := Colored(pid);
    assert s[|s| - |Reset()|..] == Reset();
    assert s[|a| + 1..|s| - |Reset()|] == pid;
  }

  /* ---------------------------------------------------------------------------------------- */
  /* The timeline CSV.                                                                         */

  function Header(): CString { Lit("time,pid\n") }

  /** The line written for timeline entry `t`. */
  function Row(t: nat, entry: CString): CString {
    Decimal(t) + [Comma] + entry + [Newline]
  }

  /** The lines for the entries `g`, numbered from `t`. */
  function Rows(g: seq<CString>, t: nat): CString {
    if g == [] then [] else Row(t, g[0]) + Rows(g[1..], t + 1)
  }

  /** The whole file: the header, then one row per entry numbered from 0. */
  function GanttCsv(g: seq<CString>): CString {
    Header() + Rows(g, 0)
  }

  lemma {:induction false} RowsSnoc(g: seq<CString>, t: nat, entry: CString)
    ensures Rows(g + [entry], t) == Rows(g, t) + Row(t + |g|, entry)
  {
    if g != [] {
      assert (g + [entry])[1..] == g[1..] + [entry];
      RowsSnoc(g[1..], t + 1, entry);
    }
  }

  /** The text `export_gantt_csv` sends to the file, built row by row in timeline order. */
  method ExportGanttCsv(g: seq<CString>) returns (text: CString)
    ensures text == GanttCsv(g)
  {
    text := Lit("time,pid\n");
    for t := 0 to |g|
      invariant text == Header() + Rows(g[..t], 0)
    {
      RowsSnoc(g[..t], 0, g[t]);
      assert g[..t + 1] == g[..t] + [g[t]];
      text := text + Decimal(t) + [Comma] + g[t] + [Newline];
    }
    assert g[..|g|] == g;
  }

  predicate AllDigits(s: CString) {
    forall i :: 0 <= i < |s| ==> IsDigit(s[i])
  }

  /** Reads rows numbered from `t` until the text ends; each must be `<t>,<label>\n`. */
  function ParseRows(s: CString, t: nat): Option<seq<CString>>
    decreases |s|
  {
    if s == [] then Some([])
    else
      var k := IndexOf(s, Newline);
      if k == |s| then None
      else
        var line := s[..k];
        var c := IndexOf(line, Comma);
        if c == |line| || !AllDigits(line[..c]) || DecimalValue(line[..c]) != t then None
        else
          match ParseRows(s[k + 1..], t + 1)
          case None => None
          case Some(rest) => Some([line[c + 1..]] + rest)
  }

  function ParseGanttCsv(s: CString): Option<seq<CString>> {
    if |s| >= |Header()| && s[..|Header()|] == Header() then ParseRows(s[|Header()|..], 0) else None
  }

  predicate NoNewline(entry: CString) {
    forall i :: 0 <= i < |entry| ==> entry[i] != Newline
  }

  /** Parsing a row numbered `t` yields its entry, followed by what the rest parses to. */
  lemma RowRoundTrip(t: nat, entry: CString, rest: CString)
    requires NoNewline(entry)
    ensures ParseRows(Row(t, entry) + rest, t)
         == match ParseRows(rest, t + 1)
            case None => None
            case Some(entries) => Some([entry] + entries)
  {
    var d := Decimal(t);
    var s := Row(t, entry) + rest;
    var line := d + [Comma] + entry;
    assert s == line + [Newline] + rest;
    IndexOfAfter(line, Newline, rest);
    assert s[..|line|] == line;
    assert s[|line| + 1..] == rest;
    IndexOfAfter(d, Comma, entry);
    assert line[..|d|] == d;
    assert line[|d| + 1..] == entry;
    DecimalRoundTrip(t);
  }

  lemma {:induction false} RowsRoundTrip(g: seq<CString>, t: nat)
    requires forall j :: 0 <= j < |g| ==> NoNewline(g[j])
    ensures ParseRows(Rows(g, t), t) == Some(g)
  {
    if g != [] {
      assert Rows(g, t) == Row(t, g[0]) + Rows(g[1..], t + 1);
      assert g == [g[0]] + g[1..];
      RowRoundTrip(t, g[0], Rows(g[1..], t + 1));
      RowsRoundTrip(g[1..], t + 1);
    }
  }

  /** The CSV holds exactly the timeline: parsing it gives back every entry, in order, with
      rows numbered from 0, provided no entry contains a line break. */
  lemma GanttCsvRoundTrip(g: seq<CString>)
    requires forall j :: 0 <= j < |g| ==> NoNewline(g[j])
    ensures ParseGanttCsv(GanttCsv(g)) == Some(g)
  {
    var s := GanttCsv(g);
    assert s[..|Header()|] == Header();
    assert s[|Header()|..] == Rows(g, 0);
    RowsRoundTrip(g, 0);
  }
}
