/**
 * prettierr/hex_formatter.go: the parts of the hex formatter that compute text.
 *
 * A hex dump line shows up to 16 bytes as two upper-case hex digits each, with
 * an extra space before byte 8, then "| " and a gutter with one glyph per byte.
 * putHex cuts its input into 16-byte chunks and prints one such line per chunk;
 * the breadcrumb section lists the crumbs from the last one down to the first.
 * Output goes to a writer in the source; here every printed line is a string and
 * a section is the sequence of its lines.
 */
module HexFormatter {

  /** DefaultIndent of prettierr/text_formatter.go. */
  const DefaultIndent: string := "  "

  /** hexChars. */
  const HexDigits: string := "0123456789ABCDEF"

  /** The formatter and its configured indentation. */
  datatype HexFormatter = HexFormatter(indent: string)
  {
    /** getIndent: the configured indentation, or the default one when none is set. */
    function GetIndent(): (r: string)
      ensures |r| > 0
      ensures |indent| > 0 ==> r == indent
      ensures |indent| == 0 ==> r == DefaultIndent
    {
      if |indent| == 0 then DefaultIndent else indent
    }
  }

  // ---------------------------------------------------------------------------
  // One hex dump line (makeHexString)
  // ---------------------------------------------------------------------------

  /** The high nibble of b as a hex digit. */
  function High(b: bv8): char {
    HexDigits[((b & 0xF0) >> 4) as int]
  }

  /** The low nibble of b as a hex digit. */
  function Low(b: bv8): char {
    HexDigits[(b & 0x0F) as int]
  }

  /** The extra space written before slot 8 of each half. */
  function Gap(i: nat): string {
    if i == 8 then " " else ""
  }

  /** Hex slot i: two digits and a space for a byte that is there, three spaces otherwise. */
  function Slot(p: seq<bv8>, i: nat): string {
    if i < |p| then [High(p[i]), Low(p[i]), ' '] else "   "
  }

  /** The gutter glyph of byte b: a dot for control bytes below 0x20, the byte itself otherwise. */
  function Glyph(b: bv8): char {
    if b < 0x20 then '.' else (b as int) as char
  }

  /** Gutter slot i: the glyph of a byte that is there, a space otherwise. */
  function GutterSlot(p: seq<bv8>, i: nat): string {
    if i < |p| then [Glyph(p[i])] else " "
  }

  /** The hex half after slots 0 .. n-1. */
  function HexSlots(p: seq<bv8>, n: nat): (h: string)
    requires n <= 16
    ensures |h| == 3 * n + (if n > 8 then 1 else 0)
  {
    if n == 0 then "" else HexSlots(p, n - 1) + Gap(n - 1) + Slot(p, n - 1)
  }

  /** The gutter after slots 0 .. n-1. */
  function GutterSlots(p: seq<bv8>, n: nat): (g: string)
    requires n <= 16
    ensures |g| == n + (if n > 8 then 1 else 0)
  {
    if n == 0 then "" else GutterSlots(p, n - 1) + Gap(n - 1) + GutterSlot(p, n - 1)
  }

  /** The whole line makeHexString builds: 68 characters whatever the input, 49 hex, "| ", 17 gutter. */
  function HexLine(p: seq<bv8>): (line: string)
    ensures |line| == 68
  {
    HexSlots(p, 16) + "| " + GutterSlots(p, 16)
  }

  /** Where hex slot i starts in the line. */
  function HexOffset(i: nat): nat {
    3 * i + (if i >= 8 then 1 else 0)
  }

  /** Where gutter slot i sits in the line. */
  function GutterOffset(i: nat): nat {
    51 + i + (if i >= 8 then 1 else 0)
  }

  /** makeHexString, with its two loops over the 16 slots. */
  method MakeHexString(p: seq<bv8>) returns (s: string)
    ensures s == HexLine(p)
  {
    var l := |p|;
    s := "";
    for i := 0 to 16
      invariant s == HexSlots(p, i)
    {
      ghost var before := s;
      if i == 8 {
        s := s + " ";
      }
      if i < l {
        var b := p[i];
        s := s + [HexDigits[((b & 0xF0) >> 4) as int]];
        s := s + [HexDigits[(b & 0x0F) as int]];
        s := s + " ";
        assert s == before + Gap(i) + [High(b), Low(b), ' '];
      } else {
        s := s + "   ";
      }
      assert s == before + Gap(i) + Slot(p, i);
    }
    s := s + "| ";
    for i := 0 to 16
      invariant s == HexSlots(p, 16) + "| " + GutterSlots(p, i)
    {
      ghost var before := s;
      if i == 8 {
        s := s + " ";
      }
      if i < l {
        var b := p[i];
        if b < 0x20 {
          s := s + ".";
        } else {
          s := s + [(b as int) as char];
        }
      } else {
        s := s + " ";
      }
      assert s == before + Gap(i) + GutterSlot(p, i);
    }
  }

  /** A shorter run of slots is a prefix of a longer one. */
  lemma {:induction false} HexSlotsGrow(p: seq<bv8>, n: nat, m: nat)
    requires n <= m <= 16
    ensures HexSlots(p, n) <= HexSlots(p, m)
  {
    if n < m {
      HexSlotsGrow(p, n, m - 1);
    }
  }

  lemma {:induction false} GutterSlotsGrow(p: seq<bv8>, n: nat, m: nat)
    requires n <= m <= 16
    ensures GutterSlots(p, n) <= GutterSlots(p, m)
  {
    if n < m {
      GutterSlotsGrow(p, n, m - 1);
    }
  }

  /** Hex slot i sits at HexOffset(i), the halves are split by "| " and both gaps are spaces. */
  lemma HexSlotAt(p: seq<bv8>, i: nat)
    requires i < 16
    ensures HexOffset(i) + 3 <= 49
    ensures HexLine(p)[HexOffset(i)..HexOffset(i) + 3] == Slot(p, i)
  {
    HexSlotsGrow(p, i + 1, 16);
    var pre := HexSlots(p, i) + Gap(i);
    assert |pre| == HexOffset(i);
    assert HexSlots(p, i + 1) == pre + Slot(p, i);
    assert HexLine(p)[..|HexSlots(p, i + 1)|] == HexSlots(p, i + 1);
  }

  /** Gutter slot i sits at GutterOffset(i). */
  lemma GutterSlotAt(p: seq<bv8>, i: nat)
    requires i < 16
    ensures GutterOffset(i) < 68
    ensures HexLine(p)[GutterOffset(i)] == GutterSlot(p, i)[0]
  {
    GutterSlotsGrow(p, i + 1, 16);
    var pre := GutterSlots(p, i) + Gap(i);
    assert GutterSlots(p, i + 1) == pre + GutterSlot(p, i);
    assert GutterSlots(p, i + 1)[|pre|] == GutterSlot(p, i)[0];
    assert HexLine(p)[51 + |pre|] == GutterSlots(p, 16)[|pre|];
  }

  /** The separator and the two gap spaces. */
  lemma SeparatorAndGaps(p: seq<bv8>)
    ensures |HexLine(p)| == 68
    ensures HexLine(p)[49..51] == "| "
    ensures HexLine(p)[24] == ' ' && HexLine(p)[59] == ' '
  {
    HexSlotsGrow(p, 9, 16);
    assert HexSlots(p, 9) == HexSlots(p, 8) + " " + Slot(p, 8);
    assert HexLine(p)[..|HexSlots(p, 9)|] == HexSlots(p, 9);
    GutterSlotsGrow(p, 9, 16);
    assert GutterSlots(p, 9) == GutterSlots(p, 8) + " " + GutterSlot(p, 8);
    assert HexLine(p)[59] == GutterSlots(p, 16)[8];
  }

  /** The value of a hex digit, the inverse of indexing HexDigits. */
  function Unhex(c: char): (d: int)
    ensures -1 <= d < 16
    ensures 0 <= d ==> HexDigits[d] == c
  {
    if '0' <= c <= '9' then c as int - '0' as int
    else if 'A' <= c <= 'F' then c as int - 'A' as int + 10
    else -1
  }

  lemma NibblesRebuildByte(b: bv8)
    ensures ((b & 0xF0) >> 4) as int * 16 + (b & 0x0F) as int == b as int
  {
  }

  lemma UnhexOfDigit(d: nat)
    requires d < 16
    ensures Unhex(HexDigits[d]) == d
  {
  }

  /** Reading the two digits of a filled slot back gives the byte: the hex half loses nothing. */
  lemma HexSlotDecodes(p: seq<bv8>, i: nat)
    requires i < 16 && i < |p|
    ensures Unhex(HexLine(p)[HexOffset(i)]) * 16 + Unhex(HexLine(p)[HexOffset(i) + 1]) == p[i] as int
    ensures HexLine(p)[HexOffset(i) + 2] == ' '
  {
    HexSlotAt(p, i);
    var b := p[i];
    var w := HexLine(p)[HexOffset(i)..HexOffset(i) + 3];
    assert w == [High(b), Low(b), ' '];
    assert HexLine(p)[HexOffset(i)] == w[0] && HexLine(p)[HexOffset(i) + 1] == w[1];
    UnhexOfDigit(((b & 0xF0) >> 4) as int);
    UnhexOfDigit((b & 0x0F) as int);
    NibblesRebuildByte(b);
  }

  /** Slots past the input are blank in both halves. */
  lemma PaddingIsBlank(p: seq<bv8>, i: nat)
    requires |p| <= i < 16
    ensures HexLine(p)[HexOffset(i)..HexOffset(i) + 3] == "   "
    ensures HexLine(p)[GutterOffset(i)] == ' '
  {
    HexSlotAt(p, i);
    GutterSlotAt(p, i);
  }

  /** The gutter shows control bytes as '.', every other byte unchanged (0x7F and above included). */
  lemma GutterShowsByte(p: seq<bv8>, i: nat)
    requires i < 16 && i < |p|
    ensures p[i] < 0x20 ==> HexLine(p)[GutterOffset(i)] == '.'
    ensures p[i] >= 0x20 ==> HexLine(p)[GutterOffset(i)] as int == p[i] as int
  {
    GutterSlotAt(p, i);
  }

  lemma {:induction false} SlotsSeeFirst16(p: seq<bv8>, n: nat)
    requires |p| >= 16 && n <= 16
    ensures HexSlots(p, n) == HexSlots(p[..16], n)
    ensures GutterSlots(p, n) == GutterSlots(p[..16], n)
  {
    if n > 0 {
      SlotsSeeFirst16(p, n - 1);
    }
  }

  /** Only the first 16 bytes are rendered. */
  lemma OnlyFirst16Rendered(p: seq<bv8>)
    requires |p| >= 16
    ensures HexLine(p) == HexLine(p[..16])
  {
    SlotsSeeFirst16(p, 16);
  }

  // ---------------------------------------------------------------------------
  // putHex: one line per 16-byte chunk
  // ---------------------------------------------------------------------------

  /** The consecutive 16-byte chunks of p, the last one possibly short. */
  function Chunks(p: seq<bv8>): seq<seq<bv8>>
    decreases |p|
  {
    if |p| == 0 then []
    else if |p| <= 16 then [p]
    else [p[..16]] + Chunks(p[16..])
  }

  /** Chunk k is the window [16k, min(16k + 16, len)), there are ceil(len / 16) of them, none is empty. */
  lemma {:induction false} ChunksAreWindows(p: seq<bv8>)
    ensures |Chunks(p)| == (|p| + 15) / 16
    ensures forall k :: 0 <= k < |Chunks(p)| ==>
      16 * k < |p| && Chunks(p)[k] == p[16 * k .. if 16 * k + 16 <= |p| then 16 * k + 16 else |p|]
    decreases |p|
  {
    if |p| > 16 {
      var rest := p[16..];
      ChunksAreWindows(rest);
      forall k | 1 <= k < |Chunks(p)|
        ensures 16 * k < |p| && Chunks(p)[k] == p[16 * k .. if 16 * k + 16 <= |p| then 16 * k + 16 else |p|]
      {
        assert Chunks(p)[k] == Chunks(rest)[k - 1];
      }
    }
  }

  /** Joining the chunks gives the input back. */
  function Concat(chunks: seq<seq<bv8>>): seq<bv8> {
    if chunks == [] then [] else chunks[0] + Concat(chunks[1..])
  }

  lemma {:induction false} ChunksJoinBack(p: seq<bv8>)
    ensures Concat(Chunks(p)) == p
    decreases |p|
  {
    if |p| > 16 {
      ChunksJoinBack(p[16..]);
      assert Chunks(p)[1..] == Chunks(p[16..]);
    } else if |p| > 0 {
      assert Chunks(p)[1..] == [];
    }
  }

  /** The lines putHex prints for a run of chunks. */
  function DumpLines(indent: string, chunks: seq<seq<bv8>>): (lines: seq<string>)
    ensures |lines| == |chunks|
    ensures forall k :: 0 <= k < |chunks| ==> lines[k] == indent + HexLine(chunks[k])
  {
    if chunks == [] then [] else [indent + HexLine(chunks[0])] + DumpLines(indent, chunks[1..])
  }

  /** What is left to print once start has moved past the printed chunks. */
  function Rest(p: seq<bv8>, start: nat): seq<bv8> {
    if start < |p| then p[start..] else []
  }

  /** putHex: its start/end loop prints exactly one line per chunk, in order. */
  method PutHex(indent: string, p: seq<bv8>) returns (lines: seq<string>)
    ensures lines == DumpLines(indent, Chunks(p))
    ensures |lines| == (|p| + 15) / 16
  {
    var start, end, l := 0, 16, |p|;
    lines := [];
    while start < l
      invariant end == start + 16
      invariant lines + DumpLines(indent, Chunks(Rest(p, start))) == DumpLines(indent, Chunks(p))
      decreases l - start
    {
      if end > l {
        end := l;
      }
      var line := MakeHexString(p[start..end]);
      var rest := p[start..];
      assert Rest(p, start) == rest;
      assert Chunks(rest) == [p[start..end]] + Chunks(Rest(p, start + 16)) by {
        if |rest| > 16 {
          assert rest[..16] == p[start..end];
          assert rest[16..] == Rest(p, start + 16);
        } else {
          assert rest == p[start..end];
          assert Rest(p, start + 16) == [];
        }
      }
      lines := lines + [indent + line];
      start := start + 16;
      end := start + 16;
    }
    ChunksAreWindows(p);
  }

  // ---------------------------------------------------------------------------
  // Breadcrumb lines
  // ---------------------------------------------------------------------------

  /** A breadcrumb of a parse failure: a name and three optional (negative when unset) numbers. */
  datatype Breadcrumb = Breadcrumb(name: string, index: int, startPos: int, endPos: int)

  /** strconv.Itoa on the non-negative values the breadcrumb lines print. */
  function Itoa(n: nat): (s: string)
    ensures |s| >= 1
  {
    if n < 10 then [HexDigits[n]] else Itoa(n / 10) + [HexDigits[n % 10]]
  }

  /** Itoa writes decimal digits only, without a leading zero. */
  lemma {:induction false} ItoaDigits(n: nat)
    ensures forall k :: 0 <= k < |Itoa(n)| ==> '0' <= Itoa(n)[k] <= '9'
    ensures Itoa(n)[0] == '0' ==> n == 0
  {
    if n >= 10 {
      ItoaDigits(n / 10);
      assert Itoa(n)[0] == Itoa(n / 10)[0];
    }
  }

  /** Reading decimal digits back. */
  function Atoi(s: string): nat {
    if s == [] then 0 else Atoi(s[..|s| - 1]) * 10 + (var d := Unhex(s[|s| - 1]); if 0 <= d < 10 then d else 0)
  }

  lemma {:induction false} AtoiItoa(n: nat)
    ensures Atoi(Itoa(n)) == n
  {
    var s := Itoa(n);
    if n < 10 {
      UnhexOfDigit(n);
      assert s[..|s| - 1] == [];
    } else {
      AtoiItoa(n / 10);
      UnhexOfDigit(n % 10);
      assert s[..|s| - 1] == Itoa(n / 10);
    }
  }

  /** One optional detail: shown as prefix, number, suffix when the number is set, left out otherwise. */
  function Field(prefix: string, v: int, suffix: string): (f: string)
    ensures f == "" <==> v < 0
    ensures v >= 0 ==>
      && |f| > |prefix| + |suffix| && f[..|prefix|] == prefix && f[|f| - |suffix|..] == suffix
      && f[|prefix|..|f| - |suffix|] == Itoa(v)
  {
    if v >= 0 then prefix + Itoa(v) + suffix else ""
  }

  /** A shown detail reads back as the number it shows. */
  lemma FieldReadsBack(prefix: string, v: int, suffix: string)
    requires v >= 0
    ensures var f := Field(prefix, v, suffix); Atoi(f[|prefix|..|f| - |suffix|]) == v
  {
    AtoiItoa(v);
  }

  /** The joined details of one crumb: its name, then "[index]", ", start=…" and ", end=…" when set. */
  function Details(b: Breadcrumb): (d: string)
    ensures |d| >= |b.name| && d[..|b.name|] == b.name
    ensures d == b.name <==> b.index < 0 && b.startPos < 0 && b.endPos < 0
  {
    var d := b.name + Field("[", b.index, "]") + Field(", start=", b.startPos, "") + Field(", end=", b.endPos, "");
    assert d[..|b.name|] == b.name;
    d
  }

  /** The line printed for crumb i: the indentation, i, ": " and the details. */
  function CrumbLine(indent: string, i: nat, b: Breadcrumb): string {
    indent + Itoa(i) + ": " + Details(b)
  }

  /** A crumb line starts with the indentation, then the crumb's position, then ": ", then the details. */
  lemma CrumbLineShape(indent: string, i: nat, b: Breadcrumb)
    ensures |CrumbLine(indent, i, b)| == |indent| + |Itoa(i)| + 2 + |Details(b)|
    ensures CrumbLine(indent, i, b)[..|indent|] == indent
    ensures CrumbLine(indent, i, b)[|indent|..|indent| + |Itoa(i)|] == Itoa(i)
    ensures CrumbLine(indent, i, b)[|indent| + |Itoa(i)|..|indent| + |Itoa(i)| + 2] == ": "
    ensures CrumbLine(indent, i, b)[|indent| + |Itoa(i)| + 2..] == Details(b)
  {
  }

  /** The number at the head of a crumb line reads back as the crumb's position. */
  lemma CrumbLineNumbers(indent: string, i: nat, b: Breadcrumb)
    ensures Atoi(CrumbLine(indent, i, b)[|indent|..|indent| + |Itoa(i)|]) == i
  {
    CrumbLineShape(indent, i, b);
    AtoiItoa(i);
  }

  /** The lines for crumbs j .. len-1, from the last one down to crumb j. */
  function Listed(indent: string, crumbs: seq<Breadcrumb>, j: nat): (lines: seq<string>)
    requires j <= |crumbs|
    ensures |lines| == |crumbs| - j
    ensures forall k :: 0 <= k < |crumbs| - j ==>
      lines[k] == CrumbLine(indent, |crumbs| - 1 - k, crumbs[|crumbs| - 1 - k])
    decreases |crumbs| - j
  {
    if j == |crumbs| then [] else Listed(indent, crumbs, j + 1) + [CrumbLine(indent, j, crumbs[j])]
  }

  /**
   * The breadcrumb section: nothing for no crumbs, otherwise a header and one
   * line per crumb, from the last crumb down to the first.
   */
  method PutBreadcrumbs(indent: string, crumbs: seq<Breadcrumb>) returns (lines: seq<string>)
    ensures |crumbs| == 0 ==> lines == []
    ensures |crumbs| > 0 ==> lines == ["Breadcrumbs:"] + Listed(indent, crumbs, 0)
  {
    lines := [];
    if |crumbs| > 0 {
      lines := ["Breadcrumbs:"];
      var i := |crumbs| - 1;
      while i >= 0
        invariant -1 <= i < |crumbs|
        invariant lines == ["Breadcrumbs:"] + Listed(indent, crumbs, i + 1)
      {
        var b := crumbs[i];
        var details := b.name;
        if b.index >= 0 {
          details := details + ("[" + Itoa(b.index) + "]");
        }
        assert details == b.name + Field("[", b.index, "]");
        if b.startPos >= 0 {
          details := details + (", start=" + Itoa(b.startPos));
        }
        assert details == b.name + Field("[", b.index, "]") + Field(", start=", b.startPos, "");
        if b.endPos >= 0 {
          details := details + (", end=" + Itoa(b.endPos));
        }
        assert details == Details(b);
        lines := lines + [indent + Itoa(i) + ": " + details];
        i := i - 1;
      }
    }
  }
}
