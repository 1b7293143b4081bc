/**
 * The user legend text parser of backend/data_processing.py (`parse_legend_text`):
 * one entry per line, written `r,g,b: name` or `#RRGGBB: name`.
 */
module LegendText {
  import opened Wrappers
  import opened Text
  import opened Colors

  datatype LegendEntry = LegendEntry(rgb: Rgb, name: string)

  /** The ValueError raised by `int(chunk, 16)` on a six-character hex colour. */
  datatype ParseError = HexValueError(chunk: string)

  /** What one stripped colour part yields. */
  datatype ColourOutcome = NoColour | Colour(rgb: Rgb) | HexFailure(chunk: string)

  /** What one line of the text contributes. */
  datatype LineOutcome = Blank | Dropped | Parsed(entry: LegendEntry) | Raised(error: ParseError)

  /**
   * The colour text and the name of a non-blank stripped line: the text before the first
   * `:` and the stripped rest, or the whole line and an empty name.
   */
  function SplitColourLabel(line: string): (r: (string, string))
    ensures r.1 == [] || (!IsSpace(r.1[0]) && !IsSpace(r.1[|r.1| - 1]))
  {
    var i := IndexOf(line, ':');
    if i < |line| then (line[..i], Strip(line[i + 1..])) else (line, [])
  }

  /**
   * The three channels of a hex colour, parsed left to right: the colour when all three chunks
   * parse, otherwise the first chunk, in the order red, green, blue, that `int(_, 16)` refuses.
   * A hex colour never drops the line.
   */
  function ParseHexColour(hexval: string): (r: ColourOutcome)
    requires |hexval| == 6
    ensures !r.NoColour?
    ensures ParseInt(hexval[0..2], 16).None? ==> r == HexFailure(hexval[0..2])
    ensures ParseInt(hexval[0..2], 16).Some? && ParseInt(hexval[2..4], 16).None? ==> r == HexFailure(hexval[2..4])
    ensures ParseInt(hexval[0..2], 16).Some? && ParseInt(hexval[2..4], 16).Some? && ParseInt(hexval[4..6], 16).None?
      ==> r == HexFailure(hexval[4..6])
    ensures r.Colour? <==>
      ParseInt(hexval[0..2], 16).Some? && ParseInt(hexval[2..4], 16).Some? && ParseInt(hexval[4..6], 16).Some?
    ensures r.Colour? ==>
      r.rgb == Rgb(ParseInt(hexval[0..2], 16).value, ParseInt(hexval[2..4], 16).value, ParseInt(hexval[4..6], 16).value)
  {
    var red := ParseInt(hexval[0..2], 16);
    if red.None? then HexFailure(hexval[0..2])
    else
      var green := ParseInt(hexval[2..4], 16);
      if green.None? then HexFailure(hexval[2..4])
      else
        var blue := ParseInt(hexval[4..6], 16);
        if blue.None? then HexFailure(hexval[4..6])
        else Colour(Rgb(red.value, green.value, blue.value))
  }

  /** The comma form: exactly three parts, each `int(part.strip())`; a failing part drops the line. */
  function ParseDecimalColour(text: string): ColourOutcome {
    var parts := Split(text, ',');
    if |parts| != 3 then NoColour
    else
      var red := ParseInt(Strip(parts[0]), 10);
      var green := ParseInt(Strip(parts[1]), 10);
      var blue := ParseInt(Strip(parts[2]), 10);
      if red.Some? && green.Some? && blue.Some? then Colour(Rgb(red.value, green.value, blue.value))
      else NoColour
  }

  function ParseColour(colourPart: string): ColourOutcome {
    var c := Strip(colourPart);
    if StartsWith(c, "#") then
      var hexval := LStripChar(c, '#');
      if |hexval| == 6 then ParseHexColour(hexval) else NoColour
    else ParseDecimalColour(c)
  }

  /** One iteration of the parser's line loop. */
  function ParseLine(raw: string): (r: LineOutcome)
    ensures r.Blank? <==> Strip(raw) == []
    ensures r.Parsed? ==> var l := r.entry.name; l == [] || (!IsSpace(l[0]) && !IsSpace(l[|l| - 1]))
  {
    var line := Strip(raw);
    if line == [] then Blank
    else
      var (colourPart, name) := SplitColourLabel(line);
      var colour := ParseColour(colourPart);
      if colour.Colour? then Parsed(LegendEntry(colour.rgb, name))
      else if colour.HexFailure? then Raised(HexValueError(colour.chunk))
      else Dropped
  }

  /** The outcome of every line, in order. */
  function Outcomes(lines: seq<string>): (outs: seq<LineOutcome>)
    ensures |outs| == |lines|
  {
    seq(|lines|, k requires 0 <= k < |lines| => ParseLine(lines[k]))
  }

  /** The entries of the lines that parse, in input order. */
  function Entries(outs: seq<LineOutcome>): (es: seq<LegendEntry>)
    ensures |es| <= |outs|
  {
    if outs == [] then []
    else
      var last := outs[|outs| - 1];
      Entries(outs[..|outs| - 1]) + (if last.Parsed? then [last.entry] else [])
  }

  /** What the parser returns for a run of line outcomes: the first ValueError, or the entries. */
  function Summary(outs: seq<LineOutcome>): Result<seq<LegendEntry>, ParseError> {
    if outs == [] then Ok([])
    else SummaryAfter(Summary(outs[..|outs| - 1]), outs[|outs| - 1])
  }

  /** One more line on top of the summary of the lines before it. */
  function SummaryAfter(prev: Result<seq<LegendEntry>, ParseError>, last: LineOutcome): Result<seq<LegendEntry>, ParseError> {
    if prev.Err? then prev
    else if last.Raised? then Err(last.error)
    else if last.Parsed? then Ok(prev.value + [last.entry])
    else prev
  }

  lemma SummaryStep(outs: seq<LineOutcome>, i: nat)
    requires i < |outs|
    ensures Summary(outs[..i + 1]) == SummaryAfter(Summary(outs[..i]), outs[i])
  {
    assert outs[..i + 1][..i] == outs[..i];
    assert outs[..i + 1][i] == outs[i];
  }

  /** The loop body's call of the line parser on line `i`. */
  method ClassifyLine(lines: seq<string>, i: nat) returns (outcome: LineOutcome)
    requires i < |lines|
    ensures outcome == Outcomes(lines)[i]
  {
    outcome := ParseLine(lines[i]);
  }

  /**
   * `parse_legend_text`: the line loop, returning as soon as a hex colour fails to parse.
   * Its meaning is spelled out by the lemmas on `Summary` below.
   */
  method ParseLegendText(text: string) returns (r: Result<seq<LegendEntry>, ParseError>)
    ensures r == Summary(Outcomes(SplitLines(text)))
  {
    var lines := SplitLines(text);
    ghost var outs := Outcomes(lines);
    var parsed: seq<LegendEntry> := [];
    var i := 0;
    while i < |lines|
      invariant 0 <= i <= |lines|
      invariant Summary(outs[..i]) == Ok(parsed)
    {
      var outcome := ClassifyLine(lines, i);
      SummaryStep(outs, i);
      if outcome.Raised? {
        SummaryKeepsError(outs, i + 1);
        return Err(outcome.error);
      }
      if outcome.Parsed? {
        parsed := parsed + [outcome.entry];
      }
      i := i + 1;
    }
    assert outs[..i] == outs;
    return Ok(parsed);
  }

  lemma {:induction false} SummaryKeepsError(outs: seq<LineOutcome>, i: nat)
    requires i <= |outs| && Summary(outs[..i]).Err?
    ensures Summary(outs) == Summary(outs[..i])
    decreases |outs| - i
  {
    if i == |outs| {
      assert outs[..i] == outs;
    } else {
      assert outs[..i + 1][..i] == outs[..i];
      SummaryKeepsError(outs, i + 1);
    }
  }

  /** The parser succeeds exactly when no line raises, and then returns the entries in order. */
  lemma {:induction false} SummaryOk(outs: seq<LineOutcome>)
    ensures Summary(outs).Ok? <==> forall i :: 0 <= i < |outs| ==> !outs[i].Raised?
    ensures Summary(outs).Ok? ==> Summary(outs).value == Entries(outs)
  {
    if outs != [] {
      var n := |outs| - 1;
      SummaryOk(outs[..n]);
      assert forall i :: 0 <= i < n ==> outs[..n][i] == outs[i];
    }
  }

  /** A failing parse reports the error of the first line that raises. */
  lemma {:induction false} SummaryErr(outs: seq<LineOutcome>)
    ensures Summary(outs).Err? ==> exists i :: (0 <= i < |outs| && outs[i] == Raised(Summary(outs).error)
      && forall j :: 0 <= j < i ==> !outs[j].Raised?)
  {
    if outs != [] {
      var n := |outs| - 1;
      SummaryErr(outs[..n]);
      SummaryOk(outs[..n]);
      assert forall i :: 0 <= i < n ==> outs[..n][i] == outs[i];
      if Summary(outs[..n]).Err? {
        var i :| 0 <= i < n && outs[..n][i] == Raised(Summary(outs[..n]).error)
          && (forall j :: 0 <= j < i ==> !outs[..n][j].Raised?);
        assert outs[i] == Raised(Summary(outs).error);
      } else if outs[n].Raised? {
        assert outs[n] == Raised(Summary(outs).error);
      }
    }
  }

  // ---------------------------------------------------------------------
  // Properties

  /** The entries of two runs of lines, one after the other, keep the order of both. */
  lemma {:induction false} EntriesAppend(a: seq<LineOutcome>, b: seq<LineOutcome>)
    ensures Entries(a + b) == Entries(a) + Entries(b)
    decreases |b|
  {
    if b != [] {
      var ab := a + b;
      assert ab[..|ab| - 1] == a + b[..|b| - 1];
      assert ab[|ab| - 1] == b[|b| - 1];
      EntriesAppend(a, b[..|b| - 1]);
    } else {
      assert a + b == a;
    }
  }

  /** Each parsable line contributes exactly its own entry, between its neighbours' entries. */
  lemma EntriesOfLine(before: seq<LineOutcome>, o: LineOutcome, after: seq<LineOutcome>)
    ensures o.Parsed? ==> Entries(before + [o] + after) == Entries(before) + [o.entry] + Entries(after)
    ensures !o.Parsed? ==> Entries(before + [o] + after) == Entries(before) + Entries(after)
  {
    EntriesAppend(before + [o], after);
    EntriesAppend(before, [o]);
    assert [o][..0] == [];
  }

  /** The number of entries is the number of lines that parse. */
  lemma {:induction false} EntriesCount(outs: seq<LineOutcome>)
    ensures |Entries(outs)| == |set k | 0 <= k < |outs| && outs[k].Parsed?|
  {
    if outs != [] {
      var n := |outs| - 1;
      EntriesCount(outs[..n]);
      var before := set k | 0 <= k < n && outs[..n][k].Parsed?;
      var all := set k | 0 <= k < |outs| && outs[k].Parsed?;
      assert before == set k | 0 <= k < n && outs[k].Parsed?;
      if outs[n].Parsed? {
        assert all == before + {n};
      } else {
        assert all == before;
      }
    }
  }

  /** Characters a rendered colour is made of: none is a space, a line break or a colon. */
  predicate IsColourChar(c: char) {
    IsDigitIn(c, 16) || c == ',' || c == '#'
  }

  predicate ColourChars(s: string) {
    forall k :: 0 <= k < |s| ==> IsColourChar(s[k])
  }

  lemma ColourCharsAppend(a: string, b: string)
    requires ColourChars(a) && ColourChars(b)
    ensures ColourChars(a + b)
  {
    forall k | 0 <= k < |a + b| ensures IsColourChar((a + b)[k]) {
      if k < |a| {
        assert (a + b)[k] == a[k];
      } else {
        assert (a + b)[k] == b[k - |a|];
      }
    }
  }

  /** The comma form of a colour, `"r,g,b"`. */
  function DecimalColour(c: Rgb): (s: string)
    requires IsByteColor(c)
    ensures ColourChars(s) && |s| > 0
  {
    var dr, dg, db := NatToString(c.r), NatToString(c.g), NatToString(c.b);
    ColourCharsAppend(dr, [',']);
    ColourCharsAppend(dr + [','], dg);
    ColourCharsAppend(dr + [','] + dg, [',']);
    ColourCharsAppend(dr + [','] + dg + [','], db);
    dr + [','] + dg + [','] + db
  }

  /** The hex form of a colour, `"#RRGGBB"`, as `"#%02X%02X%02X"` renders it. */
  function HexColour(c: Rgb): (s: string)
    requires IsByteColor(c)
    ensures ColourChars(s) && |s| == 7
  {
    var hr, hg, hb := HexByte(c.r), HexByte(c.g), HexByte(c.b);
    ColourCharsAppend(['#'], hr);
    ColourCharsAppend(['#'] + hr, hg);
    ColourCharsAppend(['#'] + hr + hg, hb);
    ['#'] + hr + hg + hb
  }

  /** A legend line `C: L`. */
  function LegendLine(colour: string, name: string): string {
    colour + ": " + name
  }

  /** A name that survives a round trip: stripped and without line breaks. */
  predicate GoodLabel(name: string) {
    (name == [] || (!IsSpace(name[0]) && !IsSpace(name[|name| - 1])))
    && forall k :: 0 <= k < |name| ==> !IsLineBreak(name[k])
  }

  lemma {:induction false} StripRightAppend(a: string, b: string)
    requires |a| > 0 && !IsSpace(a[|a| - 1])
    ensures StripRight(a + b) == a + StripRight(b)
    decreases |b|
  {
    if |b| > 0 && IsSpace(b[|b| - 1]) {
      assert (a + b)[..|a + b| - 1] == a + b[..|b| - 1];
      StripRightAppend(a, b[..|b| - 1]);
    } else if |b| == 0 {
      assert a + b == a;
    }
  }

  /** Stripping `C: L` only removes what trails the colon when `L` is empty. */
  lemma StripLegendLine(colour: string, name: string)
    requires |colour| > 0 && !IsSpace(colour[0])
    ensures Strip(LegendLine(colour, name)) == colour + [':'] + StripRight(" " + name)
  {
    var head := colour + [':'];
    var line := LegendLine(colour, name);
    assert line == head + (" " + name);
    assert line[0] == colour[0];
    assert StripLeft(line) == line;
    StripRightAppend(head, " " + name);
  }

  /** The stripped text after the colon is the name again. */
  lemma StripSpacedName(name: string)
    requires GoodLabel(name)
    ensures Strip(StripRight(" " + name)) == name
  {
    if name == [] {
      assert StripRight(" " + name) == StripRight([]);
    } else {
      var t := " " + name;
      assert t[|t| - 1] == name[|name| - 1];
      assert StripRight(t) == t;
      assert t[1..] == name;
      assert StripLeft(t) == StripLeft(name);
    }
  }

  /** `SplitColourLabel` of `C:` followed by anything splits at that colon. */
  lemma SplitAtColon(colour: string, rest: string)
    requires forall k :: 0 <= k < |colour| ==> colour[k] != ':'
    ensures SplitColourLabel(colour + [':'] + rest) == (colour, Strip(rest))
  {
    var s := colour + [':'] + rest;
    IndexOfAppend(colour, ':', rest);
    assert s[..|colour|] == colour;
    assert s[|colour| + 1..] == rest;
  }

  lemma NoBreakLegendLine(colour: string, name: string)
    requires ColourChars(colour) && GoodLabel(name)
    ensures forall k :: 0 <= k < |LegendLine(colour, name)| ==> !IsLineBreak(LegendLine(colour, name)[k])
  {
    var line := LegendLine(colour, name);
    var p := colour + ": ";
    assert line == p + name;
    forall k | 0 <= k < |line| ensures !IsLineBreak(line[k]) {
      if k < |colour| {
        assert line[k] == colour[k];
      } else if k < |p| {
        assert line[k] == p[k];
      } else {
        assert line[k] == name[k - |p|];
      }
    }
  }

  /**
   * A line `C: L` whose colour `C` parses on its own is one line of text, and it
   * parses to the entry of that colour and of the name `L`.
   */
  lemma LegendLineParses(colour: string, name: string, c: Rgb)
    requires ColourChars(colour) && |colour| > 0 && GoodLabel(name)
    requires ParseColour(colour) == Colour(c)
    ensures SplitLines(LegendLine(colour, name)) == [LegendLine(colour, name)]
    ensures ParseLine(LegendLine(colour, name)) == Parsed(LegendEntry(c, name))
    ensures Entries(Outcomes(SplitLines(LegendLine(colour, name)))) == [LegendEntry(c, name)]
  {
    var line := LegendLine(colour, name);
    NoBreakLegendLine(colour, name);
    SplitLinesSingle(line);
    LineParsesToEntry(colour, name, c);
    SingleLineEntries(line, LegendEntry(c, name));
  }

  /** The line `C: L` is classified as the entry of `C`'s colour and the name `L`. */
  lemma LineParsesToEntry(colour: string, name: string, c: Rgb)
    requires ColourChars(colour) && |colour| > 0 && GoodLabel(name)
    requires ParseColour(colour) == Colour(c)
    ensures ParseLine(LegendLine(colour, name)) == Parsed(LegendEntry(c, name))
  {
    ColourHead(colour);
    StripLegendLine(colour, name);
    SplitLegendLine(colour, name);
    ClassifiedLine(LegendLine(colour, name), colour + [':'] + StripRight(" " + name), colour, name, c);
  }

  lemma ColourHead(colour: string)
    requires ColourChars(colour) && |colour| > 0
    ensures !IsSpace(colour[0])
  {
    assert IsColourChar(colour[0]);
  }

  /** The stripped line `C:` + rest splits into `C` and the name. */
  lemma SplitLegendLine(colour: string, name: string)
    requires ColourChars(colour) && GoodLabel(name)
    ensures SplitColourLabel(colour + [':'] + StripRight(" " + name)) == (colour, name)
  {
    SplitAtColon(colour, StripRight(" " + name));
    StripSpacedName(name);
  }

  /** A line whose stripped form splits into a colour that parses is classified as that entry. */
  lemma ClassifiedLine(line: string, stripped: string, colour: string, name: string, c: Rgb)
    requires Strip(line) == stripped && SplitColourLabel(stripped) == (colour, name)
    requires stripped != [] && ParseColour(colour) == Colour(c)
    ensures ParseLine(line) == Parsed(LegendEntry(c, name))
  {
  }

  /** The entries of a one-line text are that line's entry. */
  lemma SingleLineEntries(line: string, e: LegendEntry)
    requires ParseLine(line) == Parsed(e)
    ensures Entries(Outcomes([line])) == [e]
  {
    var o := ParseLine(line);
    assert Outcomes([line]) == [o];
    assert [o][..0] == [];
  }

  /** The three comma parts of a rendered decimal colour. */
  lemma DecimalColourParts(c: Rgb)
    requires IsByteColor(c)
    ensures Split(DecimalColour(c), ',') == [NatToString(c.r), NatToString(c.g), NatToString(c.b)]
  {
    var dr, dg, db := NatToString(c.r), NatToString(c.g), NatToString(c.b);
    assert DecimalColour(c) == dr + [','] + (dg + [','] + db);
    SplitJoin(dr, ',', dg + [','] + db);
    SplitJoin(dg, ',', db);
    SplitNone(db, ',');
  }

  /** Three comma parts that each parse give the colour of their values. */
  lemma DecimalPartsParse(text: string, a: string, b: string, d: string, x: int, y: int, z: int)
    requires Split(text, ',') == [a, b, d]
    requires ParseInt(Strip(a), 10) == Some(x)
    requires ParseInt(Strip(b), 10) == Some(y)
    requires ParseInt(Strip(d), 10) == Some(z)
    ensures ParseDecimalColour(text) == Colour(Rgb(x, y, z))
  {
    var parts := Split(text, ',');
    assert parts[0] == a && parts[1] == b && parts[2] == d;
  }

  /** A red part of more than 4300 decimal digits makes `int` raise, so the line is dropped. */
  lemma LongChannelDropped(text: string, a: string, b: string, d: string)
    requires Split(text, ',') == [a, b, d]
    requires |Strip(a)| > MaxStrDigits && AllDigits(Strip(a), 10)
    ensures ParseDecimalColour(text) == NoColour
  {
    LongDecimalRefused(Strip(a));
    assert Split(text, ',')[0] == a;
  }

  /** `int(str(n).strip())` is `n`. */
  lemma NatToStringStripParses(n: nat)
    requires |NatToString(n)| <= MaxStrDigits
    ensures ParseInt(Strip(NatToString(n)), 10) == Some(n)
  {
    var s := NatToString(n);
    assert IsDecimalDigit(s[0]) && IsDecimalDigit(s[|s| - 1]);
    StripOfTrimmed(s);
    NatToStringParses(n);
  }

  lemma DecimalColourValues(c: Rgb)
    requires IsByteColor(c)
    ensures ParseDecimalColour(DecimalColour(c)) == Colour(c)
  {
    DecimalColourParts(c);
    NatToStringShort(c.r);
    NatToStringShort(c.g);
    NatToStringShort(c.b);
    NatToStringStripParses(c.r);
    NatToStringStripParses(c.g);
    NatToStringStripParses(c.b);
    DecimalPartsParse(DecimalColour(c), NatToString(c.r), NatToString(c.g), NatToString(c.b), c.r, c.g, c.b);
  }

  /** A stripped colour part without a leading `#` is read in the comma form. */
  lemma ColourIsDecimal(s: string)
    requires |s| > 0 && !IsSpace(s[0]) && !IsSpace(s[|s| - 1]) && s[0] != '#'
    ensures ParseColour(s) == ParseDecimalColour(s)
  {
    StripOfTrimmed(s);
    assert !StartsWith(s, "#");
  }

  /** A stripped `#` followed by six characters that are not `#` is read in the hex form. */
  lemma ColourIsHex(s: string)
    requires |s| == 7 && !IsSpace(s[0]) && !IsSpace(s[|s| - 1]) && s[0] == '#' && s[1] != '#'
    ensures ParseColour(s) == ParseHexColour(s[1..])
  {
    StripOfTrimmed(s);
    assert StartsWith(s, "#");
    assert LStripChar(s[1..], '#') == s[1..];
  }

  lemma DecimalColourParses(c: Rgb)
    requires IsByteColor(c)
    ensures ParseColour(DecimalColour(c)) == Colour(c)
  {
    var s := DecimalColour(c);
    assert IsColourChar(s[0]) && IsColourChar(s[|s| - 1]);
        assert s[0] == NatToString(c.r)[0];
    ColourIsDecimal(s);
    DecimalColourValues(c);
  }

  lemma HexColourValues(c: Rgb)
    requires IsByteColor(c)
    ensures ParseHexColour(HexColour(c)[1..]) == Colour(c)
  {
    var hr, hg, hb := HexByte(c.r), HexByte(c.g), HexByte(c.b);
    var hexval := HexColour(c)[1..];
    assert hexval == hr + hg + hb;
    assert hexval[0..2] == hr && hexval[2..4] == hg && hexval[4..6] == hb;
    HexByteParses(c.r);
    HexByteParses(c.g);
    HexByteParses(c.b);
  }

  lemma HexColourParses(c: Rgb)
    requires IsByteColor(c)
    ensures ParseColour(HexColour(c)) == Colour(c)
  {
    var s := HexColour(c);
    assert IsColourChar(s[0]) && IsColourChar(s[|s| - 1]);
        assert s[1] == HexByte(c.r)[0];
    ColourIsHex(s);
    HexColourValues(c);
  }

  /** Round trip of the comma form: `"r,g,b: name"` parses back to `([r, g, b], name)`. */
  lemma DecimalLineRoundTrip(c: Rgb, name: string)
    requires IsByteColor(c) && GoodLabel(name)
    ensures Entries(Outcomes(SplitLines(LegendLine(DecimalColour(c), name)))) == [LegendEntry(c, name)]
  {
    DecimalColourParses(c);
    LegendLineParses(DecimalColour(c), name, c);
  }

  /** Round trip of the hex form: `"#RRGGBB: name"` parses back to `([r, g, b], name)`. */
  lemma HexLineRoundTrip(c: Rgb, name: string)
    requires IsByteColor(c) && GoodLabel(name)
    ensures Entries(Outcomes(SplitLines(LegendLine(HexColour(c), name)))) == [LegendEntry(c, name)]
  {
    HexColourParses(c);
    LegendLineParses(HexColour(c), name, c);
  }

  /** A line without a colon gets the empty name. */
  lemma NoColonEmptyLabel(raw: string)
    requires forall k :: 0 <= k < |raw| ==> raw[k] != ':'
    ensures ParseLine(raw).Parsed? ==> ParseLine(raw).entry.name == []
  {
    var line := Strip(raw);
    assert IndexOf(line, ':') == |line| by {
      var l := StripLeft(raw);
      assert line == StripRight(l);
      forall k | 0 <= k < |line| ensures line[k] != ':' {
        assert line[k] == l[k];
        assert l[k] == raw[|raw| - |l| + k];
      }
    }
    assert SplitColourLabel(line).1 == [];
  }

  /** A `#` colour whose length after the `#`s is not six drops the line. */
  lemma HexWrongLengthDropped(colourPart: string)
    requires StartsWith(Strip(colourPart), "#") && |LStripChar(Strip(colourPart), '#')| != 6
    ensures ParseColour(colourPart) == NoColour
  {
  }

  /** Splitting a stripped `C: L` line at its first colon gives back `C` and `L`. */
  lemma ColourLabelOfLine(colour: string, name: string)
    requires |colour| > 0 && !IsSpace(colour[0])
    requires forall k :: 0 <= k < |colour| ==> colour[k] != ':'
    requires GoodLabel(name)
    ensures SplitColourLabel(Strip(LegendLine(colour, name))) == (colour, name)
  {
    StripLegendLine(colour, name);
    SplitAtColon(colour, StripRight(" " + name));
    StripSpacedName(name);
  }

  /** A U+001F among the six hex characters survives `strip()` and makes `int(chunk, 16)` raise. */
  lemma InfoSeparatorColour()
    ensures ParseColour("#\U{1F}ABCDE") == HexFailure("\U{1F}A")
  {
    var hexval := "\U{1F}ABCDE";
    assert hexval[0..2] == "\U{1F}A";
    IntRefusesInfoSeparator();
    assert ParseHexColour(hexval) == HexFailure("\U{1F}A");
    assert "#\U{1F}ABCDE"[1..] == hexval;
    ColourIsHex("#\U{1F}ABCDE");
  }

  /** The line `#\x1fABCDE: x` raises instead of being dropped. */
  lemma UnitSeparatorRaises()
    ensures ParseLine(LegendLine("#\U{1F}ABCDE", "x")) == Raised(HexValueError("\U{1F}A"))
  {
    ColourLabelOfLine("#\U{1F}ABCDE", "x");
    InfoSeparatorColour();
  }

  lemma ZzRejected()
    ensures ParseInt("zz", 16) == None
  {
    assert SplitSign("zz") == ("zz", false);
    assert DropRadixPrefix("zz", 16) == "zz";
    assert !ValidBody("zz", 16);
  }

  lemma ZzColour()
    ensures ParseColour("#zzzzzz") == HexFailure("zz")
  {
    var hexval := "zzzzzz";
    assert hexval[0..2] == "zz";
    ZzRejected();
    assert ParseHexColour(hexval) == HexFailure("zz");
    assert "#zzzzzz"[1..] == hexval;
    ColourIsHex("#zzzzzz");
  }

  /** Six characters that are not hex digits raise instead of being skipped. */
  lemma HexGarbageRaises()
    ensures ParseLine(LegendLine("#zzzzzz", "Low")) == Raised(HexValueError("zz"))
  {
    ColourLabelOfLine("#zzzzzz", "Low");
    ZzColour();
  }

  lemma SplitThree(a: string, b: string, d: string)
    requires forall k :: 0 <= k < |a| ==> a[k] != ','
    requires forall k :: 0 <= k < |b| ==> b[k] != ','
    requires forall k :: 0 <= k < |d| ==> d[k] != ','
    ensures Split(a + [','] + b + [','] + d, ',') == [a, b, d]
  {
    var bd := b + [','] + d;
    assert a + [','] + b + [','] + d == a + [','] + bd;
    SplitJoin(a, ',', bd);
    SplitJoin(b, ',', d);
    SplitNone(d, ',');
    assert Split(bd, ',') == [b, d];
  }

  lemma Parse300()
    ensures ParseInt("300", 10) == Some(300)
  {
    assert NatToString(3) == "3";
    assert NatToString(30) == "30";
    assert NatToString(300) == "300";
    NatToStringShort(300);
    NatToStringParses(300);
  }

  lemma ParseMinus5()
    ensures ParseInt("-5", 10) == Some(-5)
  {
    assert Strip("-5") == "-5" by {
      assert !IsSpace("-5"[0]) && !IsSpace("-5"[1]);
      StripOfTrimmed("-5");
    }
    assert !HasInfoSeparator("-5") by {
      assert "-5"[1..] == "5" && "5"[1..] == [];
    }
    assert SplitSign("-5") == ("5", true);
    PlainDigitsBody("5", 10);
    assert "5"[..0] == [];
  }

  lemma Parse7()
    ensures ParseInt("7", 10) == Some(7)
  {
    ParsePlainDigits("7", 10);
    assert "7"[..0] == [];
  }

  /** Comma values are not range-checked: out-of-byte and negative channels are kept. */
  lemma CommaValuesUnchecked()
    ensures ParseDecimalColour("300,-5,7") == Colour(Rgb(300, -5, 7))
  {
    SplitThree("300", "-5", "7");
    assert "300" + [','] + "-5" + [','] + "7" == "300,-5,7";
    StripOfTrimmed("300");
    StripOfTrimmed("-5");
    StripOfTrimmed("7");
    Parse300();
    ParseMinus5();
    Parse7();
    DecimalPartsParse("300,-5,7", "300", "-5", "7", 300, -5, 7);
  }

  /** A comma part that is not an integer drops the whole line. */
  lemma CommaBadPartDropped()
    ensures ParseDecimalColour("1,x,3") == NoColour
  {
    SplitThree("1", "x", "3");
    assert "1" + [','] + "x" + [','] + "3" == "1,x,3";
    StripOfTrimmed("x");
    assert SplitSign("x") == ("x", false);
    assert !ValidBody("x", 10);
    assert ParseInt("x", 10) == None;
  }
}
