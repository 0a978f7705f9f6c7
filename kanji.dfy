/**
 * The kanji lookup and stroke-order commands (botto/modules/kanji.py): the
 * one-character check, the embed text built from the KANJIDIC2 rows, and
 * the file name of a character's animated stroke diagram. The character
 * names of `unicodedata.name` are a parameter (the empty string for a
 * character without a name), the two tables stand in for the database and
 * a set of paths for the files on disk.
 */
module KanjiLookup {
  import opened Wrappers
  import opened Text
  import opened Seqs
  import Kanjidic2

  // ---------------------------------------------------------------------
  // The stroke-diagram file

  const DiagramDirectory: string := "resources/data/kanjivg_kanimaji_gif/"
  const SvgDirectory: string := "resources/data/kanjivg_svg/"

  /** `f"{ord(character):05x}"` */
  function Codepoint(c: char): string
  {
    HexPadded(c as int, 5)
  }

  /** The path `get_stroke_diagram` looks for. */
  function DiagramPath(c: char): string
  {
    DiagramDirectory + Codepoint(c) + "_anim.gif"
  }

  /** Where `create_kanimaji_gif` looks for the character's KanjiVG drawing. */
  function SvgPath(c: char): string
  {
    SvgDirectory + Codepoint(c) + ".svg"
  }

  /**
   * Where kanimaji's `create_gif` leaves the animation of the SVG
   * `{directory}{stem}.svg`: at `output` when one is given, else as
   * `{stem}_anim.gif` in the SVG's own directory.
   */
  function KanimajiOutput(directory: string, stem: string, output: Option<string>): (r: string)
    ensures output.Some? ==> r == output.value
    ensures output.None? ==> |directory| <= |r| && r[..|directory|] == directory
  {
    if output.Some? then output.value else directory + stem + "_anim.gif"
  }

  /** Without `output`, the animation is written beside the SVG, not at the path sent. */
  lemma GeneratedElsewhere(c: char)
    ensures KanimajiOutput(SvgDirectory, Codepoint(c), None) != DiagramPath(c)
  {
    var written := KanimajiOutput(SvgDirectory, Codepoint(c), None);
    assert written[23] == SvgDirectory[23] == 's';
    assert DiagramPath(c)[23] == DiagramDirectory[23] == 'k';
  }

  /** A stroke diagram to attach: the path on disk and the name it is sent under. */
  datatype DiagramFile = DiagramFile(path: string, filename: string)

  /** What `get_stroke_diagram` gives back, or the exception it raises. */
  datatype DiagramResult =
    | Found(file: DiagramFile)   // a `discord.File` opened on the path
    | NoDiagram(message: string) // the ValueError of `create_kanimaji_gif`
    | Unreadable(path: string)   // FileNotFoundError: `discord.File` opens a path nothing wrote

  /** The name a diagram is sent under: the character's name, spaces as underscores. */
  function DiagramName(c: char, name: char -> string): string
  {
    ReplaceChar(name(c) + ".gif", ' ', '_')
  }

  /** `discord.File(path, filename)` opens the path at once. */
  function OpenFile(path: string, filename: string, files: set<string>): (r: DiagramResult)
    ensures r.Found? <==> path in files
    ensures r.Found? ==> r.file == DiagramFile(path, filename)
    ensures r.Unreadable? <==> path !in files
    ensures r.Unreadable? ==> r.path == path
  {
    if path in files then Found(DiagramFile(path, filename)) else Unreadable(path)
  }

  /**
   * `get_stroke_diagram` as written: the animated diagram if it is on disk,
   * else, when the character's SVG exists, `kanimaji.create_gif` is run
   * without `output` and the diagram path is opened; with neither file the
   * ValueError "No stroke diagram found." is raised.
   */
  function StrokeDiagram(c: char, name: char -> string, files: set<string>): (r: DiagramResult)
    ensures r.Found? <==> DiagramPath(c) in files
    ensures r.Found? ==> r.file == DiagramFile(DiagramPath(c), DiagramName(c, name))
    ensures r.NoDiagram? <==> DiagramPath(c) !in files && SvgPath(c) !in files
    ensures r.NoDiagram? ==> r.message == "No stroke diagram found."
    ensures r.Unreadable? <==> DiagramPath(c) !in files && SvgPath(c) in files
    ensures r.Unreadable? ==> r.path == DiagramPath(c)
  {
    if DiagramPath(c) in files then
      OpenFile(DiagramPath(c), DiagramName(c, name), files)
    else if SvgPath(c) !in files then
      NoDiagram("No stroke diagram found.")
    else
      GeneratedElsewhere(c);
      var written := files + {KanimajiOutput(SvgDirectory, Codepoint(c), None)};
      OpenFile(DiagramPath(c), DiagramName(c, name), written)
  }

  /**
   * `get_stroke_diagram` with the generated animation written where it is
   * then opened, by passing the diagram path as `output`.
   */
  function IntendedStrokeDiagram(c: char, name: char -> string, files: set<string>): (r: DiagramResult)
    ensures r.Found? <==> DiagramPath(c) in files || SvgPath(c) in files
    ensures r.Found? ==> r.file == DiagramFile(DiagramPath(c), DiagramName(c, name))
    ensures r.NoDiagram? <==> DiagramPath(c) !in files && SvgPath(c) !in files
    ensures r.NoDiagram? ==> r.message == "No stroke diagram found."
    ensures !r.Unreadable?
  {
    if DiagramPath(c) in files then
      OpenFile(DiagramPath(c), DiagramName(c, name), files)
    else if SvgPath(c) !in files then
      NoDiagram("No stroke diagram found.")
    else
      var written := files + {KanimajiOutput(SvgDirectory, Codepoint(c), Some(DiagramPath(c)))};
      OpenFile(DiagramPath(c), DiagramName(c, name), written)
  }

  /**
   * The code as written and the intended lookup differ exactly for a
   * character whose SVG exists but whose animation does not: there the
   * code fails to open the file it meant to generate.
   */
  lemma SvgOnlyUnreadable(c: char, name: char -> string, files: set<string>)
    ensures StrokeDiagram(c, name, files) != IntendedStrokeDiagram(c, name, files) <==>
      DiagramPath(c) !in files && SvgPath(c) in files
    ensures DiagramPath(c) !in files && SvgPath(c) in files ==>
      && StrokeDiagram(c, name, files) == Unreadable(DiagramPath(c))
      && IntendedStrokeDiagram(c, name, files) == Found(DiagramFile(DiagramPath(c), DiagramName(c, name)))
  {
  }

  /** Hexadecimal digits read back give the number they were written from. */
  lemma {:induction false} HexDigitsValue(n: nat)
    ensures HexValue(HexDigits(n)) == n
    decreases n
  {
    if n >= 16 {
      var r := HexDigits(n);
      assert r[..|r| - 1] == HexDigits(n / 16);
      HexDigitsValue(n / 16);
    }
  }

  /** Leading zeros do not change the value of a hexadecimal string. */
  lemma {:induction false} ZerosValue(k: nat, s: string)
    requires forall i :: 0 <= i < |s| ==> IsLowerHexDigit(s[i])
    ensures forall i :: 0 <= i < |Zeros(k) + s| ==> IsLowerHexDigit((Zeros(k) + s)[i])
    ensures HexValue(Zeros(k) + s) == HexValue(s)
    decreases |s|
  {
    var t := Zeros(k) + s;
    if s == [] {
      assert t == Zeros(k);
      ZerosAlone(k);
    } else {
      assert t[..|t| - 1] == Zeros(k) + s[..|s| - 1];
      ZerosValue(k, s[..|s| - 1]);
    }
  }

  lemma {:induction false} ZerosAlone(k: nat)
    ensures forall i :: 0 <= i < k ==> IsLowerHexDigit(Zeros(k)[i])
    ensures HexValue(Zeros(k)) == 0
  {
    if k > 0 {
      var z := Zeros(k);
      assert z[..k - 1] == Zeros(k - 1);
      ZerosAlone(k - 1);
    }
  }

  /**
   * The code point part of the path is lower-case hexadecimal that reads
   * back as the character's code point, five digits long below U+100000;
   * so different characters never share a path.
   */
  lemma CodepointRoundTrip(c: char)
    ensures forall i :: 0 <= i < |Codepoint(c)| ==> IsLowerHexDigit(Codepoint(c)[i])
    ensures HexValue(Codepoint(c)) == c as int
    ensures c as int < 0x10_0000 ==> |Codepoint(c)| == 5
  {
    var n := c as int;
    var digits := HexDigits(n);
    HexDigitsValue(n);
    if |digits| < 5 {
      ZerosValue(5 - |digits|, digits);
    }
    if n < 0x10_0000 {
      HexDigitsLength(n, 5);
    }
  }

  /** A number below 16^w has at most w hexadecimal digits. */
  lemma {:induction false} HexDigitsLength(n: nat, w: nat)
    requires w >= 1
    requires n < Power16(w)
    ensures |HexDigits(n)| <= w
    decreases w
  {
    assert Power16(1) == 16;
    if n >= 16 {
      assert n / 16 < Power16(w - 1);
      HexDigitsLength(n / 16, w - 1);
    }
  }

  function Power16(w: nat): nat
  {
    if w == 0 then 1 else 16 * Power16(w - 1)
  }

  /** Two characters with the same diagram path are the same character. */
  lemma DiagramPathInjective(c: char, d: char)
    requires DiagramPath(c) == DiagramPath(d)
    ensures c == d
  {
    var p := |DiagramDirectory|;
    var pc, pd := DiagramPath(c), DiagramPath(d);
    assert pc[p..|pc| - 9] == Codepoint(c);
    assert pd[p..|pd| - 9] == Codepoint(d);
    CodepointRoundTrip(c);
    CodepointRoundTrip(d);
  }

  // ---------------------------------------------------------------------
  // The embed text

  const IdeographicComma: string := "、"

  /** Python's truthiness of an optional number: present and not zero. */
  predicate Truthy(x: Option<int>)
  {
    x.Some? && x.value != 0
  }

  /** The lines of the description: the stroke count, then each truthy optional number in turn. */
  function DescriptionLines(k: Kanjidic2.Kanji): seq<string>
  {
    ["Stroke count: " + DecimalString(k.strokeCount)]
    + (if Truthy(k.grade) then ["Grade: " + DecimalString(k.grade.value)] else [])
    + (if Truthy(k.frequencyRank) then ["Frequency rank: #" + DecimalString(k.frequencyRank.value)] else [])
    + (if Truthy(k.oldJlptLevel) then ["Former JLPT level: " + DecimalString(k.oldJlptLevel.value)] else [])
  }

  /** Joining one more part appends the separator and the part. */
  lemma {:induction false} JoinSnoc(sep: string, parts: seq<string>, p: string)
    requires parts != []
    ensures Join(sep, parts + [p]) == Join(sep, parts) + (sep + p)
  {
    if |parts| == 1 {
      assert parts + [p] == [parts[0], p];
    } else {
      assert (parts + [p])[1..] == parts[1..] + [p];
      JoinSnoc(sep, parts[1..], p);
    }
  }

  /** The description, extended line by line. */
  method BuildDescription(k: Kanjidic2.Kanji) returns (description: string)
    ensures description == Join("\n", DescriptionLines(k))
  {
    var first := "Stroke count: " + DecimalString(k.strokeCount);
    description := first;
    ghost var lines := [first];
    if Truthy(k.grade) {
      var line := "Grade: " + DecimalString(k.grade.value);
      JoinSnoc("\n", lines, line);
      description := description + ("\n" + line);
      lines := lines + [line];
    }
    ghost var afterGrade := lines;
    if Truthy(k.frequencyRank) {
      var line := "Frequency rank: #" + DecimalString(k.frequencyRank.value);
      JoinSnoc("\n", lines, line);
      description := description + ("\n" + line);
      lines := lines + [line];
    }
    ghost var afterRank := lines;
    if Truthy(k.oldJlptLevel) {
      var line := "Former JLPT level: " + DecimalString(k.oldJlptLevel.value);
      JoinSnoc("\n", lines, line);
      description := description + ("\n" + line);
      lines := lines + [line];
    }
    assert afterGrade == [first] + (if Truthy(k.grade) then ["Grade: " + DecimalString(k.grade.value)] else []);
    assert lines == DescriptionLines(k);
  }

  /**
   * The description starts with the stroke count and has one more line for
   * each of grade, frequency rank and former JLPT level that is truthy, in
   * that order.
   */
  lemma DescriptionShape(k: Kanjidic2.Kanji)
    ensures var lines := DescriptionLines(k);
      && lines[0] == "Stroke count: " + DecimalString(k.strokeCount)
      && |lines| == 1 + (if Truthy(k.grade) then 1 else 0) + (if Truthy(k.frequencyRank) then 1 else 0)
                      + (if Truthy(k.oldJlptLevel) then 1 else 0)
      && (Truthy(k.grade) ==> lines[1] == "Grade: " + DecimalString(k.grade.value))
      && (Truthy(k.oldJlptLevel) ==> lines[|lines| - 1] == "Former JLPT level: " + DecimalString(k.oldJlptLevel.value))
      && (Truthy(k.frequencyRank) ==>
            lines[if Truthy(k.grade) then 2 else 1] == "Frequency rank: #" + DecimalString(k.frequencyRank.value))
  {
  }

  /** The heading of a group: its meanings between double underscores, or a placeholder. */
  function Heading(g: Kanjidic2.KanjiMeaningsReadings): string
  {
    if g.meanings != [] then "__" + Join("/", g.meanings) + "__" else "*(miscellaneous readings)*"
  }

  /** The lines of one group: the heading, then a kun line and an on line when there are such readings. */
  function GroupLines(g: Kanjidic2.KanjiMeaningsReadings): seq<string>
  {
    [Heading(g)]
    + (if g.kunReadings != [] then ["**kun:** " + Join(IdeographicComma, g.kunReadings)] else [])
    + (if g.onReadings != [] then ["**on:** " + Join(IdeographicComma, g.onReadings)] else [])
  }

  /** The lines of group i, followed by a "\n" separator unless it is the last group. */
  function Blocks(gs: seq<Kanjidic2.KanjiMeaningsReadings>): seq<seq<string>>
  {
    seq(|gs|, i requires 0 <= i < |gs| => GroupLines(gs[i]) + (if i + 1 != |gs| then ["\n"] else []))
  }

  /** The lines of all groups. */
  function MeaningsLines(gs: seq<Kanjidic2.KanjiMeaningsReadings>): seq<string>
  {
    Concat(Blocks(gs))
  }

  /** One turn of the group loop: the group's lines, then the separator unless it is the last group. */
  method AppendGroup(lines: seq<string>, mrObject: Kanjidic2.KanjiMeaningsReadings, isLast: bool)
    returns (out: seq<string>)
    ensures out == lines + (GroupLines(mrObject) + (if !isLast then ["\n"] else []))
  {
    out := lines;
    if mrObject.meanings != [] {
      out := out + ["__" + Join("/", mrObject.meanings) + "__"];
    } else {
      out := out + ["*(miscellaneous readings)*"];
    }
    assert out == lines + [Heading(mrObject)];
    ghost var afterHeading := out;
    if mrObject.kunReadings != [] {
      out := out + ["**kun:** " + Join(IdeographicComma, mrObject.kunReadings)];
    }
    ghost var afterKun := out;
    if mrObject.onReadings != [] {
      out := out + ["**on:** " + Join(IdeographicComma, mrObject.onReadings)];
    }
    assert out == lines + GroupLines(mrObject);
    if !isLast {
      out := out + ["\n"];
    }
  }

  /** The loop over the groups, appending each group's lines and the separators. */
  method BuildLines(gs: seq<Kanjidic2.KanjiMeaningsReadings>) returns (lines: seq<string>)
    ensures lines == MeaningsLines(gs)
  {
    lines := [];
    ghost var blocks := Blocks(gs);
    var i := 0;
    while i < |gs|
      invariant 0 <= i <= |gs|
      invariant lines == Concat(blocks[..i])
    {
      lines := AppendGroup(lines, gs[i], i + 1 == |gs|);
      ConcatStep(blocks, i);
      i := i + 1;
    }
    assert blocks[..i] == blocks;
  }

  /** Adding a group leaves the earlier blocks alone, except that the last one gains a separator. */
  lemma BlocksSnoc(gs: seq<Kanjidic2.KanjiMeaningsReadings>, g: Kanjidic2.KanjiMeaningsReadings)
    requires gs != []
    ensures Blocks(gs + [g])[..|gs| - 1] == Blocks(gs)[..|gs| - 1]
    ensures Blocks(gs + [g])[|gs| - 1] == Blocks(gs)[|gs| - 1] + ["\n"]
    ensures Blocks(gs + [g])[|gs|] == GroupLines(g)
  {
    var bs, cs := Blocks(gs), Blocks(gs + [g]);
    var n := |gs|;
    assert forall j :: 0 <= j < n - 1 ==> cs[j] == bs[j];
    assert (gs + [g])[n - 1] == gs[n - 1];
  }

  /**
   * Groups are separated by one "\n" line and the last group is followed by
   * none: adding a group after others adds the separator, then its lines.
   */
  lemma SeparatorBetweenGroups(gs: seq<Kanjidic2.KanjiMeaningsReadings>, g: Kanjidic2.KanjiMeaningsReadings)
    ensures gs == [] ==> MeaningsLines(gs + [g]) == GroupLines(g)
    ensures gs != [] ==> MeaningsLines(gs + [g]) == MeaningsLines(gs) + ["\n"] + GroupLines(g)
  {
    var bs, cs := Blocks(gs), Blocks(gs + [g]);
    var n := |gs|;
    if n == 0 {
      assert gs + [g] == [g];
      assert cs[0] == GroupLines(g);
      ConcatStep(cs, 0);
      assert cs[..1] == cs;
    } else {
      BlocksSnoc(gs, g);
      var prefix := Concat(bs[..n - 1]);
      ConcatStep(bs, n - 1);
      assert bs[..n] == bs;
      assert MeaningsLines(gs) == prefix + bs[n - 1];
      ConcatStep(cs, n - 1);
      assert Concat(cs[..n]) == prefix + (bs[n - 1] + ["\n"]);
      ConcatStep(cs, n);
      assert cs[..n + 1] == cs;
      assert MeaningsLines(gs + [g]) == prefix + (bs[n - 1] + ["\n"]) + GroupLines(g);
    }
  }

  // ---------------------------------------------------------------------
  // The two commands

  /** The Unicode names `kanji_search` and `strokeorder` accept. */
  const UnifiedPrefix: string := "CJK UNIFIED IDEOGRAPH"
  const CompatibilityPrefix: string := "CJK COMPATIBILITY IDEOGRAPH"

  datatype Field = Field(name: string, value: string)

  datatype Embed = Embed(author: string, description: string, fields: seq<Field>, thumbnail: Option<string>)

  /** The outcome of the two commands, in place of the message sent. */
  datatype Outcome =
    | TooLong                         // "Try doing one character at a time."
    | NameLookupFailed                // `unicodedata.name` of an empty string raises
    | NotKanji                        // the name is not a CJK ideograph's
    | NotInDictionary                 // no KANJIDIC2 row for the character
    | Lookup(embed: Embed, attachment: Option<DiagramFile>)
    | DiagramMissing(message: string) // `strokeorder` reports the ValueError
    | Diagram(file: DiagramFile)
    | Crashed(missing: string)       // FileNotFoundError escapes the command: nothing is sent

  /** The first kanji row for the character, as `.first()` returns it. */
  function FirstKanji(table: seq<Kanjidic2.Kanji>, character: string): (r: Option<Kanjidic2.Kanji>)
    ensures r.None? <==> forall i :: 0 <= i < |table| ==> table[i].character != character
    ensures r.Some? ==> r.value in table && r.value.character == character
  {
    if table == [] then None
    else if table[0].character == character then Some(table[0])
    else
      var rest := FirstKanji(table[1..], character);
      assert forall i :: 1 <= i < |table| ==> table[i] == table[1..][i - 1];
      rest
  }

  /** The meanings-and-readings rows of the character, in table order. */
  function RowsFor(table: seq<Kanjidic2.KanjiMeaningsReadings>, character: string): (r: seq<Kanjidic2.KanjiMeaningsReadings>)
    ensures forall x :: x in r <==> x in table && x.character == character
    ensures |r| <= |table|
  {
    if table == [] then []
    else
      var last := table[|table| - 1];
      RowsFor(table[..|table| - 1], character) + (if last.character == character then [last] else [])
  }

  /**
   * `.all()` keeps every matching row once, in table order: the rows of a
   * concatenation are the rows of each part.
   */
  lemma {:induction false} RowsForAppend(a: seq<Kanjidic2.KanjiMeaningsReadings>, b: seq<Kanjidic2.KanjiMeaningsReadings>,
                                         character: string)
    ensures RowsFor(a + b, character) == RowsFor(a, character) + RowsFor(b, character)
    decreases |b|
  {
    if b == [] {
      assert a + b == a;
    } else {
      var n := |b| - 1;
      assert a + b == (a + b[..n]) + [b[n]];
      assert b == b[..n] + [b[n]];
      RowsForSnoc(a + b[..n], b[n], character);
      RowsForSnoc(b[..n], b[n], character);
      RowsForAppend(a, b[..n], character);
    }
  }

  /** The rows of a table with one more row at its end. */
  lemma RowsForSnoc(t: seq<Kanjidic2.KanjiMeaningsReadings>, x: Kanjidic2.KanjiMeaningsReadings, character: string)
    ensures RowsFor(t + [x], character) == RowsFor(t, character) + (if x.character == character then [x] else [])
  {
    assert (t + [x])[..|t|] == t;
  }

  /** A single row is kept exactly when it is the character's. */
  lemma RowsForSingle(x: Kanjidic2.KanjiMeaningsReadings, character: string)
    ensures RowsFor([x], character) == if x.character == character then [x] else []
  {
    assert [x][..0] == [];
  }

  /**
   * `kanji_search`: the checks in order, then the embed with author line,
   * description, the meanings-and-readings field when the character has
   * groups, the nanori field when it has nanori, and the stroke diagram as
   * thumbnail when one is found.
   */
  method KanjiSearch(kanji: string, name: char -> string, kanjiTable: seq<Kanjidic2.Kanji>,
                     groupTable: seq<Kanjidic2.KanjiMeaningsReadings>, files: set<string>)
    returns (outcome: Outcome)
    ensures |kanji| > 1 <==> outcome == TooLong
    ensures |kanji| == 0 <==> outcome == NameLookupFailed
    ensures outcome == NotKanji <==>
      |kanji| == 1 && !StartsWithEither(name(kanji[0]), UnifiedPrefix, CompatibilityPrefix)
    ensures outcome == NotInDictionary <==>
      && |kanji| == 1 && StartsWithEither(name(kanji[0]), UnifiedPrefix, CompatibilityPrefix)
      && FirstKanji(kanjiTable, kanji).None?
    ensures outcome.Lookup? ==>
      var k := FirstKanji(kanjiTable, kanji).value;
      var groups := RowsFor(groupTable, kanji);
      var diagram := StrokeDiagram(kanji[0], name, files);
      && |kanji| == 1 && FirstKanji(kanjiTable, kanji).Some?
      && outcome.embed.author == "Kanji Lookup - " + kanji
      && outcome.embed.description == Join("\n", DescriptionLines(k))
      && outcome.embed.fields ==
           (if groups != [] then [Field("Meanings and Readings", Join("\n", MeaningsLines(groups)))] else [])
           + (if k.nanori != [] then [Field("Nanori (Pronunciation in names)", Join(IdeographicComma, k.nanori))] else [])
      && !diagram.Unreadable?
      && (diagram.Found? ==> outcome.attachment == Some(diagram.file)
                             && outcome.embed.thumbnail == Some("attachment://" + diagram.file.filename))
      && (diagram.NoDiagram? ==> outcome.attachment == None && outcome.embed.thumbnail == None)
    ensures outcome.Crashed? <==>
      && |kanji| == 1 && StartsWithEither(name(kanji[0]), UnifiedPrefix, CompatibilityPrefix)
      && FirstKanji(kanjiTable, kanji).Some?
      && DiagramPath(kanji[0]) !in files && SvgPath(kanji[0]) in files
    ensures outcome.Crashed? ==> outcome.missing == DiagramPath(kanji[0])
    ensures !outcome.DiagramMissing? && !outcome.Diagram?
  {
    if |kanji| > 1 {
      return TooLong;
    }
    if |kanji| == 0 {
      return NameLookupFailed;
    }
    if !StartsWithEither(name(kanji[0]), UnifiedPrefix, CompatibilityPrefix) {
      return NotKanji;
    }
    var row := FirstKanji(kanjiTable, kanji);
    if row.None? {
      return NotInDictionary;
    }
    var k := row.value;
    var meaningsReadings := RowsFor(groupTable, kanji);
    var description := BuildDescription(k);
    var lines := BuildLines(meaningsReadings);
    var fields: seq<Field> := [];
    if meaningsReadings != [] {
      fields := fields + [Field("Meanings and Readings", Join("\n", lines))];
    }
    if k.nanori != [] {
      fields := fields + [Field("Nanori (Pronunciation in names)", Join(IdeographicComma, k.nanori))];
    }
    var diagram := StrokeDiagram(kanji[0], name, files);
    if diagram.Unreadable? {
      return Crashed(diagram.path);
    }
    var thumbnail: Option<string> := None;
    var file: Option<DiagramFile> := None;
    if diagram.Found? {
      thumbnail := Some("attachment://" + diagram.file.filename);
      file := Some(diagram.file);
    }
    outcome := Lookup(Embed("Kanji Lookup - " + k.character, description, fields, thumbnail), file);
  }

  /**
   * `strokeorder`: the same checks, then the diagram, the ValueError's
   * message, or the FileNotFoundError that escapes the command.
   */
  function StrokeOrder(kanji: string, name: char -> string, files: set<string>): (r: Outcome)
    ensures |kanji| > 1 <==> r == TooLong
    ensures |kanji| == 0 <==> r == NameLookupFailed
    ensures r == NotKanji <==>
      |kanji| == 1 && !StartsWithEither(name(kanji[0]), UnifiedPrefix, CompatibilityPrefix)
    ensures r.Diagram? <==>
      && |kanji| == 1 && StartsWithEither(name(kanji[0]), UnifiedPrefix, CompatibilityPrefix)
      && DiagramPath(kanji[0]) in files
    ensures r.Diagram? ==>
      && r.file.path == DiagramPath(kanji[0])
      && r.file.filename == ReplaceChar(name(kanji[0]) + ".gif", ' ', '_')
    ensures r.DiagramMissing? <==>
      && |kanji| == 1 && StartsWithEither(name(kanji[0]), UnifiedPrefix, CompatibilityPrefix)
      && DiagramPath(kanji[0]) !in files && SvgPath(kanji[0]) !in files
    ensures r.DiagramMissing? ==> r.message == "No stroke diagram found."
    ensures r.Crashed? <==>
      && |kanji| == 1 && StartsWithEither(name(kanji[0]), UnifiedPrefix, CompatibilityPrefix)
      && DiagramPath(kanji[0]) !in files && SvgPath(kanji[0]) in files
    ensures r.Crashed? ==> r.missing == DiagramPath(kanji[0])
    ensures !r.NotInDictionary? && !r.Lookup?
  {
    if |kanji| > 1 then TooLong
    else if |kanji| == 0 then NameLookupFailed
    else if !StartsWithEither(name(kanji[0]), UnifiedPrefix, CompatibilityPrefix) then NotKanji
    else
      match StrokeDiagram(kanji[0], name, files)
      case Found(f) => Diagram(f)
      case NoDiagram(message) => DiagramMissing(message)
      case Unreadable(path) => Crashed(path)
  }
}
