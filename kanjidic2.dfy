/**
 * Flattening of one KANJIDIC2 <character> element into a `Kanji` row and
 * its `KanjiMeaningsReadings` rows (tango/utils/kanjidic2.py, `_make_kanji`;
 * the columns are those of tango/core/models/kanjidic2.py). The element
 * arrives already parsed: for each tag the texts of all its descendants of
 * that name, in document order, and its <rmgroup> elements.
 */
module Kanjidic2 {
  import opened Wrappers
  import opened Seqs

  /** A <reading>: its r_type attribute (the empty string when absent) and its text. */
  datatype ReadingNode = ReadingNode(rType: string, text: string)

  /** A <meaning>: its text and whether it carries any attribute (m_lang for non-English meanings). */
  datatype MeaningNode = MeaningNode(text: string, hasAttributes: bool)

  /** An <rmgroup>: its <reading> and <meaning> descendants in document order. */
  datatype RmGroupNode = RmGroupNode(readings: seq<ReadingNode>, meanings: seq<MeaningNode>)

  /**
   * A <character>: the texts of its <literal>, <stroke_count>, <grade>,
   * <jlpt>, <freq> and <nanori> descendants (numbers already read as
   * integers), and its <rmgroup> descendants.
   */
  datatype CharacterNode = CharacterNode(literal: seq<string>, strokeCount: seq<int>, grade: seq<int>,
                                         jlpt: seq<int>, freq: seq<int>, nanori: seq<string>,
                                         rmgroups: seq<RmGroupNode>)

  datatype Kanji = Kanji(character: string, strokeCount: int, grade: Option<int>,
                         oldJlptLevel: Option<int>, frequencyRank: Option<int>, nanori: seq<string>)

  datatype KanjiMeaningsReadings = KanjiMeaningsReadings(character: string, meanings: seq<string>,
                                                         onReadings: seq<string>, kunReadings: seq<string>)

  /** The IndexError `_get_single_data` raises when a required tag is absent. */
  datatype MissingTag = MissingTag(tag: string)

  /** `_get_optional_int`: the first value of the tag, or `None` when there is none. */
  function GetOptionalInt(values: seq<int>): Option<int>
  {
    if values == [] then None else Some(values[0])
  }

  /** The texts of the readings of type `t`, in document order. */
  function ReadingsOfType(rs: seq<ReadingNode>, t: string): seq<string>
  {
    if rs == [] then []
    else
      var last := rs[|rs| - 1];
      ReadingsOfType(rs[..|rs| - 1], t) + (if last.rType == t then [last.text] else [])
  }

  /** The texts of the meanings without attributes, in document order. */
  function PlainMeanings(ms: seq<MeaningNode>): seq<string>
  {
    if ms == [] then []
    else
      var last := ms[|ms| - 1];
      PlainMeanings(ms[..|ms| - 1]) + (if last.hasAttributes then [] else [last.text])
  }

  /** Every <meaning> of the character, whichever <rmgroup> holds it. */
  function AllMeanings(c: CharacterNode): seq<MeaningNode>
  {
    Concat(seq(|c.rmgroups|, i requires 0 <= i < |c.rmgroups| => c.rmgroups[i].meanings))
  }

  /** The row of one group: the character's meanings, the group's on and kun readings. */
  function GroupRow(character: string, meanings: seq<string>, g: RmGroupNode): KanjiMeaningsReadings
  {
    KanjiMeaningsReadings(character, meanings, ReadingsOfType(g.readings, "ja_on"),
                          ReadingsOfType(g.readings, "ja_kun"))
  }

  /**
   * What `_make_kanji` returns: an error when <literal> or <stroke_count> is
   * absent (the literal is looked up first), otherwise the kanji row and one
   * row per <rmgroup>.
   */
  function KanjiRows(c: CharacterNode): Result<(Kanji, seq<KanjiMeaningsReadings>), MissingTag>
  {
    if c.literal == [] then Failure(MissingTag("literal"))
    else if c.strokeCount == [] then Failure(MissingTag("stroke_count"))
    else
      var character := c.literal[0];
      var meanings := PlainMeanings(AllMeanings(c));
      Success((Kanji(character, c.strokeCount[0], GetOptionalInt(c.grade), GetOptionalInt(c.jlpt),
                     GetOptionalInt(c.freq), c.nanori),
               seq(|c.rmgroups|, i requires 0 <= i < |c.rmgroups| => GroupRow(character, meanings, c.rmgroups[i]))))
  }

  /** The reading loop of one group: on and kun readings appended as they come. */
  method SplitReadings(rs: seq<ReadingNode>) returns (onReadings: seq<string>, kunReadings: seq<string>)
    ensures onReadings == ReadingsOfType(rs, "ja_on")
    ensures kunReadings == ReadingsOfType(rs, "ja_kun")
  {
    onReadings, kunReadings := [], [];
    var j := 0;
    while j < |rs|
      invariant 0 <= j <= |rs|
      invariant onReadings == ReadingsOfType(rs[..j], "ja_on")
      invariant kunReadings == ReadingsOfType(rs[..j], "ja_kun")
    {
      assert rs[..j + 1][..j] == rs[..j];
      var reading := rs[j];
      if reading.rType == "ja_on" {
        onReadings := onReadings + [reading.text];
      } else if reading.rType == "ja_kun" {
        kunReadings := kunReadings + [reading.text];
      }
      j := j + 1;
    }
    assert rs[..j] == rs;
  }

  /** `_make_kanji`. */
  method MakeKanji(c: CharacterNode) returns (r: Result<(Kanji, seq<KanjiMeaningsReadings>), MissingTag>)
    ensures r == KanjiRows(c)
    ensures r.Failure? <==> c.literal == [] || c.strokeCount == []
    ensures r.Success? ==> |r.value.1| == |c.rmgroups|
  {
    if c.literal == [] {
      return Failure(MissingTag("literal"));
    }
    var character := c.literal[0];
    var nanori := c.nanori;
    if c.strokeCount == [] {
      return Failure(MissingTag("stroke_count"));
    }
    var kanji := Kanji(character, c.strokeCount[0], GetOptionalInt(c.grade), GetOptionalInt(c.jlpt),
                       GetOptionalInt(c.freq), nanori);

    var meaningsReadings: seq<KanjiMeaningsReadings> := [];
    var i := 0;
    while i < |c.rmgroups|
      invariant 0 <= i <= |c.rmgroups|
      invariant |meaningsReadings| == i
      invariant forall m :: 0 <= m < i ==>
        meaningsReadings[m] == GroupRow(character, PlainMeanings(AllMeanings(c)), c.rmgroups[m])
    {
      var rmGroup := c.rmgroups[i];
      var meanings := PlainMeanings(AllMeanings(c));
      var onReadings, kunReadings := SplitReadings(rmGroup.readings);
      meaningsReadings := meaningsReadings + [KanjiMeaningsReadings(character, meanings, onReadings, kunReadings)];
      i := i + 1;
    }
    assert meaningsReadings == KanjiRows(c).value.1;
    r := Success((kanji, meaningsReadings));
  }

  // ---------------------------------------------------------------------
  // Properties

  /** A text is an on (or kun) reading exactly when some reading of that type has it. */
  lemma {:induction false} ReadingsOfTypeMember(rs: seq<ReadingNode>, t: string, x: string)
    ensures x in ReadingsOfType(rs, t) <==> exists j :: 0 <= j < |rs| && rs[j] == ReadingNode(t, x)
  {
    if rs != [] {
      var n := |rs| - 1;
      ReadingsOfTypeMember(rs[..n], t, x);
      assert forall j :: 0 <= j < n ==> rs[..n][j] == rs[j];
    }
  }

  /** Readings of a type other than ja_on and ja_kun reach neither list. */
  lemma {:induction false} OtherTypesDropped(rs: seq<ReadingNode>, other: ReadingNode)
    requires other.rType != "ja_on" && other.rType != "ja_kun"
    ensures ReadingsOfType(rs + [other], "ja_on") == ReadingsOfType(rs, "ja_on")
    ensures ReadingsOfType(rs + [other], "ja_kun") == ReadingsOfType(rs, "ja_kun")
  {
    assert (rs + [other])[..|rs|] == rs;
  }

  /** A text is kept as a meaning exactly when some attribute-less <meaning> has it. */
  lemma {:induction false} PlainMeaningsMember(ms: seq<MeaningNode>, x: string)
    ensures x in PlainMeanings(ms) <==> MeaningNode(x, false) in ms
  {
    if ms != [] {
      var n := |ms| - 1;
      PlainMeaningsMember(ms[..n], x);
      assert ms == ms[..n] + [ms[n]];
    }
  }

  /**
   * There is one row per <rmgroup>, in order, each with the character's
   * literal and its group's readings; every row has the same meanings, and
   * a text is among them exactly when an attribute-less <meaning> anywhere
   * in the character has it, in whichever group.
   */
  lemma GroupRows(c: CharacterNode, x: string)
    requires KanjiRows(c).Success?
    ensures var rows := KanjiRows(c).value.1;
      && |rows| == |c.rmgroups|
      && forall i :: 0 <= i < |rows| ==>
           && rows[i].character == c.literal[0]
           && rows[i].meanings == rows[0].meanings
           && rows[i].onReadings == ReadingsOfType(c.rmgroups[i].readings, "ja_on")
           && rows[i].kunReadings == ReadingsOfType(c.rmgroups[i].readings, "ja_kun")
           && (x in rows[i].meanings <==>
                 exists g :: 0 <= g < |c.rmgroups| && MeaningNode(x, false) in c.rmgroups[g].meanings)
  {
    var groups := seq(|c.rmgroups|, i requires 0 <= i < |c.rmgroups| => c.rmgroups[i].meanings);
    PlainMeaningsMember(AllMeanings(c), x);
    ConcatMember(groups, MeaningNode(x, false));
    var meanings := PlainMeanings(AllMeanings(c));
    assert x in meanings <==> exists g :: 0 <= g < |c.rmgroups| && MeaningNode(x, false) in c.rmgroups[g].meanings by {
      assert forall g :: 0 <= g < |c.rmgroups| ==> groups[g] == c.rmgroups[g].meanings;
    }
    var rows := KanjiRows(c).value.1;
    assert forall i :: 0 <= i < |rows| ==> rows[i].meanings == meanings;
  }

  /** The three optional numbers are absent exactly when their tag is, and otherwise its first value. */
  lemma OptionalNumbers(c: CharacterNode)
    requires KanjiRows(c).Success?
    ensures var k := KanjiRows(c).value.0;
      && (k.grade.None? <==> c.grade == []) && (k.grade.Some? ==> k.grade.value == c.grade[0])
      && (k.oldJlptLevel.None? <==> c.jlpt == []) && (k.oldJlptLevel.Some? ==> k.oldJlptLevel.value == c.jlpt[0])
      && (k.frequencyRank.None? <==> c.freq == []) && (k.frequencyRank.Some? ==> k.frequencyRank.value == c.freq[0])
      && k.strokeCount == c.strokeCount[0]
      && k.nanori == c.nanori
  {
  }
}
