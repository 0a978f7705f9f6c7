/**
 * Flattening of one JMdict <entry> into the rows of the JMdict tables
 * (tango/utils/jmdict.py, `_parse_node`; the row columns are those of
 * tango/core/models/jmdict.py). The entry arrives already parsed: each field
 * of a node record holds, in document order, the child elements the
 * function searches for, and an absent attribute is `None`.
 */
module JMdict {
  import opened Wrappers
  import opened Seqs

  // ---------------------------------------------------------------------
  // The parsed <entry> element

  /** <k_ele>: the <keb> text, the <ke_pri> and the <ke_inf> texts. */
  datatype KanjiNode = KanjiNode(keb: string, kePri: seq<string>, keInf: seq<string>)

  /** <r_ele>: <reb>, <re_pri>, <re_inf>, whether <re_nokanji/> is present, the <re_restr> texts. */
  datatype ReadingNode = ReadingNode(reb: string, rePri: seq<string>, reInf: seq<string>,
                                     noKanji: bool, reRestr: seq<string>)

  /** <lsource>: its text and its xml:lang, ls_type and ls_wasei attributes. */
  datatype LSourceNode = LSourceNode(text: Option<string>, lang: Option<string>,
                                     lsType: Option<string>, lsWasei: Option<string>)

  /** <gloss>: its text and its xml:lang, g_gend and g_type attributes. */
  datatype GlossNode = GlossNode(text: Option<string>, lang: Option<string>,
                                 gGend: Option<string>, gType: Option<string>)

  /** <sense>: the texts of each kind of child element, and its <lsource> and <gloss> elements. */
  datatype SenseNode = SenseNode(stagk: seq<string>, stagr: seq<string>, pos: seq<string>,
                                 xref: seq<string>, ant: seq<string>, field: seq<string>,
                                 misc: seq<string>, lsource: seq<LSourceNode>, dial: seq<string>,
                                 gloss: seq<GlossNode>, sInf: seq<string>)

  /** <entry>: the <ent_seq> number and the <k_ele>, <r_ele> and <sense> elements. */
  datatype EntryNode = EntryNode(entSeq: int, kEle: seq<KanjiNode>, rEle: seq<ReadingNode>,
                                 sense: seq<SenseNode>)

  // ---------------------------------------------------------------------
  // The rows

  datatype Entry = Entry(id: int)
  datatype WritingElement = WritingElement(entryId: int, literal: string, priority: seq<string>, info: seq<string>)
  datatype ReadingElement = ReadingElement(entryId: int, literal: string, priority: seq<string>, info: seq<string>)
  datatype ReadingWriting = ReadingWriting(entryId: int, readingLiteral: string, writingLiteral: string)
  datatype Sense = Sense(entryId: int, index: int, references: seq<string>, antonyms: seq<string>,
                         partsOfSpeech: seq<string>, fields: seq<string>, misc: seq<string>,
                         dialects: seq<string>, info: seq<string>)
  datatype LSource = LSource(entryId: int, senseIndex: int, text: Option<string>, lang: string,
                             lsType: string, wasei: Option<string>)
  datatype Gloss = Gloss(entryId: int, senseIndex: int, text: Option<string>, lang: string,
                         gender: Option<string>, gType: Option<string>)
  datatype WritingSense = WritingSense(entryId: int, writingLiteral: string, senseIndex: int)
  datatype ReadingSense = ReadingSense(entryId: int, readingLiteral: string, senseIndex: int)

  /** The eight lists `_parse_node` returns beside the entry. */
  datatype Rows = Rows(writingElements: seq<WritingElement>,
                       readingElements: seq<ReadingElement>,
                       readingsWritings: seq<ReadingWriting>,
                       senses: seq<Sense>,
                       lsources: seq<LSource>,
                       glosses: seq<Gloss>,
                       writingsSenses: seq<WritingSense>,
                       readingsSenses: seq<ReadingSense>)

  // ---------------------------------------------------------------------
  // Reference definition: what each element contributes

  /** An attribute's value, or the default when the attribute is absent (`node.get(name, default)`). */
  function GetOr(attr: Option<string>, default: string): string
  {
    if attr.Some? then attr.value else default
  }

  function Kebs(ks: seq<KanjiNode>): seq<string>
  {
    seq(|ks|, i requires 0 <= i < |ks| => ks[i].keb)
  }

  function Rebs(rs: seq<ReadingNode>): seq<string>
  {
    seq(|rs|, i requires 0 <= i < |rs| => rs[i].reb)
  }

  /** The writings a reading is linked to: none, its restrictions, or every writing. */
  function MappedWritings(r: ReadingNode, kebs: seq<string>): seq<string>
  {
    if r.noKanji then [] else if r.reRestr != [] then r.reRestr else kebs
  }

  /** The writings a sense applies to: its <stagk> texts, or every writing. */
  function RelatedWritings(s: SenseNode, kebs: seq<string>): seq<string>
  {
    if s.stagk != [] then s.stagk else kebs
  }

  /** The readings a sense applies to: its <stagr> texts, or every reading. */
  function RelatedReadings(s: SenseNode, rebs: seq<string>): seq<string>
  {
    if s.stagr != [] then s.stagr else rebs
  }

  function LSourceOf(id: int, index: int, l: LSourceNode): LSource
  {
    LSource(id, index, l.text, GetOr(l.lang, "eng"), GetOr(l.lsType, "full"), l.lsWasei)
  }

  function GlossOf(id: int, index: int, g: GlossNode): Gloss
  {
    Gloss(id, index, g.text, GetOr(g.lang, "eng"), g.gGend, g.gType)
  }

  /** The link rows of one reading: one per writing it is linked to. */
  function LinksOf(id: int, reb: string, ws: seq<string>): seq<ReadingWriting>
  {
    seq(|ws|, j requires 0 <= j < |ws| => ReadingWriting(id, reb, ws[j]))
  }

  function LSourcesOf(id: int, index: int, ls: seq<LSourceNode>): seq<LSource>
  {
    seq(|ls|, j requires 0 <= j < |ls| => LSourceOf(id, index, ls[j]))
  }

  function GlossesOf(id: int, index: int, gs: seq<GlossNode>): seq<Gloss>
  {
    seq(|gs|, j requires 0 <= j < |gs| => GlossOf(id, index, gs[j]))
  }

  function WritingSensesOf(id: int, index: int, ws: seq<string>): seq<WritingSense>
  {
    seq(|ws|, j requires 0 <= j < |ws| => WritingSense(id, ws[j], index))
  }

  function ReadingSensesOf(id: int, index: int, rs: seq<string>): seq<ReadingSense>
  {
    seq(|rs|, j requires 0 <= j < |rs| => ReadingSense(id, rs[j], index))
  }

  function SenseOf(id: int, index: int, s: SenseNode): Sense
  {
    Sense(id, index, s.xref, s.ant, s.pos, s.field, s.misc, s.dial, s.sInf)
  }

  /** The link rows, reading by reading. */
  function LinkGroups(id: int, rs: seq<ReadingNode>, kebs: seq<string>): seq<seq<ReadingWriting>>
  {
    seq(|rs|, i requires 0 <= i < |rs| => LinksOf(id, rs[i].reb, MappedWritings(rs[i], kebs)))
  }

  /** The <lsource> rows, sense by sense; sense k has index k + 1. */
  function LSourceGroups(id: int, ss: seq<SenseNode>): seq<seq<LSource>>
  {
    seq(|ss|, k requires 0 <= k < |ss| => LSourcesOf(id, k + 1, ss[k].lsource))
  }

  /** The <gloss> rows, sense by sense. */
  function GlossGroups(id: int, ss: seq<SenseNode>): seq<seq<Gloss>>
  {
    seq(|ss|, k requires 0 <= k < |ss| => GlossesOf(id, k + 1, ss[k].gloss))
  }

  /** The sense-to-writing links, sense by sense. */
  function WritingSenseGroups(id: int, ss: seq<SenseNode>, kebs: seq<string>): seq<seq<WritingSense>>
  {
    seq(|ss|, k requires 0 <= k < |ss| => WritingSensesOf(id, k + 1, RelatedWritings(ss[k], kebs)))
  }

  /** The sense-to-reading links, sense by sense. */
  function ReadingSenseGroups(id: int, ss: seq<SenseNode>, rebs: seq<string>): seq<seq<ReadingSense>>
  {
    seq(|ss|, k requires 0 <= k < |ss| => ReadingSensesOf(id, k + 1, RelatedReadings(ss[k], rebs)))
  }

  /** The <k_ele> rows. */
  function WritingElementsOf(id: int, ks: seq<KanjiNode>): seq<WritingElement>
  {
    seq(|ks|, i requires 0 <= i < |ks| => WritingElement(id, ks[i].keb, ks[i].kePri, ks[i].keInf))
  }

  /** The <r_ele> rows. */
  function ReadingElementsOf(id: int, rs: seq<ReadingNode>): seq<ReadingElement>
  {
    seq(|rs|, i requires 0 <= i < |rs| => ReadingElement(id, rs[i].reb, rs[i].rePri, rs[i].reInf))
  }

  /** The <sense> rows; sense k has index k + 1 and exactly its own <pos> and <misc>. */
  function SensesOf(id: int, ss: seq<SenseNode>): seq<Sense>
  {
    seq(|ss|, k requires 0 <= k < |ss| => SenseOf(id, k + 1, ss[k]))
  }

  /**
   * The rows of an entry, list by list: one row per element, in document
   * order, each carrying the entry's number.
   */
  function Flatten(e: EntryNode): Rows
  {
    var id := e.entSeq;
    Rows(
      WritingElementsOf(id, e.kEle),
      ReadingElementsOf(id, e.rEle),
      Concat(LinkGroups(id, e.rEle, Kebs(e.kEle))),
      SensesOf(id, e.sense),
      Concat(LSourceGroups(id, e.sense)),
      Concat(GlossGroups(id, e.sense)),
      Concat(WritingSenseGroups(id, e.sense, Kebs(e.kEle))),
      Concat(ReadingSenseGroups(id, e.sense, Rebs(e.rEle))))
  }

  // ---------------------------------------------------------------------
  // The function itself, loop by loop

  /** `[w.literal for w in writing_elements]` */
  function WritingLiterals(ws: seq<WritingElement>): seq<string>
  {
    seq(|ws|, i requires 0 <= i < |ws| => ws[i].literal)
  }

  /** `[r.literal for r in reading_elements]` */
  function ReadingLiterals(rs: seq<ReadingElement>): seq<string>
  {
    seq(|rs|, i requires 0 <= i < |rs| => rs[i].literal)
  }


  /** The link rows the reading-to-writings pairs give, pair by pair. */
  function MappingLinks(id: int, mapping: seq<(ReadingElement, seq<string>)>): seq<seq<ReadingWriting>>
  {
    seq(|mapping|, i requires 0 <= i < |mapping| => LinksOf(id, mapping[i].0.literal, mapping[i].1))
  }

  /** The <k_ele> loop: one writing row per element, in order. */
  method ParseWritingElements(entryId: int, ks: seq<KanjiNode>) returns (writingElements: seq<WritingElement>)
    ensures writingElements == WritingElementsOf(entryId, ks)
    ensures WritingLiterals(writingElements) == Kebs(ks)
  {
    writingElements := [];
    var i := 0;
    while i < |ks|
      invariant 0 <= i <= |ks|
      invariant writingElements == WritingElementsOf(entryId, ks)[..i]
    {
      var k := ks[i];
      writingElements := writingElements + [WritingElement(entryId, k.keb, k.kePri, k.keInf)];
      i := i + 1;
    }
  }

  /**
   * The <r_ele> loop: each reading row paired with the writing literals it
   * is linked to. <re_nokanji/> is tested before <re_restr>.
   */
  method ParseReadingElements(entryId: int, rs: seq<ReadingNode>, writingElements: seq<WritingElement>)
    returns (mapping: seq<(ReadingElement, seq<string>)>)
    ensures |mapping| == |rs|
    ensures forall i :: 0 <= i < |rs| ==>
      mapping[i] == (ReadingElementsOf(entryId, rs)[i], MappedWritings(rs[i], WritingLiterals(writingElements)))
  {
    mapping := [];
    var i := 0;
    while i < |rs|
      invariant 0 <= i <= |rs|
      invariant |mapping| == i
      invariant forall m :: 0 <= m < i ==>
        mapping[m] == (ReadingElementsOf(entryId, rs)[m], MappedWritings(rs[m], WritingLiterals(writingElements)))
    {
      var r := rs[i];
      var readingElem := ReadingElement(entryId, r.reb, r.rePri, r.reInf);
      if r.noKanji {
        mapping := mapping + [(readingElem, [])];
      } else if r.reRestr != [] {
        mapping := mapping + [(readingElem, r.reRestr)];
      } else {
        mapping := mapping + [(readingElem, WritingLiterals(writingElements))];
      }
      i := i + 1;
    }
  }

  /** The loop over the pairs: one link row per mapped writing, pair after pair. */
  method ParseReadingsWritings(entryId: int, mapping: seq<(ReadingElement, seq<string>)>)
    returns (readingsWritings: seq<ReadingWriting>)
    ensures readingsWritings == Concat(MappingLinks(entryId, mapping))
  {
    ghost var links := MappingLinks(entryId, mapping);
    readingsWritings := [];
    var i := 0;
    while i < |mapping|
      invariant 0 <= i <= |mapping|
      invariant readingsWritings == Concat(links[..i])
    {
      var (readingElem, writingLiterals) := mapping[i];
      var readingWriting := seq(|writingLiterals|, j requires 0 <= j < |writingLiterals| =>
        ReadingWriting(entryId, readingElem.literal, writingLiterals[j]));
      assert links[..i + 1] == links[..i] + [readingWriting];
      ConcatSnoc(links[..i], readingWriting);
      readingsWritings := readingsWritings + readingWriting;
      i := i + 1;
    }
    assert links[..i] == links;
  }

  /**
   * The body of the <sense> loop after the sense row: the <lsource> and
   * <gloss> rows, then the links to the related writings and readings.
   */
  method ParseSenseChildren(entryId: int, senseIndex: int, senseNode: SenseNode,
                            writingLiterals: seq<string>, readingLiterals: seq<string>)
    returns (lsources: seq<LSource>, glosses: seq<Gloss>,
             writingsSenses: seq<WritingSense>, readingsSenses: seq<ReadingSense>)
    ensures lsources == LSourcesOf(entryId, senseIndex, senseNode.lsource)
    ensures glosses == GlossesOf(entryId, senseIndex, senseNode.gloss)
    ensures writingsSenses == WritingSensesOf(entryId, senseIndex, RelatedWritings(senseNode, writingLiterals))
    ensures readingsSenses == ReadingSensesOf(entryId, senseIndex, RelatedReadings(senseNode, readingLiterals))
  {
    lsources, glosses, writingsSenses, readingsSenses := [], [], [], [];
    var j := 0;
    while j < |senseNode.lsource|
      invariant 0 <= j <= |senseNode.lsource|
      invariant lsources == LSourcesOf(entryId, senseIndex, senseNode.lsource)[..j]
    {
      var l := senseNode.lsource[j];
      lsources := lsources + [LSource(entryId, senseIndex, l.text, GetOr(l.lang, "eng"),
                                      GetOr(l.lsType, "full"), l.lsWasei)];
      j := j + 1;
    }

    j := 0;
    while j < |senseNode.gloss|
      invariant 0 <= j <= |senseNode.gloss|
      invariant glosses == GlossesOf(entryId, senseIndex, senseNode.gloss)[..j]
    {
      var g := senseNode.gloss[j];
      glosses := glosses + [Gloss(entryId, senseIndex, g.text, GetOr(g.lang, "eng"), g.gGend, g.gType)];
      j := j + 1;
    }

    var relatedWritings := if senseNode.stagk != [] then senseNode.stagk else writingLiterals;
    var relatedReadings := if senseNode.stagr != [] then senseNode.stagr else readingLiterals;

    j := 0;
    while j < |relatedWritings|
      invariant 0 <= j <= |relatedWritings|
      invariant writingsSenses == WritingSensesOf(entryId, senseIndex, relatedWritings)[..j]
    {
      writingsSenses := writingsSenses + [WritingSense(entryId, relatedWritings[j], senseIndex)];
      j := j + 1;
    }

    j := 0;
    while j < |relatedReadings|
      invariant 0 <= j <= |relatedReadings|
      invariant readingsSenses == ReadingSensesOf(entryId, senseIndex, relatedReadings)[..j]
    {
      readingsSenses := readingsSenses + [ReadingSense(entryId, relatedReadings[j], senseIndex)];
      j := j + 1;
    }
  }

  /**
   * The <sense> loop: sense k gets index k + 1, and the remembered <pos> and
   * <misc>, never updated after their initial `None`, never replace a
   * sense's own tags.
   */
  method ParseSenses(entryId: int, ss: seq<SenseNode>, writingLiterals: seq<string>, readingLiterals: seq<string>)
    returns (senses: seq<Sense>, lsources: seq<LSource>, glosses: seq<Gloss>,
             writingsSenses: seq<WritingSense>, readingsSenses: seq<ReadingSense>)
    ensures senses == SensesOf(entryId, ss)
    ensures lsources == Concat(LSourceGroups(entryId, ss))
    ensures glosses == Concat(GlossGroups(entryId, ss))
    ensures writingsSenses == Concat(WritingSenseGroups(entryId, ss, writingLiterals))
    ensures readingsSenses == Concat(ReadingSenseGroups(entryId, ss, readingLiterals))
  {
    senses, lsources, glosses, writingsSenses, readingsSenses := [], [], [], [], [];
    var lastPartsOfSpeech: Option<seq<string>> := None;
    var lastMisc: Option<seq<string>> := None;
    ghost var lsGroups := LSourceGroups(entryId, ss);
    ghost var glGroups := GlossGroups(entryId, ss);
    ghost var wsGroups := WritingSenseGroups(entryId, ss, writingLiterals);
    ghost var rsGroups := ReadingSenseGroups(entryId, ss, readingLiterals);
    var n := 0;
    while n < |ss|
      invariant 0 <= n <= |ss|
      invariant lastPartsOfSpeech == None && lastMisc == None
      invariant senses == SensesOf(entryId, ss)[..n]
      invariant lsources == Concat(lsGroups[..n])
      invariant glosses == Concat(glGroups[..n])
      invariant writingsSenses == Concat(wsGroups[..n])
      invariant readingsSenses == Concat(rsGroups[..n])
    {
      var senseIndex := n + 1;
      var senseNode := ss[n];
      var newPartsOfSpeech := senseNode.pos;
      var newMisc := senseNode.misc;
      // `new if last is None or new else last`
      var partsOfSpeech := match lastPartsOfSpeech
        case None => newPartsOfSpeech
        case Some(last) => if newPartsOfSpeech != [] then newPartsOfSpeech else last;
      var misc := match lastMisc
        case None => newMisc
        case Some(last) => if newMisc != [] then newMisc else last;
      var sense := Sense(entryId, senseIndex, senseNode.xref, senseNode.ant, partsOfSpeech,
                         senseNode.field, misc, senseNode.dial, senseNode.sInf);
      assert sense == SensesOf(entryId, ss)[n];
      assert SensesOf(entryId, ss)[..n + 1] == senses + [sense];
      senses := senses + [sense];

      var ls, gl, ws, rs := ParseSenseChildren(entryId, senseIndex, senseNode, writingLiterals, readingLiterals);
      assert ls == lsGroups[n] && gl == glGroups[n] && ws == wsGroups[n] && rs == rsGroups[n];
      ConcatStep(lsGroups, n);
      ConcatStep(glGroups, n);
      ConcatStep(wsGroups, n);
      ConcatStep(rsGroups, n);
      lsources := lsources + ls;
      glosses := glosses + gl;
      writingsSenses := writingsSenses + ws;
      readingsSenses := readingsSenses + rs;
      n := n + 1;
    }
    assert lsGroups[..n] == lsGroups && glGroups[..n] == glGroups;
    assert wsGroups[..n] == wsGroups && rsGroups[..n] == rsGroups;
  }

  /**
   * `_parse_node`. The reading-to-writings dictionary is keyed by freshly
   * built row objects, which hash by identity, so it holds one pair per
   * <r_ele> in insertion order; it is kept here as a list of pairs.
   */
  method ParseNode(e: EntryNode) returns (entry: Entry, rows: Rows)
    ensures entry == Entry(e.entSeq)
    ensures rows == Flatten(e)
    ensures |rows.senses| == |e.sense|
    ensures forall k :: 0 <= k < |e.sense| ==>
      && rows.senses[k].index == k + 1
      && rows.senses[k].partsOfSpeech == e.sense[k].pos
      && rows.senses[k].misc == e.sense[k].misc
  {
    var entryId := e.entSeq;
    entry := Entry(entryId);

    var writingElements := ParseWritingElements(entryId, e.kEle);
    var mapping := ParseReadingElements(entryId, e.rEle, writingElements);
    var readingElements: seq<ReadingElement> := [];
    readingElements := readingElements + seq(|mapping|, i requires 0 <= i < |mapping| => mapping[i].0);
    assert readingElements == ReadingElementsOf(entryId, e.rEle);
    assert ReadingLiterals(readingElements) == Rebs(e.rEle);
    var readingsWritings := ParseReadingsWritings(entryId, mapping);
    assert MappingLinks(entryId, mapping) == LinkGroups(entryId, e.rEle, Kebs(e.kEle));

    var senses, lsources, glosses, writingsSenses, readingsSenses :=
      ParseSenses(entryId, e.sense, WritingLiterals(writingElements), ReadingLiterals(readingElements));

    rows := Rows(writingElements, readingElements, readingsWritings, senses,
                 lsources, glosses, writingsSenses, readingsSenses);
  }

  // ---------------------------------------------------------------------
  // What the rows say about the entry

  /**
   * A reading-writing row links reading r to writing w exactly when r is
   * the <reb> of some <r_ele> whose mapped writings contain w: none with
   * <re_nokanji/>, else its <re_restr> texts, else every <keb>.
   */
  lemma LinkRows(e: EntryNode, rw: ReadingWriting)
    ensures rw in Flatten(e).readingsWritings <==>
      && rw.entryId == e.entSeq
      && exists i :: 0 <= i < |e.rEle| && rw.readingLiteral == e.rEle[i].reb
                     && rw.writingLiteral in MappedWritings(e.rEle[i], Kebs(e.kEle))
  {
    var groups := LinkGroups(e.entSeq, e.rEle, Kebs(e.kEle));
    ConcatMember(groups, rw);
    if rw in Flatten(e).readingsWritings {
      var i :| 0 <= i < |groups| && rw in groups[i];
      var j :| 0 <= j < |groups[i]| && groups[i][j] == rw;
      assert rw.writingLiteral == MappedWritings(e.rEle[i], Kebs(e.kEle))[j];
    }
    if rw.entryId == e.entSeq && (exists i :: 0 <= i < |e.rEle| && rw.readingLiteral == e.rEle[i].reb
                                    && rw.writingLiteral in MappedWritings(e.rEle[i], Kebs(e.kEle))) {
      var i :| 0 <= i < |e.rEle| && rw.readingLiteral == e.rEle[i].reb
               && rw.writingLiteral in MappedWritings(e.rEle[i], Kebs(e.kEle));
      var ws := MappedWritings(e.rEle[i], Kebs(e.kEle));
      var j :| 0 <= j < |ws| && ws[j] == rw.writingLiteral;
      assert groups[i][j] == rw;
    }
  }

  /**
   * Every gloss row comes from one <gloss> of sense k, carries index k + 1
   * and the entry's number, and has xml:lang defaulted to "eng"; every
   * <gloss> gives such a row.
   */
  lemma GlossRows(e: EntryNode, g: Gloss)
    ensures g in Flatten(e).glosses <==>
      exists k, j :: 0 <= k < |e.sense| && 0 <= j < |e.sense[k].gloss| &&
        g == Gloss(e.entSeq, k + 1, e.sense[k].gloss[j].text, GetOr(e.sense[k].gloss[j].lang, "eng"),
                   e.sense[k].gloss[j].gGend, e.sense[k].gloss[j].gType)
  {
    var groups := GlossGroups(e.entSeq, e.sense);
    ConcatMember(groups, g);
    if g in Flatten(e).glosses {
      var k :| 0 <= k < |groups| && g in groups[k];
      var j :| 0 <= j < |groups[k]| && groups[k][j] == g;
      assert g == GlossOf(e.entSeq, k + 1, e.sense[k].gloss[j]);
    }
    if exists k, j :: 0 <= k < |e.sense| && 0 <= j < |e.sense[k].gloss| &&
        g == Gloss(e.entSeq, k + 1, e.sense[k].gloss[j].text, GetOr(e.sense[k].gloss[j].lang, "eng"),
                   e.sense[k].gloss[j].gGend, e.sense[k].gloss[j].gType) {
      var k, j :| 0 <= k < |e.sense| && 0 <= j < |e.sense[k].gloss| &&
        g == Gloss(e.entSeq, k + 1, e.sense[k].gloss[j].text, GetOr(e.sense[k].gloss[j].lang, "eng"),
                   e.sense[k].gloss[j].gGend, e.sense[k].gloss[j].gType);
      assert groups[k][j] == g;
    }
  }

  /**
   * Every lsource row comes from one <lsource> of sense k, carries index
   * k + 1 and the entry's number, with xml:lang defaulted to "eng" and
   * ls_type to "full"; every <lsource> gives such a row.
   */
  lemma LSourceRows(e: EntryNode, l: LSource)
    ensures l in Flatten(e).lsources <==>
      exists k, j :: 0 <= k < |e.sense| && 0 <= j < |e.sense[k].lsource| &&
        l == LSource(e.entSeq, k + 1, e.sense[k].lsource[j].text, GetOr(e.sense[k].lsource[j].lang, "eng"),
                     GetOr(e.sense[k].lsource[j].lsType, "full"), e.sense[k].lsource[j].lsWasei)
  {
    var groups := LSourceGroups(e.entSeq, e.sense);
    ConcatMember(groups, l);
    if l in Flatten(e).lsources {
      var k :| 0 <= k < |groups| && l in groups[k];
      var j :| 0 <= j < |groups[k]| && groups[k][j] == l;
      assert l == LSourceOf(e.entSeq, k + 1, e.sense[k].lsource[j]);
    }
    if exists k, j :: 0 <= k < |e.sense| && 0 <= j < |e.sense[k].lsource| &&
        l == LSource(e.entSeq, k + 1, e.sense[k].lsource[j].text, GetOr(e.sense[k].lsource[j].lang, "eng"),
                     GetOr(e.sense[k].lsource[j].lsType, "full"), e.sense[k].lsource[j].lsWasei) {
      var k, j :| 0 <= k < |e.sense| && 0 <= j < |e.sense[k].lsource| &&
        l == LSource(e.entSeq, k + 1, e.sense[k].lsource[j].text, GetOr(e.sense[k].lsource[j].lang, "eng"),
                     GetOr(e.sense[k].lsource[j].lsType, "full"), e.sense[k].lsource[j].lsWasei);
      assert groups[k][j] == l;
    }
  }

  /**
   * A writing-sense row links sense k + 1 to writing w exactly when w is one
   * of the sense's <stagk> texts, or, when it has none, one of the <keb>s.
   */
  lemma WritingSenseRows(e: EntryNode, w: WritingSense)
    ensures w in Flatten(e).writingsSenses <==>
      && w.entryId == e.entSeq
      && exists k :: 0 <= k < |e.sense| && w.senseIndex == k + 1
                     && w.writingLiteral in RelatedWritings(e.sense[k], Kebs(e.kEle))
  {
    var groups := WritingSenseGroups(e.entSeq, e.sense, Kebs(e.kEle));
    ConcatMember(groups, w);
    if w in Flatten(e).writingsSenses {
      var k :| 0 <= k < |groups| && w in groups[k];
      var j :| 0 <= j < |groups[k]| && groups[k][j] == w;
      assert w.writingLiteral == RelatedWritings(e.sense[k], Kebs(e.kEle))[j];
    }
    if w.entryId == e.entSeq && (exists k :: 0 <= k < |e.sense| && w.senseIndex == k + 1
                                    && w.writingLiteral in RelatedWritings(e.sense[k], Kebs(e.kEle))) {
      var k :| 0 <= k < |e.sense| && w.senseIndex == k + 1
               && w.writingLiteral in RelatedWritings(e.sense[k], Kebs(e.kEle));
      var ws := RelatedWritings(e.sense[k], Kebs(e.kEle));
      var j :| 0 <= j < |ws| && ws[j] == w.writingLiteral;
      assert groups[k][j] == w;
    }
  }

  /**
   * A reading-sense row links sense k + 1 to reading r exactly when r is one
   * of the sense's <stagr> texts, or, when it has none, one of the <reb>s.
   */
  lemma ReadingSenseRows(e: EntryNode, r: ReadingSense)
    ensures r in Flatten(e).readingsSenses <==>
      && r.entryId == e.entSeq
      && exists k :: 0 <= k < |e.sense| && r.senseIndex == k + 1
                     && r.readingLiteral in RelatedReadings(e.sense[k], Rebs(e.rEle))
  {
    var groups := ReadingSenseGroups(e.entSeq, e.sense, Rebs(e.rEle));
    ConcatMember(groups, r);
    if r in Flatten(e).readingsSenses {
      var k :| 0 <= k < |groups| && r in groups[k];
      var j :| 0 <= j < |groups[k]| && groups[k][j] == r;
      assert r.readingLiteral == RelatedReadings(e.sense[k], Rebs(e.rEle))[j];
    }
    if r.entryId == e.entSeq && (exists k :: 0 <= k < |e.sense| && r.senseIndex == k + 1
                                    && r.readingLiteral in RelatedReadings(e.sense[k], Rebs(e.rEle))) {
      var k :| 0 <= k < |e.sense| && r.senseIndex == k + 1
               && r.readingLiteral in RelatedReadings(e.sense[k], Rebs(e.rEle));
      var rs := RelatedReadings(e.sense[k], Rebs(e.rEle));
      var j :| 0 <= j < |rs| && rs[j] == r.readingLiteral;
      assert groups[k][j] == r;
    }
  }

  /**
   * Every row of every list carries the entry's number, and every row that
   * belongs to a sense carries an index between 1 and the number of senses.
   */
  lemma RowsCarryEntry(e: EntryNode)
    ensures forall x :: x in Flatten(e).writingElements ==> x.entryId == e.entSeq
    ensures forall x :: x in Flatten(e).readingElements ==> x.entryId == e.entSeq
    ensures forall x :: x in Flatten(e).readingsWritings ==> x.entryId == e.entSeq
    ensures forall x :: x in Flatten(e).senses ==> x.entryId == e.entSeq && 1 <= x.index <= |e.sense|
    ensures forall x :: x in Flatten(e).lsources ==> x.entryId == e.entSeq && 1 <= x.senseIndex <= |e.sense|
    ensures forall x :: x in Flatten(e).glosses ==> x.entryId == e.entSeq && 1 <= x.senseIndex <= |e.sense|
    ensures forall x :: x in Flatten(e).writingsSenses ==> x.entryId == e.entSeq && 1 <= x.senseIndex <= |e.sense|
    ensures forall x :: x in Flatten(e).readingsSenses ==> x.entryId == e.entSeq && 1 <= x.senseIndex <= |e.sense|
  {
    forall x | x in Flatten(e).readingsWritings
      ensures x.entryId == e.entSeq
    {
      LinkRows(e, x);
    }
    forall x | x in Flatten(e).lsources
      ensures x.entryId == e.entSeq && 1 <= x.senseIndex <= |e.sense|
    {
      LSourceRows(e, x);
    }
    forall x | x in Flatten(e).glosses
      ensures x.entryId == e.entSeq && 1 <= x.senseIndex <= |e.sense|
    {
      GlossRows(e, x);
    }
    forall x | x in Flatten(e).writingsSenses
      ensures x.entryId == e.entSeq && 1 <= x.senseIndex <= |e.sense|
    {
      WritingSenseRows(e, x);
    }
    forall x | x in Flatten(e).readingsSenses
      ensures x.entryId == e.entSeq && 1 <= x.senseIndex <= |e.sense|
    {
      ReadingSenseRows(e, x);
    }
  }

  /** The <gloss> elements of each sense, sense by sense. */
  function GlossNodes(ss: seq<SenseNode>): seq<seq<GlossNode>>
  {
    seq(|ss|, k requires 0 <= k < |ss| => ss[k].gloss)
  }

  /** The <lsource> elements of each sense, sense by sense. */
  function LSourceNodes(ss: seq<SenseNode>): seq<seq<LSourceNode>>
  {
    seq(|ss|, k requires 0 <= k < |ss| => ss[k].lsource)
  }

  /** Each <gloss> and each <lsource> element yields exactly one row. */
  lemma OneRowPerElement(e: EntryNode)
    ensures |Flatten(e).glosses| == TotalLength(GlossNodes(e.sense))
    ensures |Flatten(e).lsources| == TotalLength(LSourceNodes(e.sense))
  {
    ConcatLength(GlossGroups(e.entSeq, e.sense));
    TotalLengthPointwise(GlossGroups(e.entSeq, e.sense), GlossNodes(e.sense));
    ConcatLength(LSourceGroups(e.entSeq, e.sense));
    TotalLengthPointwise(LSourceGroups(e.entSeq, e.sense), LSourceNodes(e.sense));
  }
}
