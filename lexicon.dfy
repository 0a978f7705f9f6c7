/**
 * The two database queries of the Shiritori game (botto/modules/shiritori.py,
 * `check_is_noun` and `get_next_word`), evaluated over an explicit table of
 * rows instead of a PostgreSQL connection.
 */
module Lexicon {
  import opened Wrappers
  import opened Text
  import Kana

  /** The part-of-speech tag both queries look for. */
  const CommonNoun: string := "noun (common) (futsuumeishi)"

  /**
   * One row of "JMdict_ReadingSense" joined with "JMdict_Sense" on entry id
   * and sense index: the reading, its entry, and that sense's parts of speech.
   */
  datatype Row = Row(entryId: int, readingLiteral: string, partsOfSpeech: seq<string>)

  /** The joined rows, in the order the database hands them out. */
  type Table = seq<Row>

  /** `check_is_noun`: some row with exactly this reading is tagged as a common noun. */
  function CheckIsNoun(db: Table, word: string): (b: bool)
    ensures b <==> exists i :: 0 <= i < |db| && db[i].readingLiteral == word && CommonNoun in db[i].partsOfSpeech
  {
    if db == [] then false
    else if db[0].readingLiteral == word && CommonNoun in db[0].partsOfSpeech then true
    else
      var rest := CheckIsNoun(db[1..], word);
      assert forall i :: 1 <= i < |db| ==> db[i] == db[1..][i - 1];
      rest
  }

  /**
   * The regular expression `get_next_word` builds from the last syllable `a`
   * and its spelling `b` in the other script:
   *   `a` of two characters: ^(?:(?:a)|(?:b)).*[^んン]$
   *   otherwise:             ^[ab][^ゃゅょャュョ].*[^んン]$
   */
  predicate ReplyPattern(w: string, a: string, b: string)
  {
    if |a| == 2 then
      ((StartsWith(w, a) && |w| > |a|) || (StartsWith(w, b) && |w| > |b|)) && w[|w| - 1] !in "んン"
    else
      |w| >= 3 && w[0] in a + b && w[1] !in Kana.SmallY && w[|w| - 1] !in "んン"
  }

  /** A row the reply query selects: past the offset, matching, unused, a common noun. */
  predicate Candidate(row: Row, offset: int, a: string, b: string, used: seq<string>)
  {
    && row.entryId > offset
    && ReplyPattern(row.readingLiteral, a, b)
    && row.readingLiteral !in used
    && CommonNoun in row.partsOfSpeech
  }

  /**
   * `get_next_word`: the reading of the first row the query selects, or
   * nothing when no row qualifies. `offset` stands for the random entry id
   * the query starts after.
   */
  function GetNextWord(db: Table, offset: int, a: string, b: string, used: seq<string>): (r: Option<string>)
    ensures r.None? <==> forall i :: 0 <= i < |db| ==> !Candidate(db[i], offset, a, b, used)
    ensures r.Some? ==> exists i :: 0 <= i < |db| && Candidate(db[i], offset, a, b, used) && db[i].readingLiteral == r.value
  {
    if db == [] then None
    else if Candidate(db[0], offset, a, b, used) then Some(db[0].readingLiteral)
    else
      var rest := GetNextWord(db[1..], offset, a, b, used);
      assert forall i :: 1 <= i < |db| ==> db[i] == db[1..][i - 1];
      rest
  }

  /**
   * Any reply matches the pattern, is not a used word, and is itself a word
   * `check_is_noun` accepts.
   */
  lemma ReplyIsValid(db: Table, offset: int, a: string, b: string, used: seq<string>)
    requires GetNextWord(db, offset, a, b, used).Some?
    ensures var r := GetNextWord(db, offset, a, b, used).value;
      ReplyPattern(r, a, b) && r !in used && CheckIsNoun(db, r)
  {
    var r := GetNextWord(db, offset, a, b, used).value;
    var i :| 0 <= i < |db| && Candidate(db[i], offset, a, b, used) && db[i].readingLiteral == r;
  }

  /**
   * For a syllable and its other spelling, the pattern says: the reply starts
   * with either spelling, has at least three characters, does not end in ん
   * or ン, and after a one-character syllable its second character is not a
   * small y-kana.
   */
  lemma ReplyPatternMeaning(w: string, a: string)
    requires Kana.IsSyllable(a)
    ensures ReplyPattern(w, a, Kana.OtherScript(a)) <==>
      && StartsWithEither(w, a, Kana.OtherScript(a))
      && |w| >= 3
      && w[|w| - 1] !in "んン"
      && (|a| == 1 ==> w[1] !in Kana.SmallY)
  {
    var b := Kana.OtherScript(a);
    Kana.TableShape(a);
    Kana.OtherScriptInvolution(a);
    if |a| == 1 && |w| >= 1 {
      assert w[0] in a + b <==> StartsWith(w, a) || StartsWith(w, b) by {
        assert a + b == [a[0], b[0]];
      }
    }
  }

  /**
   * A reply opens with a syllable, so the scan of the previous word finds
   * one on the next turn, unless the reply opens with a two-character
   * syllable followed by another small y-kana.
   */
  lemma ReplyHasTrailingSyllable(w: string, a: string)
    requires Kana.IsSyllable(a)
    requires ReplyPattern(w, a, Kana.OtherScript(a))
    requires !(|a| == 2 && w[1] in Kana.SmallY && w[2] in Kana.SmallY)
    ensures Kana.TrailingSyllable(w).Some?
  {
    var b := Kana.OtherScript(a);
    Kana.TableShape(a);
    Kana.TableShape(b);
    Kana.OtherScriptInvolution(a);
    if |a| == 1 {
      assert [w[0]] == a || [w[0]] == b by {
        assert a + b == [a[0], b[0]];
      }
      assert Kana.StepAt(w, 0) == Kana.Examine([w[0]]);
      Kana.TrailFromKeepsSome(w, 1, Some([w[0]]));
    } else {
      var p := if StartsWith(w, a) && |w| > |a| then a else b;
      assert w[..2] == p;
      if w[1] in Kana.SmallY {
        assert Kana.StepAt(w, 0) == Kana.Skip;
        assert Kana.StepAt(w, 1) == Kana.Examine(p);
        assert Kana.IsSyllable(p);
        assert Kana.TrailFrom(w, 1, None) == Kana.TrailFrom(w, 2, Some(p));
        Kana.TrailFromKeepsSome(w, 2, Some(p));
      } else {
        Kana.PairHeadIsSyllable(p);
        assert Kana.StepAt(w, 0) == Kana.Examine([w[0]]);
        Kana.TrailFromKeepsSome(w, 1, Some([w[0]]));
      }
    }
  }

  /**
   * The exception: a reading such as きゃゃー matches the pattern of きゃ,
   * but the scan of the previous word finds no syllable in it.
   */
  lemma ReplyWithoutTrailingSyllable()
    ensures ReplyPattern("きゃゃー", "きゃ", "キャ")
    ensures Kana.TrailingSyllable("きゃゃー") == None
  {
    var w := "きゃゃー";
    Kana.TableShape("ゃゃ");
    Kana.TableShape("ー");
    assert Kana.StepAt(w, 0) == Kana.Skip;
    assert Kana.StepAt(w, 1) == Kana.Skip;
    assert Kana.StepAt(w, 2) == Kana.Examine("ゃゃ");
    assert Kana.StepAt(w, 3) == Kana.Examine("ー");
  }
}
