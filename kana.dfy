/**
 * The syllable tables of the Shiritori game (botto/modules/shiritori.py) and
 * the character scan that the game runs over a word to find its syllables.
 */
module Kana {
  import opened Wrappers
  import Seqs

  /** HIRAGANA_SYLLABLES, one inner sequence per line of the source table. */
  const HiraganaRows: seq<seq<string>> := [
    ["あ", "い", "う", "え", "お"],
    ["か", "き", "く", "け", "こ", "きゃ", "きゅ", "きょ"],
    ["さ", "し", "す", "せ", "そ", "しゃ", "しゅ", "しょ"],
    ["た", "ち", "つ", "て", "と", "ちゃ", "ちゅ", "ちょ"],
    ["な", "に", "ぬ", "ね", "の", "にゃ", "にゅ", "にょ"],
    ["は", "ひ", "ふ", "へ", "ほ", "ひゃ", "ひゅ", "ひょ"],
    ["ま", "み", "む", "め", "も", "みゃ", "みゅ", "みょ"],
    ["や", "ゆ", "よ"],
    ["ら", "り", "る", "れ", "ろ", "りゃ", "りゅ", "りょ"],
    ["わ", "ゐ", "ゑ", "を"],
    ["ん"],
    ["が", "ぎ", "ぐ", "げ", "ご", "ぎゃ", "ぎゅ", "ぎょ"],
    ["ざ", "じ", "ず", "ぜ", "ぞ", "じゃ", "じゅ", "じょ"],
    ["だ", "ぢ", "づ", "で", "ど", "ぢゃ", "ぢゅ", "ぢょ"],
    ["ば", "び", "ぶ", "べ", "ぼ", "びゃ", "びゅ", "びょ"],
    ["ぱ", "ぴ", "ぷ", "ぺ", "ぽ", "ぴゃ", "ぴゅ", "ぴょ"],
    ["ゔぁ", "ゔぃ", "ゔ", "ゔぇ", "ゔぉ"],
    ["うぃ", "うぇ", "うぉ"],
    ["ふぁ", "ふぃ", "ふぇ", "ふぉ"],
    ["てぃ", "とぅ"],
    ["でぃ", "どぅ"],
    ["ちぇ", "しぇ", "じぇ"]
  ]

  /** KATAKANA_SYLLABLES, one inner sequence per line of the source table. */
  const KatakanaRows: seq<seq<string>> := [
    ["ア", "イ", "ウ", "エ", "オ"],
    ["カ", "キ", "ク", "ケ", "コ", "キャ", "キュ", "キョ"],
    ["サ", "シ", "ス", "セ", "ソ", "シャ", "シュ", "ショ"],
    ["タ", "チ", "ツ", "テ", "ト", "チャ", "チュ", "チョ"],
    ["ナ", "ニ", "ヌ", "ネ", "ノ", "ニャ", "ニュ", "ニョ"],
    ["ハ", "ヒ", "フ", "ヘ", "ホ", "ヒャ", "ヒュ", "ヒョ"],
    ["マ", "ミ", "ム", "メ", "モ", "ミャ", "ミュ", "ミョ"],
    ["ヤ", "ユ", "ヨ"],
    ["ラ", "リ", "ル", "レ", "ロ", "リャ", "リュ", "リョ"],
    ["ワ", "ヰ", "ヱ", "ヲ"],
    ["ン"],
    ["ガ", "ギ", "グ", "ゲ", "ゴ", "ギャ", "ギュ", "ギョ"],
    ["ザ", "ジ", "ズ", "ゼ", "ゾ", "ジャ", "ジュ", "ジョ"],
    ["ダ", "ヂ", "ヅ", "デ", "ド", "ヂャ", "ヂュ", "ヂョ"],
    ["バ", "ビ", "ブ", "ベ", "ボ", "ビャ", "ビュ", "ビョ"],
    ["パ", "ピ", "プ", "ペ", "ポ", "ピャ", "ピュ", "ピョ"],
    ["ヴァ", "ヴィ", "ヴ", "ヴェ", "ヴォ"],
    ["ウィ", "ウェ", "ウォ"],
    ["ファ", "フィ", "フェ", "フォ"],
    ["ティ", "トゥ"],
    ["ディ", "ドゥ"],
    ["チェ", "シェ", "ジェ"]
  ]

  /** The two lists as the program sees them: the rows read one after the other. */
  const Hiragana: seq<string> := Seqs.Concat(HiraganaRows)
  const Katakana: seq<string> := Seqs.Concat(KatakanaRows)

  /** A string the scan counts as a syllable: an entry of either list. */
  predicate IsSyllable(s: string)
  {
    s in Hiragana || s in Katakana
  }

  /** NON_SYLLABLES: the small tsu of both scripts and the long-vowel mark. */
  const NonSyllables: seq<string> := ["っ", "ッ", "ー"]

  /** The small y-kana that join the character before them into one syllable. */
  const SmallY: string := "ゃゅょャュョ"

  /** The small kana that close a two-character entry: small vowels and small y-kana. */
  const SmallKana: string := "ぁぃぅぇぉゃゅょァィゥェォャュョ"

  // ---------------------------------------------------------------------------
  // Shape of the tables
  // ---------------------------------------------------------------------------

  /** `k` is the katakana spelling of `h`: every character moved up by 0x60. */
  predicate Corresponds(h: string, k: string)
  {
    |h| == |k| && forall i :: 0 <= i < |h| ==> k[i] as int == h[i] as int + 0x60
  }

  /** Two lists are position-aligned script pairs. */
  predicate Aligned(hs: seq<string>, ks: seq<string>)
  {
    |hs| == |ks| && forall i :: 0 <= i < |hs| ==> Corresponds(hs[i], ks[i])
  }

  /**
   * What every table entry looks like: a single kana that is neither a small
   * y-kana nor a non-syllable mark, or a kana followed by a small kana.
   */
  predicate EntryShape(s: string)
  {
    || (|s| == 1 && s[0] !in SmallY && s[0] !in "っッー")
    || (|s| == 2 && s[0] !in SmallY && s[1] in SmallKana)
  }

  lemma AlignedRows0to3()
    ensures forall j :: 0 <= j < 4 ==> Aligned(HiraganaRows[j], KatakanaRows[j])
  {
    assert Aligned(HiraganaRows[0], KatakanaRows[0]);
    assert Aligned(HiraganaRows[1], KatakanaRows[1]);
    assert Aligned(HiraganaRows[2], KatakanaRows[2]);
    assert Aligned(HiraganaRows[3], KatakanaRows[3]);
  }

  lemma AlignedRows4to7()
    ensures forall j :: 4 <= j < 8 ==> Aligned(HiraganaRows[j], KatakanaRows[j])
  {
    assert Aligned(HiraganaRows[4], KatakanaRows[4]);
    assert Aligned(HiraganaRows[5], KatakanaRows[5]);
    assert Aligned(HiraganaRows[6], KatakanaRows[6]);
    assert Aligned(HiraganaRows[7], KatakanaRows[7]);
  }

  lemma AlignedRows8to11()
    ensures forall j :: 8 <= j < 12 ==> Aligned(HiraganaRows[j], KatakanaRows[j])
  {
    assert Aligned(HiraganaRows[8], KatakanaRows[8]);
    assert Aligned(HiraganaRows[9], KatakanaRows[9]);
    assert Aligned(HiraganaRows[10], KatakanaRows[10]);
    assert Aligned(HiraganaRows[11], KatakanaRows[11]);
  }

  lemma AlignedRows12to15()
    ensures forall j :: 12 <= j < 16 ==> Aligned(HiraganaRows[j], KatakanaRows[j])
  {
    assert Aligned(HiraganaRows[12], KatakanaRows[12]);
    assert Aligned(HiraganaRows[13], KatakanaRows[13]);
    assert Aligned(HiraganaRows[14], KatakanaRows[14]);
    assert Aligned(HiraganaRows[15], KatakanaRows[15]);
  }

  lemma AlignedRows16to21()
    ensures forall j :: 16 <= j < 22 ==> Aligned(HiraganaRows[j], KatakanaRows[j])
  {
    assert Aligned(HiraganaRows[16], KatakanaRows[16]);
    assert Aligned(HiraganaRows[17], KatakanaRows[17]);
    assert Aligned(HiraganaRows[18], KatakanaRows[18]);
    assert Aligned(HiraganaRows[19], KatakanaRows[19]);
    assert Aligned(HiraganaRows[20], KatakanaRows[20]);
    assert Aligned(HiraganaRows[21], KatakanaRows[21]);
  }

  lemma {:induction false} ConcatAligned(hs: seq<seq<string>>, ks: seq<seq<string>>)
    requires |hs| == |ks|
    requires forall j :: 0 <= j < |hs| ==> Aligned(hs[j], ks[j])
    ensures Aligned(Seqs.Concat(hs), Seqs.Concat(ks))
  {
    if hs != [] {
      var n := |hs| - 1;
      ConcatAligned(hs[..n], ks[..n]);
      var a, b := Seqs.Concat(hs[..n]), hs[n];
      var c, d := Seqs.Concat(ks[..n]), ks[n];
      assert Aligned(a, c) && Aligned(b, d);
      forall i | 0 <= i < |a + b|
        ensures Corresponds((a + b)[i], (c + d)[i])
      {
        if i < |a| {
          assert (a + b)[i] == a[i] && (c + d)[i] == c[i];
        } else {
          assert (a + b)[i] == b[i - |a|] && (c + d)[i] == d[i - |a|];
        }
      }
    }
  }

  /** The two tables are position-aligned: entry i of one is entry i of the other in the other script. */
  lemma TablesAligned()
    ensures Aligned(Hiragana, Katakana)
    ensures |Hiragana| == |Katakana|
  {
    AlignedRows0to3();
    AlignedRows4to7();
    AlignedRows8to11();
    AlignedRows12to15();
    AlignedRows16to21();
    ConcatAligned(HiraganaRows, KatakanaRows);
  }

  /** A hiragana entry: entry shape, and every character in the hiragana block. */
  predicate HiraganaEntry(s: string)
  {
    && EntryShape(s)
    && (|s| == 1 ==> s[0] !in "ぁぃぅぇぉゎ")
    && (|s| == 2 ==> s[0] !in "ゃゅょ" && s[1] in "ぁぃぅぇぉゃゅょ")
    && forall i :: 0 <= i < |s| ==> 0x3041 <= s[i] as int <= 0x3096
  }

  lemma HiraganaRowsShaped0to5()
    ensures forall j :: 0 <= j < 6 ==> forall t :: t in HiraganaRows[j] ==> HiraganaEntry(t)
  {
  }

  lemma HiraganaRowsShaped6to10()
    ensures forall j :: 6 <= j < 11 ==> forall t :: t in HiraganaRows[j] ==> HiraganaEntry(t)
  {
  }

  lemma HiraganaRowsShaped11to16()
    ensures forall j :: 11 <= j < 17 ==> forall t :: t in HiraganaRows[j] ==> HiraganaEntry(t)
  {
  }

  lemma HiraganaRowsShaped17to21()
    ensures forall j :: 17 <= j < 22 ==> forall t :: t in HiraganaRows[j] ==> HiraganaEntry(t)
  {
  }

  /** Every hiragana entry is a one- or two-character string in the hiragana block. */
  lemma HiraganaShape(s: string)
    requires s in Hiragana
    ensures HiraganaEntry(s)
  {
    Seqs.ConcatMember(HiraganaRows, s);
    HiraganaRowsShaped0to5();
    HiraganaRowsShaped6to10();
    HiraganaRowsShaped11to16();
    HiraganaRowsShaped17to21();
  }

  /** Every entry of either table has the entry shape. */
  lemma TableShape(s: string)
    ensures IsSyllable(s) ==> EntryShape(s)
    ensures IsSyllable(s) && |s| == 1 ==> s[0] !in "ぁぃぅぇぉゎァィゥェォヮ"
    ensures IsSyllable(s) && |s| == 2 ==> s[0] !in SmallY
    ensures IsSyllable(s) ==> forall i :: 0 <= i < |s| ==> 0x3041 <= s[i] as int <= 0x30F6
  {
    if s in Hiragana {
      HiraganaShape(s);
    } else if s in Katakana {
      TablesAligned();
      var i :| 0 <= i < |Katakana| && Katakana[i] == s;
      assert Corresponds(Hiragana[i], s);
      HiraganaShape(Hiragana[i]);
      if |s| == 2 {
        SmallKanaShift(Hiragana[i][1]);
      }
    }
  }

  /** Moving a small hiragana up by 0x60 gives the small katakana. */
  lemma SmallKanaShift(c: char)
    requires c in "ぁぃぅぇぉゃゅょ"
    ensures (c as int + 0x60) as char in SmallKana
  {
  }

  // ---------------------------------------------------------------------------
  // to_hiragana and to_katakana
  // ---------------------------------------------------------------------------

  /** Python's `list.index`: the first position holding `x`. */
  function IndexOf(xs: seq<string>, x: string): (r: nat)
    requires x in xs
    ensures r < |xs| && xs[r] == x
    ensures forall j :: 0 <= j < r ==> xs[j] != x
  {
    if xs[0] == x then 0 else 1 + IndexOf(xs[1..], x)
  }

  /** to_katakana: the katakana entry standing where `h` first stands in the hiragana list. */
  function ToKatakana(h: string): (k: string)
    requires h in Hiragana
    ensures k in Katakana
    ensures Corresponds(h, k)
  {
    TablesAligned();
    Katakana[IndexOf(Hiragana, h)]
  }

  /** to_hiragana: the hiragana entry standing where `k` first stands in the katakana list. */
  function ToHiragana(k: string): (h: string)
    requires k in Katakana
    ensures h in Hiragana
    ensures Corresponds(h, k)
  {
    TablesAligned();
    Hiragana[IndexOf(Katakana, k)]
  }

  /** A string has at most one spelling in the other script. */
  lemma CorrespondsInjective(h1: string, h2: string, k1: string, k2: string)
    requires Corresponds(h1, k1) && Corresponds(h2, k2)
    ensures h1 == h2 <==> k1 == k2
  {
    if k1 == k2 {
      assert forall i :: 0 <= i < |h1| ==> h1[i] == h2[i];
    }
    if h1 == h2 {
      assert forall i :: 0 <= i < |k1| ==> k1[i] == k2[i];
    }
  }

  /** Converting to katakana and back gives the hiragana syllable back. */
  lemma HiraganaRoundTrip(h: string)
    requires h in Hiragana
    ensures ToHiragana(ToKatakana(h)) == h
  {
    var k := ToKatakana(h);
    CorrespondsInjective(ToHiragana(k), h, k, k);
  }

  /** Converting to hiragana and back gives the katakana syllable back. */
  lemma KatakanaRoundTrip(k: string)
    requires k in Katakana
    ensures ToKatakana(ToHiragana(k)) == k
  {
    var h := ToHiragana(k);
    CorrespondsInjective(h, h, ToKatakana(h), k);
  }

  /** Every katakana entry lies in the katakana block. */
  lemma KatakanaBlock(k: string)
    requires k in Katakana
    ensures |k| >= 1
    ensures forall i :: 0 <= i < |k| ==> 0x30A1 <= k[i] as int <= 0x30F6
  {
    TablesAligned();
    var i :| 0 <= i < |Katakana| && Katakana[i] == k;
    assert Corresponds(Hiragana[i], k);
    HiraganaShape(Hiragana[i]);
  }

  /** No syllable is spelled the same way in both scripts. */
  lemma ScriptsDisjoint(s: string)
    ensures !(s in Hiragana && s in Katakana)
  {
    if s in Hiragana {
      HiraganaShape(s);
      forall k | k in Katakana
        ensures |k| >= 1 && k[0] as int >= 0x30A1
      {
        KatakanaBlock(k);
      }
    }
  }

  /**
   * The syllable written in the other script, the way the scan sets
   * `other_syllable`: hiragana is looked up first.
   */
  function OtherScript(s: string): (o: string)
    requires s in Hiragana || s in Katakana
    ensures o in Hiragana || o in Katakana
    ensures s in Hiragana ==> o in Katakana && Corresponds(s, o)
    ensures s in Katakana ==> o in Hiragana && Corresponds(o, s)
  {
    ScriptsDisjoint(s);
    if s in Hiragana then ToKatakana(s) else ToHiragana(s)
  }

  /** Swapping scripts twice is the identity. */
  lemma OtherScriptInvolution(s: string)
    requires s in Hiragana || s in Katakana
    ensures OtherScript(OtherScript(s)) == s
    ensures |OtherScript(s)| == |s|
  {
    ScriptsDisjoint(s);
    ScriptsDisjoint(OtherScript(s));
    if s in Hiragana {
      HiraganaRoundTrip(s);
    } else {
      KatakanaRoundTrip(s);
    }
  }

  // ---------------------------------------------------------------------------
  // The syllable scan
  // ---------------------------------------------------------------------------

  /** What one pass of the scan loop does at position `i`. */
  datatype Step =
    | Skip              // the next character is a small y-kana: `continue`
    | Stop              // a small y-kana opens the word: `break`
    | Examine(text: string)  // the character, or the pair it closes, is looked up

  function StepAt(w: string, i: nat): Step
    requires i < |w|
  {
    if i + 1 < |w| && w[i + 1] in SmallY then Skip
    else if w[i] in SmallY && i >= 1 then Examine([w[i - 1], w[i]])
    else if w[i] in SmallY then Stop
    else Examine([w[i]])
  }

  /**
   * Outcome of the strict scan: the last syllable found (if any) and the
   * number of syllables, or the first piece that is neither a syllable nor
   * a non-syllable mark.
   */
  datatype ScanResult = Scanned(last: Option<string>, count: nat) | InvalidKana(text: string)

  /** The strict scan from position `i`, with the loop variables so far. */
  function ScanFrom(w: string, i: nat, last: Option<string>, count: nat): ScanResult
    requires i <= |w|
    decreases |w| - i
  {
    if i == |w| then Scanned(last, count)
    else match StepAt(w, i)
      case Skip => ScanFrom(w, i + 1, last, count)
      case Stop => Scanned(last, count)
      case Examine(t) =>
        if IsSyllable(t) then ScanFrom(w, i + 1, Some(t), count + 1)
        else if t in NonSyllables then ScanFrom(w, i + 1, last, count)
        else InvalidKana(t)
  }

  /** The scan run over the player's word in a turn and by the check command. */
  function Scan(w: string): ScanResult
  {
    ScanFrom(w, 0, None, 0)
  }

  /** The lenient scan run over the previous word: unknown pieces are passed over. */
  function TrailFrom(w: string, i: nat, last: Option<string>): Option<string>
    requires i <= |w|
    decreases |w| - i
  {
    if i == |w| then last
    else match StepAt(w, i)
      case Skip => TrailFrom(w, i + 1, last)
      case Stop => last
      case Examine(t) => if IsSyllable(t) then TrailFrom(w, i + 1, Some(t)) else TrailFrom(w, i + 1, last)
  }

  function TrailingSyllable(w: string): Option<string>
  {
    TrailFrom(w, 0, None)
  }

  /** Only the characters ッ, っ and ー. */
  predicate AllMarks(m: string)
  {
    forall i :: 0 <= i < |m| ==> m[i] in "っッー"
  }

  predicate EndsWith(s: string, suffix: string)
  {
    |suffix| <= |s| && s[|s| - |suffix|..] == suffix
  }

  /**
   * The pieces the scan looks up are a single character that is not a small
   * y-kana, or a character followed by a small y-kana.
   */
  predicate PieceShape(t: string)
  {
    (|t| == 1 && t[0] !in SmallY) || (|t| == 2 && t[1] in SmallY)
  }

  lemma StepShape(w: string, i: nat)
    requires i < |w|
    ensures StepAt(w, i).Stop? ==> i == 0
    ensures StepAt(w, i).Examine? ==> PieceShape(StepAt(w, i).text)
    ensures StepAt(w, i).Examine? && |StepAt(w, i).text| == 1 ==> StepAt(w, i).text[0] == w[i]
    ensures StepAt(w, i).Examine? && |StepAt(w, i).text| == 2 ==> i >= 1 && StepAt(w, i).text == w[i - 1..i + 1]
  {
  }

  /**
   * What the strict scan finds: a last syllable exactly when it counted one,
   * every syllable a list entry of the shape the scan can form, at most one
   * syllable per character.
   */
  lemma {:induction false} ScanFromScanned(w: string, i: nat, last: Option<string>, count: nat)
    requires i <= |w|
    requires last.None? <==> count == 0
    requires last.Some? ==> IsSyllable(last.value) && PieceShape(last.value)
    requires count <= i
    ensures var r := ScanFrom(w, i, last, count);
      r.Scanned? ==> ((r.last.None? <==> r.count == 0) && count <= r.count <= |w|
        && (r.last.Some? ==> IsSyllable(r.last.value) && PieceShape(r.last.value)))
    decreases |w| - i
  {
    if i < |w| {
      StepShape(w, i);
      match StepAt(w, i)
      case Skip => ScanFromScanned(w, i + 1, last, count);
      case Stop =>
      case Examine(t) =>
        if IsSyllable(t) {
          ScanFromScanned(w, i + 1, Some(t), count + 1);
        } else if t in NonSyllables {
          ScanFromScanned(w, i + 1, last, count);
        }
    }
  }

  /** The piece the strict scan rejects is neither a syllable nor a mark. */
  lemma {:induction false} ScanFromInvalid(w: string, i: nat, last: Option<string>, count: nat)
    requires i <= |w|
    ensures var r := ScanFrom(w, i, last, count);
      r.InvalidKana? ==> !IsSyllable(r.text) && r.text !in NonSyllables && PieceShape(r.text)
    decreases |w| - i
  {
    if i < |w| {
      StepShape(w, i);
      match StepAt(w, i)
      case Skip => ScanFromInvalid(w, i + 1, last, count);
      case Stop =>
      case Examine(t) =>
        if IsSyllable(t) {
          ScanFromInvalid(w, i + 1, Some(t), count + 1);
        } else if t in NonSyllables {
          ScanFromInvalid(w, i + 1, last, count);
        }
    }
  }

  lemma ScanShape(w: string)
    ensures Scan(w).Scanned? ==> (Scan(w).last.None? <==> Scan(w).count == 0) && Scan(w).count <= |w|
    ensures Scan(w).Scanned? && Scan(w).last.Some? ==> IsSyllable(Scan(w).last.value) && PieceShape(Scan(w).last.value)
    ensures Scan(w).InvalidKana? ==> !IsSyllable(Scan(w).text) && Scan(w).text !in NonSyllables && PieceShape(Scan(w).text)
  {
    ScanFromScanned(w, 0, None, 0);
    ScanFromInvalid(w, 0, None, 0);
  }

  /** A piece the strict scan passes over: a syllable or a non-syllable mark. */
  predicate Listed(t: string)
  {
    IsSyllable(t) || t in NonSyllables
  }

  /** The scan does not break anywhere in positions `i` to `j - 1`. */
  predicate NoStopBetween(w: string, i: nat, j: nat)
    requires j <= |w|
  {
    forall k :: i <= k < j ==> !StepAt(w, k).Stop?
  }

  /** Every piece the scan looks up in positions `i` to `j - 1` is listed. */
  predicate ListedBetween(w: string, i: nat, j: nat)
    requires j <= |w|
  {
    forall k :: i <= k < j ==> StepAt(w, k).Examine? ==> Listed(StepAt(w, k).text)
  }

  /** At position `j` the scan looks up a piece that is not listed. */
  predicate UnlistedAt(w: string, j: nat)
    requires j < |w|
  {
    StepAt(w, j).Examine? && !Listed(StepAt(w, j).text)
  }

  /** The number of syllables the scan looks up in positions `i` to `j - 1`. */
  function SyllablesBetween(w: string, i: nat, j: nat): (n: nat)
    requires i <= j <= |w|
    ensures n <= j - i
    decreases j - i
  {
    if i == j then 0
    else SyllablesBetween(w, i, j - 1) + (if StepAt(w, j - 1).Examine? && IsSyllable(StepAt(w, j - 1).text) then 1 else 0)
  }

  /** Counting from the left: the first position's syllable, then the rest. */
  lemma {:induction false} SyllablesFromLeft(w: string, i: nat, j: nat)
    requires i < j <= |w|
    ensures SyllablesBetween(w, i, j) ==
      (if StepAt(w, i).Examine? && IsSyllable(StepAt(w, i).text) then 1 else 0) + SyllablesBetween(w, i + 1, j)
    decreases j - i
  {
    if i + 1 < j {
      SyllablesFromLeft(w, i, j - 1);
    }
  }

  /**
   * An unlisted piece that the scan reaches without breaking makes it
   * reject the word: with that very piece when every piece before it was
   * listed, else with an earlier one.
   */
  lemma {:induction false} ScanFromRejects(w: string, i: nat, j: nat, last: Option<string>, count: nat)
    requires i <= j < |w|
    requires NoStopBetween(w, i, j) && UnlistedAt(w, j)
    ensures ScanFrom(w, i, last, count).InvalidKana?
    ensures ListedBetween(w, i, j) ==> ScanFrom(w, i, last, count) == InvalidKana(StepAt(w, j).text)
    decreases j - i
  {
    if i < j {
      match StepAt(w, i)
      case Skip => ScanFromRejects(w, i + 1, j, last, count);
      case Examine(t) =>
        if IsSyllable(t) {
          ScanFromRejects(w, i + 1, j, Some(t), count + 1);
        } else if t in NonSyllables {
          ScanFromRejects(w, i + 1, j, last, count);
        }
    }
  }

  /** A listed step, or a skip, in front of a clean stretch extends it by one position. */
  lemma StretchExtends(w: string, i: nat, j: nat)
    requires i < j <= |w|
    requires !StepAt(w, i).Stop? && (StepAt(w, i).Examine? ==> Listed(StepAt(w, i).text))
    requires NoStopBetween(w, i + 1, j) && ListedBetween(w, i + 1, j)
    ensures NoStopBetween(w, i, j) && ListedBetween(w, i, j)
  {
  }

  /** A rejection comes from an unlisted piece reached without breaking, all before it listed. */
  lemma {:induction false} ScanFromRejectedAt(w: string, i: nat, last: Option<string>, count: nat)
    requires i <= |w|
    ensures ScanFrom(w, i, last, count).InvalidKana? ==>
      exists j :: i <= j < |w| && NoStopBetween(w, i, j) && ListedBetween(w, i, j) && UnlistedAt(w, j)
        && StepAt(w, j).text == ScanFrom(w, i, last, count).text
    decreases |w| - i
  {
    if i < |w| {
      var step := StepAt(w, i);
      if step.Skip? || (step.Examine? && Listed(step.text)) {
        var last' := if step.Examine? && IsSyllable(step.text) then Some(step.text) else last;
        var count' := if step.Examine? && IsSyllable(step.text) then count + 1 else count;
        assert ScanFrom(w, i, last, count) == ScanFrom(w, i + 1, last', count');
        ScanFromRejectedAt(w, i + 1, last', count');
        if ScanFrom(w, i + 1, last', count').InvalidKana? {
          var j :| i + 1 <= j < |w| && NoStopBetween(w, i + 1, j) && ListedBetween(w, i + 1, j) && UnlistedAt(w, j)
            && StepAt(w, j).text == ScanFrom(w, i + 1, last', count').text;
          StretchExtends(w, i, j);
        }
      } else if step.Examine? {
        assert NoStopBetween(w, i, i) && ListedBetween(w, i, i) && UnlistedAt(w, i);
      }
    }
  }

  /** Past a position where the scan does not break, it adds one to the count per syllable looked up. */
  lemma {:induction false} ScanFromCount(w: string, i: nat, last: Option<string>, count: nat)
    requires i <= |w|
    ensures var r := ScanFrom(w, i, last, count);
      r.Scanned? && NoStopBetween(w, i, |w|) ==> r.count == count + SyllablesBetween(w, i, |w|)
    decreases |w| - i
  {
    if i < |w| {
      SyllablesFromLeft(w, i, |w|);
      match StepAt(w, i)
      case Skip => ScanFromCount(w, i + 1, last, count);
      case Stop =>
      case Examine(t) =>
        if IsSyllable(t) {
          ScanFromCount(w, i + 1, Some(t), count + 1);
        } else if t in NonSyllables {
          ScanFromCount(w, i + 1, last, count);
        }
    }
  }

  /**
   * The strict scan rejects a word exactly when it meets an unlisted piece
   * before any break, and then with the first such piece.
   */
  lemma ScanRejects(w: string)
    ensures Scan(w).InvalidKana? <==> exists j :: 0 <= j < |w| && NoStopBetween(w, 0, j) && UnlistedAt(w, j)
    ensures forall j :: 0 <= j < |w| && NoStopBetween(w, 0, j) && ListedBetween(w, 0, j) && UnlistedAt(w, j) ==>
      Scan(w) == InvalidKana(StepAt(w, j).text)
  {
    forall j | 0 <= j < |w| && NoStopBetween(w, 0, j) && UnlistedAt(w, j)
      ensures Scan(w).InvalidKana?
      ensures ListedBetween(w, 0, j) ==> Scan(w) == InvalidKana(StepAt(w, j).text)
    {
      ScanFromRejects(w, 0, j, None, 0);
    }
    ScanFromRejectedAt(w, 0, None, 0);
  }

  /** A scan that runs to the end without breaking or rejecting passed only listed pieces. */
  lemma {:induction false} ScanFromAllListed(w: string, i: nat, last: Option<string>, count: nat)
    requires i <= |w|
    ensures ScanFrom(w, i, last, count).Scanned? && NoStopBetween(w, i, |w|) ==> ListedBetween(w, i, |w|)
    decreases |w| - i
  {
    if i < |w| {
      match StepAt(w, i)
      case Skip => ScanFromAllListed(w, i + 1, last, count);
      case Stop =>
      case Examine(t) =>
        if IsSyllable(t) {
          ScanFromAllListed(w, i + 1, Some(t), count + 1);
        } else if t in NonSyllables {
          ScanFromAllListed(w, i + 1, last, count);
        }
    }
  }

  /** The scan can break only at the first position. */
  lemma NoStopAfterFirst(w: string)
    ensures |w| > 0 && !StepAt(w, 0).Stop? ==> NoStopBetween(w, 0, |w|)
  {
    forall k | 0 <= k < |w| ensures StepAt(w, k).Stop? ==> k == 0 {
      StepShape(w, k);
    }
  }

  /** A small y-kana opening the word, not followed by another, ends the scan with nothing counted. */
  lemma ScanBreaksAtOnce(w: string)
    ensures |w| > 0 && StepAt(w, 0).Stop? ==> Scan(w) == Scanned(None, 0)
  {
  }

  /**
   * A word the strict scan accepts without breaking: the count is the
   * number of syllables looked up.
   */
  lemma ScanCounts(w: string)
    requires Scan(w).Scanned? && (|w| > 0 ==> !StepAt(w, 0).Stop?)
    ensures Scan(w).count == SyllablesBetween(w, 0, |w|)
  {
    NoStopAfterFirst(w);
    ScanFromCount(w, 0, None, 0);
  }

  /**
   * A word the strict scan accepts without breaking: every piece it looked
   * up was a syllable or a mark.
   */
  lemma ScanListed(w: string)
    requires Scan(w).Scanned? && (|w| > 0 ==> !StepAt(w, 0).Stop?)
    ensures ListedBetween(w, 0, |w|)
  {
    NoStopAfterFirst(w);
    ScanFromAllListed(w, 0, None, 0);
  }

  /** The syllable count never goes down. */
  lemma {:induction false} ScanFromCountGrows(w: string, i: nat, last: Option<string>, count: nat)
    requires i <= |w|
    ensures ScanFrom(w, i, last, count).Scanned? ==> ScanFrom(w, i, last, count).count >= count
    decreases |w| - i
  {
    if i < |w| {
      match StepAt(w, i)
      case Skip => ScanFromCountGrows(w, i + 1, last, count);
      case Stop =>
      case Examine(t) =>
        if IsSyllable(t) {
          ScanFromCountGrows(w, i + 1, Some(t), count + 1);
        } else if t in NonSyllables {
          ScanFromCountGrows(w, i + 1, last, count);
        }
    }
  }

  /**
   * A stretch of the scan that counts nothing and finishes leaves the last
   * syllable alone, and what it passed over was marks only, or it stopped
   * at a small y-kana that opens the word.
   */
  lemma {:induction false} ScanFromNothingCounted(w: string, i: nat, last: Option<string>, count: nat)
    requires i <= |w|
    requires ScanFrom(w, i, last, count).Scanned?
    requires ScanFrom(w, i, last, count).count == count
    ensures ScanFrom(w, i, last, count).last == last
    ensures AllMarks(w[i..]) || (i == 0 && w[0] in SmallY)
    decreases |w| - i
  {
    if i < |w| {
      StepShape(w, i);
      match StepAt(w, i)
      case Skip =>
        StepShape(w, i + 1);
        ScanFromNothingCounted(w, i + 1, last, count);
      case Stop =>
      case Examine(t) =>
        if IsSyllable(t) {
          ScanFromCountGrows(w, i + 1, Some(t), count + 1);
        } else {
          ScanFromNothingCounted(w, i + 1, last, count);
          assert w[i..] == [w[i]] + w[i + 1..];
        }
    }
  }

  lemma {:induction false} ScanFromLastEnds(w: string, i: nat, last: Option<string>, count: nat)
    requires i <= |w|
    requires ScanFrom(w, i, last, count).Scanned?
    requires ScanFrom(w, i, last, count).count > count
    ensures ScanFrom(w, i, last, count).last.Some?
    ensures exists k :: i < k <= |w| && EndsWith(w[..k], ScanFrom(w, i, last, count).last.value) && AllMarks(w[k..])
    decreases |w| - i
  {
    StepShape(w, i);
    match StepAt(w, i)
    case Skip => ScanFromLastEnds(w, i + 1, last, count);
    case Examine(t) =>
      if IsSyllable(t) {
        ScanFromCountGrows(w, i + 1, Some(t), count + 1);
        if ScanFrom(w, i + 1, Some(t), count + 1).count > count + 1 {
          ScanFromLastEnds(w, i + 1, Some(t), count + 1);
        } else {
          ScanFromNothingCounted(w, i + 1, Some(t), count + 1);
          assert EndsWith(w[..i + 1], t);
        }
      } else {
        ScanFromLastEnds(w, i + 1, last, count);
      }
  }

  /**
   * The last syllable the scan reports closes the word: after it come only
   * the marks ッ, っ and ー.
   */
  lemma LastSyllableEndsWord(w: string)
    requires Scan(w).Scanned? && Scan(w).last.Some?
    ensures exists k :: 0 < k <= |w| && EndsWith(w[..k], Scan(w).last.value) && AllMarks(w[k..])
  {
    ScanShape(w);
    ScanFromLastEnds(w, 0, None, 0);
  }

  /** From a point where only marks remain, the scan adds nothing. */
  lemma {:induction false} ScanFromMarks(v: string, i: nat, last: Option<string>, count: nat)
    requires i <= |v|
    requires AllMarks(v[i..])
    ensures ScanFrom(v, i, last, count) == Scanned(last, count)
    decreases |v| - i
  {
    if i < |v| {
      assert v[i] == v[i..][0] && v[i] in "っッー";
      TableShape([v[i]]);
      assert StepAt(v, i) == Examine([v[i]]);
      assert v[i + 1..] == v[i..][1..];
      ScanFromMarks(v, i + 1, last, count);
    }
  }

  lemma {:induction false} ScanFromAppendMarks(w: string, m: string, i: nat, last: Option<string>, count: nat)
    requires i <= |w|
    requires AllMarks(m)
    ensures ScanFrom(w + m, i, last, count) == ScanFrom(w, i, last, count)
    decreases |w| - i
  {
    if i == |w| {
      assert (w + m)[i..] == m;
      ScanFromMarks(w + m, i, last, count);
    } else {
      assert StepAt(w + m, i) == StepAt(w, i) by {
        if i + 1 == |w| && |m| > 0 {
          assert (w + m)[i + 1] == m[0];
        }
      }
      match StepAt(w, i)
      case Skip => ScanFromAppendMarks(w, m, i + 1, last, count);
      case Stop =>
      case Examine(t) =>
        if IsSyllable(t) {
          ScanFromAppendMarks(w, m, i + 1, Some(t), count + 1);
        } else if t in NonSyllables {
          ScanFromAppendMarks(w, m, i + 1, last, count);
        }
    }
  }

  /** Sokuon and long-vowel marks at the end of a word never change what the scan finds. */
  lemma AppendMarks(w: string, m: string)
    requires AllMarks(m)
    ensures Scan(w + m) == Scan(w)
  {
    ScanFromAppendMarks(w, m, 0, None, 0);
  }

  /** A word of marks only has no syllable ("Sokuon, sokuon, dash dash dash?"). */
  lemma MarksOnly(m: string)
    requires AllMarks(m)
    ensures Scan(m) == Scanned(None, 0)
    ensures TrailingSyllable(m) == None
  {
    ScanFromMarks(m, 0, None, 0);
    TrailFromAgrees(m, 0, None, 0);
  }

  /** Where the strict scan finishes, the lenient scan finds the same last syllable. */
  lemma {:induction false} TrailFromAgrees(w: string, i: nat, last: Option<string>, count: nat)
    requires i <= |w|
    ensures ScanFrom(w, i, last, count).Scanned? ==> TrailFrom(w, i, last) == ScanFrom(w, i, last, count).last
    decreases |w| - i
  {
    if i < |w| {
      match StepAt(w, i)
      case Skip => TrailFromAgrees(w, i + 1, last, count);
      case Stop =>
      case Examine(t) =>
        if IsSyllable(t) {
          TrailFromAgrees(w, i + 1, Some(t), count + 1);
        } else if t in NonSyllables {
          TrailFromAgrees(w, i + 1, last, count);
        }
    }
  }

  lemma TrailingAgrees(w: string)
    requires Scan(w).Scanned?
    ensures TrailingSyllable(w) == Scan(w).last
  {
    TrailFromAgrees(w, 0, None, 0);
  }

  /** What the lenient scan keeps is always a syllable of either list. */
  lemma {:induction false} TrailFromShape(w: string, i: nat, last: Option<string>)
    requires i <= |w|
    requires last.Some? ==> IsSyllable(last.value)
    ensures TrailFrom(w, i, last).Some? ==> IsSyllable(TrailFrom(w, i, last).value)
    decreases |w| - i
  {
    if i < |w| {
      match StepAt(w, i)
      case Skip => TrailFromShape(w, i + 1, last);
      case Stop =>
      case Examine(t) =>
        if IsSyllable(t) {
          TrailFromShape(w, i + 1, Some(t));
        } else {
          TrailFromShape(w, i + 1, last);
        }
    }
  }

  /**
   * A small y-kana opening the word ends both scans at once, unless another
   * small y-kana follows it.
   */
  lemma LeadingSmallY(w: string)
    requires |w| >= 1 && w[0] in SmallY
    requires !(|w| >= 2 && w[1] in SmallY)
    ensures Scan(w) == Scanned(None, 0)
    ensures TrailingSyllable(w) == None
  {
  }

  // ---------------------------------------------------------------------------
  // The scan loops
  // ---------------------------------------------------------------------------

  /**
   * The loop over the player's word: the last syllable, its spelling in the
   * other script, and the number of syllables, or the piece it rejects.
   * `other` is meaningful only when a syllable was found.
   */
  method ScanWord(w: string) returns (r: ScanResult, other: string)
    ensures r == Scan(w)
    ensures r.Scanned? && r.last.Some? ==> IsSyllable(r.last.value) && other == OtherScript(r.last.value)
  {
    var i := 0;
    var last: Option<string> := None;
    var count := 0;
    other := "";
    while i < |w|
      invariant 0 <= i <= |w|
      invariant ScanFrom(w, i, last, count) == Scan(w)
      invariant last.Some? ==> IsSyllable(last.value) && other == OtherScript(last.value)
    {
      if i + 1 < |w| && w[i + 1] in SmallY {
        i := i + 1;
        continue;
      }
      var piece := [w[i]];
      if w[i] in SmallY && i >= 1 {
        piece := [w[i - 1], w[i]];
      } else if w[i] in SmallY && i == 0 {
        break;
      }
      if piece in Hiragana {
        last := Some(piece);
        other := ToKatakana(piece);
        count := count + 1;
      } else if piece in Katakana {
        last := Some(piece);
        other := ToHiragana(piece);
        count := count + 1;
        ScriptsDisjoint(piece);
      } else if piece !in NonSyllables {
        return InvalidKana(piece), other;
      }
      i := i + 1;
    }
    r := Scanned(last, count);
  }

  /** The loop over the previous word, which passes over what it does not know. */
  method ScanPreviousWord(w: string) returns (last: Option<string>, other: string)
    ensures last == TrailingSyllable(w)
    ensures last.Some? ==> IsSyllable(last.value) && other == OtherScript(last.value)
  {
    var i := 0;
    last := None;
    other := "";
    while i < |w|
      invariant 0 <= i <= |w|
      invariant TrailFrom(w, i, last) == TrailingSyllable(w)
      invariant last.Some? ==> IsSyllable(last.value) && other == OtherScript(last.value)
    {
      if i + 1 < |w| && w[i + 1] in SmallY {
        i := i + 1;
        continue;
      }
      var piece := [w[i]];
      if w[i] in SmallY && i >= 1 {
        piece := [w[i - 1], w[i]];
      } else if w[i] in SmallY && i == 0 {
        break;
      }
      if piece in Hiragana {
        last := Some(piece);
        other := ToKatakana(piece);
      } else if piece in Katakana {
        last := Some(piece);
        other := ToHiragana(piece);
        ScriptsDisjoint(piece);
      }
      i := i + 1;
    }
  }

  // ---------------------------------------------------------------------------
  // Words worked through
  // ---------------------------------------------------------------------------

  lemma InHiragana(j: nat, x: string)
    requires j < |HiraganaRows| && x in HiraganaRows[j]
    ensures x in Hiragana && IsSyllable(x)
  {
    Seqs.ConcatMember(HiraganaRows, x);
  }

  lemma InKatakana(j: nat, x: string)
    requires j < |KatakanaRows| && x in KatakanaRows[j]
    ensures x in Katakana && IsSyllable(x)
  {
    Seqs.ConcatMember(KatakanaRows, x);
  }

  /** One pass of the scan that counts a syllable. */
  lemma ScanSyllableStep(w: string, i: nat, last: Option<string>, count: nat, t: string)
    requires i < |w| && StepAt(w, i) == Examine(t) && IsSyllable(t)
    ensures ScanFrom(w, i, last, count) == ScanFrom(w, i + 1, Some(t), count + 1)
  {
  }

  /** One pass of the scan over a mark. */
  lemma ScanMarkStep(w: string, i: nat, last: Option<string>, count: nat)
    requires i < |w| && StepAt(w, i) == Examine([w[i]]) && w[i] in "っッー"
    ensures ScanFrom(w, i, last, count) == ScanFrom(w, i + 1, last, count)
  {
    TableShape([w[i]]);
  }

  /** The seed word しりとり: four syllables, ending in り. */
  lemma SeedWordScan()
    ensures Scan("しりとり") == Scanned(Some("り"), 4)
    ensures TrailingSyllable("しりとり") == Some("り")
  {
    var w := "しりとり";
    InHiragana(2, "し");
    InHiragana(8, "り");
    InHiragana(3, "と");
    ScanSyllableStep(w, 0, None, 0, "し");
    ScanSyllableStep(w, 1, Some("し"), 1, "り");
    ScanSyllableStep(w, 2, Some("り"), 2, "と");
    ScanSyllableStep(w, 3, Some("と"), 3, "り");
    TrailingAgrees(w);
  }

  /** The first reply must start with り or リ. */
  lemma SeedSyllableOther()
    ensures "り" in Hiragana && OtherScript("り") == "リ"
  {
    InHiragana(8, "り");
    var k := OtherScript("り");
    assert |k| == 1 && k[0] == 'リ';
  }

  /** The long-vowel mark is passed over: コーヒー has two syllables and ends in ヒ. */
  lemma LongVowelScan()
    ensures Scan("コーヒー") == Scanned(Some("ヒ"), 2)
  {
    LongVowelScanHead();
    LongVowelScanTail();
  }

  lemma LongVowelScanHead()
    ensures ScanFrom("コーヒー", 0, None, 0) == ScanFrom("コーヒー", 2, Some("コ"), 1)
  {
    var w := "コーヒー";
    InKatakana(1, "コ");
    assert w[1] == 'ー' && w[1] !in SmallY && w[2] !in SmallY;
    assert StepAt(w, 0) == Examine("コ");
    assert StepAt(w, 1) == Examine([w[1]]);
    ScanSyllableStep(w, 0, None, 0, "コ");
    ScanMarkStep(w, 1, Some("コ"), 1);
  }

  lemma LongVowelScanTail()
    ensures ScanFrom("コーヒー", 2, Some("コ"), 1) == Scanned(Some("ヒ"), 2)
  {
    var w := "コーヒー";
    InKatakana(5, "ヒ");
    assert w[3] == 'ー' && w[3] !in SmallY;
    assert StepAt(w, 2) == Examine("ヒ");
    assert StepAt(w, 3) == Examine([w[3]]);
    ScanSyllableStep(w, 2, Some("コ"), 1, "ヒ");
    ScanMarkStep(w, 3, Some("ヒ"), 2);
  }

  /** A small y-kana joins the kana before it into one syllable. */
  lemma JoinedSyllableScan()
    ensures Scan("きゃく") == Scanned(Some("く"), 2)
  {
    var w := "きゃく";
    InHiragana(1, "きゃ");
    InHiragana(1, "く");
    assert StepAt(w, 0) == Skip;
    ScanSyllableStep(w, 1, None, 0, "きゃ");
    ScanSyllableStep(w, 2, Some("きゃ"), 1, "く");
  }

  /**
   * Only small y-kana are joined: the table entry ファ is never formed, and
   * ファイル is rejected at its small ァ.
   */
  lemma SmallVowelScan()
    ensures Scan("ファイル") == InvalidKana("ァ")
  {
    var w := "ファイル";
    InKatakana(5, "フ");
    SmallVowelUnlisted('ァ');
    assert StepAt(w, 0) == Examine("フ");
    assert StepAt(w, 1) == Examine("ァ");
    ScanFromRejects(w, 0, 1, None, 0);
  }

  /** A small vowel alone is neither a syllable nor a mark. */
  lemma SmallVowelUnlisted(c: char)
    requires c in "ぁぃぅぇぉゎァィゥェォヮ"
    ensures !Listed([c])
  {
    TableShape([c]);
  }
  /** Two small y-kana at the start are not a stop: the pair is looked up, and rejected. */
  lemma DoubleSmallYScan()
    ensures Scan("ゃゃ") == InvalidKana("ゃゃ")
    ensures Scan("ゃ") == Scanned(None, 0)
  {
    TableShape("ゃゃ");
  }

  // ---------------------------------------------------------------------------
  // What a word that opens with a syllable guarantees
  // ---------------------------------------------------------------------------

  /** The kana that open the two-character entries of the hiragana list. */
  const PairHeads: string := "きしちにひみりぎじぢびぴゔうふてとでど"

  lemma PairHeadRows0to10()
    ensures forall j :: 0 <= j < 11 ==> forall t :: t in HiraganaRows[j] && |t| == 2 ==> t[0] in PairHeads
  {
  }

  lemma PairHeadRows11to21()
    ensures forall j :: 11 <= j < 22 ==> forall t :: t in HiraganaRows[j] && |t| == 2 ==> t[0] in PairHeads
  {
  }

  lemma PairHeadsA(c: char)
    requires c in "きしちにひ"
    ensures [c] in Hiragana
  {
    if c == 'き' { InHiragana(1, [c]); }
    else if c == 'し' { InHiragana(2, [c]); }
    else if c == 'ち' { InHiragana(3, [c]); }
    else if c == 'に' { InHiragana(4, [c]); }
    else { InHiragana(5, [c]); }
  }

  lemma PairHeadsB(c: char)
    requires c in "みりぎじぢ"
    ensures [c] in Hiragana
  {
    if c == 'み' { InHiragana(6, [c]); }
    else if c == 'り' { InHiragana(8, [c]); }
    else if c == 'ぎ' { InHiragana(11, [c]); }
    else if c == 'じ' { InHiragana(12, [c]); }
    else { InHiragana(13, [c]); }
  }

  lemma PairHeadsC(c: char)
    requires c in "びぴゔうふ"
    ensures [c] in Hiragana
  {
    if c == 'び' { InHiragana(14, [c]); }
    else if c == 'ぴ' { InHiragana(15, [c]); }
    else if c == 'ゔ' { InHiragana(16, [c]); }
    else if c == 'う' { InHiragana(0, [c]); }
    else { InHiragana(5, [c]); }
  }

  lemma PairHeadsD(c: char)
    requires c in "てとでど"
    ensures [c] in Hiragana
  {
    if c == 'て' || c == 'と' { InHiragana(3, [c]); }
    else { InHiragana(13, [c]); }
  }

  /** Each of those kana is a syllable of its own. */
  lemma PairHeadsAreSyllables(c: char)
    requires c in PairHeads
    ensures [c] in Hiragana
  {
    if c in "きしちにひ" { PairHeadsA(c); }
    else if c in "みりぎじぢ" { PairHeadsB(c); }
    else if c in "びぴゔうふ" { PairHeadsC(c); }
    else { PairHeadsD(c); }
  }

  lemma HiraganaPairHead(h: string)
    requires h in Hiragana && |h| == 2
    ensures [h[0]] in Hiragana
  {
    Seqs.ConcatMember(HiraganaRows, h);
    PairHeadRows0to10();
    PairHeadRows11to21();
    PairHeadsAreSyllables(h[0]);
  }

  /**
   * The first kana of a two-character syllable is a syllable by itself
   * (ふ of ふぁ, キ of キャ), in either script.
   */
  lemma PairHeadIsSyllable(t: string)
    requires IsSyllable(t) && |t| == 2
    ensures IsSyllable([t[0]])
  {
    if t in Hiragana {
      HiraganaPairHead(t);
    } else {
      var h := ToHiragana(t);
      HiraganaPairHead(h);
      var k := ToKatakana([h[0]]);
      assert k[0] as int == h[0] as int + 0x60 == t[0] as int;
      assert k == [t[0]];
    }
  }

  /** Once the lenient scan has found a syllable it never forgets that it found one. */
  lemma {:induction false} TrailFromKeepsSome(w: string, i: nat, last: Option<string>)
    requires i <= |w| && last.Some?
    ensures TrailFrom(w, i, last).Some?
    decreases |w| - i
  {
    if i < |w| {
      match StepAt(w, i)
      case Skip => TrailFromKeepsSome(w, i + 1, last);
      case Stop =>
      case Examine(t) =>
        if IsSyllable(t) {
          TrailFromKeepsSome(w, i + 1, Some(t));
        } else {
          TrailFromKeepsSome(w, i + 1, last);
        }
    }
  }
}
