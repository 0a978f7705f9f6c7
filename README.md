# Tango-Legacy core, modelled in Dafny

This project models the parts of the Tango / Botto Discord bot that decide
something.

- **The Shiritori word-chain game.** It covers:
  - the two kana tables and the script converters;
  - the syllable scan over a word;
  - a turn of the game, with its checks in order and the two dictionary queries;
  - the `shiritori check` command;
  - the message filter;
  - the registry of running games and the time-limit rule.
- **The flattening of one JMdict `<entry>`** into the rows of the JMdict tables.
- **The flattening of one KANJIDIC2 `<character>`** into a `Kanji` row and one meanings-and-readings row per `<rmgroup>`.
- **The per-author command lock** of the command context. This includes the bot's command gate, the after-invoke hook that releases the lock, the fundamental-permission check and the uptime text.
- **The kanji lookup and stroke-order commands.** These cover the one-character check, the embed text built from the KANJIDIC2 rows and the stroke-diagram file name.

One Dafny module covers each concern:

| module | file | covers |
|---|---|---|
| `Kana` | `kana.dfy` | the tables and the scan loops |
| `Lexicon` | `lexicon.dfy` | `check_is_noun` and `get_next_word` over an explicit table of rows |
| `Shiritori` | `shiritori.dfy` | the `Session` and `Registry` classes and the check command |
| `JMdict` | `jmdict.dfy` | `_parse_node` |
| `Kanjidic2` | `kanjidic2.dfy` | `_make_kanji` |
| `CommandLock` | `context.dfy` | `Context.lock`, `unlock` and `is_locked` |
| `Bot` | `bot.dfy` | uptime, permissions, `process_commands` and the hook |
| `KanjiLookup` | `kanji.dfy` | the two kanji commands |
| `Wrappers`, `Seqs`, `Text` | | `Option`/`Result`, sequence concatenation, string helpers |

The source's loops and in-place appends are methods with loop invariants. Each is proved equal to a reference function on its inputs, and the source's promises are lemmas about those functions. Objects whose fields change are classes:
- a running game (`Session`) and the game registry (`Registry`);
- the shared lock table (`LockTable`) and the command context (`Context`).

Where the code departs from the game and the data formats as usually understood, the model follows the code:
- **Registry entries.** They are never removed when a game ends. Only the next start for the same player pops and cancels the entry (`Registry.Start`). `Registry.Unload` cancels every game and keeps the entries.
- **JMdict part-of-speech inheritance.** `_parse_node` remembers the last `pos` and `misc` to pass them on to later senses, but never updates the remembered values after setting them to `None`. So every sense has exactly its own tags, and `JMdict.ParseSenses` proves that.
- **Small y-kana at the start of a word.** A small y-kana at position 0 stops the scan only when no second small y-kana follows. `ゃゃ` is rejected as invalid kana at the piece `ゃゃ` rather than ending with no syllable (`Kana.DoubleSmallYScan`).
- **An unscanned previous word.** When the scan of the previous word finds no syllable, `process_turn` reads an unbound local variable. This is the outcome `PreviousUnscanned`. It can happen after a reply such as `きゃゃー`, which matches the reply pattern of `きゃ` (`Lexicon.ReplyWithoutTrailingSyllable`).

## Model

| member | source | states |
|---|---|---|
| Kana.TablesAligned | botto/modules/shiritori.py:13-61 | The hiragana and katakana tables have the same length, and entry i of the katakana table is entry i of the hiragana table with every character moved up by 0x60. |
| Kana.TableShape | botto/modules/shiritori.py:13-61 | Every table entry is either one kana that is not a small vowel, a small y-kana or a mark, or a kana that is not a small y-kana followed by a small vowel or small y-kana; all characters lie in the kana blocks. |
| Kana.ScriptsDisjoint | botto/modules/shiritori.py:13-61 | No string is an entry of both tables. |
| Kana.ToKatakana | botto/modules/shiritori.py:68 | `to_katakana` of a hiragana entry is a katakana entry that spells the same syllable. |
| Kana.ToHiragana | botto/modules/shiritori.py:67 | `to_hiragana` of a katakana entry is a hiragana entry that spells the same syllable. |
| Kana.IndexOf | botto/modules/shiritori.py:67-68 | `list.index` finds the first position that holds the element. |
| Kana.HiraganaRoundTrip | botto/modules/shiritori.py:67-68 | `to_hiragana(to_katakana(h)) == h` for every hiragana entry. |
| Kana.KatakanaRoundTrip | botto/modules/shiritori.py:67-68 | `to_katakana(to_hiragana(k)) == k` for every katakana entry. |
| Kana.CorrespondsInjective | botto/modules/shiritori.py:67-68 | Two syllables are equal exactly when their other-script spellings are equal. |
| Kana.KatakanaBlock | botto/modules/shiritori.py:36-61 | Every katakana entry is non-empty and lies in the katakana block. |
| Kana.OtherScript | botto/modules/shiritori.py:300-307 | The other spelling the scan records is an entry of the other table that spells the same syllable. |
| Kana.OtherScriptInvolution | botto/modules/shiritori.py:277-282 | Swapping scripts twice gives the syllable back, with the same length. |
| Kana.StepShape | botto/modules/shiritori.py:288-298 | One pass looks up a single character that is not a small y-kana, or a character joined with the small y-kana after it; the loop breaks only at position 0. |
| Kana.ScanFromScanned | botto/modules/shiritori.py:288-313 | From any point, the scan finds a last syllable exactly when it counts one; that syllable is a table entry of a shape a pass can form; at most one syllable is counted per character. |
| Kana.ScanFromInvalid | botto/modules/shiritori.py:308-313 | The piece at which the scan gives up is neither a syllable nor one of っ, ッ and ー. |
| Kana.ScanShape | botto/modules/shiritori.py:284-313 | The scan of a word has a last syllable exactly when its count is non-zero; the count is at most the word's length; the last syllable is a table entry; a rejected piece is neither a syllable nor a mark. |
| Kana.ScanFromRejects | botto/modules/shiritori.py:288-313 | From any point, reaching a piece that is neither a syllable nor a mark without a break makes the scan reject the word, with that very piece when every piece before it was listed. |
| Kana.ScanFromRejectedAt | botto/modules/shiritori.py:288-313 | A rejection comes from a position the scan reached without a break, after listed pieces only, whose piece is the one reported and is unlisted. |
| Kana.ScanFromCount | botto/modules/shiritori.py:288-313 | A stretch with no break that the scan accepts adds exactly the number of syllables it looks up to the count. |
| Kana.ScanFromAllListed | botto/modules/shiritori.py:288-313 | A stretch with no break that the scan accepts looked up only syllables and marks. |
| Kana.ScanRejects | botto/modules/shiritori.py:288-313 | A word is rejected as invalid kana exactly when the scan reaches an unlisted piece before any break, and then the rejected piece is the first one. |
| Kana.ScanCounts | botto/modules/shiritori.py:288-313 | For a word the scan accepts without breaking at a leading small y-kana, the count is the number of syllables looked up. |
| Kana.ScanListed | botto/modules/shiritori.py:288-313 | A word the scan accepts without breaking at a leading small y-kana looked up only syllables and marks. |
| Kana.ScanBreaksAtOnce | botto/modules/shiritori.py:290-298 | A leading small y-kana not followed by another ends the scan at once with no syllable and a count of 0. |
| Kana.ScanFromCountGrows | botto/modules/shiritori.py:300-307 | The syllable count never goes down. |
| Kana.ScanFromNothingCounted | botto/modules/shiritori.py:288-313 | A stretch of the scan that counts nothing keeps the last syllable, and passed over marks only or stopped at a leading small y-kana. |
| Kana.ScanFromLastEnds | botto/modules/shiritori.py:288-313 | When a stretch counts a syllable, the last syllable it reports is followed in the word only by marks. |
| Kana.LastSyllableEndsWord | botto/modules/shiritori.py:288-313 | The reported last syllable closes the word: after it come only っ, ッ and ー. |
| Kana.ScanFromMarks | botto/modules/shiritori.py:308 | Over a stretch of marks the scan changes nothing. |
| Kana.ScanFromAppendMarks | botto/modules/shiritori.py:288-313 | Appending marks to a word leaves every stretch of the scan unchanged. |
| Kana.AppendMarks | botto/modules/shiritori.py:288-313 | Marks at the end of a word never change what the scan finds. |
| Kana.MarksOnly | botto/modules/shiritori.py:315-319 | A word made only of っ, ッ and ー has no syllable in either scan. |
| Kana.TrailFromAgrees | botto/modules/shiritori.py:265-282 | Where the strict scan finishes, the previous-word scan finds the same last syllable. |
| Kana.TrailingAgrees | botto/modules/shiritori.py:265-313 | For a word the strict scan accepts, both loops agree on the last syllable. |
| Kana.TrailFromShape | botto/modules/shiritori.py:277-282 | What the previous-word scan keeps is always an entry of either table. |
| Kana.TrailFromKeepsSome | botto/modules/shiritori.py:265-282 | Once the previous-word scan has found a syllable it always ends with one. |
| Kana.LeadingSmallY | botto/modules/shiritori.py:265-298 | A small y-kana at position 0, not followed by another, ends both scans with no syllable. |
| Kana.ScanWord | botto/modules/shiritori.py:284-313 | The loop over the player's word returns what the scan function finds, and the other spelling of the last syllable. |
| Kana.ScanPreviousWord | botto/modules/shiritori.py:261-282 | The loop over the previous word returns its trailing syllable, and that syllable's other spelling. |
| Kana.SeedWordScan | botto/modules/shiritori.py:210 | The seed word しりとり has four syllables and ends in り. |
| Kana.SeedSyllableOther | botto/modules/shiritori.py:210 | The first answer must start with り or リ. |
| Kana.LongVowelScan | botto/modules/shiritori.py:288-313 | コーヒー has two syllables and ends in ヒ. |
| Kana.JoinedSyllableScan | botto/modules/shiritori.py:290-296 | In きゃく the small ゃ joins き into one syllable: two syllables, ending in く. |
| Kana.SmallVowelScan | botto/modules/shiritori.py:290-313 | ファイル is rejected at its small ァ, because only small y-kana join. |
| Kana.DoubleSmallYScan | botto/modules/shiritori.py:290-298 | ゃゃ is rejected as invalid kana, while ゃ alone has no syllable. |
| Kana.PairHeadIsSyllable | botto/modules/shiritori.py:13-61 | The first kana of every two-character entry is an entry of its own. |
| Lexicon.CheckIsNoun | botto/modules/shiritori.py:80-102 | A word is a noun exactly when some row with exactly that reading is tagged as a common noun. |
| Lexicon.GetNextWord | botto/modules/shiritori.py:104-136 | There is no reply exactly when no row qualifies; otherwise the reply is the reading of a qualifying row. |
| Lexicon.ReplyIsValid | botto/modules/shiritori.py:104-136 | Any reply matches the query's pattern, is not a used word, and is a word `check_is_noun` accepts. |
| Lexicon.ReplyPatternMeaning | botto/modules/shiritori.py:111-114 | The pattern holds exactly when the reply starts with either spelling, has at least three characters and does not end in ん or ン, and after a one-character syllable its second character is not a small y-kana. |
| Lexicon.ReplyHasTrailingSyllable | botto/modules/shiritori.py:111-114 | A reply matching the pattern gives the next turn a previous syllable, unless a two-character syllable is followed by a second small y-kana. |
| Lexicon.ReplyWithoutTrailingSyllable | botto/modules/shiritori.py:111-114 | きゃゃー matches the pattern of きゃ, but the previous-word scan finds no syllable in it. |
| Shiritori.Clean | botto/modules/shiritori.py:255 | The cleaned word holds exactly the characters of the word other than spaces and ideographic spaces, and is no longer. |
| Text.RemoveAppend | botto/modules/shiritori.py:255 | `str.replace` of one character by the empty string removes it from each part of a concatenation and keeps every other character, in order and with its repetitions; a single character is dropped exactly when it is the removed one. |
| Shiritori.CleanAppend | botto/modules/shiritori.py:255 | Cleaning a concatenation cleans each part, and a single character is dropped exactly when it is a space or an ideographic space; so the cleaned word is the word with those characters deleted, in order and with repetitions. |
| Shiritori.TurnChecks | botto/modules/shiritori.py:261-355 | For a fresh word, the scans, rules and queries give the outcome `Judge` defines, in the source's order. |
| Shiritori.Session.constructor | botto/modules/shiritori.py:209-210 | A new game's list holds only the seed word, and the game is live. |
| Shiritori.Session.ProcessTurn | botto/modules/shiritori.py:245-359 | The outcome is the first failing check in the source's order. The score is half the used words before the turn. The cleaned word is appended unless it is a repeat, and the reply after it only on acceptance. The game stays live exactly when the turn is accepted. |
| Shiritori.Session.OnMessage | botto/modules/shiritori.py:212-243 | A message that fails the filter (another author or channel, no text, or a leading backslash) changes nothing. Any other is played as a turn: the outcome is the turn's verdict, the cleaned word is appended unless it is a repeat and the reply after it on acceptance, the accepted-turn count grows by one exactly on acceptance, and the game stays live exactly then. |
| Shiritori.Session.OnTimeout | botto/modules/shiritori.py:225-242 | On timeout the game ends with score `len(used_words) // 2`, which equals the number of accepted turns. |
| Shiritori.Session.Cancel | botto/modules/shiritori.py:76-78 | Cancelling ends the game and leaves its words as they were. |
| Shiritori.TimeLimitVerdict | botto/modules/shiritori.py:143-148 | A game starts exactly when the time limit is between 5 and 60 inclusive. |
| Shiritori.Registry.constructor | botto/modules/shiritori.py:74 | The registry starts empty. |
| Shiritori.Registry.Start | botto/modules/shiritori.py:138-172 | An existing game of the player is popped and cancelled whatever the limit. A new game with the seed word is stored only when the limit is in range. |
| Shiritori.Registry.Unload | botto/modules/shiritori.py:76-78 | Every stored game is cancelled; words and entries are kept. |
| Shiritori.ShiritoriCheck | botto/modules/shiritori.py:361-421 | The check command gives the verdict of the rules without the used words or the start check, in the source's order. |
| Shiritori.RepeatedWins | botto/modules/shiritori.py:256-258 | A used word is rejected as a repeat, whatever else holds of it. |
| Shiritori.RulesPrecedeLookups | botto/modules/shiritori.py:315-344 | A turn rejected by the rules is rejected the same way whatever the database holds. |
| Shiritori.AcceptedTurn | botto/modules/shiritori.py:255-359 | An accepted word is fresh, has at least two syllables, opens with either spelling of the previous last syllable, does not end in ん or ン, and is a common noun. The reply is unused, differs from the word, is a common noun and matches the pattern. |
| Shiritori.StartCheckScriptNeutral | botto/modules/shiritori.py:320 | A previous word ending in a syllable and one ending in its other spelling reject the same words at the start check. |
| Shiritori.CheckAgreesWithTurn | botto/modules/shiritori.py:315-416 | For a fresh word that passes the start check, `shiritori check` fails for exactly the reason a turn fails, and passes exactly when the turn reaches the reply query. |
| Shiritori.CleanUnchanged | botto/modules/shiritori.py:255 | A word without spaces is left as it is. |
| Shiritori.FirstTurnAccepted | botto/modules/shiritori.py:209-359 | After しりとり, the answer りす with りす and すいか listed as nouns gets the reply すいか. |
| Shiritori.FirstTurnEndsInN | botto/modules/shiritori.py:326-328 | After しりとり, りすん ends the game for ending in ん. |
| Shiritori.FirstTurnTooShort | botto/modules/shiritori.py:329-334 | After しりとり, リー is rejected for having one syllable. |
| JMdict.ParseWritingElements | tango/utils/jmdict.py:48-56 | One writing row per `<k_ele>`, in order, whose literals are the `<keb>` texts. |
| JMdict.ParseReadingElements | tango/utils/jmdict.py:61-81 | One reading row per `<r_ele>`, in order, mapped to no writings with `<re_nokanji/>`, else to its `<re_restr>` texts if any, else to every writing literal. |
| JMdict.ParseReadingsWritings | tango/utils/jmdict.py:86-95 | The links are one row per mapped writing, reading after reading. |
| JMdict.ParseSenseChildren | tango/utils/jmdict.py:133-184 | One row per `<lsource>` and `<gloss>` with attribute defaults, and one link per related writing and reading. |
| JMdict.ParseSenses | tango/utils/jmdict.py:97-184 | Sense k gets index k + 1 and exactly its own `pos` and `misc`; its lsource, gloss and link rows follow sense by sense. |
| JMdict.ParseNode | tango/utils/jmdict.py:32-198 | The entry id is `ent_seq`, and the eight lists are the entry's flattening; there is one sense row per `<sense>`, with index and tags as in the source. |
| JMdict.LinkRows | tango/utils/jmdict.py:69-95 | A link row exists exactly when its reading is some `<reb>` whose mapped writings contain its writing; `re_nokanji` wins over `re_restr`. |
| JMdict.GlossRows | tango/utils/jmdict.py:146-156 | Gloss rows are exactly one per `<gloss>` of sense k, with index k + 1, the entry id, and `lang` defaulting to "eng". |
| JMdict.LSourceRows | tango/utils/jmdict.py:133-143 | Lsource rows are exactly one per `<lsource>` of sense k, with index k + 1, `lang` defaulting to "eng" and `type` to "full". |
| JMdict.WritingSenseRows | tango/utils/jmdict.py:158-175 | A writing-sense row links sense k + 1 to a writing exactly when the writing is among its `<stagk>` texts, or among all `<keb>`s when there are none. |
| JMdict.ReadingSenseRows | tango/utils/jmdict.py:163-184 | A reading-sense row links sense k + 1 to a reading exactly when the reading is among its `<stagr>` texts, or among all `<reb>`s when there are none. |
| JMdict.RowsCarryEntry | tango/utils/jmdict.py:33-184 | Every row of every list carries the entry id, and every sense row's index is between 1 and the number of senses. |
| JMdict.OneRowPerElement | tango/utils/jmdict.py:133-156 | There are exactly as many gloss rows as `<gloss>` elements and lsource rows as `<lsource>` elements. |
| Kanjidic2.SplitReadings | tango/utils/kanjidic2.py:43-49 | The on readings are the `ja_on` readings and the kun readings the `ja_kun` ones, in document order. |
| Kanjidic2.MakeKanji | tango/utils/kanjidic2.py:18-60 | Fails exactly when `<literal>` or `<stroke_count>` is absent; otherwise gives the kanji row and one group row per `<rmgroup>`. |
| Kanjidic2.ReadingsOfTypeMember | tango/utils/kanjidic2.py:43-49 | A text is an on (or kun) reading exactly when some reading of that type has it. |
| Kanjidic2.OtherTypesDropped | tango/utils/kanjidic2.py:43-49 | Readings of other types reach neither list. |
| Kanjidic2.PlainMeaningsMember | tango/utils/kanjidic2.py:37-41 | A text is kept as a meaning exactly when an attribute-less `<meaning>` has it. |
| Kanjidic2.GroupRows | tango/utils/kanjidic2.py:35-58 | One row per group in order, with the literal and that group's readings; all rows have the same meanings, drawn from every group of the character. |
| Kanjidic2.OptionalNumbers | tango/utils/kanjidic2.py:11-31 | Grade, JLPT level and frequency rank are `None` exactly when the tag is absent and otherwise its first value; stroke count and nanori come from their tags. |
| CommandLock.LockTable.constructor | tango/core/context.py:17 | The lock table starts empty. |
| CommandLock.Context.constructor | tango/core/context.py:17 | A context holds its author and the one shared table. |
| CommandLock.Context.Lock | tango/core/context.py:31-33 | The author's entry becomes this context and the author is locked; other authors' entries are unchanged. |
| CommandLock.Context.Unlock | tango/core/context.py:35-37 | The author's entry is removed and the author is unlocked; unlocking an absent author changes nothing; other entries are unchanged. |
| CommandLock.Context.IsLocked | tango/core/context.py:39-41 | An author is locked exactly when the shared table has an entry for them; it has no contract of its own, and `Lock` and `Unlock` state when it holds. |
| CommandLock.SharedTable | tango/core/context.py:17-41 | A lock through one context of an author is seen by another, and a second lock replaces the stored context. |
| Bot.Decompose | tango/core/bot.py:70-72 | Seconds below 60, minutes below 60, hours below 24, and days·86400 + hours·3600 + minutes·60 + seconds equals the total. |
| Bot.DecomposeUnique | tango/core/bot.py:70-72 | Only one split has those bounds. |
| Bot.Humanise | tango/core/bot.py:69-83 | The long or brief uptime text; it has no contract of its own, and what it shows is stated by `Bot.DaysShownLong` and `Bot.DaysShownBrief`. |
| Bot.DaysShownLong | tango/core/bot.py:74-78 | The long text mentions days exactly when there are whole days, and then opens with their number; otherwise it opens with the hours. |
| Bot.DaysShownBrief | tango/core/bot.py:79-83 | The brief text shows days exactly when there are whole days, and then opens with their number; otherwise it opens with the hours. |
| Bot.MissingMember | tango/core/bot.py:166-170 | A permission is reported missing exactly when it is required and not granted. |
| Bot.CheckFundamentalPermissions | tango/core/bot.py:151-175 | The check passes, returning true, exactly when every fundamental permission is granted; otherwise it fails with exactly the required permissions that are not granted. |
| Bot.UnlockAfterInvoke | tango/core/bot.py:177-179 | The hook removes the invoking author's lock. |
| Bot.ProcessCommands | tango/core/bot.py:141-147 | Messages of bots and locked authors are dropped. A failed permission check stops the command. An invoked command ends with its author unlocked. |
| KanjiLookup.KanimajiOutput | botto/utils/kanimaji/__init__.py:99-409 | `create_gif` leaves the animation at `output` when one is given, and otherwise beside the SVG, in the SVG's directory. |
| KanjiLookup.GeneratedElsewhere | botto/utils/kanimaji/__init__.py:109-409 | Without `output`, the animation of a character's SVG is written to a path other than the diagram path. |
| KanjiLookup.OpenFile | botto/modules/kanji.py:53-55 | Opening a file succeeds exactly when the path exists, and otherwise fails with FileNotFoundError for that path. |
| KanjiLookup.StrokeDiagram | botto/modules/kanji.py:16-55 | As written: the diagram is found exactly when the gif exists; with neither the gif nor the SVG the ValueError "No stroke diagram found." is raised; with the SVG alone the diagram path is opened although nothing wrote it, and FileNotFoundError is raised for it. |
| KanjiLookup.IntendedStrokeDiagram | botto/modules/kanji.py:16-55 | With `output` passed to `create_gif`: the diagram is found, at the diagram path under the character's name, exactly when the gif or the SVG exists; otherwise "No stroke diagram found." is raised; opening never fails. |
| KanjiLookup.SvgOnlyUnreadable | botto/modules/kanji.py:45-55 | The code as written and the intended lookup differ exactly for a character with an SVG and no gif: there the code fails to open the diagram path while the intended lookup sends it. |
| KanjiLookup.CodepointRoundTrip | botto/modules/kanji.py:17 | The code point is lower-case hexadecimal that reads back as the character's code point, five digits long below U+100000. |
| KanjiLookup.DiagramPathInjective | botto/modules/kanji.py:17-25 | Different characters have different diagram paths. |
| KanjiLookup.BuildDescription | botto/modules/kanji.py:87-93 | The description is the stroke count line, followed by the grade, frequency rank and former JLPT level lines that are truthy, joined by newlines. |
| KanjiLookup.DescriptionShape | botto/modules/kanji.py:87-93 | The description always opens with the stroke count, and the truthy optional lines follow in order grade, frequency rank, JLPT level. |
| KanjiLookup.AppendGroup | botto/modules/kanji.py:97-110 | One group adds its heading, a kun line if it has kun readings, an on line if it has on readings, then a separator unless it is last. |
| KanjiLookup.BuildLines | botto/modules/kanji.py:95-110 | The loop gives every group's lines in order. |
| KanjiLookup.BlocksSnoc | botto/modules/kanji.py:109-110 | Adding a group gives the former last group a separator and leaves the others alone. |
| KanjiLookup.SeparatorBetweenGroups | botto/modules/kanji.py:95-110 | Groups are separated by one "\n" line and the last group is followed by none. |
| KanjiLookup.FirstKanji | botto/modules/kanji.py:71 | There is no row exactly when no kanji row has the character; otherwise the row found has it. |
| KanjiLookup.RowsFor | botto/modules/kanji.py:79-81 | The groups found are exactly the table's rows for the character, and there are no more of them than rows. |
| KanjiLookup.RowsForAppend | botto/modules/kanji.py:79-81 | The rows found in a concatenated table are those of each part, in order: every matching row is returned once, in table order. |
| KanjiLookup.RowsForSingle | botto/modules/kanji.py:79-81 | A single row is returned exactly when it is the character's. |
| KanjiLookup.KanjiSearch | botto/modules/kanji.py:58-132 | Longer input is rejected first, then a non-CJK name, then a character missing from the dictionary. The embed carries the author line, the description, the meanings field only when there are groups, the nanori field only with nanori, and the diagram as thumbnail when the gif exists, none when neither file exists. With the SVG alone the FileNotFoundError escapes and nothing is sent. |
| KanjiLookup.StrokeOrder | botto/modules/kanji.py:163-183 | Longer input is rejected first, an empty one fails the name lookup, a non-CJK name is rejected. Otherwise the diagram is sent exactly when its gif exists, from the character's own path under its name with underscores. With neither file the error "No stroke diagram found." is reported. With the SVG alone the FileNotFoundError escapes and nothing is sent. |

## Findings

| source | as written | input that shows it | evidently intended | confidence | as-written member | corrected member |
|---|---|---|---|---|---|---|
| botto/modules/kanji.py:45-55 | `create_kanimaji_gif` calls `kanimaji.create_gif(filename)` without `output`, so the gif is written as `{cp}_anim.gif` beside the SVG in `resources/data/kanjivg_svg/`; then it opens `resources/data/kanjivg_kanimaji_gif/{cp}_anim.gif`, which nothing wrote | a CJK character whose SVG exists and whose animated gif does not | pass the diagram path as `output`, so the generated gif is the file that is then sent | not executed; high | KanjiLookup.SvgOnlyUnreadable | KanjiLookup.IntendedStrokeDiagram |

The two commands model the code as written: for that character `kanji` and `strokeorder` end in `Crashed` and send nothing.

## Left out

- Asynchronous timing and cancellation (`wait_for` deadlines, `Task.cancel`, `is_closed`): a timeout and a cancellation are method calls (`Session.OnTimeout`, `Session.Cancel`).
- The PostgreSQL queries and the random entry offset: the database is an explicit table of rows, and the offset is a parameter. The reply is the first qualifying row in table order. `db.scalar` returns the first row of a query without `ORDER BY`, so no particular row is guaranteed.
- Messages, embeds, emoji, typing indicators and the score-dependent emoji: turns and commands return an outcome value in place of the text sent.
- XML parsing (`parse` in both parsers, `_get_child`, `_has_child` and `_get_single_data` as tree searches) and `int()` parsing: the parsers take already-structured records whose numbers are integers.
- `unicodedata.name` is a function parameter.
- The files on disk are a set of paths.
- Generating a gif from an SVG (`kanimaji.create_gif`) is assumed to succeed; the model keeps only where the gif is written.
- `discord.File` is taken to open its path when it is built, so a missing path raises FileNotFoundError there.
- Bot.CheckFundamentalPermissions: states which permissions are reported missing, not their order. The model's list keeps the order in which the source names the required permissions; the iteration order of discord.py's `Permissions` depends on the library version.
- Clean: its own contract states which characters remain and that none is a space; the order and the repetitions of the kept characters are stated by the lemma `Shiritori.CleanAppend`, not by `Clean` itself.
- RowsFor: its own contract states which rows are returned; that each matching row is returned once and in table order is stated by the lemmas `KanjiLookup.RowsForAppend` and `KanjiLookup.RowsForSingle`.
- Bot.ProcessCommands: command lookup and argument parsing are not modelled. A message from an unlocked human author is treated as a command that is invoked. The command's own effect on the lock table is one optional `lock()` call.
- The rest of the repository:
  - the kanimaji and KanjiVG gif generation;
  - the Jisho command;
  - the meta and event cogs;
  - logging and bootstrap;
  - `ping`, `uptime`, `keep_alive`, `shutdown` and `_do_cleanup`;
  - the ORM model declarations (their columns are the fields of the row datatypes).
