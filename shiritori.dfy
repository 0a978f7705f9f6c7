/**
 * The Shiritori game of botto/modules/shiritori.py: one game per player,
 * kept in a registry, each game a list of used words that grows by the
 * player's word and the bot's reply on every accepted turn.
 */
module Shiritori {
  import opened Wrappers
  import opened Text
  import Kana
  import Lexicon

  /** Every game starts from this word, so the first answer starts with り or リ. */
  const SeedWord: string := "しりとり"

  /** `word.replace(" ", "").replace("\N{IDEOGRAPHIC SPACE}", "")`. */
  function Clean(word: string): (w: string)
    ensures ' ' !in w && '\U{3000}' !in w
    ensures forall c :: c in w <==> c in word && c != ' ' && c != '\U{3000}'
    ensures |w| <= |word|
  {
    Remove(Remove(word, ' '), '\U{3000}')
  }

  /**
   * Cleaning goes character by character: spaces and ideographic spaces
   * are dropped and every other character is kept in place, so cleaning a
   * concatenation cleans each part.
   */
  lemma CleanAppend(a: string, b: string)
    ensures Clean(a + b) == Clean(a) + Clean(b)
    ensures forall x :: Clean([x]) == if x == ' ' || x == '\U{3000}' then [] else [x]
  {
    RemoveAppend(a, b, ' ');
    RemoveAppend(Remove(a, ' '), Remove(b, ' '), '\U{3000}');
    forall x
      ensures Clean([x]) == if x == ' ' || x == '\U{3000}' then [] else [x]
    {
      RemoveAppend([x], [], ' ');
      RemoveAppend(Remove([x], ' '), [], '\U{3000}');
    }
  }

  /** How a turn ends; every outcome but `Accepted` ends the game. */
  datatype TurnOutcome =
    | Accepted(reply: string)
    | Repeated
    | InvalidKana(piece: string)
    | NoSyllable
    | PreviousUnscanned  // the scan of the previous word found nothing: `prev_last_syllable` is unbound
    | WrongStart(prevLast: string, prevOther: string)
    | EndsInN
    | TooShort
    | NotNoun
    | NoReply

  /** The outcomes decided by the rules alone, before the database is asked. */
  predicate IsRuleOutcome(o: TurnOutcome)
  {
    !(o.Accepted? || o.NotNoun? || o.NoReply?)
  }

  /**
   * `process_turn` as a function of the used words before the turn: the
   * checks in the order the source makes them, the first failure winning.
   */
  function Judge(used: seq<string>, word: string, db: Lexicon.Table, offset: int): TurnOutcome
    requires |used| >= 1
  {
    var w := Clean(word);
    if w in used then Repeated
    else
      var prev := Kana.TrailingSyllable(used[|used| - 1]);
      Kana.TrailFromShape(used[|used| - 1], 0, None);
      Kana.ScanShape(w);
      match Kana.Scan(w)
      case InvalidKana(t) => InvalidKana(t)
      case Scanned(last, n) =>
        if last.None? then NoSyllable
        else if prev.None? then PreviousUnscanned
        else if !StartsWithEither(w, prev.value, Kana.OtherScript(prev.value)) then
          WrongStart(prev.value, Kana.OtherScript(prev.value))
        else if last.value == "ん" || last.value == "ン" then EndsInN
        else if n < 2 then TooShort
        else if !Lexicon.CheckIsNoun(db, w) then NotNoun
        else match Lexicon.GetNextWord(db, offset, last.value, Kana.OtherScript(last.value), used + [w])
          case None => NoReply
          case Some(r) => Accepted(r)
  }

  /** A message of the chat: its author, its channel and its text, if any. */
  datatype Message = Message(author: int, channel: int, content: Option<string>)

  /**
   * The filter `check` of `continue_shiritori`: a message from the player,
   * in the game's channel, with text that does not start with a backslash.
   */
  predicate IsAnswer(owner: int, channel: int, m: Message)
  {
    && m.author == owner
    && m.channel == channel
    && m.content.Some?
    && !StartsWith(m.content.value, "\\")
  }

  /**
   * The checks of `process_turn` once the word is known to be fresh: the
   * scans of the previous word and of the word, the rules, then the noun
   * query and the reply query.
   */
  method TurnChecks(used: seq<string>, word: string, db: Lexicon.Table, offset: int) returns (outcome: TurnOutcome)
    requires |used| >= 1 && Clean(word) !in used
    ensures outcome == Judge(used, word, db, offset)
  {
    var w := Clean(word);
    var prevLast, prevOther := Kana.ScanPreviousWord(used[|used| - 1]);
    var scan, other := Kana.ScanWord(w);
    Kana.ScanShape(w);
    if scan.InvalidKana? {
      outcome := InvalidKana(scan.text);
    } else if scan.last.None? {
      outcome := NoSyllable;
    } else if prevLast.None? {
      outcome := PreviousUnscanned;
    } else if !StartsWithEither(w, prevLast.value, prevOther) {
      outcome := WrongStart(prevLast.value, prevOther);
    } else if scan.last.value == "ん" || scan.last.value == "ン" {
      outcome := EndsInN;
    } else if scan.count < 2 {
      outcome := TooShort;
    } else {
      var last := scan.last.value;
      var isNoun := Lexicon.CheckIsNoun(db, w);
      if !isNoun {
        outcome := NotNoun;
      } else {
        var answer := Lexicon.GetNextWord(db, offset, last, other, used + [w]);
        if answer.None? {
          outcome := NoReply;
        } else {
          outcome := Accepted(answer.value);
        }
      }
    }
  }

  /** One running game: the task `continue_shiritori` and its list `used_words`. */
  class Session {
    const owner: int
    const channel: int
    const timeLimit: int
    var usedWords: seq<string>
    /** False once the game has ended, by a rule, a timeout or cancellation. */
    var live: bool
    /** The number of accepted turns. */
    ghost var turns: nat

    ghost predicate Valid()
      reads this
    {
      |usedWords| >= 1 && (live ==> |usedWords| == 2 * turns + 1)
    }

    constructor (owner: int, channel: int, timeLimit: int)
      ensures this.owner == owner && this.channel == channel && this.timeLimit == timeLimit
      ensures usedWords == [SeedWord] && live && turns == 0
      ensures Valid()
    {
      this.owner := owner;
      this.channel := channel;
      this.timeLimit := timeLimit;
      usedWords := [SeedWord];
      live := true;
      turns := 0;
    }

    /**
     * `process_turn`: the reported score is the one before the turn; the
     * cleaned word is appended once it is not a repeat, even when a later
     * check fails, and the reply after it when the turn is accepted.
     */
    method ProcessTurn(word: string, db: Lexicon.Table, offset: int) returns (outcome: TurnOutcome, score: nat)
      requires Valid() && live
      modifies this
      ensures Valid()
      ensures outcome == Judge(old(usedWords), word, db, offset)
      ensures score == |old(usedWords)| / 2 == old(turns)
      ensures usedWords == old(usedWords)
        + (if outcome.Repeated? then [] else [Clean(word)])
        + (if outcome.Accepted? then [outcome.reply] else [])
      ensures live <==> outcome.Accepted?
      ensures turns == old(turns) + (if outcome.Accepted? then 1 else 0)
    {
      score := |usedWords| / 2;
      var w := Clean(word);
      if w in usedWords {
        live := false;
        return Repeated, score;
      }
      var before := usedWords;
      usedWords := usedWords + [w];
      live := false;
      outcome := TurnChecks(before, word, db, offset);
      if outcome.Accepted? {
        usedWords := usedWords + [outcome.reply];
        turns := turns + 1;
        live := true;
      }
    }

    /**
     * One message arriving while the game waits: messages the filter drops
     * change nothing; any other is played as a turn.
     */
    method OnMessage(m: Message, db: Lexicon.Table, offset: int) returns (outcome: Option<TurnOutcome>)
      requires Valid() && live
      modifies this
      ensures Valid()
      ensures !IsAnswer(owner, channel, m) ==> outcome == None && unchanged(this)
      ensures IsAnswer(owner, channel, m) ==>
        && outcome == Some(Judge(old(usedWords), m.content.value, db, offset))
        && usedWords == old(usedWords)
             + (if outcome.value.Repeated? then [] else [Clean(m.content.value)])
             + (if outcome.value.Accepted? then [outcome.value.reply] else [])
        && turns == old(turns) + (if outcome.value.Accepted? then 1 else 0)
        && (live <==> outcome.value.Accepted?)
    {
      if !IsAnswer(owner, channel, m) {
        return None;
      }
      var o, _ := ProcessTurn(m.content.value, db, offset);
      outcome := Some(o);
    }

    /** No answer within the time limit: the game ends with half the used words as score. */
    method OnTimeout() returns (score: nat)
      requires Valid() && live
      modifies this
      ensures score == |usedWords| / 2 == old(turns)
      ensures usedWords == old(usedWords) && !live
    {
      score := |usedWords| / 2;
      live := false;
    }

    /** `Task.cancel`: the game stops; its words stay as they were. */
    method Cancel()
      requires Valid()
      modifies this
      ensures Valid() && !live
      ensures usedWords == old(usedWords) && turns == old(turns)
    {
      live := false;
    }
  }

  /** How the start command ends. */
  datatype StartOutcome = Started | TooFast | TooSlow

  /** The start command's verdict on a time limit: 5 to 60 seconds. */
  function TimeLimitVerdict(timeLimit: int): (o: StartOutcome)
    ensures o == Started <==> 5 <= timeLimit <= 60
    ensures o == TooFast <==> timeLimit < 5
  {
    if timeLimit < 5 then TooFast
    else if timeLimit > 60 then TooSlow
    else Started
  }

  /** The cog's `sessions` dictionary from player to running game. */
  class Registry {
    var sessions: map<int, Session>

    ghost predicate Valid()
      reads this, sessions.Values
    {
      forall p :: p in sessions ==> sessions[p].Valid()
    }

    constructor ()
      ensures sessions == map[] && Valid()
    {
      sessions := map[];
    }

    /**
     * The `shiritori` command: an existing game of the player is popped and
     * cancelled first, whatever the time limit; a new game is stored only
     * when the limit is in range.
     */
    method Start(player: int, channel: int, timeLimit: int) returns (outcome: StartOutcome, s: Session?)
      requires Valid()
      modifies this, if player in sessions then {sessions[player]} else {}
      ensures Valid()
      ensures outcome == TimeLimitVerdict(timeLimit)
      ensures player in old(sessions) ==>
        && !old(sessions)[player].live
        && old(sessions)[player].usedWords == old(sessions[player].usedWords)
      ensures outcome != Started ==> s == null && sessions == old(sessions) - {player}
      ensures outcome == Started ==>
        && s != null && fresh(s)
        && sessions == old(sessions)[player := s]
        && s.owner == player && s.channel == channel && s.timeLimit == timeLimit
        && s.usedWords == [SeedWord] && s.live
    {
      if player in sessions {
        var old_session := sessions[player];
        sessions := sessions - {player};
        old_session.Cancel();
      }
      outcome := TimeLimitVerdict(timeLimit);
      if outcome != Started {
        return outcome, null;
      }
      s := new Session(player, channel, timeLimit);
      sessions := sessions[player := s];
    }

    /** `__unload`: every stored game is cancelled; the dictionary keeps its entries. */
    method Unload()
      requires Valid()
      modifies sessions.Values
      ensures Valid()
      ensures forall p :: p in sessions ==> !sessions[p].live
      ensures forall t :: t in sessions.Values ==> t.usedWords == old(t.usedWords)
    {
      forall t | t in sessions.Values {
        t.live := false;
      }
    }
  }

  // ---------------------------------------------------------------------------
  // The check command
  // ---------------------------------------------------------------------------

  /** What `shiritori check` reports: the last syllable in both scripts, or the first failure. */
  datatype Verdict = Passed(last: string, other: string) | Failed(reason: TurnOutcome)

  /** `shiritori_check` as a function: the checks of a turn without the used words and the start. */
  function CheckWord(word: string, db: Lexicon.Table): Verdict
  {
    var w := Clean(word);
    Kana.ScanShape(w);
    match Kana.Scan(w)
    case InvalidKana(t) => Failed(InvalidKana(t))
    case Scanned(last, n) =>
      if last.None? then Failed(NoSyllable)
      else if last.value == "ん" || last.value == "ン" then Failed(EndsInN)
      else if n < 2 then Failed(TooShort)
      else if !Lexicon.CheckIsNoun(db, w) then Failed(NotNoun)
      else Passed(last.value, Kana.OtherScript(last.value))
  }

  /** `shiritori_check`: the scan loop and the checks; nothing is stored. */
  method ShiritoriCheck(word: string, db: Lexicon.Table) returns (v: Verdict)
    ensures v == CheckWord(word, db)
  {
    var w := Clean(word);
    var scan, other := Kana.ScanWord(w);
    Kana.ScanShape(w);
    if scan.InvalidKana? {
      return Failed(InvalidKana(scan.text));
    }
    if scan.last.None? {
      return Failed(NoSyllable);
    }
    var last := scan.last.value;
    if last == "ん" || last == "ン" {
      return Failed(EndsInN);
    }
    if scan.count < 2 {
      return Failed(TooShort);
    }
    var isNoun := Lexicon.CheckIsNoun(db, w);
    if !isNoun {
      return Failed(NotNoun);
    }
    v := Passed(last, other);
  }

  // ---------------------------------------------------------------------------
  // Properties of a turn
  // ---------------------------------------------------------------------------

  /** A used word is rejected as a repeat, whatever else holds of it. */
  lemma RepeatedWins(used: seq<string>, word: string, db: Lexicon.Table, offset: int)
    requires |used| >= 1 && Clean(word) in used
    ensures Judge(used, word, db, offset) == Repeated
  {
  }

  /**
   * Every rule is checked before the database is asked: a turn the rules
   * reject is rejected in the same way whatever the database holds.
   */
  lemma RulesPrecedeLookups(used: seq<string>, word: string, db: Lexicon.Table, offset: int, db': Lexicon.Table, offset': int)
    requires |used| >= 1
    requires IsRuleOutcome(Judge(used, word, db, offset))
    ensures Judge(used, word, db', offset') == Judge(used, word, db, offset)
  {
  }

  /**
   * What an accepted turn guarantees: a fresh word of at least two
   * syllables, opening with either spelling of the previous word's last
   * syllable, whose last syllable is not ん or ン and is followed only by
   * ッ, っ or ー; a common noun; and a reply that is unused, different from
   * the word, a common noun itself, and opens with either spelling of the
   * word's last syllable.
   */
  lemma AcceptedTurn(used: seq<string>, word: string, db: Lexicon.Table, offset: int)
    requires |used| >= 1 && Judge(used, word, db, offset).Accepted?
    ensures var w := Clean(word);
      && w !in used
      && Kana.Scan(w).Scanned? && Kana.Scan(w).last.Some? && Kana.Scan(w).count >= 2
      && Kana.IsSyllable(Kana.Scan(w).last.value)
      && Kana.Scan(w).last.value != "ん" && Kana.Scan(w).last.value != "ン"
      && (exists k :: 0 < k <= |w| && Kana.EndsWith(w[..k], Kana.Scan(w).last.value) && Kana.AllMarks(w[k..]))
      && Kana.TrailingSyllable(used[|used| - 1]).Some?
      && Kana.IsSyllable(Kana.TrailingSyllable(used[|used| - 1]).value)
      && StartsWithEither(w, Kana.TrailingSyllable(used[|used| - 1]).value,
                          Kana.OtherScript(Kana.TrailingSyllable(used[|used| - 1]).value))
      && Lexicon.CheckIsNoun(db, w)
    ensures var w := Clean(word);
      var r := Judge(used, word, db, offset).reply;
      var l := Kana.Scan(w).last.value;
      && r !in used && r != w
      && Lexicon.CheckIsNoun(db, r)
      && StartsWithEither(r, l, Kana.OtherScript(l))
      && |r| >= 3 && r[|r| - 1] !in "んン"
      && (|l| == 1 ==> r[1] !in Kana.SmallY)
  {
    var w := Clean(word);
    Kana.ScanShape(w);
    Kana.TrailFromShape(used[|used| - 1], 0, None);
    var l := Kana.Scan(w).last.value;
    Kana.LastSyllableEndsWord(w);
    Lexicon.ReplyIsValid(db, offset, l, Kana.OtherScript(l), used + [w]);
    Lexicon.ReplyPatternMeaning(Judge(used, word, db, offset).reply, l);
  }

  /**
   * The start check is script-neutral: a previous word ending in a syllable
   * and one ending in the same syllable in the other script reject the same
   * candidates as a wrong start.
   */
  lemma StartCheckScriptNeutral(used: seq<string>, used': seq<string>, word: string, db: Lexicon.Table, offset: int)
    requires |used| >= 1 && |used'| >= 1
    requires Clean(word) !in used && Clean(word) !in used'
    requires Kana.TrailingSyllable(used[|used| - 1]).Some?
    requires Kana.IsSyllable(Kana.TrailingSyllable(used[|used| - 1]).value)
    requires Kana.TrailingSyllable(used'[|used'| - 1]) == Some(Kana.OtherScript(Kana.TrailingSyllable(used[|used| - 1]).value))
    ensures Judge(used, word, db, offset).WrongStart? <==> Judge(used', word, db, offset).WrongStart?
  {
    Kana.OtherScriptInvolution(Kana.TrailingSyllable(used[|used| - 1]).value);
  }

  /**
   * `shiritori check` and a turn agree: once the word is fresh and passes
   * the start check, the command fails for exactly the reason the turn
   * does, and passes exactly when the turn gets as far as the reply query.
   */
  lemma CheckAgreesWithTurn(used: seq<string>, word: string, db: Lexicon.Table, offset: int)
    requires |used| >= 1 && Clean(word) !in used
    requires Kana.TrailingSyllable(used[|used| - 1]).Some?
    requires Kana.IsSyllable(Kana.TrailingSyllable(used[|used| - 1]).value)
    requires var p := Kana.TrailingSyllable(used[|used| - 1]).value;
      StartsWithEither(Clean(word), p, Kana.OtherScript(p))
    ensures CheckWord(word, db).Failed? ==> Judge(used, word, db, offset) == CheckWord(word, db).reason
    ensures CheckWord(word, db).Passed? <==> Judge(used, word, db, offset).Accepted? || Judge(used, word, db, offset).NoReply?
    ensures CheckWord(word, db).Passed? ==>
      CheckWord(word, db).last == Kana.Scan(Clean(word)).last.value
      && CheckWord(word, db).other == Kana.OtherScript(CheckWord(word, db).last)
  {
  }

  // ---------------------------------------------------------------------------
  // Turns worked through
  // ---------------------------------------------------------------------------

  /** A two-row dictionary in which りす and すいか are common nouns. */
  const ExampleTable: Lexicon.Table := [
    Lexicon.Row(1200000, "りす", [Lexicon.CommonNoun]),
    Lexicon.Row(1300000, "すいか", [Lexicon.CommonNoun])
  ]

  /** A word without spaces is left as it is. */
  lemma CleanUnchanged(w: string)
    requires ' ' !in w && '\U{3000}' !in w
    ensures Clean(w) == w
  {
    RemoveAbsent(w, ' ');
    RemoveAbsent(w, '\U{3000}');
  }

  lemma RisunScan()
    ensures Kana.Scan("りすん") == Kana.Scanned(Some("ん"), 3)
  {
    RisunHead();
    RisunTail();
  }

  lemma RisunHead()
    ensures Kana.ScanFrom("りすん", 0, None, 0) == Kana.ScanFrom("りすん", 2, Some("す"), 2)
  {
    var w := "りすん";
    Kana.InHiragana(8, "り");
    Kana.InHiragana(2, "す");
    Kana.ScanSyllableStep(w, 0, None, 0, "り");
    Kana.ScanSyllableStep(w, 1, Some("り"), 1, "す");
  }

  lemma RisunTail()
    ensures Kana.ScanFrom("りすん", 2, Some("す"), 2) == Kana.Scanned(Some("ん"), 3)
  {
    Kana.InHiragana(10, "ん");
    Kana.ScanSyllableStep("りすん", 2, Some("す"), 2, "ん");
  }

  lemma RiiScan()
    ensures Kana.Scan("リー") == Kana.Scanned(Some("リ"), 1)
  {
    var w := "リー";
    Kana.InKatakana(8, "リ");
    assert w[1] == 'ー' && w[1] !in Kana.SmallY;
    Kana.ScanSyllableStep(w, 0, None, 0, "リ");
    Kana.ScanMarkStep(w, 1, Some("リ"), 1);
  }

  lemma RisuScan()
    ensures Kana.Scan("りす") == Kana.Scanned(Some("す"), 2)
  {
    Kana.InHiragana(8, "り");
    Kana.InHiragana(2, "す");
    Kana.ScanSyllableStep("りす", 0, None, 0, "り");
    Kana.ScanSyllableStep("りす", 1, Some("り"), 1, "す");
  }

  lemma SuOtherScript()
    ensures "す" in Kana.Hiragana && Kana.OtherScript("す") == "ス"
  {
    Kana.InHiragana(2, "す");
    var k := Kana.OtherScript("す");
    assert |k| == 1 && k[0] == 'ス';
  }

  /**
   * First turn: after しりとり the player answers りす; with りす and すいか
   * listed as common nouns the bot answers すいか.
   */
  lemma FirstTurnAccepted()
    ensures Judge([SeedWord], "りす", ExampleTable, 1000000) == Accepted("すいか")
  {
    CleanUnchanged("りす");
    Kana.SeedWordScan();
    Kana.SeedSyllableOther();
    RisuScan();
    SuOtherScript();
    ExampleLookups();
    var used := [SeedWord];
    assert "りす" !in used;
    assert used + ["りす"] == [SeedWord, "りす"];
    assert StartsWithEither("りす", "り", "リ");
  }

  lemma ExampleLookups()
    ensures Lexicon.CheckIsNoun(ExampleTable, "りす")
    ensures Lexicon.GetNextWord(ExampleTable, 1000000, "す", "ス", [SeedWord, "りす"]) == Some("すいか")
  {
    assert ExampleTable[0].readingLiteral == "りす";
    assert !Lexicon.ReplyPattern("りす", "す", "ス");
    assert Lexicon.ReplyPattern("すいか", "す", "ス");
    assert !Lexicon.Candidate(ExampleTable[0], 1000000, "す", "ス", [SeedWord, "りす"]);
    assert Lexicon.Candidate(ExampleTable[1], 1000000, "す", "ス", [SeedWord, "りす"]);
  }

  /** りすん ends in ん: rejected whatever the database says. */
  lemma FirstTurnEndsInN(db: Lexicon.Table, offset: int)
    ensures Judge([SeedWord], "りすん", db, offset) == EndsInN
  {
    CleanUnchanged("りすん");
    Kana.SeedWordScan();
    Kana.SeedSyllableOther();
    RisunScan();
  }

  /** リー is one syllable and a long-vowel mark: too short. */
  lemma FirstTurnTooShort(db: Lexicon.Table, offset: int)
    ensures Judge([SeedWord], "リー", db, offset) == TooShort
  {
    CleanUnchanged("リー");
    Kana.SeedWordScan();
    Kana.SeedSyllableOther();
    RiiScan();
  }
}
