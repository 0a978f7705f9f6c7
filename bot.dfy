/**
 * The pieces of the bot class (tango/core/bot.py) that decide something:
 * the uptime text, the fundamental-permission check, and the command gate
 * with its after-invoke hook over the shared lock table.
 */
module Bot {
  import opened Wrappers
  import opened Text
  import CommandLock

  // ---------------------------------------------------------------------
  // humanise_uptime

  datatype Uptime = Uptime(days: int, hours: nat, minutes: nat, seconds: nat)

  /**
   * The three `divmod` steps of `humanise_uptime`. Python's `divmod` by a
   * positive number floors, which is what Dafny's `/` and `%` do as well.
   */
  function Decompose(total: int): (u: Uptime)
    ensures u.seconds < 60 && u.minutes < 60 && u.hours < 24
    ensures u.days * 86400 + u.hours * 3600 + u.minutes * 60 + u.seconds == total
  {
    var hours, remainder := total / 3600, total % 3600;
    var minutes, seconds := remainder / 60, remainder % 60;
    var days, hoursLeft := hours / 24, hours % 24;
    Uptime(days, hoursLeft, minutes, seconds)
  }

  /** Only one split of a number of seconds has the clock bounds: the one `Decompose` finds. */
  lemma DecomposeUnique(total: int, u: Uptime)
    requires u.seconds < 60 && u.minutes < 60 && u.hours < 24
    requires u.days * 86400 + u.hours * 3600 + u.minutes * 60 + u.seconds == total
    ensures u == Decompose(total)
  {
    var v := Decompose(total);
    var x := u.hours * 3600 + u.minutes * 60 + u.seconds;
    var y := v.hours * 3600 + v.minutes * 60 + v.seconds;
    assert 0 <= x < 86400 && 0 <= y < 86400;
    assert (u.days - v.days) * 86400 == y - x;
    assert u.days == v.days;
    assert u.hours * 3600 + (u.minutes * 60 + u.seconds) == v.hours * 3600 + (v.minutes * 60 + v.seconds);
    assert (u.hours - v.hours) * 3600 == (v.minutes * 60 + v.seconds) - (u.minutes * 60 + u.seconds);
    assert u.hours == v.hours;
    assert (u.minutes - v.minutes) * 60 == v.seconds - u.seconds;
  }

  /** The text `humanise_uptime` returns for `total` seconds of uptime. */
  function Humanise(total: int, brief: bool): string
  {
    var u := Decompose(total);
    var d, h, m, s := DecimalString(u.days), DecimalString(u.hours), DecimalString(u.minutes), DecimalString(u.seconds);
    if !brief then
      (if u.days != 0 then d + " days, " else "") + h + " hours, " + m + " minutes, and " + s + " seconds"
    else
      (if u.days != 0 then d + "d " else "") + h + "h " + m + "m " + s + "s"
  }

  /** Every character is a digit or the minus sign, as in `str(n)`. */
  predicate NumberText(t: string)
  {
    forall c :: c in t ==> c == '-' || '0' <= c <= '9'
  }

  lemma DecimalChars(n: int)
    ensures NumberText(DecimalString(n))
  {
    var r := DecimalString(n);
    forall c | c in r
      ensures c == '-' || '0' <= c <= '9'
    {
      var i :| 0 <= i < |r| && r[i] == c;
      if n < 0 && i > 0 {
        assert r[i] == NatDigits(-n)[i - 1];
      }
    }
  }

  /** The hours, minutes and seconds of the long text hold no letter y. */
  lemma LongTailHasNoY(h: string, m: string, s: string)
    requires NumberText(h) && NumberText(m) && NumberText(s)
    ensures 'y' !in h + " hours, " + m + " minutes, and " + s + " seconds"
  {
    assert 'y' !in h && 'y' !in m && 'y' !in s;
  }

  /** The hours, minutes and seconds of the brief text hold no letter d. */
  lemma BriefTailHasNoD(h: string, m: string, s: string)
    requires NumberText(h) && NumberText(m) && NumberText(s)
    ensures 'd' !in h + "h " + m + "m " + s + "s"
  {
    assert 'd' !in h && 'd' !in m && 'd' !in s;
  }

  /**
   * The long text names days exactly when the uptime has whole days: the
   * letter y of "days" occurs only then. With days the text opens with
   * their number, otherwise with the hours.
   */
  lemma DaysShownLong(total: int)
    ensures 'y' in Humanise(total, false) <==> Decompose(total).days != 0
    ensures Decompose(total).days != 0 ==>
      StartsWith(Humanise(total, false), DecimalString(Decompose(total).days) + " days, ")
    ensures Decompose(total).days == 0 ==>
      StartsWith(Humanise(total, false), DecimalString(Decompose(total).hours) + " hours, ")
  {
    var u := Decompose(total);
    var d, h, m, s := DecimalString(u.days), DecimalString(u.hours), DecimalString(u.minutes), DecimalString(u.seconds);
    DecimalChars(u.hours);
    DecimalChars(u.minutes);
    DecimalChars(u.seconds);
    var tail := h + " hours, " + m + " minutes, and " + s + " seconds";
    LongTailHasNoY(h, m, s);
    if u.days != 0 {
      assert Humanise(total, false) == (d + " days, ") + tail;
      assert (d + " days, ")[|d| + 3] == 'y';
    } else {
      assert Humanise(total, false) == (h + " hours, ") + (m + " minutes, and " + s + " seconds");
    }
  }

  /**
   * The brief text shows days exactly when the uptime has whole days: the
   * letter d occurs only then. With days the text opens with their number,
   * otherwise with the hours.
   */
  lemma DaysShownBrief(total: int)
    ensures 'd' in Humanise(total, true) <==> Decompose(total).days != 0
    ensures Decompose(total).days != 0 ==>
      StartsWith(Humanise(total, true), DecimalString(Decompose(total).days) + "d ")
    ensures Decompose(total).days == 0 ==>
      StartsWith(Humanise(total, true), DecimalString(Decompose(total).hours) + "h ")
  {
    var u := Decompose(total);
    var d, h, m, s := DecimalString(u.days), DecimalString(u.hours), DecimalString(u.minutes), DecimalString(u.seconds);
    DecimalChars(u.hours);
    DecimalChars(u.minutes);
    DecimalChars(u.seconds);
    var tail := h + "h " + m + "m " + s + "s";
    BriefTailHasNoD(h, m, s);
    if u.days != 0 {
      assert Humanise(total, true) == (d + "d ") + tail;
      assert (d + "d ")[|d|] == 'd';
    } else {
      assert Humanise(total, true) == (h + "h ") + (m + "m " + s + "s");
    }
  }

  // ---------------------------------------------------------------------
  // _check_fundamental_permissions

  /** The permissions the check requires, besides the implicit read_messages. */
  const FundamentalPermissions: seq<string> :=
    ["send_messages", "embed_links", "attach_files", "read_message_history", "external_emojis", "add_reactions"]

  /** The required permissions the bot lacks in the channel, in the order they are required. */
  function Missing(required: seq<string>, granted: set<string>): seq<string>
  {
    if required == [] then []
    else
      var last := required[|required| - 1];
      Missing(required[..|required| - 1], granted) + (if last in granted then [] else [last])
  }

  /** A permission is reported missing exactly when it is required and not granted. */
  lemma {:induction false} MissingMember(required: seq<string>, granted: set<string>, p: string)
    ensures p in Missing(required, granted) <==> p in required && p !in granted
  {
    if required != [] {
      var n := |required| - 1;
      MissingMember(required[..n], granted, p);
      assert required == required[..n] + [required[n]];
    }
  }

  /**
   * What the check does: it passes exactly when every fundamental
   * permission is granted; otherwise it raises with exactly the required
   * permissions that are not granted.
   */
  function CheckFundamentalPermissions(granted: set<string>): (r: Result<bool, seq<string>>)
    ensures r.Success? <==> forall p :: p in FundamentalPermissions ==> p in granted
    ensures r.Success? ==> r.value
    ensures r.Failure? ==> forall p :: p in r.error <==> p in FundamentalPermissions && p !in granted
  {
    var missing := Missing(FundamentalPermissions, granted);
    MissingExactly(FundamentalPermissions, granted);
    if missing == [] then Success(true)
    else
      assert missing[0] in missing;
      Failure(missing)
  }

  /** `MissingMember` for every permission at once. */
  lemma MissingExactly(required: seq<string>, granted: set<string>)
    ensures forall p :: p in Missing(required, granted) <==> p in required && p !in granted
  {
    forall p
      ensures p in Missing(required, granted) <==> p in required && p !in granted
    {
      MissingMember(required, granted, p);
    }
  }

  // ---------------------------------------------------------------------
  // process_commands and the after-invoke hook

  /** What became of a message that reached `process_commands`. */
  datatype Dispatch = Dropped | MissingPermissions(missing: seq<string>) | Invoked

  /** `unlock_after_invoke`, registered as the after-invoke hook. */
  method UnlockAfterInvoke(ctx: CommandLock.Context)
    modifies ctx.table
    ensures ctx.table.lockedAuthors == old(ctx.table.lockedAuthors) - {ctx.authorId}
  {
    ctx.Unlock();
  }

  /**
   * `process_commands`: messages of bots and of locked authors are dropped;
   * any other is invoked. The invocation runs the global permission check,
   * then the command, which may lock its author (`locksAuthor`), then the
   * after-invoke hook; a failed check stops before the command and the hook.
   */
  method ProcessCommands(authorIsBot: bool, ctx: CommandLock.Context, granted: set<string>, locksAuthor: bool)
    returns (outcome: Dispatch)
    modifies ctx.table
    ensures outcome == Dropped <==> authorIsBot || ctx.authorId in old(ctx.table.lockedAuthors)
    ensures outcome.MissingPermissions? ==>
      CheckFundamentalPermissions(granted) == Failure(outcome.missing)
    ensures outcome == Invoked ==>
      && CheckFundamentalPermissions(granted).Success?
      && ctx.table.lockedAuthors == old(ctx.table.lockedAuthors) - {ctx.authorId}
    ensures outcome != Invoked ==> ctx.table.lockedAuthors == old(ctx.table.lockedAuthors)
  {
    if authorIsBot {
      return Dropped;
    }
    if ctx.IsLocked() {
      return Dropped;
    }
    var check := CheckFundamentalPermissions(granted);
    if check.Failure? {
      return MissingPermissions(check.error);
    }
    if locksAuthor {
      ctx.Lock();
    }
    UnlockAfterInvoke(ctx);
    outcome := Invoked;
  }
}
