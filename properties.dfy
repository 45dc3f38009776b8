/**
 * What one incoming message does to the router state: which outcome it
 * gets, which parts of the state it may change, and the replies it causes.
 */
module Properties {
  import opened Wrappers
  import opened Text
  import opened Commands
  import opened Aggregation
  import opened Bot

  /** A direct message from someone other than the bot itself. */
  predicate Handled(m: Message) {
    !m.fromSelf && m.direct
  }

  /** The message gets past the first-contact check. */
  predicate Proceeds(s: State, m: Message) {
    Handled(m) && !(IsNewUser(s, m.author) && Swallowed(m.text))
  }

  function LastReply(s: State): Reply
    requires |s.replies| > 0
  {
    s.replies[|s.replies| - 1]
  }

  /** The bot's own messages and messages outside DMs change nothing. */
  lemma IgnoredMessage(s: State, m: Message, e: Env)
    requires Consistent(s) && !Handled(m)
    ensures Step(s, m, e) == s
  {
  }

  /**
   * A user in neither the welcomed set nor the configuration is welcomed,
   * first thing; the message then stops there exactly when it is swallowed.
   */
  lemma FirstContact(s: State, m: Message, e: Env)
    requires Consistent(s) && Handled(m) && IsNewUser(s, m.author)
    ensures m.author in Step(s, m, e).welcomed
    ensures |Step(s, m, e).replies| > |s.replies| && Step(s, m, e).replies[|s.replies|] == Welcome
    ensures Swallowed(m.text) <==> Step(s, m, e) == Greet(s, m.author)
  {
    var g := Greet(s, m.author);
    var r := Step(s, m, e);
    assert g.replies == s.replies + [Welcome];
    if !Swallowed(m.text) {
      assert |r.replies| > |g.replies|;
    }
    assert r.replies[..|g.replies|] == g.replies;
    assert r.replies[|s.replies|] == r.replies[..|g.replies|][|s.replies|];
  }

  /**
   * Nobody is welcomed twice: after any message its author is no longer a
   * new user, and only the author can join the welcomed set.
   */
  lemma WelcomedOnce(s: State, m: Message, e: Env)
    requires Consistent(s) && Handled(m)
    ensures !IsNewUser(Step(s, m, e), m.author)
    ensures Step(s, m, e).welcomed == if IsNewUser(s, m.author) then s.welcomed + {m.author} else s.welcomed
  {
  }

  /** A returning user's message is dispatched in full, with no welcome. */
  lemma ReturningUser(s: State, m: Message, e: Env)
    requires Consistent(s) && Handled(m) && !IsNewUser(s, m.author)
    ensures Proceeds(s, m)
    ensures Step(s, m, e).welcomed == s.welcomed
    ensures Step(s, m, e) == match SetupEmail(m.text)
                             case Some(email) => Setup(s, m.author, email, e)
                             case None => Dispatch(s, m.author, m.text, e)
  {
  }

  /**
   * The configuration and the set of spreadsheets change only through a
   * well-formed setup command whose sheet creation succeeds.
   */
  lemma ConfigOnlyChangesOnSetup(s: State, m: Message, e: Env)
    requires Consistent(s)
    ensures Step(s, m, e).userEmails != s.userEmails || Step(s, m, e).sheets.Keys != s.sheets.Keys
            ==> Handled(m) && SetupEmail(m.text).Some? && e.created.Some?
  {
  }

  /**
   * A successful setup upserts the author's record with the link derived
   * from the new id, overwriting any earlier record and keeping everyone
   * else's; the cache then holds the new sheet, and the link is replied.
   */
  lemma SetupSucceeds(s: State, m: Message, e: Env)
    requires Consistent(s) && Handled(m)
    requires SetupEmail(m.text).Some? && e.created.Some? && e.headerOk
    ensures var r := Step(s, m, e);
            var id := e.created.value;
            && r.userEmails == s.userEmails[m.author := UserRecord(SetupEmail(m.text).value, id, SheetUrl(id))]
            && r.userSheets == s.userSheets[m.author := id]
            && r.sheets == s.sheets[id := []]
            && r.replies == Greet(s, m.author).replies + [SetupComplete(SheetUrl(id))]
  {
    var g := SetupStep(s, m, e);
    var r := Setup(g, m.author, SetupEmail(m.text).value, e);
    assert r.sheets == s.sheets[e.created.value := []];
  }

  /**
   * A setup whose sheet creation or header write fails leaves the
   * configuration and the cache as they were and reports the error; a sheet
   * created before the failure stays behind, empty.
   */
  lemma SetupFails(s: State, m: Message, e: Env)
    requires Consistent(s) && Handled(m)
    requires SetupEmail(m.text).Some? && !(e.created.Some? && e.headerOk)
    ensures var r := Step(s, m, e);
            && r.userEmails == s.userEmails
            && r.userSheets == s.userSheets
            && r.sheets == (if e.created.Some? then s.sheets[e.created.value := []] else s.sheets)
            && r.replies == Greet(s, m.author).replies + [SetupError]
  {
    var g := SetupStep(s, m, e);
  }

  /** A well-formed setup command always reaches the setup branch. */
  lemma SetupStep(s: State, m: Message, e: Env) returns (g: State)
    requires Consistent(s) && Handled(m) && SetupEmail(m.text).Some?
    ensures g == Greet(s, m.author)
    ensures g.userEmails == s.userEmails && g.userSheets == s.userSheets && g.sheets == s.sheets
    ensures Step(s, m, e) == Setup(g, m.author, SetupEmail(m.text).value, e)
  {
    SetupPrefixFacts(m.text);
    g := Greet(s, m.author);
  }

  /** A "!setup " message that is not well formed goes on to the rest of the dispatch. */
  lemma MalformedSetupFallsThrough(s: State, m: Message, e: Env)
    requires Consistent(s) && Handled(m)
    requires StartsWith(Lower(m.text), SETUP_PREFIX) && SetupEmail(m.text).None?
    ensures Step(s, m, e) == Dispatch(Greet(s, m.author), m.author, m.text, e)
  {
    SetupPrefixFacts(m.text);
  }

  /** The handle that resolution yields for `u`. */
  function Handle(s: State, u: UserId, e: Env): Option<SheetId>
    requires Consistent(s)
  {
    Resolve(s, u, e).1
  }

  /** A message that is neither swallowed nor a setup reaches the dispatch, unchanged by the greeting. */
  lemma DispatchStep(s: State, m: Message, e: Env) returns (g: State)
    requires Consistent(s) && Proceeds(s, m) && SetupEmail(m.text).None?
    ensures g == Greet(s, m.author) && Consistent(g)
    ensures g.userEmails == s.userEmails && g.userSheets == s.userSheets && g.sheets == s.sheets
    ensures Resolve(g, m.author, e).1 == Handle(s, m.author, e)
    ensures Resolve(g, m.author, e).0.userSheets == Resolve(s, m.author, e).0.userSheets
    ensures Step(s, m, e) == Dispatch(g, m.author, m.text, e)
  {
    g := Greet(s, m.author);
  }

  /** The link, summary and help keywords always reach the dispatch. */
  lemma CommandProceeds(s: State, m: Message)
    requires Handled(m)
    requires IsLinkCommand(m.text) || IsSummaryCommand(m.text) || IsHelpCommand(m.text)
    ensures Proceeds(s, m) && SetupEmail(m.text).None?
  {
    CommandsNotSwallowed(m.text);
    if SetupEmail(m.text).Some? {
      SetupExcludesCommands(m.text);
    }
  }

  /**
   * Handle resolution prefers the cache; otherwise the configured sheet is
   * opened and cached; when neither works the cache is left alone.
   */
  lemma Resolution(s: State, m: Message, e: Env)
    requires Consistent(s) && Proceeds(s, m) && SetupEmail(m.text).None?
    ensures var u := m.author;
            var r := Step(s, m, e);
            var opens := u in s.userEmails && e.openOk && s.userEmails[u].sheetId in s.sheets;
            && (u in s.userSheets ==> r.userSheets == s.userSheets && Handle(s, u, e) == Some(s.userSheets[u]))
            && (u !in s.userSheets && opens ==>
                  r.userSheets == s.userSheets[u := s.userEmails[u].sheetId]
                  && Handle(s, u, e) == Some(s.userEmails[u].sheetId))
            && (u !in s.userSheets && !opens ==> r.userSheets == s.userSheets && Handle(s, u, e) == None)
  {
    var g := DispatchStep(s, m, e);
  }

  /**
   * A link command replies with the stored link exactly when the user is
   * configured, and touches neither the configuration nor any sheet.
   */
  lemma LinkCommand(s: State, m: Message, e: Env)
    requires Consistent(s) && Handled(m) && IsLinkCommand(m.text)
    ensures var r := Step(s, m, e);
            var u := m.author;
            && r.sheets == s.sheets && r.userEmails == s.userEmails
            && r.replies == Greet(s, u).replies + [if u in s.userEmails then SheetLink(s.userEmails[u].sheetUrl) else LinkNotSetUp]
            && (UrlsDerived(s) && u in s.userEmails ==> LastReply(r) == SheetLink(SheetUrl(s.userEmails[u].sheetId)))
  {
    CommandProceeds(s, m);
    var g := DispatchStep(s, m, e);
  }

  /**
   * A summary command asks for setup when no handle resolves; otherwise it
   * announces the summary and sends the summary of the sheet's rows (or the
   * failure when the rows cannot be fetched). No row is written.
   */
  lemma SummaryCommand(s: State, m: Message, e: Env)
    requires Consistent(s) && Handled(m) && IsSummaryCommand(m.text)
    ensures var r := Step(s, m, e);
            var h := Handle(s, m.author, e);
            && r.sheets == s.sheets && r.userEmails == s.userEmails
            && (h.None? ==> r.replies == Greet(s, m.author).replies + [NeedSetup])
            && (h.Some? ==>
                  h.value in s.sheets
                  && r.replies == Greet(s, m.author).replies
                               + [Generating, SummaryReply(if e.fetchOk then SummaryOf(s.sheets[h.value], SUMMARY_LIMIT) else Failed)])
  {
    CommandProceeds(s, m);
    var g := DispatchStep(s, m, e);
  }

  /** A help command sends the help text and nothing else. */
  lemma HelpCommand(s: State, m: Message, e: Env)
    requires Consistent(s) && Handled(m) && IsHelpCommand(m.text)
    ensures var r := Step(s, m, e);
            && r.sheets == s.sheets && r.userEmails == s.userEmails
            && r.replies == Greet(s, m.author).replies + [HelpText]
  {
    CommandProceeds(s, m);
    var g := DispatchStep(s, m, e);
  }

  /**
   * Any other text is an expense: without a handle it asks for setup; with
   * one, exactly one row is appended when the text is two words whose
   * second parses and the append succeeds; a wrong word count gives the
   * format hint, an unparsable amount or a failed append the error reply,
   * and none of these writes a row.
   */
  lemma ExpenseMessage(s: State, m: Message, e: Env)
    requires Consistent(s) && Proceeds(s, m) && SetupEmail(m.text).None?
    requires !IsLinkCommand(m.text) && !IsSummaryCommand(m.text) && !IsHelpCommand(m.text)
    ensures var r := Step(s, m, e);
            var h := Handle(s, m.author, e);
            var p := ParseExpense(m.text, e.toFloat);
            var before := Greet(s, m.author).replies;
            && r.userEmails == s.userEmails && |r.replies| > 0
            && (h.None? ==> r.sheets == s.sheets && r.replies == before + [NeedSetup])
            && (h.Some? && p.WrongTokenCount? ==> r.sheets == s.sheets && r.replies == before + [FormatHint])
            && (h.Some? && p.BadAmount? ==> r.sheets == s.sheets && r.replies == before + [ExpenseError])
            && (h.Some? && p.Expense? && !e.appendOk ==> r.sheets == s.sheets && r.replies == before + [ExpenseError])
            && (h.Some? && p.Expense? && e.appendOk ==>
                  h.value in s.sheets
                  && r.sheets == s.sheets[h.value := s.sheets[h.value] + [Row(e.now, p.category, p.amount)]]
                  && r.replies == before + [Logged(p.category, p.amount)])
  {
    var g := DispatchStep(s, m, e);
  }

  /** Text that none of the earlier branches claims. */
  predicate IsExpenseText(text: string) {
    SetupEmail(text).None? && !IsLinkCommand(text) && !IsSummaryCommand(text) && !IsHelpCommand(text)
  }

  /**
   * The one row a message writes, and the sheet it goes to: an expense text
   * from a user past first contact, with a resolved handle, two words whose
   * second parses, and a successful append.
   */
  function LoggedRow(s: State, m: Message, e: Env): Option<(SheetId, Row)>
    requires Consistent(s)
  {
    var h := Handle(s, m.author, e);
    var p := ParseExpense(m.text, e.toFloat);
    if Proceeds(s, m) && IsExpenseText(m.text) && h.Some? && p.Expense? && e.appendOk
    then Some((h.value, Row(e.now, p.category, p.amount)))
    else None
  }

  /** The rows a message adds to the existing sheet `k`: the logged row, or none. */
  function RowsAdded(s: State, m: Message, e: Env, k: SheetId): seq<Row>
    requires Consistent(s)
  {
    match LoggedRow(s, m, e)
    case Some(p) => if p.0 == k then [p.1] else []
    case None => []
  }

  /** The row `LoggedRow` describes is appended to the end of its sheet. */
  lemma RowWritten(s: State, m: Message, e: Env)
    requires Consistent(s) && LoggedRow(s, m, e).Some?
    ensures var p := LoggedRow(s, m, e).value;
            p.0 in s.sheets && Step(s, m, e).sheets == s.sheets[p.0 := s.sheets[p.0] + [p.1]]
  {
    ExpenseMessage(s, m, e);
  }

  /**
   * A message writes at most one row: every existing sheet keeps its rows
   * and gains exactly `RowsAdded`, which is the logged row for the author's
   * resolved sheet and nothing for any other. (A setup adds a new, empty
   * sheet; the service hands out fresh ids.)
   */
  lemma AtMostOneRow(s: State, m: Message, e: Env)
    requires Consistent(s)
    requires e.created.Some? ==> e.created.value !in s.sheets
    ensures forall k :: k in s.sheets ==>
              k in Step(s, m, e).sheets && Step(s, m, e).sheets[k] == s.sheets[k] + RowsAdded(s, m, e, k)
  {
    var r := Step(s, m, e);
    if LoggedRow(s, m, e).Some? {
      RowWritten(s, m, e);
    } else {
      KeepsSheets(s, m, e);
    }
    forall k | k in s.sheets
      ensures k in r.sheets && r.sheets[k] == s.sheets[k] + RowsAdded(s, m, e, k)
    {
      assert s.sheets[k] + [] == s.sheets[k];
    }
  }

  /** Without a logged row, every existing sheet keeps its rows. */
  lemma KeepsSheets(s: State, m: Message, e: Env)
    requires Consistent(s) && LoggedRow(s, m, e).None?
    requires e.created.Some? ==> e.created.value !in s.sheets
    ensures forall k :: k in s.sheets ==> k in Step(s, m, e).sheets && Step(s, m, e).sheets[k] == s.sheets[k]
  {
    if !Handled(m) || !Proceeds(s, m) {
    } else if SetupEmail(m.text).Some? {
      if e.created.Some? && e.headerOk {
        SetupSucceeds(s, m, e);
      } else {
        SetupFails(s, m, e);
      }
    } else if IsLinkCommand(m.text) {
      LinkCommand(s, m, e);
    } else if IsSummaryCommand(m.text) {
      SummaryCommand(s, m, e);
    } else if IsHelpCommand(m.text) {
      HelpCommand(s, m, e);
    } else {
      ExpenseMessage(s, m, e);
    }
  }

  /** Every stored link stays the one derived from its stored id. */
  lemma UrlsStayDerived(s: State, m: Message, e: Env)
    requires Consistent(s) && UrlsDerived(s)
    ensures UrlsDerived(Step(s, m, e))
  {
    ConfigOnlyChangesOnSetup(s, m, e);
    if Handled(m) && SetupEmail(m.text).Some? {
      if e.created.Some? && e.headerOk {
        SetupSucceeds(s, m, e);
      } else {
        SetupFails(s, m, e);
      }
    }
  }

  /** Every direct message from a user gets at least one reply. */
  lemma AlwaysReplies(s: State, m: Message, e: Env)
    requires Consistent(s) && Handled(m)
    ensures |Step(s, m, e).replies| > |s.replies|
  {
  }

  /**
   * The summary of a single dated row: that row is the recent list and its
   * category the whole total, unless its amount is zero, where the
   * percentage divides by zero and the summary fails.
   */
  lemma SingleRowSummary(row: Row)
    requires Day(row.date).Some?
    ensures row.amount == 0.0 ==> SummaryOf([row], SUMMARY_LIMIT) == Failed
    ensures row.amount != 0.0 ==>
              SummaryOf([row], SUMMARY_LIMIT)
              == Report([RecentLine(Day(row.date).value, row.category, row.amount)],
                        [CategoryLine(row.category, row.amount)], row.amount)
  {
    var rs := [row];
    assert rs[..0] == [];
    assert Window(rs, SUMMARY_LIMIT) == rs;
    assert Reverse(rs) == rs;
    assert AllDated(rs);
    assert RecentLines(rs) == [RecentLine(Day(row.date).value, row.category, row.amount)];
    assert Categories(rs) == [row.category];
    assert CategoryTotal(rs, row.category) == row.amount;
    var lines := CategoryLines([row.category], rs);
    assert lines == [CategoryLine(row.category, row.amount)];
    assert SortDescending(lines) == lines;
    assert Total(rs) == row.amount;
  }

  /** "!setup a@b.c" is a well-formed setup for the email "a@b.c". */
  lemma ExampleSetupText()
    ensures SetupEmail("!setup a@b.c") == Some("a@b.c")
  {
    assert Lower("!setup") == "!setup";
    assert "!setup a@b.c" == "!setup" + " " + "a@b.c";
    assert '@' == "a@b.c"[1];
    SetupEmailOfCommand("!setup", "a@b.c");
  }

  /** "Food 250" is none of the commands. */
  lemma ExampleExpenseText()
    ensures IsExpenseText("Food 250")
  {
    assert Lower("Food 250") == "food 250";
    assert Lower("Food 250")[..7] != SETUP_PREFIX by {
      assert Lower("Food 250")[..7][0] == 'f';
    }
  }

  /** "Food 250" is the category "Food" and the amount float("250"). */
  lemma ExampleExpenseParses(toFloat: string -> Option<real>)
    requires toFloat("250") == Some(250.0)
    ensures ParseExpense("Food 250", toFloat) == Expense("Food", 250.0)
  {
    assert "Food 250" == "Food" + " " + "250";
    assert IsToken("Food") && IsToken("250");
    ParseExpenseOfPair("Food", "250", toFloat);
  }

  /** "!summary" is a summary command. */
  lemma ExampleSummaryText()
    ensures IsSummaryCommand("!summary")
  {
    assert Lower("!summary") == "!summary";
  }
}
