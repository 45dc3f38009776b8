/**
 * Classification of the text of one direct message: the command keyword
 * lists, the first-contact rule, the `!setup` email extraction and the
 * `Category Amount` expense format.
 */
module Commands {
  import opened Wrappers
  import opened Text

  const LINK_COMMANDS: seq<string> := ["!sheet", "!url", "!link"]
  const SUMMARY_COMMANDS: seq<string> := ["!summary", "!expenses", "!stats"]
  const HELP_COMMANDS: seq<string> := ["!help", "help", "!commands"]
  const SETUP_PREFIX: string := "!setup "

  /** Case-insensitive exact match against the link keywords. */
  predicate IsLinkCommand(text: string) {
    Lower(text) in LINK_COMMANDS
  }

  /** Case-insensitive exact match against the summary keywords. */
  predicate IsSummaryCommand(text: string) {
    Lower(text) in SUMMARY_COMMANDS
  }

  /** Case-insensitive exact match against the help keywords. */
  predicate IsHelpCommand(text: string) {
    Lower(text) in HELP_COMMANDS
  }

  /**
   * A newly welcomed user's message is dropped unless it starts with "!"
   * (case-sensitive test on the raw text) or its lower-case form contains
   * "help" or "setup" anywhere.
   */
  predicate Swallowed(text: string) {
    !StartsWith(text, "!") && !Contains(Lower(text), "help") && !Contains(Lower(text), "setup")
  }

  /**
   * The email of a well-formed setup command: the lower-cased text starts
   * with "!setup ", the stripped text splits (maxsplit=1) into two parts and
   * the second part contains "@". The email is the whole second part,
   * stripped, so it may contain inner spaces. Anything else is None: the
   * setup branch does not fire.
   */
  function SetupEmail(text: string): (r: Option<string>)
    ensures r.Some? ==> StartsWith(Lower(text), SETUP_PREFIX) && '@' in r.value
  {
    if StartsWith(Lower(text), SETUP_PREFIX) then SetupArgument(Strip(text)) else None
  }

  /** The second part of `stripped.split(maxsplit=1)`, when there is one holding "@". */
  function SetupArgument(stripped: string): (r: Option<string>)
    ensures r.Some? ==> '@' in r.value
  {
    var parts := SplitOnce(stripped);
    if |parts| == 2 && '@' in parts[1] then
      StripKeeps(parts[1], '@');
      Some(Strip(parts[1]))
    else None
  }

  /** A lower-cased "!" can only come from "!". */
  lemma LowerBang(text: string)
    requires |text| > 0 && Lower(text)[0] == '!'
    ensures StartsWith(text, "!")
  {
  }

  /** What the "!setup " prefix test tells about the text. */
  lemma SetupPrefixFacts(text: string)
    requires StartsWith(Lower(text), SETUP_PREFIX)
    ensures |text| >= 7 && Lower(text)[6] == ' '
    ensures StartsWith(text, "!")
  {
    assert Lower(text)[..7] == SETUP_PREFIX;
    LowerBang(text);
  }

  /** A keyword that lower-cases to "!setup" is a whitespace-free word starting with "!". */
  lemma SetupKeywordFacts(keyword: string)
    requires Lower(keyword) == "!setup"
    ensures IsToken(keyword) && keyword[0] == '!'
  {
    forall i | 0 <= i < |keyword|
      ensures !IsSpace(keyword[i])
    {
      assert LowerChar(keyword[i]) == "!setup"[i];
      LowerCharSpace(keyword[i]);
    }
    assert Lower(keyword)[0] == '!';
  }

  /** The case-insensitive prefix test passes for "!setup" in any case plus a space. */
  lemma SetupKeywordPrefix(keyword: string, rest: string)
    requires Lower(keyword) == "!setup"
    ensures StartsWith(Lower(keyword + " " + rest), SETUP_PREFIX)
  {
    LowerConcat(keyword, " " + rest);
    LowerConcat(" ", rest);
    assert Lower(" ") == " ";
    assert Lower(keyword + " " + rest) == SETUP_PREFIX + Lower(rest);
  }

  /**
   * `!setup` (in any letter case), one space, and an email with no
   * surrounding whitespace: the email is extracted whole, inner spaces
   * included.
   */
  lemma SetupEmailOfCommand(keyword: string, email: string)
    requires Lower(keyword) == "!setup"
    requires email != [] && !IsSpace(email[0]) && !IsSpace(email[|email| - 1])
    requires '@' in email
    ensures SetupEmail(keyword + " " + email) == Some(email)
  {
    var text := keyword + " " + email;
    SetupKeywordPrefix(keyword, email);
    SetupKeywordFacts(keyword);
    assert text[0] == '!';
    assert text[|text| - 1] == email[|email| - 1];
    StripNoop(text);
    SplitOnceOfPair(keyword, email);
    StripNoop(email);
  }

  /**
   * `!setup` followed by a single word without "@" is no setup command; the
   * same text then parses as a two-word expense whose category is the keyword.
   */
  lemma SetupWithoutEmail(keyword: string, word: string, toFloat: string -> Option<real>)
    requires Lower(keyword) == "!setup"
    requires IsToken(word) && '@' !in word
    ensures SetupEmail(keyword + " " + word) == None
    ensures ParseExpense(keyword + " " + word, toFloat)
            == match toFloat(word)
               case Some(a) => Expense(keyword, a)
               case None => BadAmount(word)
  {
    var text := keyword + " " + word;
    SetupKeywordFacts(keyword);
    assert text[0] == '!';
    assert text[|text| - 1] == word[|word| - 1];
    StripNoop(text);
    SplitOnceOfPair(keyword, word);
    ParseExpenseOfPair(keyword, word, toFloat);
  }

  /**
   * Every recognised command survives the first-contact rule: the link,
   * summary and "!"-help keywords and every well-formed setup start with
   * "!", and "help" contains "help".
   */
  lemma CommandsNotSwallowed(text: string)
    requires IsLinkCommand(text) || IsSummaryCommand(text) || IsHelpCommand(text)
             || SetupEmail(text).Some?
    ensures !Swallowed(text)
  {
    if SetupEmail(text).Some? {
      SetupPrefixFacts(text);
    } else {
      KeywordNotSwallowed(text);
    }
  }

  /** Each keyword starts with "!" or is "help", so none is swallowed. */
  lemma KeywordNotSwallowed(text: string)
    requires IsLinkCommand(text) || IsSummaryCommand(text) || IsHelpCommand(text)
    ensures !Swallowed(text)
  {
    var low := Lower(text);
    if low == "help" {
      assert StartsWith(low, "help");
    } else {
      assert forall w | w in LINK_COMMANDS + SUMMARY_COMMANDS + ["!help", "!commands"] :: |w| > 0 && w[0] == '!';
      assert low in LINK_COMMANDS + SUMMARY_COMMANDS + ["!help", "!commands"];
      LowerBang(text);
    }
  }

  /** A well-formed setup is none of the other commands. */
  lemma SetupExcludesCommands(text: string)
    requires SetupEmail(text).Some?
    ensures !IsLinkCommand(text) && !IsSummaryCommand(text) && !IsHelpCommand(text)
  {
    SetupPrefixFacts(text);
    NoKeywordHasSpaceAtSix(Lower(text));
  }

  /** No keyword has a space at index 6, where every "!setup " text has one. */
  lemma NoKeywordHasSpaceAtSix(low: string)
    requires |low| >= 7 && low[6] == ' '
    ensures low !in LINK_COMMANDS && low !in SUMMARY_COMMANDS && low !in HELP_COMMANDS
  {
  }

  /** Command matching ignores letter case. */
  lemma CommandsIgnoreCase(text: string)
    ensures IsLinkCommand(text) <==> IsLinkCommand(Lower(text))
    ensures IsSummaryCommand(text) <==> IsSummaryCommand(Lower(text))
    ensures IsHelpCommand(text) <==> IsHelpCommand(Lower(text))
  {
    LowerIdempotent(text);
  }

  /** The verdict on a `Category Amount` message. */
  datatype Expense =
    | WrongTokenCount               // not exactly two words: the format hint
    | BadAmount(token: string)      // float() raised on the second word
    | Expense(category: string, amount: real)

  /**
   * Splits the stripped text on whitespace; exactly two words are needed,
   * the second converted by `toFloat` (Python's `float()`).
   */
  function ParseExpense(text: string, toFloat: string -> Option<real>): (r: Expense)
    ensures r.WrongTokenCount? <==> |Split(Strip(text))| != 2
    ensures r.Expense? ==> IsToken(r.category) && r.category == Split(Strip(text))[0]
                           && toFloat(Split(Strip(text))[1]) == Some(r.amount)
    ensures r.BadAmount? ==> IsToken(r.token) && r.token == Split(Strip(text))[1]
                             && toFloat(r.token) == None
  {
    var parts := Split(Strip(text));
    SplitTokens(Strip(text));
    if |parts| != 2 then WrongTokenCount
    else
      match toFloat(parts[1])
      case None => BadAmount(parts[1])
      case Some(a) => Expense(parts[0], a)
  }

  /** "Category Amount" gives that category and the parsed amount, or BadAmount. */
  lemma ParseExpenseOfPair(category: string, amount: string, toFloat: string -> Option<real>)
    requires IsToken(category) && IsToken(amount)
    ensures ParseExpense(category + " " + amount, toFloat)
            == match toFloat(amount)
               case Some(a) => Expense(category, a)
               case None => BadAmount(amount)
  {
    var ws := [category, amount];
    assert Join(ws) == category + " " + amount;
    JoinEnds(ws);
    StripNoop(Join(ws));
    SplitJoin(ws);
  }

  /** Any other number of words gives the format hint, whatever the words are. */
  lemma ParseExpenseWrongCount(ws: seq<string>, toFloat: string -> Option<real>)
    requires forall i :: 0 <= i < |ws| ==> IsToken(ws[i])
    requires |ws| != 2
    ensures ParseExpense(Join(ws), toFloat) == WrongTokenCount
  {
    if ws != [] {
      JoinEnds(ws);
      StripNoop(Join(ws));
    }
    SplitJoin(ws);
  }
}
