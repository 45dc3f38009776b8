/**
 * The direct-message router: for each message it updates the welcomed set,
 * the user-to-sheet configuration and the sheet handle cache, appends rows
 * to the user's spreadsheet and sends replies. Replies and rows are values
 * in an output log and in a model of the spreadsheet service.
 */
module Bot {
  import opened Wrappers
  import opened Text
  import opened Commands
  import opened Aggregation

  type UserId = string
  type SheetId = string

  const URL_PREFIX: string := "https://docs.google.com/spreadsheets/d/"
  const URL_SUFFIX: string := "/edit"

  /** The edit link of a spreadsheet, derived from its id. */
  function SheetUrl(id: SheetId): string {
    URL_PREFIX + id + URL_SUFFIX
  }

  /**
   * The id inside an edit link, when `url` has that shape: the inverse of
   * `SheetUrl`, which shows that distinct sheets get distinct links.
   */
  function SheetIdOfUrl(url: string): Option<SheetId> {
    if |url| >= |URL_PREFIX| + |URL_SUFFIX| && url[..|URL_PREFIX|] == URL_PREFIX
       && url[|url| - |URL_SUFFIX|..] == URL_SUFFIX
    then Some(url[|URL_PREFIX|..|url| - |URL_SUFFIX|])
    else None
  }

  /** The id can be read back from the link. */
  lemma SheetUrlRoundTrip(id: SheetId)
    ensures SheetIdOfUrl(SheetUrl(id)) == Some(id)
  {
    var url := SheetUrl(id);
    assert url[..|URL_PREFIX|] == URL_PREFIX;
    assert url[|url| - |URL_SUFFIX|..] == URL_SUFFIX;
    assert url[|URL_PREFIX|..|url| - |URL_SUFFIX|] == id;
  }

  /** Distinct sheets have distinct links. */
  lemma SheetUrlInjective(a: SheetId, b: SheetId)
    ensures SheetUrl(a) == SheetUrl(b) ==> a == b
  {
    SheetUrlRoundTrip(a);
    SheetUrlRoundTrip(b);
  }

  /** One entry of `config["user_emails"]`. */
  datatype UserRecord = UserRecord(email: string, sheetId: SheetId, sheetUrl: string)

  /** An incoming message: whether it is the bot's own and whether it is a DM. */
  datatype Message = Message(author: UserId, text: string, fromSelf: bool, direct: bool)

  /** What the outside world does while one message is handled. */
  datatype Env = Env(
    now: string,                      // datetime.now() as "%Y-%m-%d %H:%M:%S"
    created: Option<SheetId>,         // create(): the new spreadsheet's id, or an exception
    headerOk: bool,                   // the header append_row succeeds
    openOk: bool,                     // open_by_key succeeds on a sheet that exists
    fetchOk: bool,                    // get_all_records succeeds
    appendOk: bool,                   // the expense append_row succeeds
    toFloat: string -> Option<real>)  // Python's float() on a string

  /** The replies the bot sends, by kind. */
  datatype Reply =
    | Welcome
    | SetupComplete(url: string)
    | SetupError
    | SheetLink(url: string)
    | LinkNotSetUp                    // "You haven't set up your expense tracking yet!"
    | NeedSetup                       // "You need to set up your expense tracking first!"
    | Generating
    | SummaryReply(summary: Summary)
    | HelpText
    | FormatHint                      // "Please use format: Category Amount"
    | Logged(category: string, amount: real)
    | ExpenseError                    // "Error: ..." from the expense try block

  /**
   * The process state (welcomed set, configuration, handle cache), the rows
   * held by the spreadsheet service, and the replies sent so far.
   */
  datatype State = State(
    welcomed: set<UserId>,
    userEmails: map<UserId, UserRecord>,
    userSheets: map<UserId, SheetId>,
    sheets: map<SheetId, seq<Row>>,
    replies: seq<Reply>)

  /** Every cached handle refers to a spreadsheet that exists. */
  predicate Consistent(s: State) {
    forall u :: u in s.userSheets ==> s.userSheets[u] in s.sheets
  }

  /** Every stored link is the one derived from the stored id. */
  predicate UrlsDerived(s: State) {
    forall u :: u in s.userEmails ==> s.userEmails[u].sheetUrl == SheetUrl(s.userEmails[u].sheetId)
  }

  function Say(s: State, r: Reply): State {
    s.(replies := s.replies + [r])
  }

  /** Neither welcomed in this process nor configured. */
  predicate IsNewUser(s: State, u: UserId) {
    u !in s.welcomed && u !in s.userEmails
  }

  /** First contact: record the user as welcomed and send the welcome text. */
  function Greet(s: State, u: UserId): (r: State)
    ensures !IsNewUser(r, u)
    ensures r.userEmails == s.userEmails && r.userSheets == s.userSheets && r.sheets == s.sheets
    ensures IsNewUser(s, u) ==> u in r.welcomed && r.replies == s.replies + [Welcome]
    ensures !IsNewUser(s, u) ==> r == s
  {
    if IsNewUser(s, u) then Say(s.(welcomed := s.welcomed + {u}), Welcome) else s
  }

  /**
   * `setup_sheet_for_user`: create a spreadsheet, write its header, share it
   * (best effort, no effect here), then upsert the user's record with the
   * derived link. The id is returned on success; a failed header append
   * leaves the new sheet behind without recording it.
   */
  function Provision(s: State, u: UserId, email: string, e: Env): (r: (State, Option<SheetId>))
    ensures r.0.welcomed == s.welcomed && r.0.userSheets == s.userSheets && r.0.replies == s.replies
    ensures r.1.Some? <==> e.created.Some? && e.headerOk
    ensures r.1.Some? ==>
              r.1 == e.created && r.0.sheets == s.sheets[r.1.value := []]
              && r.0.userEmails == s.userEmails[u := UserRecord(email, r.1.value, SheetUrl(r.1.value))]
    ensures r.1.None? ==>
              r.0.userEmails == s.userEmails
              && (r.0.sheets == s.sheets || (e.created.Some? && r.0.sheets == s.sheets[e.created.value := []]))
  {
    match e.created
    case None => (s, None)
    case Some(id) =>
      var made := s.(sheets := s.sheets[id := []]);
      if !e.headerOk then (made, None)
      else (made.(userEmails := made.userEmails[u := UserRecord(email, id, SheetUrl(id))]), Some(id))
  }

  /** The setup branch: provision, cache the new sheet and confirm, or report the error. */
  function Setup(s: State, u: UserId, email: string, e: Env): (r: State)
    requires Consistent(s)
    ensures Consistent(r) && r.welcomed == s.welcomed
    ensures |r.replies| == |s.replies| + 1 && r.replies[..|s.replies|] == s.replies
  {
    var p := Provision(s, u, email, e);
    match p.1
    case None => Say(p.0, SetupError)
    case Some(id) => Say(p.0.(userSheets := p.0.userSheets[u := id]), SetupComplete(SheetUrl(id)))
  }

  /**
   * Handle resolution: the cache first, else reopen the configured sheet and
   * cache it; a failed open (or no record) leaves the handle unresolved.
   */
  function Resolve(s: State, u: UserId, e: Env): (r: (State, Option<SheetId>))
    requires Consistent(s)
    ensures Consistent(r.0) && r.0.sheets == s.sheets
    ensures r.1.Some? ==> r.1.value in s.sheets && u in r.0.userSheets && r.0.userSheets[u] == r.1.value
  {
    if u in s.userSheets then (s, Some(s.userSheets[u]))
    else if u in s.userEmails then
      var id := s.userEmails[u].sheetId;
      if e.openOk && id in s.sheets then (s.(userSheets := s.userSheets[u := id]), Some(id))
      else (s, None)
    else (s, None)
  }

  /** `append_row` on an existing sheet: one more row at its end. */
  function AppendRow(s: State, h: SheetId, row: Row): (r: State)
    requires h in s.sheets
    ensures r.sheets.Keys == s.sheets.Keys
  {
    s.(sheets := s.sheets[h := s.sheets[h] + [row]])
  }

  /** The default branch: log `Category Amount` to the resolved sheet. */
  function LogExpense(s: State, h: SheetId, text: string, e: Env): (r: State)
    requires Consistent(s) && h in s.sheets
    ensures Consistent(r) && r.welcomed == s.welcomed && r.userEmails == s.userEmails
    ensures r.userSheets == s.userSheets && r.sheets.Keys == s.sheets.Keys
    ensures |r.replies| == |s.replies| + 1 && r.replies[..|s.replies|] == s.replies
  {
    match ParseExpense(text, e.toFloat)
    case WrongTokenCount => Say(s, FormatHint)
    case BadAmount(_) => Say(s, ExpenseError)
    case Expense(c, a) =>
      if e.appendOk then Say(AppendRow(s, h, Row(e.now, c, a)), Logged(c, a))
      else Say(s, ExpenseError)
  }

  /** Everything after the setup branch: resolution, then the command chain. */
  function Dispatch(s: State, u: UserId, text: string, e: Env): (r: State)
    requires Consistent(s)
    ensures Consistent(r) && r.welcomed == s.welcomed && r.userEmails == s.userEmails
    ensures r.sheets.Keys == s.sheets.Keys
    ensures |r.replies| > |s.replies| && r.replies[..|s.replies|] == s.replies
  {
    var r := Resolve(s, u, e);
    var resolved := r.0;
    var h := r.1;
    if IsLinkCommand(text) then
      Say(resolved, if u in resolved.userEmails then SheetLink(resolved.userEmails[u].sheetUrl) else LinkNotSetUp)
    else if IsSummaryCommand(text) then
      if h.None? then Say(resolved, NeedSetup)
      else
        var summary := if e.fetchOk then SummaryOf(resolved.sheets[h.value], SUMMARY_LIMIT) else Failed;
        Say(Say(resolved, Generating), SummaryReply(summary))
    else if IsHelpCommand(text) then Say(resolved, HelpText)
    else if h.None? then Say(resolved, NeedSetup)
    else LogExpense(resolved, h.value, text, e)
  }

  /** `on_message` as a function of the state before it. */
  function Step(s: State, m: Message, e: Env): (r: State)
    requires Consistent(s)
    ensures Consistent(r)
    ensures |s.replies| <= |r.replies| && r.replies[..|s.replies|] == s.replies
  {
    if m.fromSelf || !m.direct then s
    else
      var u := m.author;
      var greeted := Greet(s, u);
      if IsNewUser(s, u) && Swallowed(m.text) then greeted
      else
        match SetupEmail(m.text)
        case Some(email) => Setup(greeted, u, email, e)
        case None => Dispatch(greeted, u, m.text, e)
  }

  /** The handle-cache and configuration holder; one method per source routine. */
  class Router {
    var welcomed: set<UserId>
    var userEmails: map<UserId, UserRecord>
    var userSheets: map<UserId, SheetId>
    var sheets: map<SheetId, seq<Row>>
    var replies: seq<Reply>

    function Snapshot(): State
      reads this
    {
      State(welcomed, userEmails, userSheets, sheets, replies)
    }

    predicate Valid()
      reads this
    {
      Consistent(Snapshot())
    }

    /** Start-up: the loaded configuration, an empty cache, nobody welcomed. */
    constructor (config: map<UserId, UserRecord>, service: map<SheetId, seq<Row>>)
      ensures Valid()
      ensures Snapshot() == State({}, config, map[], service, [])
    {
      welcomed := {};
      userEmails := config;
      userSheets := map[];
      sheets := service;
      replies := [];
    }

    /** `setup_sheet_for_user` */
    method SetupSheetForUser(u: UserId, email: string, e: Env) returns (id: Option<SheetId>)
      requires Valid()
      modifies this
      ensures Valid()
      ensures (Snapshot(), id) == Provision(old(Snapshot()), u, email, e)
    {
      if e.created.None? {
        return None;
      }
      var newId := e.created.value;
      sheets := sheets[newId := []];
      if !e.headerOk {
        return None;
      }
      userEmails := userEmails[u := UserRecord(email, newId, SheetUrl(newId))];
      return Some(newId);
    }

    /** The "get or check if user is set up" block of `on_message`. */
    method ResolveSheet(u: UserId, e: Env) returns (h: Option<SheetId>)
      requires Valid()
      modifies this
      ensures Valid()
      ensures (Snapshot(), h) == Resolve(old(Snapshot()), u, e)
    {
      if u in userSheets {
        return Some(userSheets[u]);
      }
      if u in userEmails {
        var id := userEmails[u].sheetId;
        if e.openOk && id in sheets {
          userSheets := userSheets[u := id];
          return Some(id);
        }
      }
      return None;
    }

    /** The expense `try` block of `on_message`. */
    method ProcessExpense(h: SheetId, text: string, e: Env)
      requires Valid() && h in sheets
      modifies this
      ensures Valid()
      ensures Snapshot() == LogExpense(old(Snapshot()), h, text, e)
    {
      var parts := Split(Strip(text));
      if |parts| != 2 {
        replies := replies + [FormatHint];
        return;
      }
      var amount := e.toFloat(parts[1]);
      if amount.None? || !e.appendOk {
        replies := replies + [ExpenseError];
        return;
      }
      sheets := sheets[h := sheets[h] + [Row(e.now, parts[0], amount.value)]];
      replies := replies + [Logged(parts[0], amount.value)];
    }

    /** `on_message` */
    method HandleMessage(m: Message, e: Env)
      requires Valid()
      modifies this
      ensures Valid()
      ensures Snapshot() == Step(old(Snapshot()), m, e)
    {
      if m.fromSelf || !m.direct {
        return;
      }
      var u := m.author;
      if u !in welcomed && u !in userEmails {
        welcomed := welcomed + {u};
        replies := replies + [Welcome];
        if Swallowed(m.text) {
          return;
        }
      }
      var email := SetupEmail(m.text);
      if email.Some? {
        RunSetup(u, email.value, e);
      } else {
        RunCommand(u, m.text, e);
      }
    }

    /** The `!setup` branch of `on_message`. */
    method RunSetup(u: UserId, email: string, e: Env)
      requires Valid()
      modifies this
      ensures Valid()
      ensures Snapshot() == Setup(old(Snapshot()), u, email, e)
    {
      var id := SetupSheetForUser(u, email, e);
      if id.Some? {
        userSheets := userSheets[u := id.value];
        replies := replies + [SetupComplete(SheetUrl(id.value))];
      } else {
        replies := replies + [SetupError];
      }
    }

    /** The part of `on_message` after the setup branch. */
    method RunCommand(u: UserId, text: string, e: Env)
      requires Valid()
      modifies this
      ensures Valid()
      ensures Snapshot() == Dispatch(old(Snapshot()), u, text, e)
    {
      var h := ResolveSheet(u, e);
      if IsLinkCommand(text) {
        if u in userEmails {
          replies := replies + [SheetLink(userEmails[u].sheetUrl)];
        } else {
          replies := replies + [LinkNotSetUp];
        }
        return;
      }
      if IsSummaryCommand(text) {
        if h.None? {
          replies := replies + [NeedSetup];
          return;
        }
        replies := replies + [Generating];
        var summary := Failed;
        if e.fetchOk {
          summary := Summarize(sheets[h.value], SUMMARY_LIMIT);
        }
        replies := replies + [SummaryReply(summary)];
        return;
      }
      if IsHelpCommand(text) {
        replies := replies + [HelpText];
        return;
      }
      if h.None? {
        replies := replies + [NeedSetup];
        return;
      }
      ProcessExpense(h.value, text, e);
    }
  }
}
