/** src/commands.py: splitting a `/` command into its name and arguments, and the dispatch
    of `help` and `hist` against the session store. Console output is a sequence of
    `Out` items. */
module Commands {
  import opened Wrappers
  import opened Text
  import opened Models
  import opened ChatMemory
  import View

  /** An exception that leaves `handle_command`. */
  datatype CommandError =
    | IndexError                       // `parts[0]` of an empty split
    | StoreFailed(e: StoreError)       // `int()` of a bad `hist list` quantity

  datatype Outcome = Done | Raised(error: CommandError)

  /** What the command handlers put on the console. */
  datatype Out =
    | SystemMsg(text: string)                                   // print_system_message
    | Bullets(items: seq<string>)                               // print_unordered_list
    | TableOut(title: string, columns: seq<View.Column>, rows: seq<ChatHeader>)  // print_table
    | Plain(text: string)                                       // bare print

  /** Python's `s[1:]`. */
  function DropFirst(s: string): string {
    if s == [] then [] else s[1..]
  }

  /** `parse_command`: everything after the first character, stripped and split on
      whitespace; the first word is the command, the rest its arguments. */
  function ParseCommand(inputStr: string): (r: Result<(string, seq<string>), CommandError>)
    ensures r.Failure? <==> Words(DropFirst(inputStr)) == []
    ensures r.Failure? ==> r.error == IndexError
    ensures r.Success? ==> [r.value.0] + r.value.1 == Words(DropFirst(inputStr))
  {
    WordsOfStrip(DropFirst(inputStr));
    var parts := Words(Strip(DropFirst(inputStr)));
    if parts == [] then Failure(IndexError) else Success((parts[0], parts[1..]))
  }

  /** The words of a command word and argument words joined by single spaces. */
  lemma WordsOfCommandLine(c: string, args: seq<string>)
    requires c != [] && NoSpace(c)
    requires forall k :: 0 <= k < |args| ==> args[k] != [] && NoSpace(args[k])
    ensures Words(c + " " + Join(args, " ")) == [c] + args
  {
    if args == [] {
      assert c + " " + Join(args, " ") == c + " ";
      WordsOfWordThen(c, " ");
      WordsOfSpaces(" ");
    } else {
      assert ([c] + args)[1..] == args;
      assert Join([c] + args, " ") == c + " " + Join(args, " ");
      WordsOfJoin([c] + args);
    }
  }

  lemma ConsInjective(a: string, b: seq<string>, x: string, y: seq<string>)
    requires [a] + b == [x] + y
    ensures a == x && b == y
  {
    assert a == ([a] + b)[0] && x == ([x] + y)[0];
    assert b == ([a] + b)[1..] && y == ([x] + y)[1..];
  }

  /** A command typed as "/", the command word, a space and the arguments joined by
      single spaces. */
  function CommandLine(c: string, args: seq<string>): string {
    "/" + c + " " + Join(args, " ")
  }

  /** Round trip: a command word and argument words joined by single spaces after "/"
      parse back into the same command and arguments. */
  lemma ParseCommandRoundTrip(c: string, args: seq<string>)
    requires c != [] && NoSpace(c)
    requires forall k :: 0 <= k < |args| ==> args[k] != [] && NoSpace(args[k])
    ensures ParseCommand(CommandLine(c, args)) == Success((c, args))
  {
    var line := c + " " + Join(args, " ");
    var s := CommandLine(c, args);
    assert s == "/" + line;
    assert DropFirst(s) == line;
    WordsOfCommandLine(c, args);
    var r := ParseCommand(s);
    assert r.Success?;
    assert [r.value.0] + r.value.1 == [c] + args;
    ConsInjective(r.value.0, r.value.1, c, args);
  }

  /** A "/" followed by nothing but whitespace raises IndexError. */
  lemma ParseCommandBlank(inputStr: string)
    requires AllSpace(DropFirst(inputStr))
    ensures ParseCommand(inputStr) == Failure(IndexError)
  {
    WordsOfSpaces(DropFirst(inputStr));
  }

  const HelpItems: seq<string> := ["/hist list \\[qty | None]", "/hist load \\[chat_number]", "/exit"]

  /** `handle_help`. */
  const HelpOutput: seq<Out> := [SystemMsg("Available commands:"), Bullets(HelpItems)]

  /** The columns of the history table: ID and creation time centred, the title left-aligned
      and taking the spare width. */
  const HistColumns: seq<View.Column> :=
    [View.Column("ID", "center", None), View.Column("Date-Time Created", "center", None), View.Column("Title", "left", Some(1))]

  /** Python's `repr` of a list of ints, as the f-string prints it: "[2, 3]". */
  function PyListRepr(ids: seq<int>): string {
    "[" + Join(IdStrings(ids), ", ") + "]"
  }

  function IdStrings(ids: seq<int>): (r: seq<string>)
    ensures |r| == |ids|
  {
    if ids == [] then [] else [IntToStr(ids[0])] + IdStrings(ids[1..])
  }

  /** What `handle_hist` decides to do from its arguments. `load` is not handled, so it is
      an unknown request. */
  datatype HistAction =
    | NoArgs
    | ListChats(limit: Limit)
    | DeleteMissingArg
    | DeleteSelected(sel: string)
    | UnknownRequest

  function HistRequest(args: seq<string>): (a: HistAction)
    ensures a == NoArgs <==> args == []
    ensures a.ListChats? <==> args != [] && args[0] == "list"
    ensures a.DeleteMissingArg? || a.DeleteSelected? <==> args != [] && args[0] == "delete"
  {
    if args == [] then NoArgs
    else if args[0] == "list" then ListChats(if |args| < 2 then LimitInt(5) else LimitStr(args[1]))
    else if args[0] == "delete" then (if |args| < 2 then DeleteMissingArg else DeleteSelected(args[1]))
    else UnknownRequest
  }

  /** The whole effect of a handler: console output, how it ended, and the tables after. */
  datatype Effect = Effect(out: seq<Out>, outcome: Outcome, tables: Tables)

  /** `handle_hist` over the store's tables and current id. */
  function HistEffect(args: seq<string>, t: Tables, current: Option<int>): Effect {
    match HistRequest(args)
    case NoArgs => Effect([Plain("No args given to hist")], Done, t)
    case ListChats(limit) =>
      (match ChatList(t.chats, limit)
       case Failure(e) => Effect([], Raised(StoreFailed(e)), t)
       case Success(rows) =>
         Effect([TableOut("Chat History", HistColumns, rows), SystemMsg("Retrieved " + IntToStr(|rows|) + " records")], Done, t))
    case DeleteMissingArg => Effect([SystemMsg("Please provide an argument to delete: int or '*'")], Done, t)
    case DeleteSelected(sel) =>
      var d := DeleteChats(t, current, sel);
      Effect([SystemMsg("Deleted " + PyListRepr(d.deleted) + " chats")], Done, d.tables)
    case UnknownRequest => Effect([SystemMsg("Unknown hist request.")] + HelpOutput, Done, t)
  }

  /** `handle_command` over the store's tables and current id. */
  function CommandEffect(inputStr: string, t: Tables, current: Option<int>): Effect {
    match ParseCommand(inputStr)
    case Failure(e) => Effect([], Raised(e), t)
    case Success(parsed) =>
      if parsed.0 == "help" then Effect(HelpOutput, Done, t)
      else if parsed.0 == "hist" then HistEffect(parsed.1, t, current)
      else Effect([SystemMsg("Unknown command")] + HelpOutput, Done, t)
  }

  /** `hist list` without a quantity behaves exactly like `hist list 5`. */
  lemma HistListDefaultsToFive(t: Tables, current: Option<int>)
    ensures HistEffect(["list"], t, current) == HistEffect(["list", "5"], t, current)
  {
    assert Strip("5") == "5";
    assert PyInt("5") == Some(5) by {
      assert AllDigits("5");
      assert DigitsValue("5") == DigitsValue("5"[..0]) * 10 + 5;
    }
  }

  /** Only `hist delete <sel>` writes to the store; every other command leaves both tables
      as they were. With a selector, the tables are exactly what `delete` leaves. */
  lemma OnlyHistDeleteWrites(inputStr: string, t: Tables, current: Option<int>)
    ensures var e := CommandEffect(inputStr, t, current);
            var p := ParseCommand(inputStr);
            if p.Success? && p.value.0 == "hist" && HistRequest(p.value.1).DeleteSelected?
            then e.tables == DeleteChats(t, current, HistRequest(p.value.1).sel).tables
            else e.tables == t
  {
  }

  /** `hist delete` without a selector prompts for one and deletes nothing; `hist` with no
      arguments, or with an unknown request, touches no table either. */
  lemma HistWithoutSelectorDeletesNothing(args: seq<string>, t: Tables, current: Option<int>)
    requires args == [] || args == ["delete"] || (args[0] != "list" && args[0] != "delete")
    ensures HistEffect(args, t, current).tables == t
    ensures HistEffect(args, t, current).outcome == Done
    ensures args == ["delete"] ==>
              HistEffect(args, t, current).out == [SystemMsg("Please provide an argument to delete: int or '*'")]
  {
  }

  /** A line that parses as `hist` with some arguments is handled by `handle_hist` with
      exactly those arguments. */
  lemma HistDispatch(inputStr: string, args: seq<string>, t: Tables, current: Option<int>)
    requires ParseCommand(inputStr) == Success(("hist", args))
    ensures CommandEffect(inputStr, t, current) == HistEffect(args, t, current)
  {
  }

  /** Typed as "/hist" followed by its arguments, a command is routed to `handle_hist`
      with exactly those arguments. */
  lemma CommandRoutesHist(args: seq<string>, t: Tables, current: Option<int>)
    requires forall k :: 0 <= k < |args| ==> args[k] != [] && NoSpace(args[k])
    ensures CommandEffect(CommandLine("hist", args), t, current) == HistEffect(args, t, current)
  {
    assert NoSpace("hist") by {
      forall k | 0 <= k < 4 ensures !IsSpace("hist"[k]) { }
    }
    ParseCommandRoundTrip("hist", args);
    HistDispatch(CommandLine("hist", args), args, t, current);
  }

  /** A line that parses as `help`, whatever its arguments, prints the help and changes
      nothing. */
  lemma HelpDispatch(inputStr: string, args: seq<string>, t: Tables, current: Option<int>)
    requires ParseCommand(inputStr) == Success(("help", args))
    ensures CommandEffect(inputStr, t, current) == Effect(HelpOutput, Done, t)
  {
  }

  /** A line whose command word is neither `help` nor `hist`, whatever its arguments,
      prints "Unknown command" and the help, and changes nothing. */
  lemma UnknownCommandShowsHelp(inputStr: string, c: string, args: seq<string>, t: Tables, current: Option<int>)
    requires ParseCommand(inputStr) == Success((c, args)) && c != "help" && c != "hist"
    ensures CommandEffect(inputStr, t, current) == Effect([SystemMsg("Unknown command")] + HelpOutput, Done, t)
  {
  }

  /** `handle_hist` on the live store. */
  method HandleHist(args: seq<string>, memory: Memory) returns (out: seq<Out>, outcome: Outcome)
    requires memory.Valid()
    modifies memory
    ensures memory.Valid()
    ensures var e := HistEffect(args, Tables(old(memory.chats), old(memory.history)), old(memory.currentId));
            out == e.out && outcome == e.outcome
            && memory.chats == e.tables.chats && memory.history == e.tables.history
    ensures memory.currentId == old(memory.currentId) && memory.clock == old(memory.clock)
  {
    var action := HistRequest(args);
    match action {
      case NoArgs =>
        out, outcome := [Plain("No args given to hist")], Done;
      case ListChats(limit) =>
        var chatList := memory.GetChatList(limit);
        if chatList.Failure? {
          return [], Raised(StoreFailed(chatList.error));
        }
        var columns := View.TableColumns(["ID", "Date-Time Created", "Title"], Some(["center", "center", "left"]));
        assert columns.Success?;
        assert columns.value == HistColumns;
        out := [TableOut("Chat History", columns.value, chatList.value),
                SystemMsg("Retrieved " + IntToStr(|chatList.value|) + " records")];
        outcome := Done;
      case DeleteMissingArg =>
        out, outcome := [SystemMsg("Please provide an argument to delete: int or '*'")], Done;
      case DeleteSelected(sel) =>
        var qtyChatsDeleted := memory.Delete(sel);
        out, outcome := [SystemMsg("Deleted " + PyListRepr(qtyChatsDeleted) + " chats")], Done;
      case UnknownRequest =>
        out, outcome := [SystemMsg("Unknown hist request.")] + HelpOutput, Done;
    }
  }

  /** `handle_command` on the live store. */
  method HandleCommand(inputStr: string, memory: Memory) returns (out: seq<Out>, outcome: Outcome)
    requires memory.Valid()
    modifies memory
    ensures memory.Valid()
    ensures var e := CommandEffect(inputStr, Tables(old(memory.chats), old(memory.history)), old(memory.currentId));
            out == e.out && outcome == e.outcome
            && memory.chats == e.tables.chats && memory.history == e.tables.history
    ensures memory.currentId == old(memory.currentId) && memory.clock == old(memory.clock)
  {
    var parsed := ParseCommand(inputStr);
    if parsed.Failure? {
      return [], Raised(parsed.error);
    }
    var (command, args) := parsed.value;
    if command == "help" {
      out, outcome := HelpOutput, Done;
    } else if command == "hist" {
      out, outcome := HandleHist(args, memory);
    } else {
      out, outcome := [SystemMsg("Unknown command")] + HelpOutput, Done;
    }
  }
}
