/**
  One pass of `main`'s loop (bot.py:102-110) without the terminal: the line
  `input()` read is lower-cased, checked against the exit words, parsed, and
  handed to its handler. The reply is what `print` would show.
 */
module Session {
  import opened Wrappers
  import opened PyStr
  import opened Phone
  import opened Messages
  import opened Records
  import opened Commands

  /** The line printed before `main` leaves its loop on an exit word. */
  const FAREWELL: string := "Good bye!"

  /** Leave the loop after printing `text`, or print a handler's result, `None` included. */
  datatype Reply = Farewell(text: string) | Printed(value: Option<string>)

  /**
    What `func(*data)` replies and leaves in the table for the handler
    `parser` chose, from the table `names`/`phones` before the call to
    `names1`/`phones1` after it. `helpText` stands for the contents of
    help.txt.
   */
  predicate DispatchEffect(handler: Handler, args: seq<string>, helpText: string,
                           names: seq<string>, phones: map<string, string>,
                           out: Option<string>, names1: seq<string>, phones1: map<string, string>)
  {
    match handler
    case AddContact => AddEffect(args, names, phones, out, names1, phones1)
    case ChangeContact => ChangeEffect(args, names, phones, out, names1, phones1)
    case Help => out == Some(helpText) && names1 == names && phones1 == phones
    case Greeting => out == Some(GREETING) && names1 == names && phones1 == phones
    case ShowPhone => PhoneEffect(args, phones, out) && names1 == names && phones1 == phones
    case ListContacts =>
      && (forall i :: 0 <= i < |names| ==> names[i] in phones)
      && out == Some(Listing(names, phones)) && names1 == names && phones1 == phones
    case Unknown => out == Some(UnknownCommand(helpText)) && names1 == names && phones1 == phones
  }

  /** Only `add` and `change` write to the table. */
  lemma OnlyAddAndChangeWrite(handler: Handler, args: seq<string>, helpText: string,
                              names: seq<string>, phones: map<string, string>,
                              out: Option<string>, names1: seq<string>, phones1: map<string, string>)
    requires DispatchEffect(handler, args, helpText, names, phones, out, names1, phones1)
    requires handler != AddContact && handler != ChangeContact
    ensures names1 == names && phones1 == phones
  {
  }

  /** `func(*data)`: run the handler `parser` chose. */
  method Dispatch(book: ContactBook, handler: Handler, args: seq<string>, helpText: string)
    returns (out: Option<string>)
    requires book.Valid()
    modifies book
    ensures book.Valid()
    ensures old(book.Clean()) && Words(args) ==> book.Clean()
    ensures DispatchEffect(handler, args, helpText, old(book.names), old(book.phones), out, book.names, book.phones)
  {
    match handler
    case Help =>
      out := Some(helpText);
    case Greeting =>
      out := Some(GREETING);
    case AddContact =>
      out := book.AddHandler(args);
    case ChangeContact =>
      out := book.ChangeHandler(args);
    case ShowPhone =>
      out := book.PhoneHandler(args);
    case ListContacts =>
      out := Some(book.ShowAll());
    case Unknown =>
      out := Some(UnknownCommand(helpText));
  }

  /**
    One pass of the loop. A table that only ever received typed lines keeps
    whitespace-free names and all-digit phones.
   */
  method Respond(book: ContactBook, line: string, helpText: string) returns (reply: Reply)
    requires book.Valid()
    modifies book
    ensures book.Valid()
    ensures old(book.Clean()) ==> book.Clean()
    ensures reply.Farewell? <==> IsExit(Lower(line))
    ensures reply.Farewell? ==> reply.text == FAREWELL && book.names == old(book.names) && book.phones == old(book.phones)
    ensures reply.Printed? ==>
      var (handler, args) := Parse(Lower(line));
      DispatchEffect(handler, args, helpText, old(book.names), old(book.phones), reply.value, book.names, book.phones)
  {
    var text := Lower(line);
    if IsExit(text) {
      return Farewell(FAREWELL);
    }
    var handler, args := Parser(text);
    var out := Dispatch(book, handler, args, helpText);
    reply := Printed(out);
  }
}
