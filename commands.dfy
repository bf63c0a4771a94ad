/**
  The command table (bot.py:86-94) and `parser` (bot.py:96-100): the first
  keyword, in table order, that starts the input picks the handler, and the
  rest of the input, trimmed and split on whitespace, is its argument list.
 */
module Commands {
  import opened Wrappers
  import opened PyStr

  /** The handler functions `parser` can hand back. */
  datatype Handler = Help | Greeting | AddContact | ChangeContact | ShowPhone | ListContacts | Unknown

  /** `COMMANDS`, in the insertion order of the dict literal. */
  const COMMANDS: seq<(Handler, string)> := [
    (Help, "help"),
    (Greeting, "hello"),
    (AddContact, "add"),
    (ChangeContact, "change"),
    (ShowPhone, "phone"),
    (ListContacts, "show all")
  ]

  const EXIT_COMMANDS: set<string> := {"good bye", "close", "exit", "stop"}

  /**
    `user_input in EXIT_COMMANDS`: exact membership, no prefix matching. No
    exit word starts with a command keyword, so testing it first hides no
    command.
   */
  predicate IsExit(line: string): (b: bool)
    ensures b ==> forall j :: 0 <= j < |COMMANDS| ==> !StartsWith(line, COMMANDS[j].1)
  {
    ExitWordsAreNotCommands(line);
    line in EXIT_COMMANDS
  }

  lemma ExitWordsAreNotCommands(line: string)
    ensures line in EXIT_COMMANDS ==> forall j :: 0 <= j < |COMMANDS| ==> !StartsWith(line, COMMANDS[j].1)
  {
    if line in EXIT_COMMANDS {
      forall j | 0 <= j < |COMMANDS| ensures !StartsWith(line, COMMANDS[j].1) {
        // "close" and "change", "stop" and "show all" part at their second letter
        var k := if (line == "close" && j == 3) || (line == "stop" && j == 5) then 1 else 0;
        assert line[k] != COMMANDS[j].1[k];
      }
    }
  }

  /** The first table position at or after `from` whose keyword starts `text`. */
  function FirstMatch(text: string, from: nat): (r: Option<nat>)
    requires from <= |COMMANDS|
    ensures r.Some? ==> from <= r.value < |COMMANDS| && StartsWith(text, COMMANDS[r.value].1)
    ensures forall j :: from <= j < (if r.Some? then r.value else |COMMANDS|) ==> !StartsWith(text, COMMANDS[j].1)
    decreases |COMMANDS| - from
  {
    if from == |COMMANDS| then None
    else if StartsWith(text, COMMANDS[from].1) then Some(from)
    else FirstMatch(text, from + 1)
  }

  /** A keyword that starts `text` with no earlier keyword doing so is the first match. */
  lemma FirstMatchIsFirst(text: string)
    ensures forall i :: 0 <= i < |COMMANDS| && StartsWith(text, COMMANDS[i].1)
                        && (forall j :: 0 <= j < i ==> !StartsWith(text, COMMANDS[j].1)) ==>
              FirstMatch(text, 0) == Some(i)
  {
  }

  /** What `parser(text)` returns. */
  function Parse(text: string): (r: (Handler, seq<string>))
    ensures r.0 == Unknown <==> forall j :: 0 <= j < |COMMANDS| ==> !StartsWith(text, COMMANDS[j].1)
    ensures r.0 == Unknown ==> r.1 == []
    ensures forall i :: 0 <= i < |COMMANDS| && StartsWith(text, COMMANDS[i].1)
                        && (forall j :: 0 <= j < i ==> !StartsWith(text, COMMANDS[j].1)) ==>
              r == (COMMANDS[i].0, Split(Strip(text[|COMMANDS[i].1|..])))
  {
    FirstMatchIsFirst(text);
    match FirstMatch(text, 0)
    case None => (Unknown, [])
    case Some(i) => (COMMANDS[i].0, Split(Strip(text[|COMMANDS[i].1|..])))
  }

  /** `parser`: the `for` loop over `COMMANDS` with its early return. */
  method Parser(text: string) returns (handler: Handler, args: seq<string>)
    ensures (handler, args) == Parse(text)
  {
    var i := 0;
    while i < |COMMANDS|
      invariant 0 <= i <= |COMMANDS|
      invariant FirstMatch(text, i) == FirstMatch(text, 0)
    {
      var (h, kw) := COMMANDS[i];
      if StartsWith(text, kw) {
        return h, Split(Strip(text[|kw|..]));
      }
      i := i + 1;
    }
    return Unknown, [];
  }

  /** No keyword in the table starts with another one. */
  lemma KeywordsPrefixFree()
    ensures forall i, j :: 0 <= i < |COMMANDS| && 0 <= j < |COMMANDS| && i != j ==>
              !StartsWith(COMMANDS[j].1, COMMANDS[i].1)
  {
    forall i, j | 0 <= i < |COMMANDS| && 0 <= j < |COMMANDS| && i != j
      ensures !StartsWith(COMMANDS[j].1, COMMANDS[i].1)
    {
      // "help" and "hello" part at their fourth letter, all others at their first
      var k := if i <= 1 && j <= 1 then 3 else 0;
      assert COMMANDS[i].1[k] != COMMANDS[j].1[k];
    }
  }

  /** Hence at most one keyword starts any input, and the table order never decides. */
  lemma AtMostOneKeyword(text: string, i: nat, j: nat)
    requires i < |COMMANDS| && j < |COMMANDS|
    requires StartsWith(text, COMMANDS[i].1) && StartsWith(text, COMMANDS[j].1)
    ensures i == j
  {
    if i != j {
      KeywordsPrefixFree();
      assert false;
    }
  }

  /** With the keyword at position `i` starting the input, `parser` picks that entry. */
  lemma ParseByKeyword(text: string, i: nat)
    requires i < |COMMANDS| && StartsWith(text, COMMANDS[i].1)
    ensures Parse(text) == (COMMANDS[i].0, Split(Strip(text[|COMMANDS[i].1|..])))
  {
    forall j | 0 <= j < i ensures !StartsWith(text, COMMANDS[j].1) {
      if StartsWith(text, COMMANDS[j].1) {
        AtMostOneKeyword(text, i, j);
      }
    }
  }

  /** The words after a single blank, once trimmed and split, are those words. */
  lemma WordsAfterBlank(words: seq<string>, rest: string)
    requires forall k :: 0 <= k < |words| ==> words[k] != [] && NoSpace(words[k])
    requires rest == " " + Join(" ", words)
    ensures Split(Strip(rest)) == words
  {
    JoinEnds(words);
    StripAfterRun(" ", Join(" ", words));
    SplitJoin(words);
  }

  /**
    A keyword, a blank and blank-separated words parse back to that keyword's
    handler and exactly those words.
   */
  lemma ParseCommandLine(i: nat, words: seq<string>)
    requires i < |COMMANDS|
    requires forall k :: 0 <= k < |words| ==> words[k] != [] && NoSpace(words[k])
    ensures Parse(COMMANDS[i].1 + (" " + Join(" ", words))) == (COMMANDS[i].0, words)
  {
    var kw, rest := COMMANDS[i].1, " " + Join(" ", words);
    var text := kw + rest;
    assert text[..|kw|] == kw && text[|kw|..] == rest;
    ParseByKeyword(text, i);
    WordsAfterBlank(words, rest);
  }

  /** A keyword needs no word boundary: `phones` is the `phone` command. */
  lemma KeywordWithoutBoundary()
    ensures Parse("phones bob").0 == ShowPhone
  {
    assert StartsWith("phones bob", COMMANDS[4].1) by {
      assert "phones bob"[..5] == "phone";
    }
    ParseByKeyword("phones bob", 4);
  }

  /**
    A keyword, any whitespace, a name, at least one whitespace character and
    a phone parse to that keyword's handler with exactly the name and the
    phone: doubled blanks and tabs, as in `"add  bob\t12"`, make no empty
    arguments.
   */
  lemma ParseNameAndPhone(i: nat, ws: string, name: string, gap: string, phone: string)
    requires i < |COMMANDS|
    requires AllSpace(ws) && gap != [] && AllSpace(gap)
    requires name != [] && NoSpace(name) && phone != [] && NoSpace(phone)
    ensures Parse(COMMANDS[i].1 + (ws + (name + gap + phone))) == (COMMANDS[i].0, [name, phone])
  {
    var kw, rest := COMMANDS[i].1, ws + (name + gap + phone);
    var text := kw + rest;
    assert text[..|kw|] == kw && text[|kw|..] == rest;
    ParseByKeyword(text, i);
    NameAndPhoneArguments(ws, name, gap, phone);
  }

  lemma NameAndPhoneArguments(ws: string, name: string, gap: string, phone: string)
    requires AllSpace(ws) && gap != [] && AllSpace(gap)
    requires name != [] && NoSpace(name) && phone != [] && NoSpace(phone)
    ensures Split(Strip(ws + (name + gap + phone))) == [name, phone]
  {
    var x := name + gap + phone;
    assert x[0] == name[0] && x[|x| - 1] == phone[|phone| - 1];
    StripAfterRun(ws, x);
    SplitAfterWord(name, gap, phone);
    SplitWord(phone);
  }
}
