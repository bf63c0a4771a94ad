# Contact assistant bot — a Dafny model

`bot.py` is a small command-line assistant. It keeps a dictionary `records`
from contact names to phone numbers and reads one command per line. The
commands are `hello`, `help`, `add <name> <phone>`, `change <name> <phone>`,
`phone <name>` and `show all`. The words `good bye`, `close`, `exit` and
`stop` end the session. Handlers are wrapped in decorators:

- `capitalize_user_name` capitalises the name argument.
- `normalize_phone` trims the phone argument, deletes `+ ( ) -` from it, and
  calls the handler only when `int()` reads the result as a non-zero number.
- `input_error` turns `IndexError`, `KeyError` and `ValueError` into fixed
  messages.

This project models that program in Dafny and proves what its code
promises.

| file | module | models |
|---|---|---|
| `wrappers.dfy` | `Wrappers` | `Option`, standing for a value or Python's `None` |
| `pystr.dfy` | `PyStr` | the Python `str` operations the bot calls: `strip()`, `split()`, `join`, `replace(c, "")`, `startswith`, `lower()`, `capitalize()`, and `int()` on decimal strings. `IsSpace` is the whitespace set of `str.isspace`, which `strip()` and `split()` use; `IsIntSpace` is the smaller set `int()` skips around its digits. `SplitOn` (splitting at one character) is not called by the bot: it is the inverse through which the `show all` text is read back line by line |
| `phone.dfy` | `Phone` | `normalize_phone`: the trim, the `reduce` over `"+()-"`, and the three outcomes of `if int(phone):` |
| `messages.dfy` | `Messages` | the reply strings, and `input_error` as a map from a handler's outcome to its reply |
| `records.dfy` | `Records` | `records` as the class `ContactBook`, and the `add`, `change`, `phone` and `show all` handlers with their decorators applied in source order |
| `commands.dfy` | `Commands` | `COMMANDS`, `EXIT_COMMANDS` and `parser`, written as a loop proved equal to a first-match function |
| `session.dfy` | `Session` | one pass of `main`'s loop: lower-case the line, check for an exit word, parse it, dispatch it |

Some modelling choices:

- **Dictionary order.** `records` keeps insertion order, which `show all`
  prints. `ContactBook` therefore holds a `map` together with the sequence of
  its keys in insertion order.
- **Decorated handlers.** Each decorated handler is two methods:
  - The first (`TryAdd`, `TryChange`) runs `normalize_phone`,
    `capitalize_user_name` and the handler body. It returns an `Outcome`:
    either a returned value or a raised exception.
  - The second (`AddHandler`, `ChangeHandler`) applies `input_error` to that
    outcome.
- **The table invariant.** `ContactBook.Valid` says:
  - every key is listed once;
  - every name is in capitalised form;
  - every phone is "storable": it contains no separator, and `int()` reads it
    as a non-zero number.

  Every method that changes the table keeps `Valid`.
- **Lines typed at the prompt.** `ContactBook.Clean` strengthens `Valid` for
  tables that only ever received parsed lines: keys have no whitespace and
  phones are pure digit strings. `Session.Respond` keeps `Clean`.
- **Whitespace inside brackets.** `bot.py` trims the phone *before* deleting
  the separators. A phone argument such as `"(1 )"` therefore becomes `"1 "`,
  which `int()` accepts, and it is stored with its trailing blank
  (`Phone.ExposedBlankIsKept`). An exposed U+001C to U+001F is different:
  `strip()` would remove it, but `int()` does not skip it, so `"(1\x1c)"` is
  malformed (`Phone.BracketedSeparatorIsMalformed`). `parser` never produces
  such arguments, because its tokens have no whitespace. Only a direct call
  can.
- **The replies of a pass.** `Records.AddEffect`, `Records.ChangeEffect`,
  `Records.PhoneEffect` and `Session.DispatchEffect` state, case by case, what each
  handler replies and what table it leaves. The handler methods, `Dispatch` and
  `Respond` all promise these same predicates.

## Model

| member | source | states |
|---|---|---|
| PyStr.LeadingSpaces | bot.py:23 | the count of leading characters `strip()` removes: all of them are whitespace and the next one is not |
| PyStr.TrailingSpaces | bot.py:23 | the same for the trailing whitespace |
| PyStr.Strip | bot.py:23 | `strip()` returns the slice of its input between the leading and trailing whitespace; every character outside the slice is whitespace; the slice begins and ends with a non-whitespace character |
| PyStr.StripNoSpace | bot.py:23 | `strip()` leaves a string without whitespace unchanged |
| PyStr.StripIdempotent | bot.py:23 | trimming twice gives the same result as trimming once |
| PyStr.Remove | bot.py:24 | `replace(c, "")` never lengthens a string |
| PyStr.RemoveCounts | bot.py:24 | `replace(c, "")` drops every `c` and keeps every other character as often as it occurs |
| PyStr.WithoutAvoids | bot.py:24 | filtering out a character set leaves only characters of the input that are not in the set |
| PyStr.RemoveThenWithout | bot.py:24 | removing one character and then filtering out a set equals filtering out the set extended by that character |
| Phone.RemoveEach | bot.py:24 | the `reduce` that applies `replace(c, "")` for each separator in turn equals filtering all of them out at once |
| Phone.Normalize | bot.py:23-24 | the phone passed on is the trimmed argument with every `+ ( ) -` deleted; it has no separator; a whitespace-free argument yields a whitespace-free phone |
| Phone.WithoutKeeps | bot.py:24 | a string without separators passes the filter unchanged |
| PyStr.DigitsValueZero | bot.py:25 | a digit string has value zero exactly when all of its digits are `0` |
| PyStr.ParseInt | bot.py:25 | `int()` succeeds exactly when the trimmed string is a non-empty run of decimal digits, at most 4300 of them (the default `sys.get_int_max_str_digits()`), and the whitespace trimmed around it is all of the kind `int()` skips (ASCII `\t \n \v \f \r`, blank, and non-ASCII whitespace, but not U+001C to U+001F); it reads zero exactly when all those digits are `0` |
| PyStr.ParseIntPadded | bot.py:25 | digits padded on either side by whitespace `int()` skips are accepted and read as their decimal value |
| PyStr.ParseIntRefusesSeparator | bot.py:25 | digits followed by one of U+001C to U+001F, which `isspace` counts as whitespace, make `int()` fail |
| Phone.CheckPhone | bot.py:25-28 | an argument is malformed (a `ValueError`) exactly when `int()` does not read the normalised phone; an accepted argument hands the normalised phone on, and that phone is storable |
| Phone.CheckPhoneZero | bot.py:25 | the handler is skipped (`None`) exactly when `int()` reads the normalised phone and its digits are all zeros |
| Phone.WithoutAppend | bot.py:24 | deleting the separators works character by character, so it distributes over concatenation |
| Phone.BracketedSeparatorIsMalformed | bot.py:23-25 | digits and one of U+001C to U+001F inside brackets survive the trim, lose the brackets, and then make `int()` fail |
| Phone.SeparatorExample | bot.py:23-25 | `"(1\x1c)"` gives `ValueError` |
| Phone.TooManyDigitsIsMalformed | bot.py:25 | a digit-only phone argument longer than 4300 digits raises `ValueError` |
| Phone.StorableNonEmpty | bot.py:64 | a storable phone is non-empty, so the `if rec:` and `if phone:` tests on stored phones always succeed |
| Phone.TokenPhoneIsDigits | bot.py:23-25 | an accepted whitespace-free argument becomes a pure digit string |
| Phone.AcceptedExample | bot.py:23-28 | `"+(1)-2"` is accepted as `"12"` |
| Phone.ZeroExample | bot.py:25 | `"(0)"` reads as zero and skips the handler |
| Phone.MalformedExample | bot.py:25 | `"1a"` makes `int()` fail |
| Phone.ExposedBlankIsKept | bot.py:23-25 | `"(1 )"` is accepted and passed on as `"1 "`, blank included |
| PyStr.Lower | bot.py:104 | `lower()` keeps the length, leaves no upper-case letter, changes every character only in case, and keeps a whitespace-free string whitespace-free |
| PyStr.Capitalize | bot.py:34 | `capitalize()` keeps the length, produces the capitalised shape, changes every character only in case, and keeps a whitespace-free string whitespace-free |
| PyStr.CapitalizeFixedPoints | bot.py:34 | `capitalize()` leaves a string unchanged exactly when it is already capitalised |
| PyStr.CapitalizeIdempotent | bot.py:34 | capitalising twice gives the same result as capitalising once |
| Messages.PleaseEnter | bot.py:13 | the `IndexError` reply lists one expected argument name, or two joined by " and " |
| Messages.ContactNotFound | bot.py:15 | the `KeyError` reply quotes the name as typed, not capitalised: it is recovered between the fixed prefix and suffix |
| Messages.PhoneFormatIncorrect | bot.py:17 | the `ValueError` reply quotes the raw phone argument as typed |
| Messages.RecordAdded | bot.py:55 | the reply to a new contact holds the capitalised name after its opening words and the normalised phone before its closing words |
| Messages.PhoneChanged | bot.py:66 | the reply to a changed phone holds the capitalised name and the new normalised phone in the same places |
| Messages.UnknownCommand | bot.py:39 | the unknown-command reply is a fixed line followed by the whole help text |
| Messages.InputError | bot.py:9-17 | a returned value, `None` included, passes through unchanged; every caught exception becomes a message |
| Messages.ErrorMessagesDiffer | bot.py:13-17 | the three exception messages of `add` and `change` are pairwise distinct, for all arguments |
| Messages.PleaseEnterTexts | bot.py:13 | the missing-argument messages read "Please enter name and phone" and "Please enter name" |
| Records.AddKeepsEntries | bot.py:53-54 | `add` never alters or drops an entry, keeps the insertion order, and adds at most one key |
| Records.ChangeKeepsContacts | bot.py:63-65 | `change` never adds or removes a contact and changes no phone but that of the named contact |
| Records.ContactBook.constructor | bot.py:4 | `records` starts empty and satisfies both table invariants |
| Records.ContactBook.InsertIfAbsent | bot.py:50-55 | a new name gets one entry appended in insertion order together with the added message; a known name leaves the table unchanged and returns `None`; the invariants are kept |
| Records.ContactBook.Overwrite | bot.py:60-66 | an unknown name raises `KeyError` and changes nothing; a known name has only its phone replaced, keeps its position, and the changed message is returned; the invariants are kept |
| Records.ContactBook.Lookup | bot.py:75-79 | an unknown name raises `KeyError`; a known name returns its stored phone |
| Records.ContactBook.TryAdd | bot.py:47-55 | the decorated `add` before `input_error`: fewer than two arguments raise `IndexError`; a malformed phone raises `ValueError`; a zero phone returns `None`; otherwise the capitalised name and the normalised phone are inserted if the name is absent; the table changes in that last case only |
| Records.ContactBook.AddHandler | bot.py:47-55 | `add` end to end (`AddEffect`): the reply and the exact new table in each of the five cases; both invariants kept |
| Records.ContactBook.TryChange | bot.py:57-66 | the decorated `change` before `input_error`: the same argument and phone cases as `add`, and the phone is checked before the name; an unknown capitalised name raises `KeyError`; a known one has its phone replaced |
| Records.ContactBook.ChangeHandler | bot.py:57-66 | `change` end to end (`ChangeEffect`): the reply for each case, with the not-found message quoting the name as typed; the exact new table; both invariants kept |
| Records.ContactBook.PhoneHandler | bot.py:73-79 | `phone` (`PhoneEffect`): no argument gives "Please enter name"; an unknown name gives the not-found message; a known name gives the phone stored under its capitalised form; the table is not changed |
| Records.EntryLine | bot.py:83 | one listing line: `"name: "`, the key, `", phone: "`, the phone; the name and the phone can be read back at their positions |
| Records.EntryLines | bot.py:83 | one listing line per key, in insertion order, each formatted from that key and its phone |
| Records.EntryLineNoNewline | bot.py:83 | a listing line of a whitespace-free name and phone has no line break |
| PyStr.Join | bot.py:84 | `sep.join(parts)` starts with the first part, followed by the separator when more parts follow |
| Records.Listing | bot.py:83-84 | the `show all` text is empty exactly when the table is |
| Records.ContactBook.ShowAll | bot.py:81-84 | `show_all_handler` prints nothing exactly for an empty `records` |
| PyStr.SplitOnJoin | bot.py:84 | splitting `sep.join(parts)` at `sep` gives the parts back when no part contains `sep` |
| Records.ListingLines | bot.py:83-84 | the `show all` text of a whitespace-free table splits at its line breaks into exactly one line per entry, in insertion order |
| Records.EmptyListing | bot.py:84 | an empty table lists as the empty string |
| Records.ContactBook.ShowAllLines | bot.py:81-84 | `show all` on a table filled from typed lines prints one line per contact, and prints nothing for an empty table |
| PyStr.Split | bot.py:99 | `split()` yields only non-empty, whitespace-free tokens |
| PyStr.SplitKeepsCharacters | bot.py:99 | `split()` drops exactly the whitespace: its tokens laid end to end are the input's other characters, in order |
| PyStr.SplitAfterSpaces | bot.py:99 | any run of whitespace in front of a string leaves its split unchanged |
| PyStr.SplitAfterWord | bot.py:99 | a word followed by any non-empty run of whitespace splits off as one token, and splitting continues after the run |
| PyStr.SplitWord | bot.py:99 | a whitespace-free word is a single token |
| PyStr.SplitJoin | bot.py:99 | `split()` of words joined by single blanks gives those words back |
| PyStr.JoinEnds | bot.py:99 | words joined by blanks neither start nor end with whitespace |
| PyStr.StripBetweenRuns | bot.py:23 | trimming whitespace placed on both sides of an already trimmed string gives that string |
| PyStr.StripAfterRun | bot.py:99 | trimming any whitespace placed before an already trimmed string gives that string |
| PyStr.StartsWith | bot.py:98 | `startswith` holds exactly when the text is at least as long as the prefix and begins with it |
| Commands.IsExit | bot.py:94-105 | an exit word matches only exactly; no exit word starts with a command keyword, so checking for exit words first hides no command |
| Commands.FirstMatch | bot.py:97-98 | the first table position, in dict order, whose keyword starts the text; no earlier keyword starts it |
| Commands.FirstMatchIsFirst | bot.py:97-98 | a keyword that starts the text, with no earlier keyword doing so, is the one found |
| Commands.Parse | bot.py:96-100 | the handler is `unknown_handler` with no arguments exactly when no keyword starts the text; otherwise the first matching keyword picks the handler, and the text after it, trimmed and split, is the argument list |
| Commands.Parser | bot.py:96-100 | the `for` loop with its early return computes exactly `Parse` |
| Commands.KeywordsPrefixFree | bot.py:86-93 | no keyword in `COMMANDS` is a prefix of another |
| Commands.AtMostOneKeyword | bot.py:97-99 | at most one keyword starts any text, so the dict order never decides |
| Commands.ParseByKeyword | bot.py:97-99 | any keyword that starts the text selects its handler |
| Commands.WordsAfterBlank | bot.py:99 | a blank followed by blank-separated words trims and splits back to those words |
| Commands.ParseCommandLine | bot.py:96-100 | a keyword, a blank and blank-separated words parse back to that keyword's handler and exactly those words |
| Commands.NameAndPhoneArguments | bot.py:99 | any whitespace, a name, a non-empty run of whitespace and a phone trim and split to exactly the name and the phone |
| Commands.ParseNameAndPhone | bot.py:96-100 | a keyword followed by a name and a phone, separated by any runs of whitespace such as `"add  bob\t12"`, parses to that keyword's handler and exactly `[name, phone]` |
| Commands.KeywordWithoutBoundary | bot.py:98 | a keyword needs no word boundary: `"phones bob"` runs the `phone` handler |
| Session.OnlyAddAndChangeWrite | bot.py:110 | no handler other than `add` and `change` changes the table |
| Session.Dispatch | bot.py:110 | `func(*data)` (`DispatchEffect`): for each of the seven handlers, its exact reply and the table it leaves (unchanged except for `add` and `change`, as their effects state); both invariants kept |
| Session.Respond | bot.py:103-110 | one pass of the loop: farewell, printing "Good bye!", exactly when the lower-cased line is an exit word, and then the table is unchanged; otherwise the `DispatchEffect` of the parsed handler and arguments; both invariants kept |

## Left out

- The `while True` loop, `input()` and `print()` are not modelled. `Session.Respond` models one pass of the loop. Its line is a parameter, and its reply is the value `print` would show.
- `help.txt` is not read. Its contents are the parameter `helpText` of `Session.Dispatch` and `Session.Respond`. Reading it can fail, which is not modelled.
- The decorators are not modelled as higher-order functions. Each decorated handler is written as its fixed chain of steps, because the chain never changes at run time.
- `input_error([])` on `greeting_handler` and `show_all_handler` is not modelled. Neither handler can raise, so its message path is never reached. That path would itself raise a `TypeError` from `' and '.join([[]])`.
- The arguments that `func(*data)` passes to `help`, `hello`, `show all` and the unknown handler are not modelled, because these handlers ignore them.
- PyStr.ParseInt: models the decimal digit grammar of `int()` and its default limit of 4300 digits. Underscores between digits (`"1_2"`) and non-ASCII decimal digits are accepted by Python and rejected by the model. A changed limit (`sys.set_int_max_str_digits`) is not modelled. A sign never reaches `int()`, because `normalize_phone` has already deleted `+` and `-`.
- PyStr.Lower: changes case only for the ASCII letters, while Python's `lower()` covers all of Unicode.
- PyStr.Capitalize: changes case only for the ASCII letters, while Python's `capitalize()` covers all of Unicode.
- The global `records` is not modelled as a global. It is the `ContactBook` object passed to `Session.Respond`.
