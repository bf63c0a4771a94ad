/**
  The reply strings of the bot and the `input_error` wrapper (bot.py:7-19),
  which turns the three exceptions a handler may raise into fixed messages.
 */
module Messages {
  import opened Wrappers
  import opened PyStr

  /** The exceptions `input_error` catches. */
  datatype Exception = IndexError | KeyError | ValueError

  /** What a wrapped handler did: return a value (`None` included) or raise. */
  datatype Outcome = Returned(value: Option<string>) | Raised(error: Exception)

  /** The argument names `add` and `change` declare. */
  const NAME_AND_PHONE: seq<string> := ["name", "phone"]
  /** The argument name `phone` declares. */
  const NAME: seq<string> := ["name"]

  const GREETING: string := "How can I help you?"

  const ENTER_PREFIX: string := "Please enter "
  const NOT_FOUND_PREFIX: string := "The record for contact "
  const NOT_FOUND_SUFFIX: string := " not found. Try another contact or use help."
  const FORMAT_PREFIX: string := "Phone format '"
  const FORMAT_SUFFIX: string := "' is incorrect. Use digits only for phone number."
  const ADDED_PREFIX: string := "New record for "
  const ADDED_MIDDLE: string := " with phone number "
  const ADDED_SUFFIX: string := " added."
  const CHANGED_PREFIX: string := "Phone number for "
  const CHANGED_MIDDLE: string := " changed to "
  const CHANGED_SUFFIX: string := "."
  const UNKNOWN_PREFIX: string := "Unknown command. Use help: \n"

  /** The text between a fixed prefix and suffix. */
  function Between(s: string, prefix: string, suffix: string): string
    requires |prefix| + |suffix| <= |s|
  {
    s[|prefix|..|s| - |suffix|]
  }

  /** The `IndexError` reply: the expected argument names, joined by " and ". */
  function PleaseEnter(expected: seq<string>): (m: string)
    ensures |expected| == 1 ==> m == ENTER_PREFIX + expected[0]
    ensures |expected| == 2 ==> m == ENTER_PREFIX + expected[0] + " and " + expected[1]
  {
    assert |expected| == 2 ==> Join(" and ", expected[1..]) == expected[1];
    ENTER_PREFIX + Join(" and ", expected)
  }

  /** The `KeyError` reply, which quotes the contact name exactly as given. */
  function ContactNotFound(name: string): (m: string)
    ensures |NOT_FOUND_PREFIX| + |NOT_FOUND_SUFFIX| <= |m|
    ensures Between(m, NOT_FOUND_PREFIX, NOT_FOUND_SUFFIX) == name
  {
    var m := NOT_FOUND_PREFIX + name + NOT_FOUND_SUFFIX;
    assert m[|NOT_FOUND_PREFIX|..|m| - |NOT_FOUND_SUFFIX|] == name;
    m
  }

  /** The `ValueError` reply, which quotes the phone argument exactly as given. */
  function PhoneFormatIncorrect(phone: string): (m: string)
    ensures |FORMAT_PREFIX| + |FORMAT_SUFFIX| <= |m|
    ensures Between(m, FORMAT_PREFIX, FORMAT_SUFFIX) == phone
  {
    var m := FORMAT_PREFIX + phone + FORMAT_SUFFIX;
    assert m[|FORMAT_PREFIX|..|m| - |FORMAT_SUFFIX|] == phone;
    m
  }

  /** The reply of `add` for a new contact: the name, then the phone, can be read back. */
  function RecordAdded(name: string, phone: string): (m: string)
    ensures |m| == |ADDED_PREFIX| + |name| + |ADDED_MIDDLE| + |phone| + |ADDED_SUFFIX|
    ensures m[|ADDED_PREFIX|..|ADDED_PREFIX| + |name|] == name
    ensures m[|m| - |ADDED_SUFFIX| - |phone|..|m| - |ADDED_SUFFIX|] == phone
  {
    var m := ADDED_PREFIX + name + ADDED_MIDDLE + phone + ADDED_SUFFIX;
    assert m[|ADDED_PREFIX|..|ADDED_PREFIX| + |name|] == name;
    assert m[|m| - |ADDED_SUFFIX| - |phone|..|m| - |ADDED_SUFFIX|] == phone;
    m
  }

  /** The reply of `change` for a known contact: the name, then the new phone, can be read back. */
  function PhoneChanged(name: string, phone: string): (m: string)
    ensures |m| == |CHANGED_PREFIX| + |name| + |CHANGED_MIDDLE| + |phone| + |CHANGED_SUFFIX|
    ensures m[|CHANGED_PREFIX|..|CHANGED_PREFIX| + |name|] == name
    ensures m[|m| - |CHANGED_SUFFIX| - |phone|..|m| - |CHANGED_SUFFIX|] == phone
  {
    var m := CHANGED_PREFIX + name + CHANGED_MIDDLE + phone + CHANGED_SUFFIX;
    assert m[|CHANGED_PREFIX|..|CHANGED_PREFIX| + |name|] == name;
    assert m[|m| - |CHANGED_SUFFIX| - |phone|..|m| - |CHANGED_SUFFIX|] == phone;
    m
  }

  /** The reply of `unknown_handler`: a fixed line, then the whole help text. */
  function UnknownCommand(help: string): (m: string)
    ensures |UNKNOWN_PREFIX| <= |m| && m[..|UNKNOWN_PREFIX|] == UNKNOWN_PREFIX
    ensures m[|UNKNOWN_PREFIX|..] == help
  {
    var m := UNKNOWN_PREFIX + help;
    assert m[..|UNKNOWN_PREFIX|] == UNKNOWN_PREFIX && m[|UNKNOWN_PREFIX|..] == help;
    m
  }

  /**
    `input_error(*expected)(func)(*args)` once `func(*args)` has produced `o`:
    a returned value passes through, each caught exception becomes its
    message. The messages quote the arguments as the caller passed them.
   */
  function InputError(expected: seq<string>, args: seq<string>, o: Outcome): (r: Option<string>)
    requires o == Raised(KeyError) ==> |args| >= 1
    requires o == Raised(ValueError) ==> |args| >= 2
    ensures o.Returned? ==> r == o.value
    ensures o.Raised? ==> r.Some?
  {
    match o
    case Returned(v) => v
    case Raised(IndexError) => Some(PleaseEnter(expected))
    case Raised(KeyError) => Some(ContactNotFound(args[0]))
    case Raised(ValueError) => Some(PhoneFormatIncorrect(args[1]))
  }

  /** The two error messages `add` and `change` can raise never read the same. */
  lemma ErrorMessagesDiffer(name: string, phone: string)
    ensures ContactNotFound(name) != PhoneFormatIncorrect(phone)
    ensures PleaseEnter(NAME_AND_PHONE) != PhoneFormatIncorrect(phone)
    ensures PleaseEnter(NAME_AND_PHONE) != ContactNotFound(name)
  {
    assert ContactNotFound(name)[0] == 'T';
    assert PhoneFormatIncorrect(phone)[0] == 'P';
    assert PhoneFormatIncorrect(phone)[1] == 'h';
    assert PleaseEnter(NAME_AND_PHONE)[1] == 'l';
    assert PleaseEnter(NAME_AND_PHONE)[0] == 'P';
  }

  lemma PleaseEnterTexts()
    ensures PleaseEnter(NAME_AND_PHONE) == "Please enter name and phone"
    ensures PleaseEnter(NAME) == "Please enter name"
  {
  }
}
