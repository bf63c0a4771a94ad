/**
  The global `records` dict (bot.py:4) and the handlers that read and write
  it: `add` (bot.py:47-55), `change` (bot.py:57-66), `phone` (bot.py:73-79)
  and `show all` (bot.py:81-84). Each decorated handler is written as the
  fixed sequence of steps its decorators perform:
  `input_error` ∘ `normalize_phone` ∘ `capitalize_user_name` ∘ handler.
 */
module Records {
  import opened Wrappers
  import opened PyStr
  import opened Phone
  import opened Messages

  const ENTRY_PREFIX: string := "name: "
  const ENTRY_MIDDLE: string := ", phone: "

  /** One line of the `show all` listing: the name and then the phone can be read back. */
  function EntryLine(name: string, phone: string): (line: string)
    ensures |line| == |ENTRY_PREFIX| + |name| + |ENTRY_MIDDLE| + |phone|
    ensures line[..|ENTRY_PREFIX|] == ENTRY_PREFIX
    ensures line[|ENTRY_PREFIX|..|ENTRY_PREFIX| + |name|] == name
    ensures line[|line| - |phone|..] == phone
  {
    var line := ENTRY_PREFIX + name + ENTRY_MIDDLE + phone;
    assert line[|ENTRY_PREFIX|..|ENTRY_PREFIX| + |name|] == name;
    assert line[|line| - |phone|..] == phone;
    line
  }

  /** The listing lines of `names`, in that order. */
  function EntryLines(names: seq<string>, phones: map<string, string>): (lines: seq<string>)
    requires forall i :: 0 <= i < |names| ==> names[i] in phones
    ensures |lines| == |names|
    ensures forall i :: 0 <= i < |names| ==> lines[i] == EntryLine(names[i], phones[names[i]])
  {
    if names == [] then [] else [EntryLine(names[0], phones[names[0]])] + EntryLines(names[1..], phones)
  }

  /** `"\n".join(map(lambda item: ..., records.items()))`: empty exactly for an empty table. */
  function Listing(names: seq<string>, phones: map<string, string>): (r: string)
    requires forall i :: 0 <= i < |names| ==> names[i] in phones
    ensures r == "" <==> names == []
  {
    var lines := EntryLines(names, phones);
    assert names != [] ==> |lines[0]| > 0;
    Join("\n", lines)
  }

  lemma EntryLineNoNewline(name: string, phone: string)
    requires NoSpace(name) && NoSpace(phone)
    ensures '\n' !in EntryLine(name, phone)
  {
    var line := EntryLine(name, phone);
    assert line == "name: " + name + ", phone: " + phone;
    forall k | 0 <= k < |line| ensures line[k] != '\n' {
      if k < 6 {
      } else if k < 6 + |name| {
        assert line[k] == name[k - 6];
      } else if k < 6 + |name| + 9 {
      } else {
        assert line[k] == phone[k - 6 - |name| - 9];
      }
    }
  }

  /**
    When no name or phone holds whitespace, the listing splits at its line
    breaks into exactly one line per contact, in insertion order.
   */
  lemma ListingLines(names: seq<string>, phones: map<string, string>)
    requires names != []
    requires forall i :: 0 <= i < |names| ==> names[i] in phones
    requires forall i :: 0 <= i < |names| ==> NoSpace(names[i]) && NoSpace(phones[names[i]])
    ensures SplitOn(Listing(names, phones), '\n') == EntryLines(names, phones)
  {
    var lines := EntryLines(names, phones);
    forall i | 0 <= i < |lines| ensures '\n' !in lines[i] {
      EntryLineNoNewline(names[i], phones[names[i]]);
    }
    SplitOnJoin(lines, '\n');
  }

  /** An empty table lists as the empty string. */
  lemma EmptyListing(phones: map<string, string>)
    ensures Listing([], phones) == ""
  {
  }

  /**
    What decorated `add` replies and leaves in the table, given the table
    `names`/`phones` before the call and `names1`/`phones1` after it.
   */
  predicate AddEffect(args: seq<string>, names: seq<string>, phones: map<string, string>,
                      r: Option<string>, names1: seq<string>, phones1: map<string, string>)
  {
    if |args| < 2 then
      r == Some(PleaseEnter(NAME_AND_PHONE)) && names1 == names && phones1 == phones
    else match CheckPhone(args[1])
      case Malformed => r == Some(PhoneFormatIncorrect(args[1])) && names1 == names && phones1 == phones
      case Zero => r == None && names1 == names && phones1 == phones
      case Accepted(phone) =>
        var name := Capitalize(args[0]);
        if name in phones then
          r == None && names1 == names && phones1 == phones
        else
          r == Some(RecordAdded(name, phone)) && names1 == names + [name] && phones1 == phones[name := phone]
  }

  /** What decorated `change` replies and leaves in the table. */
  predicate ChangeEffect(args: seq<string>, names: seq<string>, phones: map<string, string>,
                         r: Option<string>, names1: seq<string>, phones1: map<string, string>)
  {
    if |args| < 2 then
      r == Some(PleaseEnter(NAME_AND_PHONE)) && names1 == names && phones1 == phones
    else match CheckPhone(args[1])
      case Malformed => r == Some(PhoneFormatIncorrect(args[1])) && names1 == names && phones1 == phones
      case Zero => r == None && names1 == names && phones1 == phones
      case Accepted(phone) =>
        var name := Capitalize(args[0]);
        if name in phones then
          r == Some(PhoneChanged(name, phone)) && names1 == names && phones1 == phones[name := phone]
        else
          r == Some(ContactNotFound(args[0])) && names1 == names && phones1 == phones
  }

  /** What decorated `phone` replies; it never changes the table. */
  predicate PhoneEffect(args: seq<string>, phones: map<string, string>, r: Option<string>) {
    if |args| == 0 then r == Some(PleaseEnter(NAME))
    else if Capitalize(args[0]) in phones then r == Some(phones[Capitalize(args[0])])
    else r == Some(ContactNotFound(args[0]))
  }

  /** `add` never alters or drops an existing entry, and keeps the insertion order. */
  lemma AddKeepsEntries(args: seq<string>, names: seq<string>, phones: map<string, string>,
                        r: Option<string>, names1: seq<string>, phones1: map<string, string>)
    requires AddEffect(args, names, phones, r, names1, phones1)
    ensures names <= names1 && |names1| <= |names| + 1
    ensures forall n :: n in phones ==> n in phones1 && phones1[n] == phones[n]
  {
    if |args| >= 2 {
      match CheckPhone(args[1])
      case Malformed =>
      case Zero =>
      case Accepted(phone) =>
    }
  }

  /** `change` never adds or removes a contact, and changes at most one phone. */
  lemma ChangeKeepsContacts(args: seq<string>, names: seq<string>, phones: map<string, string>,
                            r: Option<string>, names1: seq<string>, phones1: map<string, string>)
    requires ChangeEffect(args, names, phones, r, names1, phones1)
    ensures names1 == names && phones1.Keys == phones.Keys
    ensures |args| >= 2 ==> forall n :: n in phones && n != Capitalize(args[0]) ==> phones1[n] == phones[n]
  {
    if |args| >= 2 {
      match CheckPhone(args[1])
      case Malformed =>
      case Zero =>
      case Accepted(phone) =>
    }
  }

  /** The contact table: `records`, with its insertion order kept explicitly. */
  class ContactBook {
    /** The keys of `records`, in the order they were first inserted. */
    var names: seq<string>
    /** `records`: capitalised name to normalised phone. */
    var phones: map<string, string>

    /**
      The keys are listed once each, and every stored entry went through the
      handlers: its name is capitalised and its phone passed `normalize_phone`.
     */
    ghost predicate Valid()
      reads this
    {
      && (forall i, j :: 0 <= i < j < |names| ==> names[i] != names[j])
      && (forall n :: n in names <==> n in phones)
      && (forall n {:trigger phones[n]} :: n in phones ==> IsCapitalized(n) && Storable(phones[n]))
    }

    /** Entries that came through the command parser: whitespace-free names, all-digit phones. */
    ghost predicate Clean()
      reads this
    {
      forall n {:trigger phones[n]} :: n in phones ==> NoSpace(n) && IsDecimal(phones[n])
    }

    /** `records = {}`. */
    constructor ()
      ensures Valid() && Clean()
      ensures names == [] && phones == map[]
    {
      names := [];
      phones := map[];
    }

    /** The body of `add_handler`: insert only when the name is absent. */
    method InsertIfAbsent(name: string, phone: string) returns (o: Outcome)
      requires Valid()
      requires IsCapitalized(name) && Storable(phone)
      modifies this
      ensures Valid()
      ensures old(Clean()) && NoSpace(name) && IsDecimal(phone) ==> Clean()
      ensures name !in old(phones) ==>
        o == Returned(Some(RecordAdded(name, phone)))
        && names == old(names) + [name] && phones == old(phones)[name := phone]
      ensures name in old(phones) ==>
        o == Returned(None) && names == old(names) && phones == old(phones)
    {
      if name !in phones {
        phones := phones[name := phone];
        names := names + [name];
        o := Returned(Some(RecordAdded(name, phone)));
      } else {
        o := Returned(None);
      }
    }

    /** The body of `change_handler`: `records[name]` raises `KeyError` for an unknown name. */
    method Overwrite(name: string, phone: string) returns (o: Outcome)
      requires Valid()
      requires Storable(phone)
      modifies this
      ensures Valid()
      ensures old(Clean()) && IsDecimal(phone) ==> Clean()
      ensures name !in old(phones) ==>
        o == Raised(KeyError) && names == old(names) && phones == old(phones)
      ensures name in old(phones) ==>
        o == Returned(Some(PhoneChanged(name, phone)))
        && names == old(names) && phones == old(phones)[name := phone]
    {
      if name !in phones {
        o := Raised(KeyError);
        return;
      }
      var rec := phones[name];
      StorableNonEmpty(rec);
      if rec != [] {
        phones := phones[name := phone];
        o := Returned(Some(PhoneChanged(name, phone)));
      } else {
        o := Returned(None);
      }
    }

    /** The body of `phone_handler`. */
    method Lookup(name: string) returns (o: Outcome)
      requires Valid()
      ensures name !in phones ==> o == Raised(KeyError)
      ensures name in phones ==> o == Returned(Some(phones[name]))
    {
      if name !in phones {
        return Raised(KeyError);
      }
      var phone := phones[name];
      StorableNonEmpty(phone);
      if phone != [] {
        o := Returned(Some(phone));
      } else {
        o := Returned(None);
      }
    }

    /** `normalize_phone(capitalize_user_name(add_handler))`; exceptions are not yet caught. */
    method TryAdd(args: seq<string>) returns (o: Outcome)
      requires Valid()
      modifies this
      ensures Valid()
      ensures old(Clean()) && Words(args) ==> Clean()
      ensures |args| < 2 ==> o == Raised(IndexError) && names == old(names) && phones == old(phones)
      ensures |args| >= 2 && CheckPhone(args[1]).Malformed? ==>
        o == Raised(ValueError) && names == old(names) && phones == old(phones)
      ensures |args| >= 2 && CheckPhone(args[1]).Zero? ==>
        o == Returned(None) && names == old(names) && phones == old(phones)
      ensures |args| >= 2 && CheckPhone(args[1]).Accepted? && Capitalize(args[0]) in old(phones) ==>
        o == Returned(None) && names == old(names) && phones == old(phones)
      ensures |args| >= 2 && CheckPhone(args[1]).Accepted? && Capitalize(args[0]) !in old(phones) ==>
        var name, phone := Capitalize(args[0]), CheckPhone(args[1]).phone;
        o == Returned(Some(RecordAdded(name, phone)))
        && names == old(names) + [name] && phones == old(phones)[name := phone]
    {
      if |args| < 2 {
        // normalize_phone reads args[1]
        o := Raised(IndexError);
      } else {
        match CheckPhone(args[1])
        case Malformed =>
          o := Raised(ValueError);
        case Zero =>
          o := Returned(None);
        case Accepted(phone) =>
          // capitalize_user_name, then add_handler
          if Words(args) { TokenPhoneIsDigits(args[1]); }
          o := InsertIfAbsent(Capitalize(args[0]), phone);
      }
    }

    /** `add`: arguments name and phone; a new name gets one new entry, a known name changes nothing. */
    method AddHandler(args: seq<string>) returns (r: Option<string>)
      requires Valid()
      modifies this
      ensures Valid()
      ensures old(Clean()) && Words(args) ==> Clean()
      ensures AddEffect(args, old(names), old(phones), r, names, phones)
    {
      var o := TryAdd(args);
      r := InputError(NAME_AND_PHONE, args, o);
    }

    /**
      `normalize_phone(capitalize_user_name(change_handler))`: the phone is
      checked before the name is looked up; exceptions are not yet caught.
     */
    method TryChange(args: seq<string>) returns (o: Outcome)
      requires Valid()
      modifies this
      ensures Valid()
      ensures old(Clean()) && Words(args) ==> Clean()
      ensures |args| < 2 ==> o == Raised(IndexError) && names == old(names) && phones == old(phones)
      ensures |args| >= 2 && CheckPhone(args[1]).Malformed? ==>
        o == Raised(ValueError) && names == old(names) && phones == old(phones)
      ensures |args| >= 2 && CheckPhone(args[1]).Zero? ==>
        o == Returned(None) && names == old(names) && phones == old(phones)
      ensures |args| >= 2 && CheckPhone(args[1]).Accepted? && Capitalize(args[0]) !in old(phones) ==>
        o == Raised(KeyError) && names == old(names) && phones == old(phones)
      ensures |args| >= 2 && CheckPhone(args[1]).Accepted? && Capitalize(args[0]) in old(phones) ==>
        var name, phone := Capitalize(args[0]), CheckPhone(args[1]).phone;
        o == Returned(Some(PhoneChanged(name, phone)))
        && names == old(names) && phones == old(phones)[name := phone]
    {
      if |args| < 2 {
        o := Raised(IndexError);
      } else {
        match CheckPhone(args[1])
        case Malformed =>
          o := Raised(ValueError);
        case Zero =>
          o := Returned(None);
        case Accepted(phone) =>
          if Words(args) { TokenPhoneIsDigits(args[1]); }
          o := Overwrite(Capitalize(args[0]), phone);
      }
    }

    /** `change`: arguments name and phone; only a known name's entry changes. */
    method ChangeHandler(args: seq<string>) returns (r: Option<string>)
      requires Valid()
      modifies this
      ensures Valid()
      ensures old(Clean()) && Words(args) ==> Clean()
      ensures ChangeEffect(args, old(names), old(phones), r, names, phones)
    {
      var o := TryChange(args);
      r := InputError(NAME_AND_PHONE, args, o);
    }

    /** `phone`: argument name; the stored phone of a known name. */
    method PhoneHandler(args: seq<string>) returns (r: Option<string>)
      requires Valid()
      ensures PhoneEffect(args, phones, r)
    {
      var o: Outcome;
      if |args| == 0 {
        // capitalize_user_name reads args[0]
        o := Raised(IndexError);
      } else {
        o := Lookup(Capitalize(args[0]));
      }
      r := InputError(NAME, args, o);
    }

    /** `show all`: one line per entry, in insertion order; nothing at all for an empty table. */
    function ShowAll(): (r: string)
      reads this
      requires Valid()
      ensures r == "" <==> phones == map[]
    {
      assert names != [] ==> names[0] in phones;
      Listing(names, phones)
    }

    /** A table built through the parser lists one line per entry: see `ListingLines`. */
    lemma ShowAllLines()
      requires Valid() && Clean()
      ensures names == [] ==> ShowAll() == ""
      ensures names != [] ==> SplitOn(ShowAll(), '\n') == EntryLines(names, phones)
    {
      if names != [] {
        ListingLines(names, phones);
      }
    }
  }
}
