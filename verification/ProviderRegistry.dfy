// The registered providers, and the priority list that selects some of them in order.

module ProviderRegistry {
  import opened SmsMessage
  import opened Text

  /** A provider strategy; `strategy` stands for the rest of the object. */
  datatype Provider = Provider(providerName: string, strategy: nat)

  // ---------------------------------------------------------------- the priority list

  function Split(s: string): (parts: seq<string>)
    ensures parts != []
  {
    if s == [] then [[]]
    else
      var rest := Split(s[1..]);
      if s[0] == ',' then [[]] + rest else [[s[0]] + rest[0]] + rest[1..]
  }

  function TrimmedNames(parts: seq<string>): seq<string> {
    if parts == [] then []
    else (if Trim(parts[0]) != [] then [Trim(parts[0])] else []) + TrimmedNames(parts[1..])
  }

  function PriorityNames(rawValue: string): seq<string> {
    TrimmedNames(Split(rawValue))
  }

  /** The first name that no provider is registered under. */
  function FirstUnknown(names: seq<string>, providers: map<string, Provider>): Option<string> {
    if names == [] then None
    else if names[0] !in providers then Some(names[0])
    else FirstUnknown(names[1..], providers)
  }

  datatype Priority = Names(names: seq<string>) | PriorityEmpty | UnknownProvider(providerName: string)

  function ConfiguredProviderNames(rawValue: string, providers: map<string, Provider>): (priority: Priority)
    ensures priority.Names? ==> priority.names == PriorityNames(rawValue) && priority.names != []
  {
    var names := PriorityNames(rawValue);
    if names == [] then PriorityEmpty
    else match FirstUnknown(names, providers)
      case Some(name) => UnknownProvider(name)
      case None => Names(names)
  }

  lemma {:induction false} FirstUnknownIsFirst(names: seq<string>, providers: map<string, Provider>)
    ensures match FirstUnknown(names, providers)
      case None => forall i | 0 <= i < |names| :: names[i] in providers
      case Some(name) =>
        exists i | 0 <= i < |names| :: names[i] == name && name !in providers
                                       && forall j | 0 <= j < i :: names[j] in providers
  {
    if names != [] && names[0] in providers {
      FirstUnknownIsFirst(names[1..], providers);
      if FirstUnknown(names, providers).Some? {
        var i :| 0 <= i < |names[1..]| && names[1..][i] == FirstUnknown(names, providers).value
                 && forall j | 0 <= j < i :: names[1..][j] in providers;
        assert names[i + 1] == names[1..][i];
        assert forall j | 0 <= j < i + 1 :: j > 0 ==> names[j] == names[1..][j - 1];
      }
    }
  }

  function Resolved(names: seq<string>, providers: map<string, Provider>): (resolved: seq<Provider>)
    requires forall i | 0 <= i < |names| :: names[i] in providers
    ensures |resolved| == |names| && forall i | 0 <= i < |names| :: resolved[i] == providers[names[i]]
  {
    if names == [] then [] else [providers[names[0]]] + Resolved(names[1..], providers)
  }

  // ---------------------------------------------------------------- writing a priority list

  /** One comma-separated part: white space, or a name with white space around it. */
  datatype Part = Gap(blank: string) | Named(left: string, name: string, right: string)

  ghost predicate ValidPart(part: Part) {
    match part
    case Gap(blank) => Blank(blank)
    case Named(left, name, right) => Blank(left) && Blank(right) && Trimmed(name) && ',' !in name
  }

  function PartText(part: Part): string {
    match part
    case Gap(blank) => blank
    case Named(left, name, right) => left + name + right
  }

  function Written(parts: seq<Part>): string
    requires parts != []
  {
    if |parts| == 1 then PartText(parts[0]) else PartText(parts[0]) + "," + Written(parts[1..])
  }

  function NamesOf(parts: seq<Part>): seq<string> {
    if parts == [] then []
    else (if parts[0].Named? then [parts[0].name] else []) + NamesOf(parts[1..])
  }

  lemma {:induction false} SplitText(text: string, rest: string)
    requires ',' !in text
    ensures Split(text + "," + rest) == [text] + Split(rest)
    ensures Split(text) == [text]
  {
    if text == [] {
      assert text + "," + rest == "," + rest;
      assert ("," + rest)[1..] == rest;
    } else {
      SplitText(text[1..], rest);
      assert (text + "," + rest)[1..] == text[1..] + "," + rest;
      assert [text[0]] + text[1..] == text;
    }
  }

  lemma BlankHasNoComma(s: string)
    requires Blank(s)
    ensures ',' !in s
  {
    forall i | 0 <= i < |s| ensures s[i] != ',' { assert IsSpace(s[i]); }
  }

  lemma PartHasNoComma(part: Part)
    requires ValidPart(part)
    ensures ',' !in PartText(part)
    ensures Trim(PartText(part)) == if part.Named? then part.name else []
  {
    match part
    case Gap(blank) =>
      BlankHasNoComma(blank);
      TrimBlank(blank);
    case Named(left, name, right) =>
      BlankHasNoComma(left);
      BlankHasNoComma(right);
      TrimPadding(left, name, right);
  }

  /**
   * Writing names with commas, any white space around them and any empty parts between them, and
   * reading the list back, gives the same names in the same order, repetitions included.
   */
  lemma {:induction false} PriorityRoundTrip(parts: seq<Part>)
    requires parts != [] && forall i | 0 <= i < |parts| :: ValidPart(parts[i])
    ensures PriorityNames(Written(parts)) == NamesOf(parts)
  {
    var text := PartText(parts[0]);
    PartHasNoComma(parts[0]);
    if |parts| == 1 {
      SplitText(text, []);
      assert parts[1..] == [] && Written(parts) == text;
      assert TrimmedNames([text]) == if Trim(text) != [] then [Trim(text)] else [];
    } else {
      var rest := Written(parts[1..]);
      PriorityRoundTrip(parts[1..]);
      SplitText(text, rest);
      assert Split(Written(parts)) == [text] + Split(rest);
      assert ([text] + Split(rest))[1..] == Split(rest);
    }
  }

  /** The list resolves to exactly the names written, unless it has none or one is not registered. */
  lemma ConfiguredNamesOfWritten(parts: seq<Part>, providers: map<string, Provider>)
    requires parts != [] && forall i | 0 <= i < |parts| :: ValidPart(parts[i])
    ensures var priority := ConfiguredProviderNames(Written(parts), providers);
      var names := NamesOf(parts);
      && (priority == Names(names) <==> names != [] && forall i | 0 <= i < |names| :: names[i] in providers)
      && (priority.PriorityEmpty? <==> names == [])
      && (priority.UnknownProvider? ==> priority.providerName in names && priority.providerName !in providers)
  {
    PriorityRoundTrip(parts);
    FirstUnknownIsFirst(NamesOf(parts), providers);
  }

  // ---------------------------------------------------------------- the service

  ghost predicate NamesDistinct(list: seq<Provider>) {
    forall i, j | 0 <= i < j < |list| :: list[i].providerName != list[j].providerName
  }

  class ProviderRegistryService {
    var providers: map<string, Provider>
    var orderedProviders: seq<Provider>

    constructor ()
      ensures providers == map[] && orderedProviders == []
    {
      providers, orderedProviders := map[], [];
    }

    /** The constructor's loop; `duplicate` is the name its exception carries. */
    method Register(list: seq<Provider>) returns (duplicate: Option<string>)
      requires providers == map[]
      modifies this
      ensures orderedProviders == old(orderedProviders)
      ensures duplicate.None? <==> NamesDistinct(list)
      ensures duplicate.None? ==>
        && (forall i | 0 <= i < |list| :: list[i].providerName in providers && providers[list[i].providerName] == list[i])
        && (forall name | name in providers :: exists i | 0 <= i < |list| :: list[i].providerName == name)
      ensures duplicate.Some? ==>
        exists i, j | 0 <= i < j < |list| ::
          list[i].providerName == list[j].providerName == duplicate.value && NamesDistinct(list[..j])
    {
      for k := 0 to |list|
        invariant orderedProviders == old(orderedProviders)
        invariant NamesDistinct(list[..k])
        invariant forall i | 0 <= i < k :: list[i].providerName in providers && providers[list[i].providerName] == list[i]
        invariant forall name | name in providers :: exists i | 0 <= i < k :: list[i].providerName == name
      {
        if list[k].providerName in providers {
          ghost var i :| 0 <= i < k && list[i].providerName == list[k].providerName;
          return Some(list[k].providerName);
        }
        assert list[..k + 1] == list[..k] + [list[k]];
        providers := providers[list[k].providerName := list[k]];
      }
      assert list[..|list|] == list;
      return None;
    }

    /** Resolves the priority list; on an error the service does not start and keeps no order. */
    method OnModuleInit(rawValue: string) returns (priority: Priority)
      modifies this`orderedProviders
      ensures priority == ConfiguredProviderNames(rawValue, providers)
      ensures priority.Names? ==>
        && |orderedProviders| == |priority.names|
        && forall i | 0 <= i < |priority.names| ::
             priority.names[i] in providers && orderedProviders[i] == providers[priority.names[i]]
      ensures !priority.Names? ==> orderedProviders == old(orderedProviders)
    {
      priority := ConfiguredProviderNames(rawValue, providers);
      if priority.Names? {
        FirstUnknownIsFirst(priority.names, providers);
        orderedProviders := Resolved(priority.names, providers);
      }
    }
  }
}
