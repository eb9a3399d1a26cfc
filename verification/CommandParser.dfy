/**
 The parser that deriving `BotCommands` generates for an enum: the command word and its bot name, the
 dispatch over the variants, and the argument parsers. A field type is known by the texts its `from_str`
 accepts, and a parsed field by the text it was made from.
 */
module CommandParser {
  import opened Basics
  import opened CommandText

  type FromStr = string -> bool

  datatype ParseError =
    | TooFewArguments(expected: nat, found: nat)
    | TooManyArguments(expected: nat, found: nat)
    | IncorrectFormat(text: string)
    | UnknownCommand(command: string)
    | WrongBotName(name: string)
    | Custom(reason: string)

  type Arguments = Result<seq<string>, ParseError>

  /** The default parser exists for exactly one field. */
  datatype Parser =
    | DefaultParser(field: FromStr)
    | SplitParser(separator: string, fields: seq<FromStr>)
    | CustomParser(run: string -> Arguments)

  datatype Shape = Unit | Fields(parser: Parser)

  datatype Variant = Variant(prefix: string, name: string, aliases: seq<string>, shape: Shape)

  function Spelling(v: Variant): string {
    v.prefix + v.name
  }

  predicate HasAlias(v: Variant, command: string) {
    exists k :: 0 <= k < |v.aliases| && v.prefix + v.aliases[k] == command
  }

  // --- the split parser ---

  /** The first field that refuses its piece, or where the fields or the pieces run out. */
  function Accepted(fields: seq<FromStr>, pieces: seq<string>): (n: nat)
    ensures n <= |fields| && n <= |pieces|
    ensures forall k :: 0 <= k < n ==> fields[k](pieces[k])
    ensures n < |fields| && n < |pieces| ==> !fields[n](pieces[n])
  {
    if fields == [] || pieces == [] || !fields[0](pieces[0]) then 0 else 1 + Accepted(fields[1..], pieces[1..])
  }

  function SplitArguments(fields: seq<FromStr>, separator: string, s: string): Arguments {
    var pieces := Split(s, separator);
    var n := Accepted(fields, pieces);
    if n < |fields| && n < |pieces| then Err(IncorrectFormat(pieces[n]))
    else if |pieces| < |fields| then Err(TooFewArguments(|fields|, |pieces|))
    else if |pieces| > |fields| && s != "" then Err(TooManyArguments(|fields|, |pieces|))
    else Ok(pieces[..|fields|])
  }

  /** The generated code: one `next` per field, then a look for what is left. */
  method RunSplitParser(fields: seq<FromStr>, separator: string, s: string) returns (r: Arguments)
    ensures r == SplitArguments(fields, separator, s)
  {
    var splitted := Split(s, separator);
    ghost var pieces := splitted;
    var res := [];
    var found := 0;
    while found < |fields|
      invariant found <= |fields| && found <= |pieces|
      invariant splitted == pieces[found..] && res == pieces[..found]
      invariant found <= Accepted(fields, pieces)
    {
      if splitted == [] {
        return Err(TooFewArguments(|fields|, found));
      }
      var d := splitted[0];
      splitted := splitted[1..];
      if !fields[found](d) {
        return Err(IncorrectFormat(d));
      }
      res := res + [d];
      found := found + 1;
    }
    if splitted != [] && s != "" {
      return Err(TooManyArguments(|fields|, |fields| + 1 + |splitted[1..]|));
    }
    r := Ok(res);
  }

  ghost predicate AllAccepted(fields: seq<FromStr>, pieces: seq<string>) {
    forall k :: 0 <= k < |fields| && k < |pieces| ==> fields[k](pieces[k])
  }

  /** Each outcome of the split parser, told from the pieces alone. */
  lemma SplitOutcome(fields: seq<FromStr>, separator: string, s: string)
    ensures
      var pieces, r := Split(s, separator), SplitArguments(fields, separator, s);
      && (r.Ok? <==> |pieces| >= |fields| && AllAccepted(fields, pieces) && (|pieces| == |fields| || s == ""))
      && (r.Ok? ==> r.value == pieces[..|fields|])
      && (forall n, m :: r == Err(TooFewArguments(n, m)) <==>
           n == |fields| && m == |pieces| && m < n && AllAccepted(fields, pieces))
      && (forall n, m :: r == Err(TooManyArguments(n, m)) <==>
           n == |fields| && m == |pieces| && m > n && AllAccepted(fields, pieces) && s != "")
      && (r.Err? && r.error.IncorrectFormat? <==> !AllAccepted(fields, pieces))
      && (forall text :: r == Err(IncorrectFormat(text)) ==>
           exists k :: 0 <= k < |fields| && k < |pieces| && pieces[k] == text && !fields[k](text)
                       && forall i :: 0 <= i < k ==> fields[i](pieces[i]))
  {
    var pieces := Split(s, separator);
    assert forall k :: 0 <= k < Accepted(fields, pieces) ==> fields[k](pieces[k]);
  }

  lemma {:induction false} EmptyPieces(separator: string)
    ensures Split("", separator) == if separator == "" then ["", ""] else [""]
  {
  }

  /**
   "Exactly one piece per field, each accepted" is what success means, except for one family: the empty
   text, when there are fewer fields than it has pieces (none at all, or one with an empty separator).
   */
  lemma SplitSucceedsIffExact(fields: seq<FromStr>, separator: string, s: string)
    ensures
      var pieces := Split(s, separator);
      (SplitArguments(fields, separator, s).Ok? <==> |pieces| == |fields| && AllAccepted(fields, pieces))
      <==> !(s == "" && (fields == [] || (separator == "" && |fields| == 1 && fields[0](""))))
  {
    SplitOutcome(fields, separator, s);
    EmptyPieces(separator);
  }

  /** The empty text has one piece, and no field is needed to take it. */
  lemma EmptyTextIsNoExcess()
    ensures |Split("", " ")| == 1 && SplitArguments([], " ", "") == Ok([])
  {
    EmptyPieces(" ");
    SplitOutcome([], " ", "");
  }

  // --- the argument parsers ---

  function ParseArguments(shape: Shape, text: string): Arguments {
    match shape
    case Unit => Ok([])
    case Fields(DefaultParser(field)) => if field(text) then Ok([text]) else Err(IncorrectFormat(text))
    case Fields(SplitParser(separator, fields)) => SplitArguments(fields, separator, text)
    case Fields(CustomParser(run)) => run(text)
  }

  /**
   Joined fields come back through the split parser exactly when the separator is first seen where each
   field ends and every field is accepted.
   */
  lemma SplitParserRoundTrip(fields: seq<FromStr>, separator: string, values: seq<string>)
    requires separator != "" && values != [] && |values| == |fields|
    ensures SplitArguments(fields, separator, Join(values, separator)) == Ok(values)
      <==> Separable(values, separator) && AllAccepted(fields, values)
  {
    var s := Join(values, separator);
    SplitAfterJoin(values, separator);
    SplitOutcome(fields, separator, s);
    EmptyPieces(separator);
    assert values[..|fields|] == values;
    var pieces := Split(s, separator);
    if |pieces| == |fields| {
      assert pieces[..|fields|] == pieces;
    }
  }

  // --- dispatch ---

  function FirstNamed(variants: seq<Variant>, command: string): (r: Option<nat>)
    ensures r.None? <==> forall k :: 0 <= k < |variants| ==> Spelling(variants[k]) != command
    ensures r.Some? ==> r.value < |variants| && Spelling(variants[r.value]) == command
    ensures r.Some? ==> forall k :: 0 <= k < r.value ==> Spelling(variants[k]) != command
  {
    if variants == [] then None
    else if Spelling(variants[0]) == command then Some(0)
    else
      match FirstNamed(variants[1..], command)
      case None => assert forall k :: 0 < k < |variants| ==> variants[k] == variants[1..][k - 1]; None
      case Some(k) => assert forall i :: 0 < i < k + 1 ==> variants[i] == variants[1..][i - 1]; Some(k + 1)
  }

  function FirstAliased(variants: seq<Variant>, command: string): (r: Option<nat>)
    ensures r.None? <==> forall k :: 0 <= k < |variants| ==> !HasAlias(variants[k], command)
    ensures r.Some? ==> r.value < |variants| && HasAlias(variants[r.value], command)
    ensures r.Some? ==> forall k :: 0 <= k < r.value ==> !HasAlias(variants[k], command)
  {
    if variants == [] then None
    else if HasAlias(variants[0], command) then Some(0)
    else
      match FirstAliased(variants[1..], command)
      case None => assert forall k :: 0 < k < |variants| ==> variants[k] == variants[1..][k - 1]; None
      case Some(k) => assert forall i :: 0 < i < k + 1 ==> variants[i] == variants[1..][i - 1]; Some(k + 1)
  }

  /** The match arms: all names first, then all aliases. */
  function Choose(variants: seq<Variant>, command: string): (r: Option<nat>)
    ensures r.Some? ==> r.value < |variants|
  {
    var named := FirstNamed(variants, command);
    if named.Some? then named else FirstAliased(variants, command)
  }

  /** The variant that a command selects: the first of that name, or, if there is none, the first with that alias. */
  ghost predicate Selects(variants: seq<Variant>, command: string, v: nat) {
    && v < |variants|
    && (|| (&& variants[v].prefix + variants[v].name == command
            && forall k :: 0 <= k < v ==> variants[k].prefix + variants[k].name != command)
        || (&& (exists a :: 0 <= a < |variants[v].aliases| && variants[v].prefix + variants[v].aliases[a] == command)
            && (forall k :: 0 <= k < |variants| ==> variants[k].prefix + variants[k].name != command)
            && forall k, a :: 0 <= k < v && 0 <= a < |variants[k].aliases| ==>
                 variants[k].prefix + variants[k].aliases[a] != command))
  }

  lemma DispatchOrder(variants: seq<Variant>, command: string, v: nat)
    ensures Choose(variants, command) == Some(v) <==> Selects(variants, command, v)
  {
    var named, aliased := FirstNamed(variants, command), FirstAliased(variants, command);
    if named.Some? {
      assert Spelling(variants[named.value]) == command;
    } else if aliased.Some? {
      assert HasAlias(variants[aliased.value], command);
    }
  }

  /** Nothing is selected only if no name and no alias fits. */
  lemma NoneSelected(variants: seq<Variant>, command: string)
    ensures Choose(variants, command) == None <==>
      && (forall k :: 0 <= k < |variants| ==> variants[k].prefix + variants[k].name != command)
      && (forall k, a :: 0 <= k < |variants| && 0 <= a < |variants[k].aliases| ==>
            variants[k].prefix + variants[k].aliases[a] != command)
  {
    var named, aliased := FirstNamed(variants, command), FirstAliased(variants, command);
    if named.Some? {
      assert Spelling(variants[named.value]) == command;
    } else if aliased.Some? {
      assert HasAlias(variants[aliased.value], command);
    }
  }

  // --- the generated `parse` ---

  datatype Command = Command(variant: nat, arguments: seq<string>)

  function Run(variants: seq<Variant>, command: string, text: string): Result<Command, ParseError> {
    match Choose(variants, command)
    case None => Err(UnknownCommand(command))
    case Some(v) =>
      match ParseArguments(variants[v].shape, text)
      case Ok(arguments) => Ok(Command(v, arguments))
      case Err(error) => Err(error)
  }

  function Parse(variants: seq<Variant>, commandSeparator: string, text: string, bot: string)
    : Result<Command, ParseError>
  {
    var (head, rest) := SplitOnce(text, commandSeparator);
    var words := Split(head, "@");
    if |words| > 1 && !EqIgnoreAsciiCase(words[1], bot) then Err(WrongBotName(words[1]))
    else Run(variants, words[0], if rest.Some? then rest.value else "")
  }

  /** A command word: the name as spelled, and the bot it is meant for, if any. */
  function Head(command: string, at: Option<string>): string {
    if at.Some? then command + "@" + at.value else command
  }

  predicate PlainHead(command: string, at: Option<string>) {
    '@' !in command && (at.Some? ==> '@' !in at.value)
  }

  lemma HeadWords(command: string, at: Option<string>)
    requires PlainHead(command, at)
    ensures Split(Head(command, at), "@") == if at.Some? then [command, at.value] else [command]
  {
    var words := if at.Some? then [command, at.value] else [command];
    OneLetterSeparable(words, '@');
    SplitAfterJoin(words, "@");
    if at.Some? {
      assert words[1..] == [at.value];
      assert Join(words, "@") == command + "@" + at.value;
    }
  }

  lemma HeadIsCutOff(head: string, separator: string, rest: string)
    requires separator != "" && EndsAt(head, separator)
    ensures SplitOnce(head + separator + rest, separator) == (head, Some(rest))
  {
    FirstSeparator(head, separator, rest);
    var s := head + separator + rest;
    assert s[..|head|] == head && s[|head| + |separator|..] == rest;
  }

  predicate MeantForUs(at: Option<string>, bot: string) {
    at.Some? ==> EqIgnoreAsciiCase(at.value, bot)
  }

  /** What a text made of a command word, a separator and the rest does: the word picks, the rest is parsed. */
  lemma ParseTakesApart(variants: seq<Variant>, separator: string, bot: string, command: string, at: Option<string>,
          rest: string)
    requires separator != "" && PlainHead(command, at) && EndsAt(Head(command, at), separator)
    ensures Parse(variants, separator, Head(command, at) + separator + rest, bot)
      == if MeantForUs(at, bot) then Run(variants, command, rest) else Err(WrongBotName(at.value))
  {
    HeadWords(command, at);
    HeadIsCutOff(Head(command, at), separator, rest);
  }

  /** Without a separator there are no arguments. */
  lemma ParseBareWord(variants: seq<Variant>, separator: string, bot: string, command: string, at: Option<string>)
    requires separator != "" && PlainHead(command, at) && Absent(Head(command, at), separator)
    ensures Parse(variants, separator, Head(command, at), bot)
      == if MeantForUs(at, bot) then Run(variants, command, "") else Err(WrongBotName(at.value))
  {
    HeadWords(command, at);
    AbsentIsNotFound(Head(command, at), separator);
  }

  /**
   The round trip. A text built from the spelling that selects a variant, optionally `@` and the bot's
   name in any ASCII case, the command separator and the joined fields, parses to that variant with every
   field handed over verbatim: exactly when the field separator is first seen where each field ends and
   every field is accepted.
   */
  lemma CommandRoundTrip(variants: seq<Variant>, separator: string, bot: string, command: string, at: Option<string>,
                         v: nat, values: seq<string>)
    requires separator != "" && PlainHead(command, at) && EndsAt(Head(command, at), separator) && MeantForUs(at, bot)
    requires Selects(variants, command, v) && variants[v].shape.Fields? && variants[v].shape.parser.SplitParser?
    requires variants[v].shape.parser.separator != "" && values != [] && |values| == |variants[v].shape.parser.fields|
    ensures
      var parser := variants[v].shape.parser;
      Parse(variants, separator, Head(command, at) + separator + Join(values, parser.separator), bot)
        == Ok(Command(v, values))
      <==> Separable(values, parser.separator) && AllAccepted(parser.fields, values)
  {
    var parser := variants[v].shape.parser;
    DispatchOrder(variants, command, v);
    ParseTakesApart(variants, separator, bot, command, at, Join(values, parser.separator));
    SplitParserRoundTrip(parser.fields, parser.separator, values);
  }

  /** The same for one-letter separators: it is enough that they are absent from what they delimit. */
  lemma OneLetterRoundTrip(variants: seq<Variant>, separator: char, bot: string, at: Option<string>,
                           v: nat, fieldSeparator: char, fields: seq<FromStr>, values: seq<string>)
    requires v < |variants|
    requires forall k :: 0 <= k < v ==> variants[k].prefix + variants[k].name != variants[v].prefix + variants[v].name
    requires variants[v].shape == Fields(SplitParser([fieldSeparator], fields))
    requires PlainHead(variants[v].prefix + variants[v].name, at) && MeantForUs(at, bot)
    requires separator !in Head(variants[v].prefix + variants[v].name, at)
    requires values != [] && |values| == |fields| && AllAccepted(fields, values)
    requires forall k :: 0 <= k < |values| ==> fieldSeparator !in values[k]
    ensures Parse(variants, [separator],
                  Head(variants[v].prefix + variants[v].name, at) + [separator] + Join(values, [fieldSeparator]), bot)
      == Ok(Command(v, values))
  {
    OneLetterEnds(Head(variants[v].prefix + variants[v].name, at), separator);
    OneLetterSeparable(values, fieldSeparator);
    CommandRoundTrip(variants, [separator], bot, variants[v].prefix + variants[v].name, at, v, values);
  }

  /** A command word that is no variant's name or alias is reported as unknown, without its bot and arguments. */
  lemma UnknownIsReported(variants: seq<Variant>, separator: string, bot: string, command: string,
                          at: Option<string>, rest: string)
    requires separator != "" && PlainHead(command, at) && EndsAt(Head(command, at), separator) && MeantForUs(at, bot)
    requires forall k :: 0 <= k < |variants| ==> variants[k].prefix + variants[k].name != command
    requires forall k, a :: 0 <= k < |variants| && 0 <= a < |variants[k].aliases| ==>
      variants[k].prefix + variants[k].aliases[a] != command
    ensures Parse(variants, separator, Head(command, at) + separator + rest, bot) == Err(UnknownCommand(command))
    ensures Parse(variants, separator, Head(command, at), bot) == Err(UnknownCommand(command))
  {
    NoneSelected(variants, command);
    ParseTakesApart(variants, separator, bot, command, at, rest);
    EndsAtIsAbsent(Head(command, at), separator);
    ParseBareWord(variants, separator, bot, command, at);
  }

  /** A custom function gets everything after the separator, or the empty text without one, and has the last word. */
  lemma CustomRoundTrip(variants: seq<Variant>, separator: string, bot: string, command: string, at: Option<string>,
                        v: nat, rest: string, arguments: seq<string>, error: ParseError)
    requires separator != "" && PlainHead(command, at) && EndsAt(Head(command, at), separator) && MeantForUs(at, bot)
    requires Selects(variants, command, v) && variants[v].shape.Fields? && variants[v].shape.parser.CustomParser?
    ensures
      var run := variants[v].shape.parser.run;
      var parsed := Parse(variants, separator, Head(command, at) + separator + rest, bot);
      && (parsed == Ok(Command(v, arguments)) <==> run(rest) == Ok(arguments))
      && (parsed == Err(error) <==> run(rest) == Err(error))
    ensures
      var run, parsed := variants[v].shape.parser.run, Parse(variants, separator, Head(command, at), bot);
      && (parsed == Ok(Command(v, arguments)) <==> run("") == Ok(arguments))
      && (parsed == Err(error) <==> run("") == Err(error))
  {
    DispatchOrder(variants, command, v);
    ParseTakesApart(variants, separator, bot, command, at, rest);
    EndsAtIsAbsent(Head(command, at), separator);
    ParseBareWord(variants, separator, bot, command, at);
  }

  /** The default parser takes everything after the separator as its one field. */
  lemma DefaultRoundTrip(variants: seq<Variant>, separator: string, bot: string, command: string, at: Option<string>,
                         v: nat, value: string)
    requires separator != "" && PlainHead(command, at) && EndsAt(Head(command, at), separator) && MeantForUs(at, bot)
    requires Selects(variants, command, v) && variants[v].shape.Fields? && variants[v].shape.parser.DefaultParser?
    ensures Parse(variants, separator, Head(command, at) + separator + value, bot)
      == if variants[v].shape.parser.field(value) then Ok(Command(v, [value])) else Err(IncorrectFormat(value))
    ensures Parse(variants, separator, Head(command, at), bot)
      == if variants[v].shape.parser.field("") then Ok(Command(v, [""])) else Err(IncorrectFormat(""))
  {
    DispatchOrder(variants, command, v);
    ParseTakesApart(variants, separator, bot, command, at, value);
    EndsAtIsAbsent(Head(command, at), separator);
    ParseBareWord(variants, separator, bot, command, at);
  }

  /** A unit variant needs no arguments and ignores any. */
  lemma UnitRoundTrip(variants: seq<Variant>, separator: string, bot: string, command: string, at: Option<string>,
                      v: nat, rest: string)
    requires separator != "" && PlainHead(command, at) && EndsAt(Head(command, at), separator) && MeantForUs(at, bot)
    requires Selects(variants, command, v) && variants[v].shape.Unit?
    ensures Parse(variants, separator, Head(command, at) + separator + rest, bot) == Ok(Command(v, []))
    ensures Parse(variants, separator, Head(command, at), bot) == Ok(Command(v, []))
  {
    DispatchOrder(variants, command, v);
    ParseTakesApart(variants, separator, bot, command, at, rest);
    EndsAtIsAbsent(Head(command, at), separator);
    ParseBareWord(variants, separator, bot, command, at);
  }

  /** A command for another bot is refused before anyone asks whether the command exists. */
  lemma OtherBotIsRefused(variants: seq<Variant>, separator: string, bot: string, command: string, name: string,
          rest: string)
    requires separator != "" && PlainHead(command, Some(name)) && EndsAt(Head(command, Some(name)), separator)
    requires !EqIgnoreAsciiCase(name, bot)
    ensures Parse(variants, separator, Head(command, Some(name)) + separator + rest, bot) == Err(WrongBotName(name))
  {
    ParseTakesApart(variants, separator, bot, command, Some(name), rest);
  }

  /** The ASCII case of the bot's name never matters, for any text. */
  lemma BotCaseIsIrrelevant(variants: seq<Variant>, separator: string, text: string, bot: string, other: string)
    requires EqIgnoreAsciiCase(bot, other)
    ensures Parse(variants, separator, text, bot) == Parse(variants, separator, text, other)
  {
    var words := Split(SplitOnce(text, separator).0, "@");
    if |words| > 1 {
      assert EqIgnoreAsciiCase(words[1], bot) <==> EqIgnoreAsciiCase(words[1], other);
    }
  }

  /**
   Nothing else is ever selected: whatever the text, the variant of a successful parse was picked by a
   spelling without `@` and without the command separator. A name that contains either cannot be reached.
   */
  lemma OnlyPlainSpellingsSelect(variants: seq<Variant>, separator: string, text: string, bot: string)
    returns (command: string)
    requires separator != "" && Parse(variants, separator, text, bot).Ok?
    ensures Selects(variants, command, Parse(variants, separator, text, bot).value.variant)
    ensures '@' !in command && Absent(command, separator)
  {
    var head := SplitOnce(text, separator).0;
    var words := Split(head, "@");
    command := words[0];
    SplitIsSeparable(head, "@");
    OneLetterSeparable(words, '@');
    SplitOnceHead(text, separator);
    var n := match Find(head, "@", 0) case None => |head| case Some(i) => i;
    assert command == head[..n];
    AbsentFromPrefix(head, n, separator);
    DispatchOrder(variants, command, Parse(variants, separator, text, bot).value.variant);
  }
}
